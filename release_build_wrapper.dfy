/** MvnReleaseBuildWrapper: marks a release build with a badge and, once it succeeds,
    keeps its log while releasing the keep flag of the previous release build. */
module ReleaseBuildWrapper {
  import opened JavaLang
  import opened Builds
  import LastReleasePermalink

  const DEFAULT_RELEASE_GOALS: string := "-Dresume=false release:prepare release:perform"
  const DEFAULT_SELECT_CUSTOM_SCM_COMMENT_PREFIX: bool := false
  const DEFAULT_SELECT_APPEND_HUDSON_USERNAME: bool := false
  const BADGE_PREFIX: string := "Release - "

  /** The Environment setUp returns: the blank one when not releasing, or the one whose
      tearDown rotates the keep flags. */
  datatype BuildEnvironment = BlankEnvironment | KeepLogEnvironment

  /** A run that tearDown may un-keep: a release build other than the current one. */
  predicate IsOtherRelease(run: Run, number: int)
    reads run`actions, run`result
  {
    IsReleaseBuild(run) && run.number != number
  }

  /** The index of the first other release build in list order, if any. */
  function FirstOtherRelease(builds: seq<Run>, number: int): (k: Option<nat>)
    reads LastReleasePermalink.RunsOf(builds)`actions, LastReleasePermalink.RunsOf(builds)`result
    ensures k.Some? ==> k.value < |builds| && IsOtherRelease(builds[k.value], number)
    ensures k.Some? ==> forall j :: 0 <= j < k.value ==> !IsOtherRelease(builds[j], number)
    ensures k.None? <==> forall j :: 0 <= j < |builds| ==> !IsOtherRelease(builds[j], number)
  {
    if |builds| == 0 then None
    else if IsOtherRelease(builds[0], number) then Some(0)
    else
      var rest := FirstOtherRelease(builds[1..], number);
      assert forall j :: 1 <= j < |builds| ==> builds[j] == builds[1..][j - 1];
      match rest
      case None => None
      case Some(k) => Some(k + 1)
  }

  /** When the current build is not itself a release build, the run tearDown un-keeps is
      the one the last-release permalink resolves to. */
  lemma {:induction false} FirstOtherReleaseIsLastRelease(builds: seq<Run>, current: Run)
    requires !IsReleaseBuild(current) && current in builds
    requires forall i :: 0 <= i < |builds| ==> builds[i].number == current.number ==> builds[i] == current
    ensures match FirstOtherRelease(builds, current.number)
            case None => LastReleasePermalink.Resolve(builds).None?
            case Some(k) => LastReleasePermalink.Resolve(builds) == Some(builds[k])
    decreases |builds|
  {
    if builds[0] == current {
      var rest := builds[1..];
      assert forall j :: 1 <= j < |builds| ==> builds[j] == rest[j - 1];
      if current in rest {
        FirstOtherReleaseIsLastRelease(rest, current);
      } else {
        FirstOtherReleaseApart(rest, current.number);
      }
    } else if IsReleaseBuild(builds[0]) {
      assert builds[0].number != current.number;
    } else {
      var rest := builds[1..];
      assert forall j :: 1 <= j < |builds| ==> builds[j] == rest[j - 1];
      assert current in rest;
      FirstOtherReleaseIsLastRelease(rest, current);
    }
  }

  /** The case tearDown meets: the current build heads the list (newest first) and no
      other run carries its number. The run the rotation un-keeps is then the one the
      last-release permalink showed before this build, that is, resolved over the older
      runs. This holds whether or not the current build is itself a release build. */
  lemma {:induction false} RotatedRunIsPreviousRelease(builds: seq<Run>, current: Run)
    requires |builds| > 0 && builds[0] == current
    requires forall i :: 1 <= i < |builds| ==> builds[i].number != current.number
    ensures match FirstOtherRelease(builds, current.number)
            case None => LastReleasePermalink.Resolve(builds[1..]).None?
            case Some(k) => k >= 1 && LastReleasePermalink.Resolve(builds[1..]) == Some(builds[k])
  {
    var rest := builds[1..];
    assert forall j :: 1 <= j < |builds| ==> builds[j] == rest[j - 1];
    assert !IsOtherRelease(builds[0], current.number);
    FirstOtherReleaseApart(rest, current.number);
  }

  /** With no run numbered `number`, the other releases are all the releases. */
  lemma {:induction false} FirstOtherReleaseApart(builds: seq<Run>, number: int)
    requires forall i :: 0 <= i < |builds| ==> builds[i].number != number
    ensures match FirstOtherRelease(builds, number)
            case None => LastReleasePermalink.Resolve(builds).None?
            case Some(k) => LastReleasePermalink.Resolve(builds) == Some(builds[k])
    decreases |builds|
  {
    if |builds| > 0 && !IsReleaseBuild(builds[0]) {
      var rest := builds[1..];
      assert forall j :: 1 <= j < |builds| ==> builds[j] == rest[j - 1];
      FirstOtherReleaseApart(rest, number);
    }
  }

  class MvnReleaseBuildWrapper {
    var doRelease: bool
    var releaseVersion: Option<string>
    var releaseGoals: Option<string>
    var selectCustomScmCommentPrefix: bool
    var selectAppendHudsonUsername: bool

    /** The data-bound constructor stores the goals only; both select flags keep their
        defaults whatever is passed. */
    constructor (releaseGoals: Option<string>, selectCustomScmCommentPrefix: bool, selectAppendHudsonUsername: bool)
      ensures this.releaseGoals == releaseGoals
      ensures this.selectCustomScmCommentPrefix == DEFAULT_SELECT_CUSTOM_SCM_COMMENT_PREFIX
      ensures this.selectAppendHudsonUsername == DEFAULT_SELECT_APPEND_HUDSON_USERNAME
      ensures !doRelease && releaseVersion.None?
    {
      doRelease := false;
      releaseVersion := None;
      this.releaseGoals := Some(DEFAULT_RELEASE_GOALS);
      this.selectCustomScmCommentPrefix := DEFAULT_SELECT_CUSTOM_SCM_COMMENT_PREFIX;
      this.selectAppendHudsonUsername := DEFAULT_SELECT_APPEND_HUDSON_USERNAME;
      new;
      this.releaseGoals := releaseGoals;
    }

    method EnableRelease()
      modifies this`doRelease
      ensures doRelease
    {
      doRelease := true;
    }

    method SetReleaseVersion(releaseVersion: Option<string>)
      modifies this`releaseVersion
      ensures this.releaseVersion == releaseVersion
    {
      this.releaseVersion := releaseVersion;
    }

    /** setUp: without a release, the blank environment and no badge; with one, the
        badge "Release - <version>" is added and the rotating environment returned. */
    method SetUp(build: Run) returns (env: BuildEnvironment)
      modifies build`actions
      ensures !doRelease ==> env == BlankEnvironment && build.actions == old(build.actions)
      ensures doRelease ==>
                && env == KeepLogEnvironment
                && build.actions == old(build.actions) + [ReleaseBadge(BADGE_PREFIX + Str(releaseVersion))]
                && build.HasReleaseBadge()
    {
      if !doRelease {
        return BlankEnvironment;
      }
      build.AddAction(ReleaseBadge(BADGE_PREFIX + Str(releaseVersion)));
      env := KeepLogEnvironment;
    }
  }

  /** The environment's tearDown with the build `bld` and its project's builds. The blank
      environment does nothing. The rotating one, when the result is SUCCESS, keeps
      `bld` and clears the keep flag of the first other release build only; a worse
      result changes nothing; a null result throws. It returns true whenever it returns. */
  method TearDown(env: BuildEnvironment, bld: Run, builds: seq<Run>) returns (r: Result<bool, Exception>)
    modifies bld`keepLog, LastReleasePermalink.RunsOf(builds)`keepLog
    ensures r.Success? ==> r.value
    ensures r.Failure? <==> env == KeepLogEnvironment && bld.result.None?
    ensures r.Failure? ==> r.error.kind == NullPointerException
    ensures env == BlankEnvironment || bld.result != Some(SUCCESS) ==>
              && bld.keepLog == old(bld.keepLog)
              && forall i :: 0 <= i < |builds| ==> builds[i].keepLog == old(builds[i].keepLog)
    ensures env == KeepLogEnvironment && bld.result == Some(SUCCESS) ==>
              && bld.keepLog
              && UnkeptFirstOtherRelease(builds, bld, old(KeepFlags(builds)))
  {
    if env == BlankEnvironment {
      return Success(true);
    }
    var retVal := true;
    if bld.result.None? {
      return Failure(Exception(NullPointerException, "", None));
    }
    BetterOrEqualToSuccess(bld.result.value);
    if bld.result.value.IsBetterOrEqualTo(SUCCESS) {
      bld.KeepLog(true);
      UnkeepFirstOtherRelease(bld, builds);
    }
    r := Success(retVal);
  }

  /** The keep flags of a run list. */
  ghost function KeepFlags(builds: seq<Run>): (flags: map<Run, bool>)
    reads LastReleasePermalink.RunsOf(builds)`keepLog
  {
    map r | r in builds :: r.keepLog
  }

  /** After the rotation: the first other release build is no longer kept, and every
      other run except the current one keeps the flag it had. */
  ghost predicate UnkeptFirstOtherRelease(builds: seq<Run>, bld: Run, before: map<Run, bool>)
    reads LastReleasePermalink.RunsOf(builds)`actions, LastReleasePermalink.RunsOf(builds)`result,
          LastReleasePermalink.RunsOf(builds)`keepLog
  {
    var k := FirstOtherRelease(builds, bld.number);
    && (k.Some? ==> !builds[k.value].keepLog)
    && forall i :: 0 <= i < |builds| && builds[i] != bld && (k.None? || builds[i] != builds[k.value]) ==>
         builds[i] in before && builds[i].keepLog == before[builds[i]]
  }

  /** The loop of tearDown: the first run with a release badge, result SUCCESS and a
      number other than the current build's loses its keep flag, and the loop stops. */
  method UnkeepFirstOtherRelease(bld: Run, builds: seq<Run>)
    requires bld.keepLog
    modifies LastReleasePermalink.RunsOf(builds)`keepLog
    ensures bld.keepLog
    ensures UnkeptFirstOtherRelease(builds, bld, old(KeepFlags(builds)))
  {
    var i := 0;
    while i < |builds|
      invariant 0 <= i <= |builds|
      invariant forall j :: 0 <= j < i ==> !IsOtherRelease(builds[j], bld.number)
      invariant forall j :: 0 <= j < |builds| ==> builds[j].keepLog == old(builds[j].keepLog)
    {
      var run := builds[i];
      if run.HasReleaseBadge() && run.result == Some(SUCCESS) {
        if bld.number != run.number {
          run.KeepLog(false);
          break;
        }
      }
      i := i + 1;
    }
  }
}

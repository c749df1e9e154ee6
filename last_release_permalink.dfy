/** LastReleasePermalink: the permalink to the newest successful release build. */
module LastReleasePermalink {
  import opened JavaLang
  import opened Builds

  const ID: string := "lastRelease"
  const DISPLAY_NAME: string := "Last Release"

  function GetId(): (id: string)
    ensures id == ID && id == "lastRelease"
  {
    ID
  }

  function GetDisplayName(): (name: string)
    ensures name == DISPLAY_NAME && name == "Last Release"
  {
    DISPLAY_NAME
  }

  /** The runs of a list, as a frame. */
  function RunsOf(builds: seq<Run>): set<Run> {
    set r | r in builds
  }

  /** resolve: the first run of `job.getBuilds()` (newest first) carrying a release badge
      with result SUCCESS, or null when there is none. */
  function Resolve(builds: seq<Run>): (r: Option<Run>)
    reads RunsOf(builds)`actions, RunsOf(builds)`result
    ensures r.Some? ==> IsReleaseBuild(r.value)
    ensures r.Some? ==> exists i :: 0 <= i < |builds| && builds[i] == r.value
                                    && forall j :: 0 <= j < i ==> !IsReleaseBuild(builds[j])
    ensures r.None? <==> forall i :: 0 <= i < |builds| ==> !IsReleaseBuild(builds[i])
  {
    if |builds| == 0 then None
    else if IsReleaseBuild(builds[0]) then Some(builds[0])
    else
      var rest := Resolve(builds[1..]);
      assert forall i :: 1 <= i < |builds| ==> builds[i] == builds[1..][i - 1];
      rest
  }
}

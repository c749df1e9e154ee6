/** The parts of Jenkins' Run and Result that the release wrapper and the last-release
    permalink look at: the build number, the result, the keep-log flag and the actions. */
module Builds {
  import opened JavaLang

  /** hudson.model.Result, in ordinal order (best first). */
  datatype BuildResult = SUCCESS | UNSTABLE | FAILURE | NOT_BUILT | ABORTED {
    function Ordinal(): nat {
      match this
      case SUCCESS => 0
      case UNSTABLE => 1
      case FAILURE => 2
      case NOT_BUILT => 3
      case ABORTED => 4
    }

    /** Result#isBetterOrEqualTo: an ordinal no greater than the other's. */
    predicate IsBetterOrEqualTo(that: BuildResult) {
      Ordinal() <= that.Ordinal()
    }
  }

  /** Only SUCCESS is better than or equal to SUCCESS. */
  lemma BetterOrEqualToSuccess(r: BuildResult)
    ensures r.IsBetterOrEqualTo(SUCCESS) <==> r == SUCCESS
  {
  }

  /** A run's actions: the release badge MvnReleaseBadgeAction, or anything else. */
  datatype Action = ReleaseBadge(tooltip: string) | OtherAction(name: string)

  class Run {
    const number: int
    /** Null while the build has not produced a result. */
    var result: Option<BuildResult>
    var keepLog: bool
    var actions: seq<Action>

    constructor (number: int, result: Option<BuildResult>, keepLog: bool, actions: seq<Action>)
      ensures this.number == number && this.result == result && this.keepLog == keepLog && this.actions == actions
    {
      this.number := number;
      this.result := result;
      this.keepLog := keepLog;
      this.actions := actions;
    }

    /** `getAction(MvnReleaseBadgeAction.class) != null`. */
    predicate HasReleaseBadge()
      reads this`actions
    {
      exists i :: 0 <= i < |actions| && actions[i].ReleaseBadge?
    }

    /** Run#keepLog(boolean). */
    method KeepLog(keep: bool)
      modifies this`keepLog
      ensures keepLog == keep
    {
      keepLog := keep;
    }

    /** Run#addAction. */
    method AddAction(a: Action)
      modifies this`actions
      ensures actions == old(actions) + [a]
      ensures HasReleaseBadge() <==> old(HasReleaseBadge()) || a.ReleaseBadge?
    {
      actions := actions + [a];
      assert actions[|actions| - 1] == a;
      if old(HasReleaseBadge()) {
        var i :| 0 <= i < |old(actions)| && old(actions)[i].ReleaseBadge?;
        assert actions[i] == old(actions)[i];
      }
    }
  }

  /** The test both the wrapper and the permalink apply: a release badge and result
      SUCCESS. */
  predicate IsReleaseBuild(run: Run)
    reads run`actions, run`result
  {
    run.HasReleaseBadge() && run.result == Some(SUCCESS)
  }
}

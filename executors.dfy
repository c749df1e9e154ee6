/** The task executors: AbstractReleaseTaskExecutor's set-up (clock, settings) and the
    prepare, perform and rollback executors that call the release engine and record what
    it returned in the manager's prepared-releases and release-results maps. */
module Executors {
  import opened JavaLang
  import opened ReleaseModel
  import opened Descriptor
  import opened Tasks
  import opened ReleaseManager

  const FORKED_PATH: string := "forked-path"
  const SETTINGS_FAILED: string := "Failed to get Maven Settings."
  const REACTOR_FAILED: string := "Failed to build reactor projects."
  const ROLLBACK_FAILED: string := "Failed to rollback release"

  /** What the engine's rollback ended with. */
  datatype RollbackOutcome =
    | RolledBack
    | ExecutionFailed(message: string)   // ReleaseExecutionException
    | FailureRaised(message: string)     // ReleaseFailureException

  /** maven-release's ReleaseManager as seen by the executors: prepareWithResult and
      performWithResult return a result record, rollback may throw. Effects of the engine
      on the descriptor, the listener or the working copy are not modelled. */
  datatype ReleaseEngine = ReleaseEngine(
    prepareWithResult: (DescriptorState, ReleaseEnvironment, seq<MavenProject>, bool, bool) -> ReleaseResult,
    performWithResult: (DescriptorState, ReleaseEnvironment, seq<MavenProject>) -> ReleaseResult,
    rollback: (DescriptorState, Option<Settings>, seq<MavenProject>) -> RollbackOutcome)

  /** Which of the three concrete executors an object is. */
  datatype ExecutorKind = PrepareExecutor | PerformExecutor | RollbackExecutor

  /** The exception getSettings raises when the settings builder fails. */
  function SettingsException(readError: string): Exception {
    Exception(JenkinsReleaseException, SETTINGS_FAILED, Some(Exception(SettingsReadException, readError, None)))
  }

  /** The environment both engine calls receive: the current settings, executor id
      "forked-path" and the Maven home of the descriptor's embedder request. */
  function EngineEnvironment(settings: Option<Settings>, request: MavenEmbedderRequest): (env: ReleaseEnvironment)
    ensures env.settings == settings && env.mavenExecutorId == FORKED_PATH && env.mavenHome == request.mavenHome
  {
    ReleaseEnvironment(settings, FORKED_PATH, request.mavenHome)
  }

  /** getMavenProjects: the projects read from the descriptor's POM, or the empty list
      when reading fails; it never throws. */
  function GetMavenProjects(d: ReleaseDescriptor, reader: ProjectReader): (projects: seq<MavenProject>)
    reads d
    ensures var read := reader(d.fields.mavenEmbedderRequest, d.ProjectDescriptorFile());
            (read.Some? ==> projects == read.value) && (read.None? ==> projects == [])
  {
    reader(d.fields.mavenEmbedderRequest, d.ProjectDescriptorFile()).GetOr([])
  }

  /** The descriptor fields after the perform executor copied the task's options in. */
  function PerformFields(fields: DescriptorState, useReleaseProfile: bool, goals: Option<string>, checkout: string)
    : (f: DescriptorState)
    ensures f.useReleaseProfile == useReleaseProfile && f.performGoals == goals && f.checkoutDirectory == Some(checkout)
    ensures f.(useReleaseProfile := fields.useReleaseProfile, performGoals := fields.performGoals,
               checkoutDirectory := fields.checkoutDirectory) == fields
  {
    fields.(useReleaseProfile := useReleaseProfile, performGoals := goals, checkoutDirectory := Some(checkout))
  }

  /** Thrown by `descriptor.getMavenEmbedderRequest().getMavenHome()` when the request is
      null, and by `getBuildDirectory().getAbsolutePath()` when there is no build directory. */
  const NullPointer: Exception := Exception(NullPointerException, "", None)

  class ReleaseTaskExecutor {
    const kind: ExecutorKind
    const manager: DefaultJenkinsReleaseManager
    const engine: ReleaseEngine
    var settings: Option<Settings>
    var startTime: int

    constructor (kind: ExecutorKind, manager: DefaultJenkinsReleaseManager, engine: ReleaseEngine)
      ensures this.kind == kind && this.manager == manager && this.engine == engine
      ensures settings == None && startTime == 0
    {
      this.kind := kind;
      this.manager := manager;
      this.engine := engine;
      settings := None;
      startTime := 0;
    }

    /** createReleaseResult: a new result spanning the recorded start time to `now`. */
    function CreateReleaseResult(now: int): (r: ReleaseResult)
      reads this
      ensures r.resultCode == UNDEFINED && r.output == []
      ensures r.startTime == startTime && r.endTime == now
      ensures startTime <= now ==> r.startTime <= r.endTime
    {
      NewReleaseResult.(startTime := startTime, endTime := now)
    }

    /** setUp: records the start time, then re-reads the settings. On a settings failure
        the failed result is stored under the task's id, the listener hears the message
        once, and the failure is raised as a TaskExecutionException. */
    method SetUp(releaseId: string, listener: ReleaseListener, now: int, settingsRead: Result<Settings, string>, endNow: int)
      returns (o: Outcome)
      modifies this`startTime, this`settings, manager`releaseResults, manager.releaseResults, listener`errors
      ensures startTime == now
      ensures manager.Prepared() == old(manager.Prepared())
      ensures manager.releaseResults == old(manager.releaseResults) || fresh(manager.releaseResults)
      ensures settingsRead.Success? ==>
                && o == Normal && settings == Some(settingsRead.value)
                && manager.Results() == old(manager.Results()) && listener.errors == old(listener.errors)
      ensures settingsRead.Failure? ==>
                var e := SettingsException(settingsRead.error);
                && o == Thrown(Exception(TaskExecutionException, REACTOR_FAILED, Some(e)))
                && settings == old(settings)
                && manager.Results() == old(manager.Results())[releaseId := ReleaseResult(UNDEFINED, now, endNow, []).AppendError(e)]
                && listener.errors == old(listener.errors) + [SETTINGS_FAILED]
    {
      startTime := now;
      if settingsRead.Success? {
        settings := Some(settingsRead.value);
        o := Normal;
      } else {
        var e := SettingsException(settingsRead.error);
        var result := CreateReleaseResult(endNow);
        result := result.AppendError(e);
        var results := manager.GetReleaseResults();
        results.Put(releaseId, result);
        listener.Error(e.message);
        o := Thrown(Exception(TaskExecutionException, REACTOR_FAILED, Some(e)));
      }
    }

    /** The prepare executor's execute: the engine runs with an empty project list,
        resume and dryRun off; the result's start time is replaced by the executor's;
        a SUCCESS records the descriptor as prepared; the result is always stored. */
    method ExecutePrepare(task: ReleaseProjectTask) returns (o: Outcome)
      modifies manager`preparedReleases, manager.preparedReleases, manager`releaseResults, manager.releaseResults
      ensures var request := task.descriptor.fields.mavenEmbedderRequest;
              match request
              case None =>
                o == Thrown(NullPointer)
                && manager.Prepared() == old(manager.Prepared()) && manager.Results() == old(manager.Results())
              case Some(req) =>
                var result := engine.prepareWithResult(task.descriptor.fields, EngineEnvironment(settings, req), [], false, false)
                                    .(startTime := startTime);
                && o == Normal
                && manager.Results() == old(manager.Results())[task.releaseId := result]
                && (result.resultCode == SUCCESS ==> manager.Prepared() == old(manager.Prepared())[task.releaseId := task.descriptor])
                && (result.resultCode != SUCCESS ==> manager.Prepared() == old(manager.Prepared()))
    {
      var descriptor := task.descriptor;
      var mavenProjects: seq<MavenProject> := [];
      var resume := false;
      var dryRun := false;
      var request := descriptor.fields.mavenEmbedderRequest;
      if request.None? {
        o := Thrown(NullPointer);
        return;
      }
      var releaseEnvironment := EngineEnvironment(settings, request.value);
      var result := engine.prepareWithResult(descriptor.fields, releaseEnvironment, mavenProjects, resume, dryRun);
      result := result.(startTime := startTime);
      if result.resultCode == SUCCESS {
        var prepared := manager.GetPreparedReleases();
        prepared.Put(task.releaseId, descriptor);
      }
      var results := manager.GetReleaseResults();
      results.Put(task.releaseId, result);
      o := Normal;
    }

    /** The perform executor's execute: the task's release profile, goals and build
        directory are copied into the descriptor first (the build directory last, and a
        missing one throws after the other two were copied); then the engine runs. */
    method ExecutePerform(task: PerformReleaseProjectTask, reader: ProjectReader) returns (o: Outcome)
      modifies task.descriptor`fields,
               manager`preparedReleases, manager.preparedReleases, manager`releaseResults, manager.releaseResults
      ensures task.buildDirectory.None? ==>
                && o == Thrown(NullPointer)
                && task.descriptor.fields ==
                   old(task.descriptor.fields).(useReleaseProfile := task.useReleaseProfile, performGoals := task.goals)
                && manager.Prepared() == old(manager.Prepared()) && manager.Results() == old(manager.Results())
      ensures task.buildDirectory.Some? ==>
                && task.descriptor.fields ==
                   PerformFields(old(task.descriptor.fields), task.useReleaseProfile, task.goals, task.buildDirectory.value)
                && PerformRecorded(task.releaseId, task.descriptor, reader, o, old(manager.Prepared()), old(manager.Results()))
    {
      var descriptor := task.descriptor;
      descriptor.fields := descriptor.fields.(useReleaseProfile := task.useReleaseProfile, performGoals := task.goals);
      if task.buildDirectory.None? {
        o := Thrown(NullPointer);
        return;
      }
      descriptor.fields := descriptor.fields.(checkoutDirectory := Some(task.buildDirectory.value));
      ghost var prepared, results := manager.Prepared(), manager.Results();
      assert prepared == old(manager.Prepared()) && results == old(manager.Results());
      o := RunPerform(task.releaseId, descriptor, reader);
    }

    /** What the perform executor leaves behind once the descriptor is updated: a null
        embedder request throws and changes nothing; otherwise the engine's result, with
        the executor's start time, is stored under the id, and a SUCCESS removes the id
        from the prepared map. */
    ghost predicate PerformRecorded(releaseId: string, d: ReleaseDescriptor, reader: ProjectReader, o: Outcome,
                                    oldPrepared: map<string, ReleaseDescriptor>, oldResults: map<string, ReleaseResult>)
      reads this, d, manager, manager.preparedReleases, manager.releaseResults
    {
      match d.fields.mavenEmbedderRequest
      case None =>
        o == Thrown(NullPointer) && manager.Prepared() == oldPrepared && manager.Results() == oldResults
      case Some(req) =>
        var result := engine.performWithResult(d.fields, EngineEnvironment(settings, req), GetMavenProjects(d, reader))
                            .(startTime := startTime);
        && o == Normal
        && manager.Results() == oldResults[releaseId := result]
        && (result.resultCode == SUCCESS ==> manager.Prepared() == oldPrepared - {releaseId})
        && (result.resultCode != SUCCESS ==> manager.Prepared() == oldPrepared)
    }

    /** The engine call and bookkeeping of the perform executor. */
    method RunPerform(releaseId: string, descriptor: ReleaseDescriptor, reader: ProjectReader) returns (o: Outcome)
      modifies manager`preparedReleases, manager.preparedReleases, manager`releaseResults, manager.releaseResults
      ensures PerformRecorded(releaseId, descriptor, reader, o, old(manager.Prepared()), old(manager.Results()))
    {
      var request := descriptor.fields.mavenEmbedderRequest;
      if request.None? {
        o := Thrown(NullPointer);
        return;
      }
      var releaseEnvironment := EngineEnvironment(settings, request.value);
      var mavenProjects := GetMavenProjects(descriptor, reader);
      var result := engine.performWithResult(descriptor.fields, releaseEnvironment, mavenProjects);
      result := result.(startTime := startTime);
      if result.resultCode == SUCCESS {
        var prepared := manager.GetPreparedReleases();
        prepared.Remove(releaseId);
      }
      var results := manager.GetReleaseResults();
      results.Put(releaseId, result);
      o := Normal;
    }

    /** The rollback executor's execute: the engine's rollback runs with the current
        settings and an empty project list; either engine exception is reported to the
        listener once and raised as a TaskExecutionException. Neither manager map is
        touched. */
    method ExecuteRollback(descriptor: ReleaseDescriptor, listener: ReleaseListener) returns (o: Outcome)
      modifies listener`errors
      ensures manager.Prepared() == old(manager.Prepared()) && manager.Results() == old(manager.Results())
      ensures match engine.rollback(descriptor.fields, settings, [])
              case RolledBack => o == Normal && listener.errors == old(listener.errors)
              case ExecutionFailed(msg) =>
                && listener.errors == old(listener.errors) + [msg]
                && o == Thrown(Exception(TaskExecutionException, ROLLBACK_FAILED,
                                         Some(Exception(ReleaseExecutionException, msg, None))))
              case FailureRaised(msg) =>
                && listener.errors == old(listener.errors) + [msg]
                && o == Thrown(Exception(TaskExecutionException, ROLLBACK_FAILED,
                                         Some(Exception(ReleaseFailureException, msg, None))))
    {
      var outcome := engine.rollback(descriptor.fields, settings, []);
      if outcome.ExecutionFailed? {
        UpdateListener(listener, outcome.message);
        o := Thrown(Exception(TaskExecutionException, ROLLBACK_FAILED,
                              Some(Exception(ReleaseExecutionException, outcome.message, None))));
      } else if outcome.FailureRaised? {
        UpdateListener(listener, outcome.message);
        o := Thrown(Exception(TaskExecutionException, ROLLBACK_FAILED,
                              Some(Exception(ReleaseFailureException, outcome.message, None))));
      } else {
        o := Normal;
      }
    }

    /** updateListener: forwards the message to the listener's error callback. */
    method UpdateListener(listener: ReleaseListener, name: string)
      modifies listener`errors
      ensures listener.errors == old(listener.errors) + [name]
    {
      listener.Error(name);
    }

    /** executeTask: set-up, then execute only when set-up did not throw. The prepare and
        perform executors cast the task to their own task class and throw
        ClassCastException for any other; the rollback executor accepts every task. */
    method ExecuteTask(task: Task, now: int, settingsRead: Result<Settings, string>, endNow: int, reader: ProjectReader)
      returns (o: Outcome)
      modifies this`startTime, this`settings, manager`preparedReleases, manager.preparedReleases,
               manager`releaseResults, manager.releaseResults, task.Listener()`errors, task.Descriptor()`fields
      ensures startTime == now
      ensures settingsRead.Failure? ==>
                && o == Thrown(Exception(TaskExecutionException, REACTOR_FAILED, Some(SettingsException(settingsRead.error))))
                && manager.Prepared() == old(manager.Prepared())
                && task.Descriptor().fields == old(task.Descriptor().fields)
      ensures settingsRead.Success? ==> settings == Some(settingsRead.value)
      ensures settingsRead.Success? && !Accepts(task) ==>
                && o == Thrown(Exception(ClassCastException, "", None))
                && manager.Prepared() == old(manager.Prepared()) && manager.Results() == old(manager.Results())
                && task.Descriptor().fields == old(task.Descriptor().fields)
      ensures kind == RollbackExecutor ==>
                manager.Prepared() == old(manager.Prepared()) && task.Descriptor().fields == old(task.Descriptor().fields)
      ensures kind == RollbackExecutor && settingsRead.Success? ==> manager.Results() == old(manager.Results())
    {
      o := SetUp(task.ReleaseId(), task.Listener(), now, settingsRead, endNow);
      if o.Thrown? {
        return;
      }
      match kind
      case PrepareExecutor =>
        if task.PrepareTask? {
          o := ExecutePrepare(task.prepare);
        } else {
          o := Thrown(Exception(ClassCastException, "", None));
        }
      case PerformExecutor =>
        if task.PerformTask? {
          o := ExecutePerform(task.perform, reader);
        } else {
          o := Thrown(Exception(ClassCastException, "", None));
        }
      case RollbackExecutor =>
        o := ExecuteRollback(task.Descriptor(), task.Listener());
    }

    /** Whether this executor's cast of the task succeeds. */
    predicate Accepts(task: Task) {
      match kind
      case PrepareExecutor => task.PrepareTask?
      case PerformExecutor => task.PerformTask?
      case RollbackExecutor => true
    }
  }
}

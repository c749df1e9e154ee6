/** DefaultJenkinsReleaseManager: computes release ids, builds descriptors from a
    property bag, registers listeners and enqueues one task per request. It owns the
    shared prepared-releases and release-results maps (static in the source; one manager
    object stands for the process here) and the three task queues. */
module ReleaseManager {
  import opened JavaLang
  import opened ReleaseModel
  import opened Descriptor
  import opened Tasks

  /** ReleaseDescriptorStore#read applied to a descriptor holding only the working
      directory: the stored descriptor, or the store exception's message. */
  type DescriptorStore = DescriptorState -> Result<DescriptorState, string>

  /** The release property keys read by getReleaseDescriptor. */
  const KEY_ADD_SCHEMA: string := "add-schema"
  const KEY_ARGUMENTS: string := "arguments"
  const KEY_AUTO_VERSION_SUBMODULES: string := "auto-version-submodules"
  const KEY_PREPARATION_GOALS: string := "preparation-goals"
  const KEY_RELEASE_BY: string := "release-by"
  const KEY_SCM_COMMENT_PREFIX: string := "scm-comment-prefix"
  const KEY_SCM_PASSWORD: string := "scm-password"
  const KEY_SCM_TAG: string := "scm-tag"
  const KEY_SCM_TAGBASE: string := "scm-tagbase"
  const KEY_SCM_USERNAME: string := "scm-username"
  const KEY_USE_EDIT_MODE: string := "use-edit-mode"
  const KEY_USE_RELEASE_PROFILE: string := "use-release-profile"

  /** The release id: the group id and the artifact id (each "null" when unset) joined by
      a colon. */
  function ReleaseId(project: ProjectDescriptor): (id: string)
    ensures |id| == |Str(project.groupId)| + 1 + |Str(project.artifactId)|
    ensures id[..|Str(project.groupId)|] == Str(project.groupId)
    ensures id[|Str(project.groupId)|] == ':'
    ensures id[|Str(project.groupId)| + 1..] == Str(project.artifactId)
  {
    Str(project.groupId) + ":" + Str(project.artifactId)
  }

  /** Splits a release id at its first colon into group id and artifact id. */
  function SplitReleaseId(id: string): (parts: Option<(string, string)>)
    ensures parts.Some? ==> ':' !in parts.value.0 && id == parts.value.0 + [':'] + parts.value.1
    ensures parts.None? <==> ':' !in id
  {
    if |id| == 0 then None
    else if id[0] == ':' then Some(([], id[1..]))
    else
      match SplitReleaseId(id[1..])
      case None => None
      case Some((group, artifact)) => Some(([id[0]] + group, artifact))
  }

  /** Splitting `g:a` gives back g and a when g holds no colon. */
  lemma {:induction false} SplitJoinedId(group: string, artifact: string)
    requires ':' !in group
    ensures SplitReleaseId(group + [':'] + artifact) == Some((group, artifact))
    decreases |group|
  {
    var id := group + [':'] + artifact;
    if |group| > 0 {
      assert id[1..] == group[1..] + [':'] + artifact;
      SplitJoinedId(group[1..], artifact);
      assert [group[0]] + group[1..] == group;
    } else {
      assert id[1..] == artifact;
    }
  }

  /** The release id determines the project's group and artifact ids when the group id
      holds no colon, so two such projects share an id only when both parts agree. */
  lemma ReleaseIdRoundTrip(project: ProjectDescriptor)
    requires ':' !in Str(project.groupId)
    ensures SplitReleaseId(ReleaseId(project)) == Some((Str(project.groupId), Str(project.artifactId)))
  {
    SplitJoinedId(Str(project.groupId), Str(project.artifactId));
  }

  lemma ReleaseIdInjective(p: ProjectDescriptor, q: ProjectDescriptor)
    requires ':' !in Str(p.groupId) && ':' !in Str(q.groupId)
    requires ReleaseId(p) == ReleaseId(q)
    ensures Str(p.groupId) == Str(q.groupId) && Str(p.artifactId) == Str(q.artifactId)
  {
    ReleaseIdRoundTrip(p);
    ReleaseIdRoundTrip(q);
  }

  /** The Maven option that points the build at a local repository, quoted. */
  function LocalRepositoryFlag(repository: string): string {
    "\"-Dmaven.repo.local=" + repository + "\""
  }

  /** The additional arguments after the local-repository rule: nothing is appended when
      the project has no local repository; otherwise the quoted flag is appended after a
      space, or stands alone when there were no arguments. */
  function WithLocalRepository(args: Option<string>, localRepository: Option<string>): (r: Option<string>)
    ensures localRepository.None? ==> r == args
    ensures localRepository.Some? ==> r.Some? && IsSuffix(LocalRepositoryFlag(localRepository.value), r.value)
    ensures localRepository.Some? && !IsEmpty(args) ==>
              && r.Some? && |r.value| == |args.value| + 1 + |LocalRepositoryFlag(localRepository.value)|
              && r.value[..|args.value|] == args.value && r.value[|args.value|] == ' '
    ensures localRepository.Some? && IsEmpty(args) ==> r.value == LocalRepositoryFlag(localRepository.value)
  {
    match localRepository
    case None => args
    case Some(repo) =>
      if !IsEmpty(args) then Some(args.value + " " + LocalRepositoryFlag(repo))
      else Some(LocalRepositoryFlag(repo))
  }

  /** Step one of getReleaseDescriptor: project location and the required properties. */
  function RequiredProperties(s: DescriptorState, project: ProjectDescriptor, props: map<string, string>,
                              relVersions: Option<map<string, string>>, devVersions: Option<map<string, string>>,
                              workingDirectory: Option<string>): DescriptorState
  {
    s.(workingDirectory := workingDirectory,
       scmSourceUrl := project.scmUrl,
       scmReleaseLabel := GetProperty(props, KEY_SCM_TAG),
       scmTagBase := GetProperty(props, KEY_SCM_TAGBASE),
       releaseVersions := relVersions,
       developmentVersions := devVersions,
       preparationGoals := GetProperty(props, KEY_PREPARATION_GOALS),
       additionalArguments := GetProperty(props, KEY_ARGUMENTS),
       addSchema := BooleanValueOf(GetProperty(props, KEY_ADD_SCHEMA)),
       autoVersionSubmodules := BooleanValueOf(GetProperty(props, KEY_AUTO_VERSION_SUBMODULES)))
  }

  /** Step two: edit mode (set only when toBoolean holds, then to Boolean.valueOf) and the
      local-repository flag added to the arguments already set. */
  function EditModeAndLocalRepository(s: DescriptorState, project: ProjectDescriptor, props: map<string, string>)
    : DescriptorState
  {
    var editMode := GetProperty(props, KEY_USE_EDIT_MODE);
    s.(scmUseEditMode := if ToBoolean(editMode) then BooleanValueOf(editMode) else s.scmUseEditMode,
       additionalArguments := WithLocalRepository(s.additionalArguments, project.localRepository))
  }

  /** Step three: the optional properties, each set only when its key is present, the
      forced interactive flag and release-by. */
  function OtherProperties(s: DescriptorState, props: map<string, string>): DescriptorState
  {
    s.(scmUsername := if KEY_SCM_USERNAME in props then GetProperty(props, KEY_SCM_USERNAME) else s.scmUsername,
       scmPassword := if KEY_SCM_PASSWORD in props then GetProperty(props, KEY_SCM_PASSWORD) else s.scmPassword,
       scmCommentPrefix :=
         if KEY_SCM_COMMENT_PREFIX in props then GetProperty(props, KEY_SCM_COMMENT_PREFIX) else s.scmCommentPrefix,
       useReleaseProfile :=
         if KEY_USE_RELEASE_PROFILE in props then BooleanValueOf(GetProperty(props, KEY_USE_RELEASE_PROFILE))
         else s.useReleaseProfile,
       interactive := false,
       releaseBy := GetProperty(props, KEY_RELEASE_BY))
  }

  /** `Boolean.valueOf` implies `BooleanUtils.toBoolean`: whenever the edit-mode guard
      fails, the value it keeps out would have been false. */
  lemma EditModeGuardOnlyBlocksFalse(editMode: Option<string>)
    ensures !ToBoolean(editMode) ==> !BooleanValueOf(editMode)
  {
  }

  /** The descriptor getReleaseDescriptor builds, as field values: the three steps applied
      to a new descriptor. A guarded field whose guard fails keeps the new descriptor's
      default. */
  function PreparedDescriptorState(project: ProjectDescriptor, props: map<string, string>,
                                   relVersions: Option<map<string, string>>, devVersions: Option<map<string, string>>,
                                   workingDirectory: Option<string>): (s: DescriptorState)
    ensures !s.interactive
    ensures s.workingDirectory == workingDirectory && s.scmSourceUrl == project.scmUrl
    ensures s.releaseVersions == relVersions && s.developmentVersions == devVersions
    ensures s.scmReleaseLabel == GetProperty(props, KEY_SCM_TAG) && s.scmTagBase == GetProperty(props, KEY_SCM_TAGBASE)
    ensures s.preparationGoals == GetProperty(props, KEY_PREPARATION_GOALS)
    ensures s.additionalArguments == WithLocalRepository(GetProperty(props, KEY_ARGUMENTS), project.localRepository)
    ensures s.addSchema == BooleanValueOf(GetProperty(props, KEY_ADD_SCHEMA))
    ensures s.autoVersionSubmodules == BooleanValueOf(GetProperty(props, KEY_AUTO_VERSION_SUBMODULES))
    ensures ToBoolean(GetProperty(props, KEY_USE_EDIT_MODE)) ==>
              s.scmUseEditMode == BooleanValueOf(GetProperty(props, KEY_USE_EDIT_MODE))
    ensures !ToBoolean(GetProperty(props, KEY_USE_EDIT_MODE)) ==> s.scmUseEditMode == DefaultState.scmUseEditMode
    ensures KEY_SCM_USERNAME in props ==> s.scmUsername == Some(props[KEY_SCM_USERNAME])
    ensures KEY_SCM_USERNAME !in props ==> s.scmUsername == DefaultState.scmUsername
    ensures KEY_SCM_PASSWORD in props ==> s.scmPassword == Some(props[KEY_SCM_PASSWORD])
    ensures KEY_SCM_PASSWORD !in props ==> s.scmPassword == DefaultState.scmPassword
    ensures KEY_SCM_COMMENT_PREFIX in props ==> s.scmCommentPrefix == Some(props[KEY_SCM_COMMENT_PREFIX])
    ensures KEY_SCM_COMMENT_PREFIX !in props ==> s.scmCommentPrefix == DefaultState.scmCommentPrefix
    ensures KEY_USE_RELEASE_PROFILE in props ==> s.useReleaseProfile == BooleanValueOf(Some(props[KEY_USE_RELEASE_PROFILE]))
    ensures KEY_USE_RELEASE_PROFILE !in props ==> s.useReleaseProfile == DefaultState.useReleaseProfile
    ensures s.releaseBy == GetProperty(props, KEY_RELEASE_BY)
    ensures s.pomFileName.None? && s.checkoutDirectory.None? && s.performGoals.None?
    ensures s.mavenEmbedderRequest.None?
  {
    OtherProperties(
      EditModeAndLocalRepository(
        RequiredProperties(DefaultState, project, props, relVersions, devVersions, workingDirectory),
        project, props),
      props)
  }

  /** getReleaseDescriptor: a new descriptor filled from the project and the properties.
      The source calls one setter per field on a new descriptor; the model computes the
      resulting field values with the three step functions and stores them at once.
      The `executable` argument is accepted and not used. */
  method GetReleaseDescriptor(project: ProjectDescriptor, props: map<string, string>,
                              relVersions: Option<map<string, string>>, devVersions: Option<map<string, string>>,
                              environments: HashMap?<string, string>, workingDirectory: Option<string>,
                              executable: Option<string>)
    returns (d: ReleaseDescriptor)
    ensures fresh(d)
    ensures d.fields == PreparedDescriptorState(project, props, relVersions, devVersions, workingDirectory)
    ensures d.environments == environments
  {
    d := new ReleaseDescriptor.FromState(PreparedDescriptorState(project, props, relVersions, devVersions, workingDirectory));
    d.SetEnvironments(environments);
  }

  /** readReleaseDescriptor: a descriptor holding only the working directory is handed
      to the store, which returns the stored descriptor or fails. */
  method ReadReleaseDescriptor(workingDirectory: Option<string>, store: DescriptorStore)
    returns (r: Result<ReleaseDescriptor, Exception>)
    ensures var stored := store(DefaultState.(workingDirectory := workingDirectory));
            match stored
            case Success(s) => r.Success? && fresh(r.value) && r.value.fields == s && r.value.environments == null
            case Failure(msg) =>
              r == Failure(Exception(JenkinsReleaseException, PARSE_DESCRIPTOR_FAILED,
                                     Some(Exception(ReleaseDescriptorStoreException, msg, None))))
  {
    var partial := new ReleaseDescriptor();
    partial.fields := partial.fields.(workingDirectory := workingDirectory);
    var stored := store(partial.fields);
    if stored.Success? {
      var descriptor := new ReleaseDescriptor.FromState(stored.value);
      r := Success(descriptor);
    } else {
      r := Failure(Exception(JenkinsReleaseException, PARSE_DESCRIPTOR_FAILED,
                             Some(Exception(ReleaseDescriptorStoreException, stored.error, None))));
    }
  }

  /** Messages of the exceptions the manager raises, and the goals of every perform task. */
  const PARSE_DESCRIPTOR_FAILED: string := "Failed to parse descriptor file."
  const PREPARE_QUEUE_FAILED: string := "Failed to add prepare release task in queue."
  const PERFORM_QUEUE_FAILED: string := "Failed to add perform release task in queue."
  const ROLLBACK_QUEUE_FAILED: string := "Failed to rollback release."
  const PERFORM_GOALS: string := "package"

  /** The exception a manager method raises when the queue refuses a task. */
  function QueueFailure(message: string, rejection: string): Exception {
    Exception(JenkinsReleaseException, message, Some(Exception(TaskQueueException, rejection, None)))
  }

  class DefaultJenkinsReleaseManager {
    var listeners: HashMap?<string, ReleaseListener>
    var preparedReleases: HashMap?<string, ReleaseDescriptor>
    var releaseResults: HashMap?<string, ReleaseResult>
    var prepareQueue: seq<ReleaseProjectTask>
    var performQueue: seq<PerformReleaseProjectTask>
    var rollbackQueue: seq<ReleaseProjectTask>

    /** Contents of the three maps; a map not yet created reads as empty. */
    ghost function Listeners(): map<string, ReleaseListener>
      reads this, listeners
    {
      EntriesOf(listeners)
    }

    ghost function Prepared(): map<string, ReleaseDescriptor>
      reads this, preparedReleases
    {
      EntriesOf(preparedReleases)
    }

    ghost function Results(): map<string, ReleaseResult>
      reads this, releaseResults
    {
      EntriesOf(releaseResults)
    }

    /** The descriptor prepared under `releaseId`, as a frame. */
    ghost function PreparedFrame(releaseId: string): set<object>
      reads this, preparedReleases
    {
      if releaseId in Prepared() then {Prepared()[releaseId]} else {}
    }

    constructor ()
      ensures listeners == null && preparedReleases == null && releaseResults == null
      ensures prepareQueue == [] && performQueue == [] && rollbackQueue == []
    {
      listeners, preparedReleases, releaseResults := null, null, null;
      prepareQueue, performQueue, rollbackQueue := [], [], [];
    }

    /** getPreparedReleases: created empty on first access; later calls return that map. */
    method GetPreparedReleases() returns (m: HashMap<string, ReleaseDescriptor>)
      modifies this`preparedReleases
      ensures m == preparedReleases
      ensures old(preparedReleases) != null ==> m == old(preparedReleases) && m.entries == old(preparedReleases.entries)
      ensures old(preparedReleases) == null ==> fresh(m) && m.entries == map[]
    {
      if preparedReleases == null {
        preparedReleases := new HashMap<string, ReleaseDescriptor>();
      }
      m := preparedReleases;
    }

    /** getReleaseResults: created empty on first access; later calls return that map. */
    method GetReleaseResults() returns (m: HashMap<string, ReleaseResult>)
      modifies this`releaseResults
      ensures m == releaseResults
      ensures old(releaseResults) != null ==> m == old(releaseResults) && m.entries == old(releaseResults.entries)
      ensures old(releaseResults) == null ==> fresh(m) && m.entries == map[]
    {
      if releaseResults == null {
        releaseResults := new HashMap<string, ReleaseResult>();
      }
      m := releaseResults;
    }

    /** getListeners: created empty on first access; later calls return that map. */
    method GetListeners() returns (m: HashMap<string, ReleaseListener>)
      modifies this`listeners
      ensures m == listeners
      ensures old(listeners) != null ==> m == old(listeners) && m.entries == old(listeners.entries)
      ensures old(listeners) == null ==> fresh(m) && m.entries == map[]
    {
      if listeners == null {
        listeners := new HashMap<string, ReleaseListener>();
      }
      m := listeners;
    }

    /** Registers `listener`, or a new default listener when it is null, under the id. */
    method RegisterListener(releaseId: string, listener: ReleaseListener?) returns (l: ReleaseListener)
      modifies this`listeners, listeners
      ensures listener != null ==> l == listener
      ensures listener == null ==> fresh(l) && l.isDefault && l.errors == []
      ensures listeners != null && Listeners() == old(Listeners())[releaseId := l]
      ensures old(listeners) != null ==> listeners == old(listeners)
    {
      if listener == null {
        l := new ReleaseListener.Default();
      } else {
        l := listener;
      }
      var m := GetListeners();
      m.Put(releaseId, l);
    }

    /** The six-argument prepare: no environments and no executable. */
    method Prepare(project: ProjectDescriptor, props: map<string, string>,
                   relVersions: Option<map<string, string>>, devVersions: Option<map<string, string>>,
                   listener: ReleaseListener?, workingDirectory: Option<string>, queueRejection: Option<string>)
      returns (r: Result<string, Exception>)
      modifies this`listeners, listeners, this`prepareQueue
      ensures listeners != null && ReleaseId(project) in Listeners()
      ensures Listeners() == old(Listeners())[ReleaseId(project) := Listeners()[ReleaseId(project)]]
      ensures queueRejection.None? ==> r == Success(ReleaseId(project)) && |prepareQueue| == |old(prepareQueue)| + 1
      ensures queueRejection.Some? ==> r.Failure? && prepareQueue == old(prepareQueue)
    {
      r := PrepareWithEnvironment(project, props, relVersions, devVersions, listener, workingDirectory, null, None, queueRejection);
    }

    /** prepare: builds the descriptor, registers the listener under the release id, then
        enqueues one prepare task. The listener stays registered when the queue refuses. */
    method PrepareWithEnvironment(project: ProjectDescriptor, props: map<string, string>,
                                  relVersions: Option<map<string, string>>, devVersions: Option<map<string, string>>,
                                  listener: ReleaseListener?, workingDirectory: Option<string>,
                                  environments: HashMap?<string, string>, executable: Option<string>,
                                  queueRejection: Option<string>)
      returns (r: Result<string, Exception>)
      modifies this`listeners, listeners, this`prepareQueue
      ensures var id := ReleaseId(project);
              && listeners != null && id in Listeners()
              && Listeners() == old(Listeners())[id := Listeners()[id]]
              && (listener != null ==> Listeners()[id] == listener)
              && (listener == null ==> fresh(Listeners()[id]) && Listeners()[id].isDefault)
      ensures queueRejection.None? ==>
                var id := ReleaseId(project);
                && r == Success(id)
                && |prepareQueue| == |old(prepareQueue)| + 1
                && prepareQueue[..|old(prepareQueue)|] == old(prepareQueue)
                && var task := prepareQueue[|old(prepareQueue)|];
                   && task.releaseId == id && task.listener == Listeners()[id]
                   && fresh(task.descriptor) && task.descriptor.environments == environments
                   && task.descriptor.fields == PreparedDescriptorState(project, props, relVersions, devVersions, workingDirectory)
      ensures queueRejection.Some? ==>
                && r == Failure(QueueFailure(PREPARE_QUEUE_FAILED, queueRejection.value))
                && prepareQueue == old(prepareQueue)
    {
      var releaseId := ReleaseId(project);
      var descriptor := GetReleaseDescriptor(project, props, relVersions, devVersions, environments, workingDirectory, executable);
      var l := RegisterListener(releaseId, listener);
      if queueRejection.Some? {
        r := Failure(QueueFailure(PREPARE_QUEUE_FAILED, queueRejection.value));
      } else {
        prepareQueue := prepareQueue + [ReleaseProjectTask(releaseId, descriptor, l)];
        r := Success(releaseId);
      }
    }

    /** The six-argument perform: no local repository. */
    method Perform(releaseId: string, buildDirectory: Option<string>, goals: Option<string>, arguments: Option<string>,
                   useReleaseProfile: bool, listener: ReleaseListener?, queueRejection: Option<string>)
      returns (o: Outcome)
      modifies this`listeners, listeners, this`performQueue, this`preparedReleases, PreparedFrame(releaseId)
      ensures releaseId !in old(Prepared()) ==> o == Normal && Listeners() == old(Listeners()) && performQueue == old(performQueue)
      ensures releaseId in old(Prepared()) ==>
                old(Prepared())[releaseId].fields.additionalArguments == arguments
                && (queueRejection.None? <==> o == Normal)
                && releaseId in Listeners()
                && Listeners() == old(Listeners())[releaseId := Listeners()[releaseId]]
                && (queueRejection.None? ==> |performQueue| == |old(performQueue)| + 1
                                               && performQueue[..|old(performQueue)|] == old(performQueue))
                && (queueRejection.Some? ==> performQueue == old(performQueue))
    {
      o := PerformWithRepository(releaseId, buildDirectory, goals, arguments, useReleaseProfile, listener, None, queueRejection);
    }

    /** perform on a prepared release: a no-op when nothing is prepared under the id. */
    method PerformWithRepository(releaseId: string, buildDirectory: Option<string>, goals: Option<string>,
                                 arguments: Option<string>, useReleaseProfile: bool, listener: ReleaseListener?,
                                 repository: Option<LocalRepository>, queueRejection: Option<string>)
      returns (o: Outcome)
      modifies this`listeners, listeners, this`performQueue, this`preparedReleases, PreparedFrame(releaseId)
      ensures Prepared() == old(Prepared())
      ensures releaseId !in old(Prepared()) ==>
                o == Normal && Listeners() == old(Listeners()) && performQueue == old(performQueue)
      ensures releaseId in old(Prepared()) ==>
                var d := old(Prepared())[releaseId];
                d.fields == old(d.fields).(additionalArguments := arguments)
                && Enqueued(releaseId, d, buildDirectory, listener, queueRejection, o,
                            PERFORM_QUEUE_FAILED)
                && Listeners() == old(Listeners())[releaseId := Listeners()[releaseId]]
                && (queueRejection.None? ==> |performQueue| == |old(performQueue)| + 1
                                               && performQueue[..|old(performQueue)|] == old(performQueue))
                && (queueRejection.Some? ==> performQueue == old(performQueue))
    {
      var prepared := GetPreparedReleases();
      var descriptor := prepared.Get(releaseId);
      if descriptor.Some? {
        o := PerformDescriptor(releaseId, descriptor.value, buildDirectory, goals, arguments, useReleaseProfile,
                               listener, repository, queueRejection);
      } else {
        o := Normal;
      }
    }

    /** perform from a working directory: the descriptor is read from the store first;
        a store failure is raised before anything is registered or enqueued. */
    method PerformFromWorkingDirectory(releaseId: string, workingDirectory: Option<string>, buildDirectory: Option<string>,
                                       goals: Option<string>, arguments: Option<string>, useReleaseProfile: bool,
                                       listener: ReleaseListener?, store: DescriptorStore, queueRejection: Option<string>)
      returns (o: Outcome)
      modifies this`listeners, listeners, this`performQueue
      ensures var stored := store(DefaultState.(workingDirectory := workingDirectory));
              match stored
              case Failure(msg) =>
                && o == Thrown(Exception(JenkinsReleaseException, PARSE_DESCRIPTOR_FAILED,
                                         Some(Exception(ReleaseDescriptorStoreException, msg, None))))
                && Listeners() == old(Listeners()) && performQueue == old(performQueue)
              case Success(s) =>
                exists d: ReleaseDescriptor ::
                  && fresh(d) && d.fields == s.(additionalArguments := arguments)
                  && Enqueued(releaseId, d, buildDirectory, listener, queueRejection, o,
                              PERFORM_QUEUE_FAILED)
                  && Listeners() == old(Listeners())[releaseId := Listeners()[releaseId]]
                  && (queueRejection.None? ==> |performQueue| == |old(performQueue)| + 1
                                                 && performQueue[..|old(performQueue)|] == old(performQueue))
                  && (queueRejection.Some? ==> performQueue == old(performQueue))
    {
      var read := ReadReleaseDescriptor(workingDirectory, store);
      if read.Failure? {
        o := Thrown(read.error);
      } else {
        o := PerformDescriptor(releaseId, read.value, buildDirectory, goals, arguments, useReleaseProfile,
                               listener, None, queueRejection);
      }
    }

    /** What the shared perform path leaves behind: the (given or default) listener under
        the id, and either one new perform task with goals "package" and the release
        profile on, or the queue unchanged and the refusal raised. */
    ghost predicate Enqueued(releaseId: string, d: ReleaseDescriptor, buildDirectory: Option<string>,
                             listener: ReleaseListener?, queueRejection: Option<string>, o: Outcome, message: string)
      reads this, listeners, performQueue
    {
      && listeners != null && releaseId in Listeners()
      && (listener != null ==> Listeners()[releaseId] == listener)
      && (listener == null ==> Listeners()[releaseId].isDefault)
      && (queueRejection.None? ==>
            && o == Normal
            && |performQueue| >= 1
            && var task := performQueue[|performQueue| - 1];
               && task.releaseId == releaseId && task.descriptor == d && task.listener == Listeners()[releaseId]
               && task.buildDirectory == buildDirectory
               && task.goals == Some(PERFORM_GOALS) && task.useReleaseProfile && task.localRepository.None?)
      && (queueRejection.Some? ==> o == Thrown(QueueFailure(message, queueRejection.value)))
    }

    /** The shared perform path. The passed goals, release-profile flag and repository are
        not used: the task always carries "package" and true. */
    method PerformDescriptor(releaseId: string, descriptor: ReleaseDescriptor, buildDirectory: Option<string>,
                             goals: Option<string>, arguments: Option<string>, useReleaseProfile: bool,
                             listener: ReleaseListener?, repository: Option<LocalRepository>, queueRejection: Option<string>)
      returns (o: Outcome)
      modifies this`listeners, listeners, this`performQueue, descriptor`fields
      ensures descriptor.fields == old(descriptor.fields).(additionalArguments := arguments)
      ensures Enqueued(releaseId, descriptor, buildDirectory, listener, queueRejection, o,
                       PERFORM_QUEUE_FAILED)
      ensures Listeners() == old(Listeners())[releaseId := Listeners()[releaseId]]
      ensures listener == null ==> fresh(Listeners()[releaseId])
      ensures queueRejection.None? ==> |performQueue| == |old(performQueue)| + 1
                                       && performQueue[..|old(performQueue)|] == old(performQueue)
                                       && fresh(performQueue[|old(performQueue)|])
      ensures queueRejection.Some? ==> performQueue == old(performQueue)
    {
      descriptor.fields := descriptor.fields.(additionalArguments := arguments);
      var l := RegisterListener(releaseId, listener);
      var task := new PerformReleaseProjectTask(releaseId, descriptor, buildDirectory, l, Some(PERFORM_GOALS), true);
      if queueRejection.Some? {
        o := Thrown(QueueFailure(PERFORM_QUEUE_FAILED, queueRejection.value));
      } else {
        performQueue := performQueue + [task];
        o := Normal;
      }
    }

    /** rollback: reads the descriptor from the store (a failure is raised before anything
        is enqueued) and enqueues a rollback task. The listener is never registered. */
    method Rollback(releaseId: string, workingDirectory: Option<string>, listener: ReleaseListener?,
                    store: DescriptorStore, queueRejection: Option<string>)
      returns (o: Outcome)
      modifies this`rollbackQueue
      ensures Listeners() == old(Listeners())
      ensures var stored := store(DefaultState.(workingDirectory := workingDirectory));
              match stored
              case Failure(msg) =>
                && o == Thrown(Exception(JenkinsReleaseException, PARSE_DESCRIPTOR_FAILED,
                                         Some(Exception(ReleaseDescriptorStoreException, msg, None))))
                && rollbackQueue == old(rollbackQueue)
              case Success(s) =>
                match queueRejection
                case Some(rejection) =>
                  o == Thrown(QueueFailure(ROLLBACK_QUEUE_FAILED, rejection)) && rollbackQueue == old(rollbackQueue)
                case None =>
                  && o == Normal
                  && |rollbackQueue| == |old(rollbackQueue)| + 1
                  && rollbackQueue[..|old(rollbackQueue)|] == old(rollbackQueue)
                  && var task := rollbackQueue[|old(rollbackQueue)|];
                     && task.releaseId == releaseId
                     && fresh(task.descriptor) && task.descriptor.fields == s
                     && (listener != null ==> task.listener == listener)
                     && (listener == null ==> fresh(task.listener) && task.listener.isDefault)
    {
      var read := ReadReleaseDescriptor(workingDirectory, store);
      if read.Failure? {
        o := Thrown(read.error);
      } else {
        var l: ReleaseListener;
        if listener == null {
          l := new ReleaseListener.Default();
        } else {
          l := listener;
        }
        if queueRejection.Some? {
          o := Thrown(QueueFailure(ROLLBACK_QUEUE_FAILED, queueRejection.value));
        } else {
          rollbackQueue := rollbackQueue + [ReleaseProjectTask(releaseId, read.value, l)];
          o := Normal;
        }
      }
    }
  }
}

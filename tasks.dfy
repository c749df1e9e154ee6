/** The task records the manager enqueues and the executors consume. */
module Tasks {
  import opened JavaLang
  import opened ReleaseModel
  import opened Descriptor

  /** PrepareReleaseProjectTask and RollbackReleaseProjectTask: a release id, the
      descriptor and the listener, fixed at construction. */
  datatype ReleaseProjectTask = ReleaseProjectTask(releaseId: string, descriptor: ReleaseDescriptor, listener: ReleaseListener)

  /** sonatype-aether's LocalRepository, reduced to its base directory. */
  datatype LocalRepository = LocalRepository(basedir: string)

  /** PerformReleaseProjectTask: the common task fields plus mutable perform options.
      A java.io.File is represented by its absolute path. */
  class PerformReleaseProjectTask {
    const releaseId: string
    const descriptor: ReleaseDescriptor
    const listener: ReleaseListener
    var buildDirectory: Option<string>
    var goals: Option<string>
    var useReleaseProfile: bool
    var localRepository: Option<LocalRepository>

    /** The field initialiser sets useReleaseProfile to true; the constructor then runs the
        three setters, so the argument always wins. localRepository stays unset. */
    constructor (releaseId: string, descriptor: ReleaseDescriptor, buildDirectory: Option<string>,
                 listener: ReleaseListener, goals: Option<string>, useReleaseProfile: bool)
      ensures this.releaseId == releaseId && this.descriptor == descriptor && this.listener == listener
      ensures this.goals == goals && this.useReleaseProfile == useReleaseProfile
      ensures this.buildDirectory == buildDirectory
      ensures this.localRepository == None
    {
      this.releaseId := releaseId;
      this.descriptor := descriptor;
      this.listener := listener;
      this.useReleaseProfile := true;
      this.localRepository := None;
      new;
      SetGoals(goals);
      SetUseReleaseProfile(useReleaseProfile);
      SetBuildDirectory(buildDirectory);
    }

    method SetGoals(goals: Option<string>)
      modifies this`goals
      ensures this.goals == goals
    {
      this.goals := goals;
    }

    method SetUseReleaseProfile(useReleaseProfile: bool)
      modifies this`useReleaseProfile
      ensures this.useReleaseProfile == useReleaseProfile
    {
      this.useReleaseProfile := useReleaseProfile;
    }

    method SetBuildDirectory(buildDirectory: Option<string>)
      modifies this`buildDirectory
      ensures this.buildDirectory == buildDirectory
    {
      this.buildDirectory := buildDirectory;
    }

    method SetLocalRepository(localRepository: Option<LocalRepository>)
      modifies this`localRepository
      ensures this.localRepository == localRepository
    {
      this.localRepository := localRepository;
    }
  }

  /** A queued task, tagged with the queue it belongs to. */
  datatype Task =
    | PrepareTask(prepare: ReleaseProjectTask)
    | PerformTask(perform: PerformReleaseProjectTask)
    | RollbackTask(rollback: ReleaseProjectTask)
  {
    function ReleaseId(): string {
      match this
      case PrepareTask(t) => t.releaseId
      case PerformTask(p) => p.releaseId
      case RollbackTask(t) => t.releaseId
    }

    function Descriptor(): ReleaseDescriptor {
      match this
      case PrepareTask(t) => t.descriptor
      case PerformTask(p) => p.descriptor
      case RollbackTask(t) => t.descriptor
    }

    function Listener(): ReleaseListener {
      match this
      case PrepareTask(t) => t.listener
      case PerformTask(p) => p.listener
      case RollbackTask(t) => t.listener
    }
  }
}

/** Values shared by the release manager, the executors and the phases: the engine's
    result record, Maven settings and projects, the embedder request, the environment
    handed to the engine, the project coordinates and the listener. */
module ReleaseModel {
  import opened JavaLang

  /** Result codes of maven-release's ReleaseResult. */
  const UNDEFINED: int := -1
  const SUCCESS: int := 0
  const ERROR: int := 1

  /** maven-release's ReleaseResult: a code, two timestamps and the output log. */
  datatype ReleaseResult = ReleaseResult(resultCode: int, startTime: int, endTime: int, output: seq<string>) {

    /** ReleaseResult#appendError(Exception): logs the error and marks the result failed.
        The stack trace is represented by the exception's message. */
    function AppendError(e: Exception): (r: ReleaseResult)
      ensures r.resultCode == ERROR
      ensures r.startTime == startTime && r.endTime == endTime
      ensures r.output == output + ["[ERROR] " + e.message]
    {
      this.(resultCode := ERROR, output := output + ["[ERROR] " + e.message])
    }
  }

  /** `new ReleaseResult()`. */
  const NewReleaseResult: ReleaseResult := ReleaseResult(UNDEFINED, 0, 0, [])

  /** Maven settings as produced by the settings builder; opaque to this code. */
  datatype Settings = Settings(source: string)

  datatype MavenProject = MavenProject(groupId: string, artifactId: string, version: string)

  /** hudson.maven.MavenEmbedderRequest, reduced to the Maven home it carries. */
  datatype MavenEmbedderRequest = MavenEmbedderRequest(mavenHome: Option<string>)

  /** The ReleaseEnvironment given to the engine. */
  datatype ReleaseEnvironment = ReleaseEnvironment(settings: Option<Settings>, mavenExecutorId: string, mavenHome: Option<string>)

  /** The project coordinates the manager is asked to release. */
  datatype ProjectDescriptor = ProjectDescriptor(
    groupId: Option<string>, artifactId: Option<string>,
    scmUrl: Option<string>, localRepository: Option<string>)

  /** MavenEmbedder.readProjects on (request, POM path): the projects read, or None when
      one of the caught exceptions was raised. */
  type ProjectReader = (Option<MavenEmbedderRequest>, string) -> Option<seq<MavenProject>>

  /** A ReleaseManagerListener; only its error callback is observed here. */
  class ReleaseListener {
    /** True for DefaultReleaseManagerListener, the logging listener used when none is given. */
    const isDefault: bool
    var errors: seq<string>

    constructor Default()
      ensures isDefault && errors == []
    {
      isDefault := true;
      errors := [];
    }

    constructor Custom()
      ensures !isDefault && errors == []
    {
      isDefault := false;
      errors := [];
    }

    method Error(reason: string)
      modifies this`errors
      ensures errors == old(errors) + [reason]
    {
      errors := errors + [reason];
    }
  }
}

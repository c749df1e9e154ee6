/** GenerateReactorProjectsPhase: reads the projects of the descriptor's POM and appends
    them to the caller's reactor list; the phase reports SUCCESS whatever happened. */
module GenerateReactorProjects {
  import opened JavaLang
  import opened ReleaseModel
  import opened Descriptor

  /** The caller's mutable `List<MavenProject>`. */
  class ProjectList {
    var items: seq<MavenProject>

    constructor (items: seq<MavenProject>)
      ensures this.items == items
    {
      this.items := items;
    }

    /** List#addAll: appends in order. */
    method AddAll(more: seq<MavenProject>)
      modifies this
      ensures items == old(items) + more
    {
      items := items + more;
    }
  }

  /** The phase result: a new ReleaseResult whose code is set to SUCCESS. */
  const PhaseResult: ReleaseResult := NewReleaseResult.(resultCode := SUCCESS)

  /** execute(descriptor, settings, reactorProjects): on a successful read the projects
      are appended after the existing ones; a failed read (one of the three caught
      exceptions) leaves the list as it was, and no exception escapes. The settings are
      not used. */
  method Execute(d: ReleaseDescriptor, settings: Option<Settings>, reactorProjects: ProjectList, reader: ProjectReader)
    returns (r: ReleaseResult)
    modifies reactorProjects
    ensures r.resultCode == SUCCESS && r == PhaseResult
    ensures var read := reader(d.fields.mavenEmbedderRequest, d.ProjectDescriptorFile());
            && (read.Some? ==> reactorProjects.items == old(reactorProjects.items) + read.value)
            && (read.None? ==> reactorProjects.items == old(reactorProjects.items))
    ensures |old(reactorProjects.items)| <= |reactorProjects.items|
    ensures reactorProjects.items[..|old(reactorProjects.items)|] == old(reactorProjects.items)
  {
    var result := NewReleaseResult;
    var mavenProjects := reader(d.fields.mavenEmbedderRequest, d.ProjectDescriptorFile());
    if mavenProjects.Some? {
      reactorProjects.AddAll(mavenProjects.value);
    }
    result := result.(resultCode := SUCCESS);
    r := result;
  }

  /** simulate(descriptor, settings, reactorProjects): the same as execute. */
  method Simulate(d: ReleaseDescriptor, settings: Option<Settings>, reactorProjects: ProjectList, reader: ProjectReader)
    returns (r: ReleaseResult)
    modifies reactorProjects
    ensures r == PhaseResult
    ensures var read := reader(d.fields.mavenEmbedderRequest, d.ProjectDescriptorFile());
            && (read.Some? ==> reactorProjects.items == old(reactorProjects.items) + read.value)
            && (read.None? ==> reactorProjects.items == old(reactorProjects.items))
  {
    r := Execute(d, settings, reactorProjects, reader);
  }

  /** execute(descriptor, releaseEnvironment, reactorProjects): execute with the
      environment's settings. */
  method ExecuteInEnvironment(d: ReleaseDescriptor, env: ReleaseEnvironment, reactorProjects: ProjectList,
                              reader: ProjectReader)
    returns (r: ReleaseResult)
    modifies reactorProjects
    ensures r == PhaseResult
    ensures var read := reader(d.fields.mavenEmbedderRequest, d.ProjectDescriptorFile());
            && (read.Some? ==> reactorProjects.items == old(reactorProjects.items) + read.value)
            && (read.None? ==> reactorProjects.items == old(reactorProjects.items))
  {
    r := Execute(d, env.settings, reactorProjects, reader);
  }

  /** simulate(descriptor, releaseEnvironment, reactorProjects): also execute with the
      environment's settings. */
  method SimulateInEnvironment(d: ReleaseDescriptor, env: ReleaseEnvironment, reactorProjects: ProjectList,
                               reader: ProjectReader)
    returns (r: ReleaseResult)
    modifies reactorProjects
    ensures r == PhaseResult
    ensures var read := reader(d.fields.mavenEmbedderRequest, d.ProjectDescriptorFile());
            && (read.Some? ==> reactorProjects.items == old(reactorProjects.items) + read.value)
            && (read.None? ==> reactorProjects.items == old(reactorProjects.items))
  {
    r := Execute(d, env.settings, reactorProjects, reader);
  }
}

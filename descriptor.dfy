/** JenkinsReleaseDescriptor together with the fields of maven-release's ReleaseDescriptor
    that the modelled code reads or writes. */
module Descriptor {
  import opened JavaLang
  import opened ReleaseModel

  const DEFAULT_POM_FILE_NAME: string := "pom.xml"

  /** The POM file name, "pom.xml" when none is set. */
  function PomFileNameOrDefault(pomFileName: Option<string>): (r: string)
    ensures pomFileName.Some? ==> r == pomFileName.value
    ensures pomFileName.None? ==> r == DEFAULT_POM_FILE_NAME
  {
    pomFileName.GetOr(DEFAULT_POM_FILE_NAME)
  }

  /** A snapshot of every descriptor field except the environment map, which is an
      object of its own. */
  datatype DescriptorState = DescriptorState(
    workingDirectory: Option<string>,
    scmSourceUrl: Option<string>,
    scmReleaseLabel: Option<string>,
    scmTagBase: Option<string>,
    releaseVersions: Option<map<string, string>>,
    developmentVersions: Option<map<string, string>>,
    preparationGoals: Option<string>,
    additionalArguments: Option<string>,
    addSchema: bool,
    autoVersionSubmodules: bool,
    scmUseEditMode: bool,
    scmUsername: Option<string>,
    scmPassword: Option<string>,
    scmCommentPrefix: Option<string>,
    useReleaseProfile: bool,
    interactive: bool,
    pomFileName: Option<string>,
    checkoutDirectory: Option<string>,
    performGoals: Option<string>,
    releaseBy: Option<string>,
    mavenEmbedderRequest: Option<MavenEmbedderRequest>)

  /** The field values of a newly constructed descriptor (ReleaseDescriptor's defaults:
      interactive and release profile on, every other flag off, no strings set). */
  const DefaultState: DescriptorState := DescriptorState(
    None, None, None, None, None, None, None, None,
    false, false, false, None, None, None, true, true, None, None, None, None, None)

  /** JenkinsReleaseDescriptor. The fields inherited from maven-release's ReleaseDescriptor
      are held together as one record, updated by replacing it, as are the two fields
      the Jenkins subclass adds beside it (`releaseBy` and the embedder request); the
      subclass's environment map is an object of its own. */
  class ReleaseDescriptor {
    var fields: DescriptorState
    /** Created lazily by the environment accessors. */
    var environments: HashMap?<string, string>

    /** `new JenkinsReleaseDescriptor()`. */
    constructor ()
      ensures fields == DefaultState && environments == null
    {
      fields := DefaultState;
      environments := null;
    }

    /** A new descriptor holding the given field values (what a descriptor store returns). */
    constructor FromState(s: DescriptorState)
      ensures fields == s && environments == null
    {
      fields := s;
      environments := null;
    }

    /** getEnvironments: never null; creates an empty map on first use and afterwards
        returns that same map. */
    method GetEnvironments() returns (m: HashMap<string, string>)
      modifies this`environments
      ensures m == environments
      ensures old(environments) != null ==> m == old(environments) && m.entries == old(environments.entries)
      ensures old(environments) == null ==> fresh(m) && m.entries == map[]
    {
      if environments == null {
        environments := new HashMap<string, string>();
      }
      m := environments;
    }

    /** addEnvironment: puts into the (lazily created) map, overwriting any earlier value. */
    method AddEnvironment(name: string, value: string)
      modifies this`environments, environments
      ensures environments != null
      ensures old(environments) != null ==> environments == old(environments)
      ensures old(environments) == null ==> fresh(environments)
      ensures environments.entries == old(EntriesOf(environments))[name := value]
    {
      var m := GetEnvironments();
      m.Put(name, value);
    }

    /** mapEnvironments: like addEnvironment, but asserts that the name is new when a map
        already exists. */
    method MapEnvironments(name: string, value: string)
      requires environments != null ==> name !in environments.entries
      modifies this`environments, environments
      ensures environments != null
      ensures old(environments) != null ==> environments == old(environments)
      ensures old(environments) == null ==> fresh(environments)
      ensures environments.entries == old(EntriesOf(environments))[name := value]
      ensures |environments.entries| == |old(EntriesOf(environments))| + 1
    {
      if environments == null {
        environments := new HashMap<string, string>();
      }
      environments.Put(name, value);
    }

    method SetEnvironments(e: HashMap?<string, string>)
      modifies this`environments
      ensures environments == e
    {
      environments := e;
    }

    /** getProjectDescriptorFile: the POM inside the working directory. */
    function ProjectDescriptorFile(): (path: string)
      reads this
      ensures fields.workingDirectory.None? ==> path == PomFileNameOrDefault(fields.pomFileName)
      ensures fields.workingDirectory.Some? ==>
                path == fields.workingDirectory.value + "/" + PomFileNameOrDefault(fields.pomFileName)
    {
      NewFile(fields.workingDirectory, PomFileNameOrDefault(fields.pomFileName))
    }
  }

  /** After setEnvironments(null), getEnvironments yields a new, empty map. */
  method ResetEnvironments(d: ReleaseDescriptor) returns (m: HashMap<string, string>)
    modifies d`environments
    ensures fresh(m) && m.entries == map[] && d.environments == m
  {
    d.SetEnvironments(null);
    m := d.GetEnvironments();
  }
}

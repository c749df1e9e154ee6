# Maven release support for Jenkins, modelled in Dafny

This project models the sequential core of Jenkins' maven-release plugin and two small
pieces of Jenkins itself, and proves properties of the model:

- `DefaultJenkinsReleaseManager` derives the release id `groupId:artifactId` and builds a
  release descriptor from a property bag. It registers listeners and puts one task per
  prepare, perform or rollback request into the matching queue.
- The prepare, perform and rollback task executors call the Maven release engine. They
  then record its result in the manager's two shared tables, prepared-releases and
  release-results.
- `JenkinsReleaseDescriptor` creates its environment map lazily, and its POM path
  defaults to `pom.xml`.
- `GenerateReactorProjectsPhase` appends the projects it reads to the reactor list and
  always reports SUCCESS.
- `RunPerformGoalsPhase` adds `-DperformRelease=true` to the arguments and moves the
  checkout directory to the matching POM.
- `MvnReleaseBuildWrapper` badges release builds. Its tearDown keeps the current build and
  releases the keep flag of the previous release build.
- `LastReleasePermalink` resolves to the newest successful release build.
- `TraceOutputStream` is Jenkins CLI's hex encoder for traced traffic.
- `progressiveTextTail.js` keeps the last N lines of a console tail.

One Dafny module per component, one file each:

- `java_lang` holds the Java values the code relies on: null as `Option`, exceptions, a
  mutable `HashMap`, `Boolean.valueOf`, `Properties.getProperty` and `new File(parent, child)`.
- `release_model` holds the maven-release values: the result record, settings, projects,
  the engine environment and the listener.
- Then `descriptor`, `tasks`, `release_manager`, `executors`, `generate_reactor_projects`,
  `run_perform_goals`, `builds`, `last_release_permalink`, `release_build_wrapper`,
  `trace` and `console_tail`.

Code that updates objects in place is modelled as classes with `modifies` frames:

- the manager, with three maps and three queues;
- the executors and the descriptor;
- the perform task and the wrapper;
- Jenkins runs, the reactor list, the string builder and the console-tail state.

Pure computations are functions with lemmas: the id, the argument strings, the prepared
descriptor fields, the first-match searches, the hex code and the split/join trimming.

The release engine and the other foreign calls are function-valued parameters:

- the descriptor store;
- the settings builder's outcome;
- `MavenEmbedder.readProjects`;
- the POM finder;
- the inherited goal runner.

A queue refusal is an optional rejection message. The clock and `user.dir` are
parameters.

Some behaviour follows from the code as written:

- `prepare` registers the listener before it tries the queue, so the listener stays
  registered when the queue refuses the task
  (`DefaultJenkinsReleaseManager.PrepareWithEnvironment`).
- The descriptor `getReleaseDescriptor` builds never has an embedder request
  (`PreparedDescriptorState` ensures this). Taking the manager's `core` descriptor and
  task classes to be the ones the executors cast to (see "Left out"), the prepare
  executor, reached with such a descriptor, throws NullPointerException at
  `getMavenEmbedderRequest().getMavenHome()`. The model throws there too, rather than
  requiring the request. With the classes kept apart, the executor's cast would fail
  first.
- `Boolean.valueOf` implies `BooleanUtils.toBoolean` (`EditModeGuardOnlyBlocksFalse`).
  So when the new descriptor's edit mode is off by default, the edit-mode guard never
  changes the outcome: edit mode ends as `Boolean.valueOf` of its property.
- For the prepare executor, the engine always gets an empty project list; only the
  perform executor reads the projects.
- `toHex` with a negative `len` below -2^30 does not throw. `len*2` wraps to a
  non-negative capacity, and the loop does not run. The model computes the capacity
  with 32-bit wrap-around (`Trace.Wrap32`).

## Model

| member | source | states |
|---|---|---|
| ReleaseModel.ReleaseResult.AppendError | maven-plugin/src/main/java/hudson/maven/release/executors/AbstractReleaseTaskExecutor.java:86-88 | appending an error marks the result ERROR, keeps both timestamps and adds one "[ERROR] " line with the message |
| ReleaseModel.ReleaseListener.Default | maven-plugin/src/main/java/hudson/maven/release/core/DefaultJenkinsReleaseManager.java:108-111 | the listener used when none is given is a new default listener that has reported no errors |
| ReleaseModel.ReleaseListener.Error | maven-plugin/src/main/java/hudson/maven/release/core/executors/RollbackReleaseTaskExecutor.java:58-61 | an error callback adds exactly that message to what the listener has heard |
| Descriptor.PomFileNameOrDefault | maven-plugin/src/main/java/hudson/maven/release/JenkinsReleaseDescriptor.java:87-90 | the POM file name is the one set, or "pom.xml" when none is |
| Descriptor.ReleaseDescriptor.constructor | maven-plugin/src/main/java/hudson/maven/release/core/DefaultJenkinsReleaseManager.java:223 | a new descriptor carries the default field values and no environment map |
| Descriptor.ReleaseDescriptor.FromState | maven-plugin/src/main/java/hudson/maven/release/core/DefaultJenkinsReleaseManager.java:287 | the descriptor a store read returns holds the stored values and no environment map |
| Descriptor.ReleaseDescriptor.GetEnvironments | maven-plugin/src/main/java/hudson/maven/release/JenkinsReleaseDescriptor.java:46-52 | never null: the first call installs a new empty map, later calls return that same map with its contents |
| Descriptor.ReleaseDescriptor.AddEnvironment | maven-plugin/src/main/java/hudson/maven/release/JenkinsReleaseDescriptor.java:42-44 | afterwards env[name] = value, every other key keeps its value, an existing value is overwritten and an existing map is kept |
| Descriptor.ReleaseDescriptor.MapEnvironments | maven-plugin/src/main/java/hudson/maven/release/JenkinsReleaseDescriptor.java:54-62 | callers must not repeat a name once a map exists; afterwards env[name] = value and the map has exactly one more entry |
| Descriptor.ReleaseDescriptor.SetEnvironments | maven-plugin/src/main/java/hudson/maven/release/JenkinsReleaseDescriptor.java:64-66 | the descriptor holds exactly the given map, or none |
| Descriptor.ReleaseDescriptor.ProjectDescriptorFile | maven-plugin/src/main/java/hudson/maven/release/JenkinsReleaseDescriptor.java:84-93 | the POM path is the working directory joined with the POM name (default "pom.xml"), or the bare name without a working directory |
| Descriptor.ResetEnvironments | maven-plugin/src/main/java/hudson/maven/release/JenkinsReleaseDescriptor.java:46-66 | setEnvironments(null) followed by getEnvironments yields a new, empty map that the descriptor now holds |
| Tasks.PerformReleaseProjectTask.constructor | maven-plugin/src/main/java/hudson/maven/release/tasks/PerformReleaseProjectTask.java:38-48 | goals, release-profile flag and build directory equal the arguments (the field default true never survives); the local repository stays null |
| Tasks.PerformReleaseProjectTask.SetGoals | maven-plugin/src/main/java/hudson/maven/release/tasks/PerformReleaseProjectTask.java:54-56 | sets the goals and no other field |
| Tasks.PerformReleaseProjectTask.SetUseReleaseProfile | maven-plugin/src/main/java/hudson/maven/release/tasks/PerformReleaseProjectTask.java:62-64 | sets the release-profile flag and no other field |
| Tasks.PerformReleaseProjectTask.SetBuildDirectory | maven-plugin/src/main/java/hudson/maven/release/tasks/PerformReleaseProjectTask.java:70-72 | sets the build directory and no other field |
| Tasks.PerformReleaseProjectTask.SetLocalRepository | maven-plugin/src/main/java/hudson/maven/release/tasks/PerformReleaseProjectTask.java:78-80 | sets the local repository and no other field |
| ReleaseManager.ReleaseId | maven-plugin/src/main/java/hudson/maven/release/core/DefaultJenkinsReleaseManager.java:103 | the id is the group id, a colon and the artifact id, each rendered "null" when unset: length, prefix, separator and suffix |
| ReleaseManager.SplitReleaseId | maven-plugin/src/main/java/hudson/maven/release/core/DefaultJenkinsReleaseManager.java:103 | inverse of the id: splitting at the first colon gives parts that rejoin to the id, and fails exactly when there is no colon |
| ReleaseManager.SplitJoinedId | maven-plugin/src/main/java/hudson/maven/release/core/DefaultJenkinsReleaseManager.java:103 | splitting group + ":" + artifact gives back both parts when the group holds no colon |
| ReleaseManager.ReleaseIdRoundTrip | maven-plugin/src/main/java/hudson/maven/release/core/DefaultJenkinsReleaseManager.java:103 | the id of a project whose group id has no colon splits back into its group and artifact ids |
| ReleaseManager.ReleaseIdInjective | maven-plugin/src/main/java/hudson/maven/release/core/DefaultJenkinsReleaseManager.java:103-113 | two such projects share a listener key only when both coordinates agree |
| ReleaseManager.WithLocalRepository | maven-plugin/src/main/java/hudson/maven/release/core/DefaultJenkinsReleaseManager.java:244-254 | no local repository: arguments unchanged; otherwise the quoted -Dmaven.repo.local flag ends the result, after the arguments and one space when they are non-empty, alone when they are null or empty |
| ReleaseManager.PreparedDescriptorState | maven-plugin/src/main/java/hudson/maven/release/core/DefaultJenkinsReleaseManager.java:221-278 | interactive is off; each copied field equals its property or argument; username, password, comment prefix and release profile take their property when the key is present and keep the new descriptor's default otherwise; edit mode is Boolean.valueOf of its property when toBoolean holds and the default otherwise; no embedder request is set |
| ReleaseManager.EditModeGuardOnlyBlocksFalse | maven-plugin/src/main/java/hudson/maven/release/core/DefaultJenkinsReleaseManager.java:239-242 | whenever the toBoolean guard fails, Boolean.valueOf of the same property is false |
| ReleaseManager.GetReleaseDescriptor | maven-plugin/src/main/java/hudson/maven/release/core/DefaultJenkinsReleaseManager.java:221-280 | a new descriptor whose fields are PreparedDescriptorState of the inputs and whose environment map is the one passed |
| ReleaseManager.ReadReleaseDescriptor | maven-plugin/src/main/java/hudson/maven/release/core/DefaultJenkinsReleaseManager.java:282-293 | the store sees a descriptor holding only the working directory; success gives a new descriptor with the stored values, failure a JenkinsReleaseException "Failed to parse descriptor file." caused by the store exception |
| ReleaseManager.DefaultJenkinsReleaseManager.constructor | maven-plugin/src/main/java/hudson/maven/release/core/DefaultJenkinsReleaseManager.java:78-92 | no map exists yet and all three queues are empty |
| ReleaseManager.DefaultJenkinsReleaseManager.GetPreparedReleases | maven-plugin/src/main/java/hudson/maven/release/core/DefaultJenkinsReleaseManager.java:201-207 | created empty on first call; every later call returns the same map with its contents unchanged |
| ReleaseManager.DefaultJenkinsReleaseManager.GetReleaseResults | maven-plugin/src/main/java/hudson/maven/release/core/DefaultJenkinsReleaseManager.java:213-219 | created empty on first call; every later call returns the same map with its contents unchanged |
| ReleaseManager.DefaultJenkinsReleaseManager.GetListeners | maven-plugin/src/main/java/hudson/maven/release/core/DefaultJenkinsReleaseManager.java:296-302 | created empty on first call; every later call returns the same map with its contents unchanged |
| ReleaseManager.DefaultJenkinsReleaseManager.RegisterListener | maven-plugin/src/main/java/hudson/maven/release/core/DefaultJenkinsReleaseManager.java:108-113 | the given listener, or a new default one when null, is stored under the id and no other key changes |
| ReleaseManager.DefaultJenkinsReleaseManager.Prepare | maven-plugin/src/main/java/hudson/maven/release/core/DefaultJenkinsReleaseManager.java:95-98 | the id keys the listener; no other listener changes; accepted: returns the id and enqueues one task; refused: fails and the queue is unchanged |
| ReleaseManager.DefaultJenkinsReleaseManager.PrepareWithEnvironment | maven-plugin/src/main/java/hudson/maven/release/core/DefaultJenkinsReleaseManager.java:101-123 | the same id keys the listener and the one new prepare task, which carries a new descriptor equal to PreparedDescriptorState and the given environments; a queue refusal raises JenkinsReleaseException with the queue cause and leaves the queue unchanged, the listener stays registered |
| ReleaseManager.DefaultJenkinsReleaseManager.Perform | maven-plugin/src/main/java/hudson/maven/release/core/DefaultJenkinsReleaseManager.java:126-129 | an id absent from prepared-releases changes nothing; otherwise the prepared descriptor gets the arguments, the call succeeds exactly when the queue accepts, only the listener under the id changes, and the old queue is kept, grown by one task on acceptance and unchanged on refusal |
| ReleaseManager.DefaultJenkinsReleaseManager.PerformWithRepository | maven-plugin/src/main/java/hudson/maven/release/core/DefaultJenkinsReleaseManager.java:132-138 | an absent id registers nothing and enqueues nothing; otherwise the prepared descriptor changes only its additional arguments and is enqueued by the shared path: only the listener under the id changes, and the old queue is kept, followed by exactly one new task on acceptance and unchanged on refusal; prepared-releases is unchanged |
| ReleaseManager.DefaultJenkinsReleaseManager.PerformFromWorkingDirectory | maven-plugin/src/main/java/hudson/maven/release/core/DefaultJenkinsReleaseManager.java:141-145 | a store failure is raised before any listener or task changes; otherwise a new descriptor with the stored values and the given arguments is enqueued: only the listener under the id changes, and the old queue is kept, followed by exactly one new task on acceptance and unchanged on refusal |
| ReleaseManager.DefaultJenkinsReleaseManager.PerformDescriptor | maven-plugin/src/main/java/hudson/maven/release/core/DefaultJenkinsReleaseManager.java:147-170 | the descriptor changes only its additional arguments; the given or a new default listener is registered under the id; the one new task has goals "package", release profile on and no local repository whatever was passed; a refusal raises and leaves the queue unchanged |
| ReleaseManager.DefaultJenkinsReleaseManager.Rollback | maven-plugin/src/main/java/hudson/maven/release/core/DefaultJenkinsReleaseManager.java:173-195 | listeners never change; a store failure is raised before anything is enqueued; otherwise one rollback task with the stored descriptor and the given or a default listener, or "Failed to rollback release." when the queue refuses |
| Executors.EngineEnvironment | maven-plugin/src/main/java/hudson/maven/release/executors/PrepareReleaseTaskExecutor.java:49-55 | the engine environment carries the current settings, executor id "forked-path" and the Maven home of the descriptor's embedder request |
| Executors.GetMavenProjects | maven-plugin/src/main/java/hudson/maven/release/executors/AbstractReleaseTaskExecutor.java:100-116 | the projects read from the descriptor's POM, or the empty list when reading fails; no exception |
| Executors.PerformFields | maven-plugin/src/main/java/hudson/maven/release/executors/PerformReleaseTaskExecutor.java:43-45 | the release profile, the perform goals and the checkout directory take the task's values; every other field is unchanged |
| Executors.ReleaseTaskExecutor.CreateReleaseResult | maven-plugin/src/main/java/hudson/maven/release/executors/AbstractReleaseTaskExecutor.java:130-138 | a new result (code UNDEFINED, no output) from the recorded start time to now; start <= end when the clock is monotone |
| Executors.ReleaseTaskExecutor.SetUp | maven-plugin/src/main/java/hudson/maven/release/executors/AbstractReleaseTaskExecutor.java:78-96 | the start time is recorded first; settings are re-read on every call; on a settings failure the failed result is stored under the id, the listener hears the message once and TaskExecutionException is raised |
| Executors.ReleaseTaskExecutor.ExecutePrepare | maven-plugin/src/main/java/hudson/maven/release/executors/PrepareReleaseTaskExecutor.java:39-67 | the engine runs with an empty project list, resume and dryRun off; its result with the executor's start time replaces results[id]; SUCCESS puts the descriptor under the id, any other code leaves prepared-releases unchanged; a null embedder request throws and changes nothing |
| Executors.ReleaseTaskExecutor.ExecutePerform | maven-plugin/src/main/java/hudson/maven/release/executors/PerformReleaseTaskExecutor.java:39-67 | release profile, goals and checkout directory are copied from the task before the engine runs; a missing build directory throws after the first two were copied; then as RunPerform |
| Executors.ReleaseTaskExecutor.RunPerform | maven-plugin/src/main/java/hudson/maven/release/executors/PerformReleaseTaskExecutor.java:47-66 | the engine's result with the executor's start time replaces results[id]; SUCCESS removes the id from prepared-releases, any other code leaves it; a null embedder request throws and changes nothing |
| Executors.ReleaseTaskExecutor.ExecuteRollback | maven-plugin/src/main/java/hudson/maven/release/core/executors/RollbackReleaseTaskExecutor.java:38-56 | the engine rolls back with the current settings and an empty list; either engine exception reaches the listener once and is raised as TaskExecutionException "Failed to rollback release"; neither map changes on any path |
| Executors.ReleaseTaskExecutor.UpdateListener | maven-plugin/src/main/java/hudson/maven/release/core/executors/RollbackReleaseTaskExecutor.java:58-61 | the listener hears exactly the message |
| Executors.ReleaseTaskExecutor.ExecuteTask | maven-plugin/src/main/java/hudson/maven/release/executors/AbstractReleaseTaskExecutor.java:72-76 | set-up runs first and records the start time; when it throws, no execute step runs (prepared-releases and the descriptor unchanged); a task of another executor's class is a ClassCastException; rollback never touches the maps after set-up |
| GenerateReactorProjects.ProjectList.AddAll | maven-plugin/src/main/java/hudson/maven/release/core/phase/GenerateReactorProjectsPhase.java:55 | the list becomes the old list followed by the new projects |
| GenerateReactorProjects.Execute | maven-plugin/src/main/java/hudson/maven/release/core/phase/GenerateReactorProjectsPhase.java:45-70 | result code always SUCCESS; a successful read appends the projects after the old list, a failed read leaves it unchanged; the old list is always a prefix |
| GenerateReactorProjects.Simulate | maven-plugin/src/main/java/hudson/maven/release/core/phase/GenerateReactorProjectsPhase.java:72-76 | the same as execute with the same settings |
| GenerateReactorProjects.ExecuteInEnvironment | maven-plugin/src/main/java/hudson/maven/release/core/phase/GenerateReactorProjectsPhase.java:78-82 | the same as execute with the environment's settings |
| GenerateReactorProjects.SimulateInEnvironment | maven-plugin/src/main/java/hudson/maven/release/core/phase/GenerateReactorProjectsPhase.java:84-88 | the same as execute with the environment's settings |
| JavaLang.Trim | maven-plugin/src/main/java/hudson/maven/release/phase/RunPerformGoalsPhase.java:29 | the trim that StringUtils.isEmpty applies is empty exactly when every character is at most U+0020, and otherwise starts and ends with a character above U+0020 |
| RunPerformGoals.PerformArguments | maven-plugin/src/main/java/hudson/maven/release/phase/RunPerformGoalsPhase.java:26-34 | without the release profile the arguments pass through; with it, -DperformRelease=true stands alone when the arguments are null or only whitespace, and otherwise ends them after the arguments and a space |
| RunPerformGoals.WorkDirectory | maven-plugin/src/main/java/hudson/maven/release/phase/RunPerformGoalsPhase.java:43-46 | the working directory, or the user.dir value when unset |
| RunPerformGoals.PomFile | maven-plugin/src/main/java/hudson/maven/release/phase/RunPerformGoalsPhase.java:48-53 | the POM is the POM name (default "pom.xml") inside the work directory |
| RunPerformGoals.RelocatedCheckout | maven-plugin/src/main/java/hudson/maven/release/phase/RunPerformGoalsPhase.java:53-64 | the checkout directory changes only when the POM parses and a matching POM is found, and then to that POM's directory |
| RunPerformGoals.Execute | maven-plugin/src/main/java/hudson/maven/release/phase/RunPerformGoalsPhase.java:23-67 | only the checkout directory of the descriptor changes and additionalArguments never does; a missing checkout directory throws before the goals run; otherwise the goals run in the relocated checkout with the computed arguments |
| Builds.BetterOrEqualToSuccess | maven-plugin/src/main/java/hudson/maven/release/MvnReleaseBuildWrapper.java:120 | only SUCCESS is better than or equal to SUCCESS |
| Builds.Run.KeepLog | maven-plugin/src/main/java/hudson/maven/release/MvnReleaseBuildWrapper.java:123-129 | sets the keep flag and nothing else |
| Builds.Run.AddAction | maven-plugin/src/main/java/hudson/maven/release/MvnReleaseBuildWrapper.java:112 | appends the action; the run has a release badge afterwards exactly when it had one or the new action is one |
| LastReleasePermalink.GetId | maven-plugin/src/main/java/hudson/maven/release/LastReleasePermalink.java:44-47 | the id is "lastRelease" |
| LastReleasePermalink.GetDisplayName | maven-plugin/src/main/java/hudson/maven/release/LastReleasePermalink.java:39-42 | the display name is "Last Release" |
| LastReleasePermalink.Resolve | maven-plugin/src/main/java/hudson/maven/release/LastReleasePermalink.java:49-57 | a result has a badge and result SUCCESS and no earlier run does; the result is null exactly when no run does |
| ReleaseBuildWrapper.FirstOtherRelease | maven-plugin/src/main/java/hudson/maven/release/MvnReleaseBuildWrapper.java:125-133 | the index of the first run with a badge, SUCCESS and another number; none exactly when no run qualifies |
| ReleaseBuildWrapper.RotatedRunIsPreviousRelease | maven-plugin/src/main/java/hudson/maven/release/MvnReleaseBuildWrapper.java:125-133 | when the current build heads the list and no other run has its number, the run tearDown un-keeps is the one the last-release permalink resolves to over the older runs (the release shown before this build), and none when there is no earlier release |
| ReleaseBuildWrapper.FirstOtherReleaseIsLastRelease | maven-plugin/src/main/java/hudson/maven/release/MvnReleaseBuildWrapper.java:125-133 | when the current build is in the list, is not itself a successful release and its number is unique, the run the loop would un-keep is the one the last-release permalink resolves to over the whole list |
| ReleaseBuildWrapper.FirstOtherReleaseApart | maven-plugin/src/main/java/hudson/maven/release/MvnReleaseBuildWrapper.java:125-133 | when no run carries the current number, the first other release is the last release |
| ReleaseBuildWrapper.MvnReleaseBuildWrapper.constructor | maven-plugin/src/main/java/hudson/maven/release/MvnReleaseBuildWrapper.java:84-92 | stores the release goals only; both select flags keep their defaults (false) whatever is passed; no release is enabled |
| ReleaseBuildWrapper.MvnReleaseBuildWrapper.EnableRelease | maven-plugin/src/main/java/hudson/maven/release/MvnReleaseBuildWrapper.java:147-149 | doRelease becomes true |
| ReleaseBuildWrapper.MvnReleaseBuildWrapper.SetReleaseVersion | maven-plugin/src/main/java/hudson/maven/release/MvnReleaseBuildWrapper.java:151-153 | stores the release version |
| ReleaseBuildWrapper.MvnReleaseBuildWrapper.SetUp | maven-plugin/src/main/java/hudson/maven/release/MvnReleaseBuildWrapper.java:99-112 | not releasing: the blank environment and no new action; releasing: exactly one badge "Release - <version>" is added and the rotating environment returned |
| ReleaseBuildWrapper.TearDown | maven-plugin/src/main/java/hudson/maven/release/MvnReleaseBuildWrapper.java:114-139 | returns true whenever it returns; the blank environment or a result worse than SUCCESS changes no keep flag; on SUCCESS the build is kept, the first other release loses its flag and every other run keeps its flag; a null result throws |
| ReleaseBuildWrapper.UnkeepFirstOtherRelease | maven-plugin/src/main/java/hudson/maven/release/MvnReleaseBuildWrapper.java:125-134 | the loop clears the keep flag of the first other release only and stops; every other run keeps its flag |
| Trace.HighNibble | cli/src/main/java/hudson/cli/TraceOutputStream.java:64 | (b >> 4) & 15 is a digit position below 16 |
| Trace.LowNibble | cli/src/main/java/hudson/cli/TraceOutputStream.java:65 | b & 15 is a digit position below 16 |
| Trace.Unsigned | cli/src/main/java/hudson/cli/TraceOutputStream.java:64-65 | the unsigned value of a byte is the byte itself, or the byte plus 256 when negative |
| Trace.HexEncode | cli/src/main/java/hudson/cli/TraceOutputStream.java:54-61 | the hex of len bytes has exactly 2·len characters |
| Trace.NibblesOfUnsigned | cli/src/main/java/hudson/cli/TraceOutputStream.java:63-66 | the two nibbles of a signed byte are the high and low hex digits of its unsigned value |
| Trace.ByteHexUnsigned | cli/src/main/java/hudson/cli/TraceOutputStream.java:63-66 | a negative byte is printed as the hex of its value mod 256 |
| Trace.HexEncodeAt | cli/src/main/java/hudson/cli/TraceOutputStream.java:54-66 | characters 2i and 2i+1 are CODE[(b>>4)&15] and CODE[b&15] for the i-th byte b |
| Trace.HexEncodeAlphabet | cli/src/main/java/hudson/cli/TraceOutputStream.java:52-66 | every output character is one of 0123456789abcdef |
| Trace.DigitValue | cli/src/main/java/hudson/cli/TraceOutputStream.java:52 | a character's position in CODE, none exactly for characters outside CODE |
| Trace.DigitValueOfCode | cli/src/main/java/hudson/cli/TraceOutputStream.java:52 | the sixteen digits of CODE are distinct |
| Trace.DecodeByte | cli/src/main/java/hudson/cli/TraceOutputStream.java:63-66 | a decoded byte encodes back to the two characters it came from |
| Trace.HexDecode | cli/src/main/java/hudson/cli/TraceOutputStream.java:54-66 | whatever decodes re-encodes to the same string |
| Trace.ByteHexInjective | cli/src/main/java/hudson/cli/TraceOutputStream.java:63-66 | distinct bytes have distinct two-character codes |
| Trace.DecodeByteHex | cli/src/main/java/hudson/cli/TraceOutputStream.java:63-66 | decoding a byte's code gives the byte back |
| Trace.HexRoundTrip | cli/src/main/java/hudson/cli/TraceOutputStream.java:54-66 | decoding the hex of any byte sequence gives the sequence back |
| Trace.Wrap32 | cli/src/main/java/hudson/cli/TraceOutputStream.java:55 | the Java int value of an expression: equal to it modulo 2^32 |
| Trace.ToByte | cli/src/main/java/hudson/cli/TraceOutputStream.java:34 | the cast keeps the value modulo 256 and leaves byte-range values unchanged |
| Trace.ToByteLowBits | cli/src/main/java/hudson/cli/TraceOutputStream.java:33-35 | write(int) looks only at the low eight bits of its argument |
| Trace.ToHexResult | cli/src/main/java/hudson/cli/TraceOutputStream.java:54-61 | a success is empty for len <= 0 and otherwise the hex of buf[start..start+len] within bounds; in-bounds arguments with len below 2^30 always succeed with 2·len characters; failures are NegativeArraySizeException or ArrayIndexOutOfBoundsException only |
| Trace.AppendByteHex | cli/src/main/java/hudson/cli/TraceOutputStream.java:63-67 | returns the same builder, whose old contents stay a prefix followed by exactly the two characters of the byte |
| Trace.ToHex | cli/src/main/java/hudson/cli/TraceOutputStream.java:54-61 | the loop returns or throws exactly what ToHexResult says |
| Trace.TraceOutputStream.Write | cli/src/main/java/hudson/cli/TraceOutputStream.java:33-35 | prints one line: the code of the low byte of the argument |
| Trace.TraceOutputStream.WriteBytes | cli/src/main/java/hudson/cli/TraceOutputStream.java:38-40 | prints the hex of the slice as one line, or propagates toHex's exception and prints nothing |
| ConsoleTail.Split | core/src/main/resources/lib/hudson/progressiveTextTail/progressiveTextTail.js:22 | split('\n') yields at least one piece and no piece holds a newline |
| ConsoleTail.JoinSplit | core/src/main/resources/lib/hudson/progressiveTextTail/progressiveTextTail.js:22-27 | joining the split pieces with newlines gives the text back |
| ConsoleTail.SplitJoin | core/src/main/resources/lib/hudson/progressiveTextTail/progressiveTextTail.js:26-27 | splitting lines joined with newlines gives back the lines when none holds a newline |
| ConsoleTail.SplitDropIsSuffix | core/src/main/resources/lib/hudson/progressiveTextTail/progressiveTextTail.js:25-27 | dropping leading pieces and joining the rest yields a suffix of the text |
| ConsoleTail.TailText | core/src/main/resources/lib/hudson/progressiveTextTail/progressiveTextTail.js:19-31 | text with at most N lines is shown unchanged; otherwise the shown text is a suffix of old+new with exactly the last N lines; N <= 0 shows nothing |
| ConsoleTail.ProgressiveTextTail.constructor | core/src/main/resources/lib/hudson/progressiveTextTail/progressiveTextTail.js:2-5 | offset is the attribute clamped at zero; no annotator yet |
| ConsoleTail.ProgressiveTextTail.OnComplete | core/src/main/resources/lib/hudson/progressiveTextTail/progressiveTextTail.js:16-46 | an empty response leaves the text; otherwise the text becomes TailText(old + new); offset and annotator take the response headers in every case; another fetch is scheduled exactly when X-More-Data is "true", and the element is marked done otherwise |

## Left out

- Concurrency: the static maps are one manager object, and the queues' blocking and
  threading are not modelled. A queue refusal is a rejection message given to the call.
- The Maven release engine, `ReleaseDescriptorStore`, `MavenSettingsBuilder`,
  `MavenEmbedder.readProjects`, `PomFinder` and the superclass goal runner are oracles.
  Their effects on the descriptor, the listener, the working copy and the SCM are not
  modelled. The listener the engine receives is not passed to the oracle.
- `sanitizeTagName` is a foreign SCM call and is not part of this model.
- `System.currentTimeMillis` and `System.getProperty("user.dir")` are parameters.
  Monotonicity of the clock appears only as the hypothesis of `CreateReleaseResult`'s
  ordering clause.
- The test's claim that a successful perform stores a result with start and end times
  above zero and code SUCCESS is not a lemma. The end time and the code come from the
  engine oracle. The model states that the stored start time is the executor's set-up
  time.
- The manager (package `hudson.maven.release.core`) builds `core.JenkinsReleaseDescriptor`
  and enqueues `core.tasks` tasks, while the prepare and perform executors cast to
  `hudson.maven.release.JenkinsReleaseDescriptor` and `hudson.maven.release.tasks`.
  The model has one descriptor class (`Descriptor.ReleaseDescriptor`) and one set of
  tasks (`Tasks`) for both. A ClassCastException between the two sets of classes is not
  modelled.
- `GenerateReactorProjects.Execute` takes a Jenkins descriptor. The
  `(JenkinsReleaseDescriptor)` cast at the start of `execute`, and the
  ClassCastException it raises for any other descriptor, are not modelled.
- `ReleaseManager.PreparedDescriptorState`: maven-release's `ReleaseDescriptor`, whose
  field defaults a new descriptor starts from, is not part of this model.
  `Descriptor.DefaultState` assumes them: interactive and release profile on, every other
  flag off, no strings set (the library may well default the comment prefix to a string).
  The contract states each absent key or failed guard as keeping `DefaultState`'s value.
  So the clauses on username, password, comment prefix, release profile and edit mode hold
  for the real defaults once those replace the assumed ones.
- The rollback executor's superclass `core.executors.AbstractReleaseTaskExecutor` is not
  part of this model. It is taken to have the shape of
  `executors.AbstractReleaseTaskExecutor`.
- Logging is left out: `printStackTrace`, `getLogger().info` and the wrapper's console lines.
  `DefaultReleaseManagerListener` is left out apart from its error callback.
- The property bag is a map from string to string, so non-string `Properties` values and
  default tables are left out.
- `new File(parent, child)` is `parent + "/" + child`, with no path normalisation. A
  `File` argument stands for its absolute path.
- `RunPerformGoals.Execute`: the POM finder yields the matching POM's parent directory
  directly, instead of a `File` whose parent is taken.
- `Descriptor.ReleaseDescriptor.MapEnvironments` requires the name to be new when a map
  exists, as the Java `assert` demands. Running with assertions disabled (which would
  overwrite the entry) is not modelled.
- `ReleaseManager.DefaultJenkinsReleaseManager.Prepare` states the listener, the id and
  the queue length only. The queued task is stated by `PrepareWithEnvironment`, which it
  calls.
- `ReleaseManager.DefaultJenkinsReleaseManager.Perform` states the no-op case, the
  argument update and the listener and queue framing only. The contents of the enqueued
  task are stated by `PerformWithRepository`.
- `Executors.ReleaseTaskExecutor.ExecuteTask` does not repeat the prepare and perform
  outcomes. Those are the contracts of `ExecutePrepare` and `ExecutePerform`, which it
  dispatches to.
- `MvnReleaseBuildWrapper` permission checks, `DescriptorImpl` configuration and
  persistence, `getProjectAction`, `getModuleSet` and the remaining setters and getters
  are left out. They are Jenkins security, persistence and UI plumbing.
- The wrapper's tearDown gets the project's builds as a list argument. `bld.getProject()`
  is not modelled, and `bld` may or may not be in the list.
- `TraceOutputStream`: the `PrintWriter` is the list of printed lines. `wrap`, `flush`,
  `close` and the file are I/O and are left out. The buffer is a value, so a null `buf`
  and its NullPointerException cannot arise.
- `progressiveTextTail.js`: Ajax, `setTimeout`, the request headers, DOM class handling
  and HTML escaping of `innerHTML` (treated as plain text) are left out. `lines` is an
  integer: a NaN from `parseInt` is not modelled.

/** RunPerformGoalsPhase (the Jenkins override): builds the argument string, locates the
    POM, moves the checkout directory to the matching POM's directory, then hands over to
    maven-release's goal runner. */
module RunPerformGoals {
  import opened JavaLang
  import opened ReleaseModel
  import opened Descriptor

  const PERFORM_RELEASE_FLAG: string := "-DperformRelease=true"

  /** The arguments the goals run with. With the release profile, the flag is appended
      after a space, or stands alone when the arguments are null or only whitespace
      (StringUtils.isEmpty trims); without it, they pass through unchanged. */
  function PerformArguments(args: Option<string>, useReleaseProfile: bool): (r: Option<string>)
    ensures !useReleaseProfile ==> r == args
    ensures useReleaseProfile && (args.None? || forall i :: 0 <= i < |args.value| ==> args.value[i] <= ' ') ==>
              r == Some(PERFORM_RELEASE_FLAG)
    ensures useReleaseProfile && !IsBlank(args) ==>
              && r.Some? && |r.value| == |args.value| + 1 + |PERFORM_RELEASE_FLAG|
              && r.value[..|args.value|] == args.value && r.value[|args.value|] == ' '
              && IsSuffix(PERFORM_RELEASE_FLAG, r.value)
  {
    if useReleaseProfile then
      if !IsBlank(args) then Some(args.value + " " + PERFORM_RELEASE_FLAG) else Some(PERFORM_RELEASE_FLAG)
    else args
  }

  /** The working directory, or the `user.dir` system property when it is unset. */
  function WorkDirectory(workingDirectory: Option<string>, userDir: string): (dir: string)
    ensures workingDirectory.Some? ==> dir == workingDirectory.value
    ensures workingDirectory.None? ==> dir == userDir
  {
    workingDirectory.GetOr(userDir)
  }

  /** The POM the phase parses: the POM file name (default "pom.xml") inside the work
      directory. */
  function PomFile(fields: DescriptorState, userDir: string): (path: string)
    ensures path == WorkDirectory(fields.workingDirectory, userDir) + "/" + PomFileNameOrDefault(fields.pomFileName)
  {
    NewFile(Some(WorkDirectory(fields.workingDirectory, userDir)), PomFileNameOrDefault(fields.pomFileName))
  }

  /** maven-release's PomFinder: whether a POM parses, and the directory holding the POM
      under a checkout directory that matches the parsed one (null when none matches). */
  datatype PomFinder = PomFinder(parsePom: string -> bool, findMatchingPomParent: string -> Option<string>)

  /** The inherited execute(descriptor, environment, workingDirectory, arguments) that
      runs the goals: its result, or the exception it raised. */
  type GoalRunner = (DescriptorState, ReleaseEnvironment, string, Option<string>) -> Result<ReleaseResult, Exception>

  /** The checkout directory after relocation: the matching POM's directory when the POM
      parses and a match is found, otherwise unchanged. */
  function RelocatedCheckout(fields: DescriptorState, userDir: string, finder: PomFinder): (c: Option<string>)
    ensures fields.checkoutDirectory.None? ==> c.None?
    ensures c != fields.checkoutDirectory ==>
              && finder.parsePom(PomFile(fields, userDir))
              && fields.checkoutDirectory.Some?
              && c.Some?
              && c == finder.findMatchingPomParent(fields.checkoutDirectory.value)
    ensures finder.parsePom(PomFile(fields, userDir)) && fields.checkoutDirectory.Some?
            && finder.findMatchingPomParent(fields.checkoutDirectory.value).Some? ==>
              c == finder.findMatchingPomParent(fields.checkoutDirectory.value)
  {
    var checkout := fields.checkoutDirectory;
    if finder.parsePom(PomFile(fields, userDir)) && checkout.Some? then
      match finder.findMatchingPomParent(checkout.value)
      case Some(parent) => Some(parent)
      case None => checkout
    else checkout
  }

  /** execute: only the checkout directory of the descriptor may change (the computed
      arguments are passed to the runner, never stored); a missing checkout directory
      throws NullPointerException, from `new File(null)`, before any goal runs. */
  method Execute(d: ReleaseDescriptor, env: ReleaseEnvironment, userDir: string, finder: PomFinder, runGoals: GoalRunner)
    returns (r: Result<ReleaseResult, Exception>)
    modifies d`fields
    ensures d.fields == old(d.fields).(checkoutDirectory := RelocatedCheckout(old(d.fields), userDir, finder))
    ensures d.fields.additionalArguments == old(d.fields.additionalArguments)
    ensures old(d.fields.checkoutDirectory).None? ==> r == Failure(Exception(NullPointerException, "", None))
    ensures old(d.fields.checkoutDirectory).Some? ==>
              && d.fields.checkoutDirectory.Some?
              && r == runGoals(d.fields, env, d.fields.checkoutDirectory.value,
                               PerformArguments(old(d.fields.additionalArguments), old(d.fields.useReleaseProfile)))
  {
    var additionalArguments := PerformArguments(d.fields.additionalArguments, d.fields.useReleaseProfile);
    var pomFile := PomFile(d.fields, userDir);
    var foundPom := finder.parsePom(pomFile);
    if foundPom {
      if d.fields.checkoutDirectory.None? {
        r := Failure(Exception(NullPointerException, "", None));
        return;
      }
      var matchingPomParent := finder.findMatchingPomParent(d.fields.checkoutDirectory.value);
      if matchingPomParent.Some? {
        d.fields := d.fields.(checkoutDirectory := matchingPomParent);
      }
    }
    if d.fields.checkoutDirectory.None? {
      r := Failure(Exception(NullPointerException, "", None));
      return;
    }
    r := runGoals(d.fields, env, d.fields.checkoutDirectory.value, additionalArguments);
  }
}

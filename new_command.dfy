/**
 * `nwb new` (`src/commands/new.js`): the checks made before a project is
 * created, in order, and the message announcing the creation.
 *
 * `directoryExists` and `path.resolve` are function parameters; the
 * callback's error is the `Fail` outcome.
 */
module NewCommand {
  import opened Text
  import opened CliArgs
  import CreateProject

  /** What a command does: fail with a user error, or announce and create a project. */
  datatype Outcome =
    | Fail(message: string)
    | Create(projectType: string, name: string, targetDir: string, announcement: string)

  /** `/^[aeiou]/.test(projectType) ? 'an' : 'a'`. */
  function Article(projectType: string): (r: string)
    ensures r == "an" <==> |projectType| > 0 && projectType[0] in "aeiou"
    ensures r == "an" || r == "a"
  {
    if |projectType| > 0 && projectType[0] in "aeiou" then "an" else "a"
  }

  function NewUsage(projectTypes: seq<string>): string
  {
    "usage: nwb new [" + Join(projectTypes, "|") + "] <name>"
  }

  const MISSING_NAME := "A project name must be provided"

  function DirectoryExistsMessage(name: string): string
  {
    "A " + name + "/ directory already exists"
  }

  /** `new_(args, cb)`. */
  function New(args: Args, projectTypes: seq<string>, directoryExists: string -> bool, resolve: string -> string): (r: Outcome)
    ensures r.Create? ==>
      r.projectType in projectTypes && r.name != "" && !directoryExists(r.name) && r.targetDir == resolve(r.name)
  {
    if |args.positional| == 1 then Fail(NewUsage(projectTypes))
    else
      var projectType := Positional(args, 1);
      var invalid := CreateProject.ValidateProjectType(projectType, projectTypes);
      if invalid.Some? then Fail(invalid.value)
      else
        var name := Positional(args, 2);
        if !Truthy(name) then Fail(MISSING_NAME)
        else if directoryExists(name.s) then Fail(DirectoryExistsMessage(name.s))
        else Create(projectType.s, name.s, resolve(name.s),
                    "Creating " + Article(projectType.s) + " " + projectType.s + " project...")
  }

  /**
   * The checks run in order and the first that fails decides the message:
   * usage, then the project type, then the name, then an existing directory.
   * A project is created only when all of them pass, in the resolved directory.
   */
  lemma NewGuardOrder(args: Args, projectTypes: seq<string>, directoryExists: string -> bool, resolve: string -> string)
    ensures var outcome := New(args, projectTypes, directoryExists, resolve);
      var projectType := Positional(args, 1);
      var name := Positional(args, 2);
      var validation := CreateProject.ValidateProjectType(projectType, projectTypes);
      (|args.positional| == 1 ==> outcome == Fail(NewUsage(projectTypes)))
      && (|args.positional| != 1 && validation.Some? ==> outcome == Fail(validation.value))
      && (|args.positional| != 1 && validation.None? && !Truthy(name) ==> outcome == Fail(MISSING_NAME))
      && (|args.positional| != 1 && validation.None? && Truthy(name) && directoryExists(name.s) ==>
            outcome == Fail(DirectoryExistsMessage(name.s)))
      && (outcome.Create? <==>
            |args.positional| != 1 && validation.None? && Truthy(name) && !directoryExists(name.s))
      && (outcome.Create? ==>
            outcome == Create(projectType.s, name.s, resolve(name.s),
                              "Creating " + Article(projectType.s) + " " + projectType.s + " project..."))
  {
  }

  /** A project type naming one of the listed types is validated as such, whatever the other arguments are. */
  lemma NewCreatesListedType(args: Args, projectTypes: seq<string>, directoryExists: string -> bool, resolve: string -> string)
    ensures var outcome := New(args, projectTypes, directoryExists, resolve);
      outcome.Create? ==> (
        outcome.projectType in projectTypes && outcome.projectType != "" && outcome.name != ""
        && outcome.projectType == args.positional[1] && outcome.name == args.positional[2])
  {
  }
}

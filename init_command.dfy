/**
 * `nwb init` (`src/commands/init.js`): like `nwb new`, but in the current
 * directory, whose name the project takes when none is given.
 *
 * `process.cwd()` is the parameter `cwd`.
 */
module InitCommand {
  import opened Text
  import opened CliArgs
  import CreateProject
  import opened NewCommand

  /** The path without its trailing separators. */
  function TrimTrailingSeparators(path: string): (r: string)
    decreases |path|
    ensures StartsWith(path, r)
    ensures r == [] || r[|r| - 1] != '/'
    ensures forall k :: |r| <= k < |path| ==> path[k] == '/'
  {
    if path != [] && path[|path| - 1] == '/' then TrimTrailingSeparators(path[..|path| - 1]) else path
  }

  /** The text after the last separator. */
  function LastSegment(path: string): (r: string)
    decreases |path|
    ensures EndsWith(path, r) && '/' !in r
    ensures |r| < |path| ==> path[|path| - |r| - 1] == '/'
  {
    if path == [] || path[|path| - 1] == '/' then []
    else LastSegment(path[..|path| - 1]) + [path[|path| - 1]]
  }

  /** `path.basename(path)`: the last segment, ignoring trailing separators. */
  function Basename(path: string): (r: string)
    ensures '/' !in r && EndsWith(TrimTrailingSeparators(path), r)
  {
    LastSegment(TrimTrailingSeparators(path))
  }

  /** The base name is a separator-free piece of the path, not empty unless the path holds only separators. */
  lemma BasenameShape(path: string)
    ensures '/' !in Basename(path)
    ensures (exists k :: 0 <= k < |path| && path[k] != '/') ==> Basename(path) != ""
  {
    var trimmed := TrimTrailingSeparators(path);
    if exists k :: 0 <= k < |path| && path[k] != '/' {
      TrimKeepsLastSegment(path);
    }
  }

  /** Trimming leaves a last character that is not a separator when the path has one. */
  lemma {:induction false} TrimKeepsLastSegment(path: string)
    requires exists k :: 0 <= k < |path| && path[k] != '/'
    ensures TrimTrailingSeparators(path) != []
    decreases |path|
  {
    if path[|path| - 1] == '/' {
      var k :| 0 <= k < |path| && path[k] != '/';
      assert k < |path| - 1;
      assert path[..|path| - 1][k] != '/';
      TrimKeepsLastSegment(path[..|path| - 1]);
    }
  }

  function InitUsage(projectTypes: seq<string>): string
  {
    "usage: nwb init [" + Join(projectTypes, "|") + "] [name]"
  }

  /** `init(args, cb)`. */
  function Init(args: Args, projectTypes: seq<string>, cwd: string): (r: Outcome)
    ensures r.Create? ==> r.projectType in projectTypes && r.targetDir == cwd
  {
    if |args.positional| == 1 then Fail(InitUsage(projectTypes))
    else
      var projectType := Positional(args, 1);
      var invalid := CreateProject.ValidateProjectType(projectType, projectTypes);
      if invalid.Some? then Fail(invalid.value)
      else
        var name := if Truthy(Positional(args, 2)) then Positional(args, 2).s else Basename(cwd);
        Create(projectType.s, name, cwd, "Initialising " + Article(projectType.s) + " " + projectType.s + " project...")
  }

  /**
   * Usage first, then the project type; there is no check of the name, which
   * defaults to the base name of the current directory, and the project is
   * created in the current directory.
   */
  lemma InitGuardOrder(args: Args, projectTypes: seq<string>, cwd: string)
    ensures var outcome := Init(args, projectTypes, cwd);
      var projectType := Positional(args, 1);
      var name := Positional(args, 2);
      var validation := CreateProject.ValidateProjectType(projectType, projectTypes);
      (|args.positional| == 1 ==> outcome == Fail(InitUsage(projectTypes)))
      && (|args.positional| != 1 && validation.Some? ==> outcome == Fail(validation.value))
      && (outcome.Create? <==> |args.positional| != 1 && validation.None?)
      && (outcome.Create? ==>
            outcome.targetDir == cwd && outcome.projectType == projectType.s
            && outcome.name == (if Truthy(name) then name.s else Basename(cwd))
            && outcome.announcement == "Initialising " + Article(projectType.s) + " " + projectType.s + " project...")
  {
  }

  /** `init` never fails for want of a name: its only failures are its usage and the type check. */
  lemma InitNeedsNoName(args: Args, projectTypes: seq<string>, cwd: string)
    ensures Init(args, projectTypes, cwd) != Fail(MISSING_NAME)
  {
    var outcome := Init(args, projectTypes, cwd);
    if outcome.Fail? && |args.positional| != 1 {
      assert outcome.message == CreateProject.ProvideTypeMessage(projectTypes)
          || outcome.message == CreateProject.TypeOneOfMessage(projectTypes);
      assert MISSING_NAME[10] == 'n' && MISSING_NAME[0] == 'A';
      assert CreateProject.ProvideTypeMessage(projectTypes)[10] == 't';
      assert CreateProject.TypeOneOfMessage(projectTypes)[0] == 'P';
    } else if outcome.Fail? {
      assert InitUsage(projectTypes)[0] == 'u' && MISSING_NAME[0] == 'A';
    }
  }

  /** Whatever `new` would create, `init` creates too, with the same type and name. */
  lemma InitCreatesWhatNewCreates(args: Args, projectTypes: seq<string>, cwd: string,
                                  directoryExists: string -> bool, resolve: string -> string)
    requires New(args, projectTypes, directoryExists, resolve).Create?
    ensures Init(args, projectTypes, cwd).Create?
    ensures Init(args, projectTypes, cwd).projectType == New(args, projectTypes, directoryExists, resolve).projectType
    ensures Init(args, projectTypes, cwd).name == New(args, projectTypes, directoryExists, resolve).name
  {
  }
}

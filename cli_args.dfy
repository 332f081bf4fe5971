/**
 * The parsed command-line argument object the commands receive: positional
 * arguments (`args._`) and flag fields. A flag value is absent, a boolean
 * (`--x`, `--no-x`) or a string (`--x=value`), which is enough to state
 * `=== false`, `!== true`, truthiness and string conversion precisely.
 */
module CliArgs {

  datatype Arg = Absent | Bool(b: bool) | Str(s: string)

  /** JavaScript truthiness of a flag value. */
  predicate Truthy(v: Arg)
  {
    match v
    case Absent => false
    case Bool(b) => b
    case Str(s) => s != ""
  }

  /** `String(v)`, as template literals and `RegExp.prototype.test` convert a value. */
  function ToJsString(v: Arg): string
  {
    match v
    case Absent => "undefined"
    case Bool(b) => if b then "true" else "false"
    case Str(s) => s
  }

  datatype Args = Args(positional: seq<string>, flags: map<string, Arg>)

  /** `args[key]`. */
  function Flag(args: Args, key: string): Arg
  {
    if key in args.flags then args.flags[key] else Absent
  }

  /** `key in args`. */
  predicate HasFlag(args: Args, key: string)
  {
    key in args.flags
  }

  /** `args._[i]`. */
  function Positional(args: Args, i: nat): Arg
  {
    if i < |args.positional| then Str(args.positional[i]) else Absent
  }
}

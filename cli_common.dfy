/** The shared command-line helpers (utils/cli_common.py): the guards `validate_args` applies to
    parsed arguments, the header `print_tool_header` prints, and the exit behaviour of the
    `handle_keyboard_interrupt` wrapper. Which files exist is a parameter. */
module CliCommon {
  import opened Wrappers
  import opened Text

  /** The value of one attribute of the argparse namespace. A `Path` is always truthy in
      Python; a string is truthy when non-empty. */
  datatype ArgValue = ABool(b: bool) | AStr(s: string) | APath(path: string) | ANone

  type Namespace = map<string, ArgValue>

  predicate Truthy(v: ArgValue) {
    match v
    case ABool(b) => b
    case AStr(s) => s != ""
    case APath(_) => true
    case ANone => false
  }

  /** `getattr(args, name, False)` used as a condition (also `hasattr(args, name) and
      args.name`). */
  predicate IsSet(args: Namespace, name: string) {
    name in args && Truthy(args[name])
  }

  /** The text of `Path(v)` for a truthy path or string value. */
  function PathText(v: ArgValue): string {
    match v
    case AStr(s) => s
    case APath(p) => p
    case _ => ""
  }

  /** A `sys.exit(code)` together with the lines printed to standard error before it. */
  datatype Exit = Exit(code: int, stderr: seq<string>)

  const MutuallyExclusive := "Error: --verbose and --quiet are mutually exclusive"
  const OverwriteHint := "Use --overwrite to replace existing files"

  /** The output guard: an output path is given, that file exists, and overwriting is off. */
  predicate OutputBlocked(args: Namespace, existing: set<string>) {
    IsSet(args, "output") && PathText(args["output"]) in existing && !IsSet(args, "overwrite")
  }

  /** `validate_args`: exit 1 when both --verbose and --quiet are set (checked first), exit 1
      when the output file exists and --overwrite is not set, and otherwise a copy of the
      arguments, unchanged. */
  function ValidateArgs(args: Namespace, existing: set<string>): (r: Result<Namespace, Exit>)
    ensures r.Success? <==> !(IsSet(args, "verbose") && IsSet(args, "quiet")) && !OutputBlocked(args, existing)
    ensures r.Success? ==> r.value == args
    ensures r.Failure? ==> r.error.code == 1
    ensures IsSet(args, "verbose") && IsSet(args, "quiet") ==> r == Failure(Exit(1, [MutuallyExclusive]))
    ensures !(IsSet(args, "verbose") && IsSet(args, "quiet")) && OutputBlocked(args, existing) ==>
              r == Failure(Exit(1, ["Error: Output file exists: " + PathText(args["output"]), OverwriteHint]))
  {
    var validated := args;
    if IsSet(args, "verbose") && IsSet(args, "quiet") then
      Failure(Exit(1, [MutuallyExclusive]))
    else if OutputBlocked(args, existing) then
      Failure(Exit(1, ["Error: Output file exists: " + PathText(args["output"]), OverwriteHint]))
    else
      Success(validated)
  }

  /** The order of the guards: with both --verbose and --quiet, the existing output file is
      never mentioned, and which files exist does not matter. */
  lemma ConflictReportedFirst(args: Namespace, existing: set<string>, other: set<string>)
    requires IsSet(args, "verbose") && IsSet(args, "quiet")
    ensures ValidateArgs(args, existing) == ValidateArgs(args, other)
    ensures |ValidateArgs(args, existing).error.stderr| == 1
  {
  }

  /** Without an output path, or with overwriting allowed, the file system never decides the
      outcome. */
  lemma OutputGuardNeedsExistingFile(args: Namespace, existing: set<string>)
    requires !IsSet(args, "output") || IsSet(args, "overwrite")
    ensures ValidateArgs(args, existing) == ValidateArgs(args, {})
  {
  }

  /** The first line of `print_tool_header`. */
  function Header(toolName: string, version: Option<string>): string {
    var header := "AWS Ontology - " + toolName;
    if version.Some? && version.value != "" then header + " v" + version.value else header
  }

  /** `print_tool_header`: the header, an underline of '=' exactly as long, and an empty line. */
  function ToolHeader(toolName: string, version: Option<string>): (lines: seq<string>)
    ensures |lines| == 3 && lines[2] == ""
    ensures StartsWith(lines[0], "AWS Ontology - " + toolName)
    ensures version.Some? && version.value != "" ==>
              lines[0] == "AWS Ontology - " + toolName + " v" + version.value
    ensures version.None? || version.value == "" ==> lines[0] == "AWS Ontology - " + toolName
    ensures |lines[1]| == |lines[0]| && forall k :: 0 <= k < |lines[1]| ==> lines[1][k] == '='
  {
    var header := Header(toolName, version);
    assert ("AWS Ontology - " + toolName + " v" + version.GetOr(""))[..|"AWS Ontology - " + toolName|]
           == "AWS Ontology - " + toolName;
    [header, Repeat('=', |header|), ""]
  }

  /** The underline's length: 15 characters of prefix, the name, and " v" plus the version
      when one is given. */
  lemma UnderlineLength(toolName: string, version: Option<string>)
    ensures |ToolHeader(toolName, version)[1]|
            == 15 + |toolName| + (if version.Some? && version.value != "" then 2 + |version.value| else 0)
  {
  }

  // ---------------------------------------------------------------- handle_keyboard_interrupt

  datatype Exception = KeyboardInterrupt | SystemExit(code: int) | OtherError(name: string)

  /** How a call ended: with a value or an exception, and what it printed to standard error. */
  datatype Outcome<T> = Returned(value: T, stderr: seq<string>) | Raised(exc: Exception, stderr: seq<string>)

  const CancelledMessage := "\nOperation cancelled by user"

  /** The wrapper `handle_keyboard_interrupt` puts around a call: an interrupt becomes exit 130
      after a message on standard error; every other outcome passes through unchanged. */
  function HandleKeyboardInterrupt<T>(o: Outcome<T>): (r: Outcome<T>)
    ensures !(o.Raised? && o.exc == KeyboardInterrupt) ==> r == o
    ensures o.Raised? && o.exc == KeyboardInterrupt ==>
              r == Raised(SystemExit(130), o.stderr + [CancelledMessage])
    ensures r.Raised? ==> r.exc != KeyboardInterrupt
  {
    match o
    case Raised(KeyboardInterrupt, err) => Raised(SystemExit(130), err + [CancelledMessage])
    case _ => o
  }

  /** Wrapping an already wrapped call changes nothing: the exit it raises is not an
      interrupt. */
  lemma HandleKeyboardInterruptIdempotent<T>(o: Outcome<T>)
    ensures HandleKeyboardInterrupt(HandleKeyboardInterrupt(o)) == HandleKeyboardInterrupt(o)
  {
  }
}

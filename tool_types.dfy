/**
 * What the tools share: the already parsed JSON arguments of a tool call, the
 * result every executor reports, the function definitions offered to the
 * model, and the abstract terminal executor that runs a shell command.
 */
module ToolTypes {
  import opened Wrappers
  import Js

  /** A JSON value of a parsed tool argument (numbers are integers here). */
  datatype Value = Null | Bool(b: bool) | Num(n: int) | Str(s: string)

  /** The arguments of a tool call, keyed by parameter name. */
  type ToolArgs = map<string, Value>

  /** `args[key]`: `None` is JavaScript's `undefined`. */
  function Lookup(args: ToolArgs, key: string): (v: Option<Value>)
    ensures v.Some? <==> key in args
    ensures v.Some? ==> v.value == args[key]
  {
    if key in args then Some(args[key]) else None
  }

  /** JavaScript truthiness: `undefined`, `null`, `false`, `0` and `""` are falsy. */
  predicate Truthy(v: Option<Value>)
  {
    match v
    case None => false
    case Some(Null) => false
    case Some(Bool(b)) => b
    case Some(Num(n)) => n != 0
    case Some(Str(s)) => s != ""
  }

  /** How a template literal interpolates a value: `${v}`. */
  function Text(v: Option<Value>): (r: string)
    ensures v.Some? && v.value.Str? ==> r == v.value.s
    ensures v.None? ==> r == "undefined"
  {
    match v
    case None => "undefined"
    case Some(Null) => "null"
    case Some(Bool(b)) => if b then "true" else "false"
    case Some(Num(n)) => Js.IntToString(n)
    case Some(Str(s)) => s
  }

  /** What an executor reports: `error` is set exactly on failure. */
  datatype ToolExecutionResult = ToolExecutionResult(success: bool, output: string, error: Option<string>)

  function Failure(message: string): (r: ToolExecutionResult)
    ensures WellFormed(r) && !r.success && r.error == Some(message)
  {
    ToolExecutionResult(false, "", Some(message))
  }

  function Success(output: string): (r: ToolExecutionResult)
    ensures WellFormed(r) && r.success && r.output == output
  {
    ToolExecutionResult(true, output, None)
  }

  /** The shape every executor keeps: a failure carries an error and no output. */
  predicate WellFormed(r: ToolExecutionResult)
  {
    (r.success <==> r.error.None?) && (!r.success ==> r.output == "")
  }

  /** One property of a function's JSON-schema parameters. */
  datatype Parameter = Parameter(
    name: string,
    paramType: string,
    description: string,
    minimum: Option<int>,
    maximum: Option<int>)

  /** A function definition as the Responses API receives it. */
  datatype FunctionTool = FunctionTool(
    name: string,
    description: string,
    strict: bool,
    parameters: seq<Parameter>,
    required: seq<string>)

  /** A tool: its definition, whether a person must approve each call, and its renderers. */
  datatype TermsterTool = TermsterTool(
    definition: FunctionTool,
    requiresApproval: bool,
    render: ToolArgs -> string,
    renderApproval: Option<ToolArgs -> string>)

  /**
   * What running a command in the terminal gives: its output, or the message
   * of the error it threw.
   */
  datatype ExecOutcome = Completed(output: string) | Threw(message: string)

  /** The terminal executor, which this model treats as an arbitrary function. */
  type TerminalExecutor = string -> ExecOutcome
}

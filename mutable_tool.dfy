/**
 * The execute_mutable_command tool: commands that may change the system run
 * in the user's terminal, only after approval, and the model sees the tail
 * of their output.
 */
module MutableTool {
  import opened Wrappers
  import Js
  import opened ToolTypes

  const ToolName := "execute_mutable_command"
  /** How much of a command's output, counted from its end, reaches the model. */
  const MaxCommandOutputLength: nat := 500
  const Ellipsis := "..."
  const Arrow := "\U{2192}"
  const ApprovalKeys := " [Enter=Yes, Esc=No]"

  const Definition := FunctionTool(
    ToolName,
    "Executes commands that may mutate the terminal or system state. Use this for commands like file creation, deletion, system changes, installations, etc. This tool requires user approval before execution.",
    false,
    [ Parameter("command", "string", "The shell command to execute (e.g., \"npm install\", \"rm file.txt\", \"git commit -m \\\"message\\\"\")", None, None),
      Parameter("reason", "string", "Brief explanation of why this command needs to be run and what it will do", None, None) ],
    ["command", "reason"])

  /** The one tool that needs approval, with a prompt for it. */
  const Tool := TermsterTool(Definition, true, Render, Some(RenderApproval))

  /**
   * The summary shown for a call, `Execute(<command>) → <reason>`: the
   * command after the opening, then the arrow and the reason.
   */
  function Render(args: ToolArgs): (r: string)
    ensures var c := Text(Lookup(args, "command"));
      |r| >= 8 + |c| && r[..8 + |c|] == "Execute(" + c
    ensures var c := Text(Lookup(args, "command"));
      |r| >= 8 + |c| && r[8 + |c|..] == ") " + Arrow + " " + Text(Lookup(args, "reason"))
  {
    var c := Text(Lookup(args, "command"));
    var rest := ") " + Arrow + " " + Text(Lookup(args, "reason"));
    assert ("Execute(" + c + rest)[..8 + |c|] == "Execute(" + c;
    assert ("Execute(" + c + rest)[8 + |c|..] == rest;
    "Execute(" + c + rest
  }

  /**
   * The approval prompt: `Execute '<command>'? (<reason>) [Enter=Yes, Esc=No]`,
   * naming the command and the reason and ending with the keys that answer it.
   */
  function RenderApproval(args: ToolArgs): (r: string)
    ensures var c := Text(Lookup(args, "command"));
      |r| >= 9 + |c| && r[..9 + |c|] == "Execute '" + c
    ensures |r| >= |ApprovalKeys| && r[|r| - |ApprovalKeys|..] == ApprovalKeys
    ensures var c := Text(Lookup(args, "command"));
      |r| >= 9 + |c| + |ApprovalKeys| &&
      r[9 + |c|..|r| - |ApprovalKeys|] == "'? (" + Text(Lookup(args, "reason")) + ")"
  {
    var c := Text(Lookup(args, "command"));
    var middle := "'? (" + Text(Lookup(args, "reason")) + ")";
    var r := "Execute '" + c + middle + ApprovalKeys;
    assert r[..9 + |c|] == "Execute '" + c;
    assert r[|r| - |ApprovalKeys|..] == ApprovalKeys;
    assert r[9 + |c|..|r| - |ApprovalKeys|] == middle;
    r
  }

  /**
   * What the model sees of a command's output: all of it when it is at most
   * 500 characters, otherwise `...` and its last 500 characters.
   */
  function TruncateOutput(result: string): (r: string)
    ensures |result| <= MaxCommandOutputLength ==> r == result
    ensures |result| > MaxCommandOutputLength ==>
      r == Ellipsis + result[|result| - MaxCommandOutputLength..]
    ensures |r| <= MaxCommandOutputLength + |Ellipsis|
  {
    if |result| > MaxCommandOutputLength then
      Js.SliceFromNegative(result, MaxCommandOutputLength);
      Ellipsis + Js.SliceFrom(result, -(MaxCommandOutputLength as int))
    else result
  }

  /**
   * `executeMutableCommand`: the command must be present and non-empty, then
   * an executor must exist; only then is the command run. A thrown error
   * becomes a failure, never an exception.
   */
  function ExecuteMutableCommand(args: ToolArgs, terminalExecutor: Option<TerminalExecutor>): (r: ToolExecutionResult)
    ensures WellFormed(r)
    ensures !Truthy(Lookup(args, "command")) ==> r == Failure("Command is required")
    ensures Truthy(Lookup(args, "command")) && terminalExecutor.None? ==>
      r == Failure("Terminal executor not available")
    ensures r.success ==> (
      && Truthy(Lookup(args, "command")) && terminalExecutor.Some?
      && terminalExecutor.value(Text(Lookup(args, "command"))).Completed?
      && r.output == TruncateOutput(terminalExecutor.value(Text(Lookup(args, "command"))).output))
  {
    var command := Lookup(args, "command");
    if !Truthy(command) then Failure("Command is required")
    else if terminalExecutor.None? then Failure("Terminal executor not available")
    else
      match terminalExecutor.value(Text(command))
      case Completed(result) => Success(TruncateOutput(result))
      case Threw(message) => Failure("Failed to execute command: " + message)
  }

  /** The executor: it answers only to its own tool name. */
  function Execute(name: string, args: ToolArgs, terminalExecutor: Option<TerminalExecutor>): (r: ToolExecutionResult)
    ensures WellFormed(r)
    ensures name != ToolName ==> r == Failure("Unknown tool: " + name)
    ensures name == ToolName ==> r == ExecuteMutableCommand(args, terminalExecutor)
  {
    if name == ToolName then ExecuteMutableCommand(args, terminalExecutor)
    else Failure("Unknown tool: " + name)
  }

  /**
   * A call that names no command fails the same way whatever the executor is:
   * the terminal is never consulted, and the missing command is reported even
   * when there is no executor either.
   */
  lemma MissingCommandBeforeExecutor(args: ToolArgs, e1: Option<TerminalExecutor>, e2: Option<TerminalExecutor>)
    requires !Truthy(Lookup(args, "command"))
    ensures Execute(ToolName, args, e1) == Execute(ToolName, args, e2) == Failure("Command is required")
  {
  }

  /**
   * The executor's error reaches the model in the result; the output of a
   * command that completed reaches it truncated, and never longer than 503
   * characters.
   */
  lemma ExecutionOutcome(args: ToolArgs, e: TerminalExecutor)
    requires Truthy(Lookup(args, "command"))
    ensures var outcome := e(Text(Lookup(args, "command")));
      var r := Execute(ToolName, args, Some(e));
      && (outcome.Threw? ==> r == Failure("Failed to execute command: " + outcome.message))
      && (outcome.Completed? ==>
            r.success && r.output == TruncateOutput(outcome.output) && |r.output| <= 503)
  {
  }

  /** A kept output is the tail of the real one: its last characters, in order. */
  lemma TruncatedOutputIsTail(result: string)
    ensures var r := TruncateOutput(result);
      var n := Js.Min(|result|, MaxCommandOutputLength);
      |r| >= n && r[|r| - n..] == result[|result| - n..]
  {
    var r := TruncateOutput(result);
    if |result| > MaxCommandOutputLength {
      assert r[|r| - MaxCommandOutputLength..] == result[|result| - MaxCommandOutputLength..];
    }
  }
}

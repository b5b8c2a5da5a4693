/**
 * The terminal command history: a bounded, insertion-ordered log of the
 * commands run in the shell, which the read_terminal_history tool turns into
 * context for the language model.
 */
module TerminalHistory {
  import opened Wrappers
  import Js

  /** One recorded command. `timestamp` is the already rendered local time. */
  datatype TerminalCommand = TerminalCommand(
    input: string,
    output: string,
    timestamp: string,
    exitCode: Option<int>)

  /** How many records the log keeps; older ones are evicted first. */
  const MaxHistorySize: nat := 100
  /** The most records one query returns. */
  const MaxQueryCount: nat := 20
  /** How much of a command's output reaches the model. */
  const MaxOutputChars: nat := 500
  const TruncationMarker := "...[truncated]"
  const NoCommandsMessage := "No terminal commands found in history."

  /**
   * The log after appending `c` to `log`: bounded by MaxHistorySize, the new
   * record last, the oldest records evicted first and the rest kept in order.
   */
  function Appended(log: seq<TerminalCommand>, c: TerminalCommand): (r: seq<TerminalCommand>)
    ensures |r| == Js.Min(|log| + 1, MaxHistorySize)
    ensures r[|r| - 1] == c
    ensures r == (log + [c])[|log| + 1 - |r|..]
    ensures |log| < MaxHistorySize ==> r == log + [c]
  {
    Js.LastN(log + [c], MaxHistorySize)
  }

  /** The count a query actually uses: at least 1 and at most MaxQueryCount. */
  function SafeCount(count: int): (c: int)
    ensures 1 <= c <= MaxQueryCount
    ensures 1 <= count <= MaxQueryCount ==> c == count
  {
    Js.Min(Js.Max(1, count), MaxQueryCount)
  }

  /** The skip a query actually uses: never negative. */
  function SafeSkip(skip: int): (s: nat)
    ensures skip >= 0 ==> s == skip
  {
    Js.Max(0, skip)
  }

  /** Formats `cmd.output` for the model: its first 500 characters, marked when cut. */
  function TruncatedOutput(output: string): (r: string)
    ensures |output| <= MaxOutputChars ==> r == output
    ensures |output| > MaxOutputChars ==> r == output[..MaxOutputChars] + TruncationMarker
    ensures |r| <= MaxOutputChars + |TruncationMarker|
  {
    Js.Slice(output, 0, MaxOutputChars as int)
      + (if |output| > MaxOutputChars then TruncationMarker else "")
  }

  /** The ` (exit: n)` note, present only when an exit code was recorded. */
  function ExitInfo(exitCode: Option<int>): string
  {
    match exitCode
    case Some(code) => " (exit: " + Js.IntToString(code) + ")"
    case None => ""
  }

  /** The text for the `number`-th command of a query result. */
  function FormatEntry(number: nat, cmd: TerminalCommand, noOutput: bool): string
  {
    var header := "Command " + Js.NatToString(number) + " [" + cmd.timestamp + ExitInfo(cmd.exitCode) + "]:";
    if noOutput then
      header + " " + cmd.input
    else
      header + "\nInput: " + cmd.input + "\nOutput: " + TruncatedOutput(cmd.output) + "\n---"
  }

  /** The entries of a query result, numbered from 1. */
  function FormattedEntries(commands: seq<TerminalCommand>, noOutput: bool): (r: seq<string>)
    ensures |r| == |commands|
    ensures forall i :: 0 <= i < |commands| ==> r[i] == FormatEntry(i + 1, commands[i], noOutput)
  {
    seq(|commands|, i requires 0 <= i < |commands| => FormatEntry(i + 1, commands[i], noOutput))
  }

  class TerminalHistoryService {
    /** The records, oldest first. */
    var history: seq<TerminalCommand>

    /** The log holds at most MaxHistorySize records. */
    ghost predicate Valid()
      reads this
    {
      |history| <= MaxHistorySize
    }

    constructor ()
      ensures Valid() && history == []
    {
      history := [];
    }

    /** Records a command, storing its input and output trimmed. */
    method AddCommand(input: string, output: string, exitCode: Option<int>, timestamp: string)
      requires Valid()
      modifies this
      ensures Valid()
      ensures history == Appended(old(history), TerminalCommand(Js.Trim(input), Js.Trim(output), timestamp, exitCode))
    {
      var command := TerminalCommand(Js.Trim(input), Js.Trim(output), timestamp, exitCode);
      history := history + [command];
      if |history| > MaxHistorySize {
        Js.SliceFromNegative(history, MaxHistorySize);
        history := Js.SliceFrom(history, -(MaxHistorySize as int));
      }
    }

    /**
     * The most recent records after skipping the `skip` newest ones, newest
     * first: the i-th result is the record i positions older than the newest
     * one not skipped.
     */
    function GetRecentCommands(count: int, skip: int): (r: seq<TerminalCommand>)
      reads this
      ensures |r| == Js.Min(SafeCount(count), Js.Max(0, |history| - SafeSkip(skip)))
      ensures |r| <= MaxQueryCount
      ensures skip >= |history| ==> r == []
      ensures forall i :: 0 <= i < |r| ==> r[i] == history[|history| - SafeSkip(skip) - 1 - i]
    {
      Window(SafeCount(count), SafeSkip(skip))
    }

    /** The `safeCount` records before the `safeSkip` newest ones, newest first. */
    function Window(safeCount: int, safeSkip: nat): (r: seq<TerminalCommand>)
      reads this
      requires 1 <= safeCount
      ensures |r| == Js.Min(safeCount, Js.Max(0, |history| - safeSkip))
      ensures forall i :: 0 <= i < |r| ==> r[i] == history[|history| - safeSkip - 1 - i]
    {
      var startIndex := Js.Max(0, |history| - safeSkip - safeCount);
      var endIndex := Js.Max(0, |history| - safeSkip);
      Js.Reverse(Js.Slice(history, startIndex, endIndex))
    }

    /** The model-facing text for a query result. */
    static function FormatCommandsForLLM(commands: seq<TerminalCommand>, noOutput: bool): (r: string)
      ensures commands == [] ==> r == NoCommandsMessage
      ensures |commands| == 1 ==> r == FormatEntry(1, commands[0], noOutput)
    {
      if commands == [] then NoCommandsMessage
      else Js.Join(FormattedEntries(commands, noOutput), "\n")
    }

    method Clear()
      modifies this
      ensures Valid() && history == []
    {
      history := [];
    }
  }

  /**
   * One more command in a non-empty result adds exactly one entry, numbered
   * after the others and separated by a newline.
   */
  lemma FormatAppend(commands: seq<TerminalCommand>, c: TerminalCommand, noOutput: bool)
    requires commands != []
    ensures TerminalHistoryService.FormatCommandsForLLM(commands + [c], noOutput)
         == TerminalHistoryService.FormatCommandsForLLM(commands, noOutput) + "\n" + FormatEntry(|commands| + 1, c, noOutput)
  {
    var es := FormattedEntries(commands, noOutput);
    assert FormattedEntries(commands + [c], noOutput) == es + [FormatEntry(|commands| + 1, c, noOutput)];
    Js.JoinAppend(es, FormatEntry(|commands| + 1, c, noOutput), "\n");
  }

  /** In no-output mode the text does not depend on any command's output. */
  lemma NoOutputModeIgnoresOutputs(commands: seq<TerminalCommand>, others: seq<TerminalCommand>)
    requires |commands| == |others|
    requires forall i :: 0 <= i < |commands| ==>
      commands[i].input == others[i].input && commands[i].timestamp == others[i].timestamp
      && commands[i].exitCode == others[i].exitCode
    ensures TerminalHistoryService.FormatCommandsForLLM(commands, true)
         == TerminalHistoryService.FormatCommandsForLLM(others, true)
  {
    assert FormattedEntries(commands, true) == FormattedEntries(others, true);
  }

  /**
   * In full mode only the first 500 characters of each output, and whether it
   * was longer, reach the model.
   */
  lemma FullModeSeesOutputPrefixOnly(commands: seq<TerminalCommand>, others: seq<TerminalCommand>)
    requires |commands| == |others|
    requires forall i :: 0 <= i < |commands| ==>
      commands[i].input == others[i].input && commands[i].timestamp == others[i].timestamp
      && commands[i].exitCode == others[i].exitCode
      && (|commands[i].output| > MaxOutputChars <==> |others[i].output| > MaxOutputChars)
      && commands[i].output[..Js.Min(MaxOutputChars, |commands[i].output|)]
         == others[i].output[..Js.Min(MaxOutputChars, |others[i].output|)]
    ensures TerminalHistoryService.FormatCommandsForLLM(commands, false)
         == TerminalHistoryService.FormatCommandsForLLM(others, false)
  {
    forall i | 0 <= i < |commands|
      ensures TruncatedOutput(commands[i].output) == TruncatedOutput(others[i].output)
    {
      var o, p := commands[i].output, others[i].output;
      if |o| <= MaxOutputChars {
        assert o == o[..|o|];
        assert p == p[..|p|];
      }
    }
    assert FormattedEntries(commands, false) == FormattedEntries(others, false);
  }
}

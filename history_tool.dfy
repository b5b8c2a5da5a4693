/**
 * The read_terminal_history tool: its definition, the one-line summary shown
 * for a call, and its executor, which queries the command history.
 */
module HistoryTool {
  import opened Wrappers
  import Js
  import opened ToolTypes
  import opened TerminalHistory

  const ToolName := "read_terminal_history"
  const DefaultCount: int := 5
  const Arrow := "\U{2192}"

  const Definition := FunctionTool(
    ToolName,
    "Reads the inputs and outputs of recent terminal commands. Useful for understanding what commands were run and their results. For efficient searching, first use no_output=true to scan through command history quickly, then zero in on specific commands with full output.",
    false,
    [ Parameter("count", "number", "Number of recent commands to retrieve (default: 5, max: 20)", Some(1), Some(20)),
      Parameter("skip", "number", "Number of most recent commands to skip (default: 0)", Some(0), None),
      Parameter("no_output", "boolean", "If true, only show command inputs without outputs for efficient scanning (default: false)", None, None) ],
    [])

  /** A read-only tool: it never asks for approval and has no approval prompt. */
  const Tool := TermsterTool(Definition, false, Render, None)

  /** The query a call asks for, after defaulting. */
  datatype Query = Query(count: int, skip: int, noOutput: bool)

  /**
   * `(v as number) || fallback`: a non-zero number is taken as it is, and
   * anything falsy gives the fallback.
   */
  function NumberOr(v: Option<Value>, fallback: int): (n: int)
    ensures n == fallback || (v == Some(Num(n)) && n != 0)
    ensures v.Some? && v.value.Num? && v.value.n != 0 ==> n == v.value.n
    ensures !Truthy(v) ==> n == fallback
  {
    match v
    case Some(Num(k)) => if k != 0 then k else fallback
    case _ => fallback
  }

  /** The defaults both the summary and the executor apply: count 5, skip 0, with output. */
  function QueryOf(args: ToolArgs): (q: Query)
    ensures q.count != 0
    ensures !Truthy(Lookup(args, "count")) ==> q.count == DefaultCount
    ensures !Truthy(Lookup(args, "skip")) ==> q.skip == 0
    ensures q.noOutput == Truthy(Lookup(args, "no_output"))
  {
    Query(
      NumberOr(Lookup(args, "count"), DefaultCount),
      NumberOr(Lookup(args, "skip"), 0),
      Truthy(Lookup(args, "no_output")))
  }

  /** `, skip=s`, shown only for a positive skip. */
  function SkipPart(skip: int): (p: string)
    ensures p == "" <==> skip <= 0
  {
    if skip > 0 then ", skip=" + Js.IntToString(skip) else ""
  }

  /** `, no_output`, shown only when outputs are left out. */
  function OutputPart(noOutput: bool): (p: string)
    ensures p == "" <==> !noOutput
  {
    if noOutput then ", no_output" else ""
  }

  /** The options after the count: `[, skip=s][, no_output]`. */
  function Options(q: Query): string
  {
    SkipPart(q.skip) + OutputPart(q.noOutput)
  }

  /** What closes the summary: `) → c lines`. */
  function Closing(c: string): string
  {
    ") " + Arrow + " " + c + " lines"
  }

  /**
   * The summary shown for a call, `History(c[, skip=s][, no_output]) → c lines`:
   * it opens with the count, shows the options, and closes with the arrow and
   * the count again.
   */
  function Render(args: ToolArgs): (r: string)
    ensures var c := Js.IntToString(QueryOf(args).count);
      && |r| >= 8 + |c| && r[..8 + |c|] == "History(" + c
      && |r| >= |c| + 6 && r[|r| - |c| - 6..] == c + " lines"
    ensures var q := QueryOf(args);
      var c := Js.IntToString(q.count);
      var m := SkipPart(q.skip) + OutputPart(q.noOutput);
      && |r| == 8 + |c| + |m| + 4 + |c| + 6
      && r[8 + |c|..8 + |c| + |m|] == m
      && r[8 + |c| + |m|..] == ") " + Arrow + " " + c + " lines"
  {
    var q := QueryOf(args);
    var c := Js.IntToString(q.count);
    Framed("History(", c, Options(q), ") " + Arrow + " ");
    "History(" + c + (Options(q) + Closing(c))
  }

  /** Where the count and the options sit in a summary. */
  lemma Framed(opening: string, c: string, options: string, arrow: string)
    ensures var r := opening + c + (options + (arrow + c + " lines"));
      && r[..|opening| + |c|] == opening + c
      && r[|r| - |c| - 6..] == c + " lines"
      && r[|opening| + |c|..|opening| + |c| + |options|] == options
      && r[|opening| + |c| + |options|..] == arrow + c + " lines"
  {
    var z := arrow + c + " lines";
    assert z[|z| - |c| - 6..] == c + " lines";
    var r := opening + c + (options + z);
    assert r[|opening| + |c|..] == options + z;
  }

  /**
   * `readTerminalHistory`: the formatted result of the defaulted query. The
   * service's methods cannot fail here, so the source's exception branch has
   * no counterpart.
   */
  function ReadTerminalHistory(service: TerminalHistoryService, args: ToolArgs): (r: ToolExecutionResult)
    reads service
    ensures WellFormed(r) && r.success
    ensures var q := QueryOf(args);
      r.output == TerminalHistoryService.FormatCommandsForLLM(service.GetRecentCommands(q.count, q.skip), q.noOutput)
  {
    var q := QueryOf(args);
    var commands := service.GetRecentCommands(q.count, q.skip);
    Success(TerminalHistoryService.FormatCommandsForLLM(commands, q.noOutput))
  }

  /** The executor: it answers only to its own tool name. */
  function Execute(service: TerminalHistoryService, name: string, args: ToolArgs): (r: ToolExecutionResult)
    reads service
    ensures WellFormed(r)
    ensures r.success <==> name == ToolName
    ensures name != ToolName ==> r == Failure("Unknown tool: " + name)
    ensures name == ToolName ==> r == ReadTerminalHistory(service, args)
  {
    if name == ToolName then ReadTerminalHistory(service, args)
    else Failure("Unknown tool: " + name)
  }

  /** A call without arguments reads the five most recent commands, with their output. */
  lemma DefaultQuery(service: TerminalHistoryService)
    ensures Execute(service, ToolName, map[]) ==
      Success(TerminalHistoryService.FormatCommandsForLLM(service.GetRecentCommands(5, 0), false))
  {
    assert QueryOf(map[]) == Query(5, 0, false);
  }

  // ------------------------------------------------ the summary names the query

  predicate NoDelimiter(s: string)
  {
    forall k :: 0 <= k < |s| ==> s[k] != ',' && s[k] != ')'
  }

  predicate StartsWithDelimiter(s: string)
  {
    s == [] || s[0] == ',' || s[0] == ')'
  }

  /** Two splits of one string, each before its first delimiter, are the same split. */
  lemma SplitAtDelimiter(c1: string, x1: string, c2: string, x2: string)
    requires NoDelimiter(c1) && NoDelimiter(c2)
    requires StartsWithDelimiter(x1) && StartsWithDelimiter(x2)
    requires c1 + x1 == c2 + x2
    ensures c1 == c2 && x1 == x2
  {
    assert c1 == (c1 + x1)[..|c1|];
    assert c2 == (c2 + x2)[..|c2|];
    assert x1 == (c1 + x1)[|c1|..];
    assert x2 == (c2 + x2)[|c2|..];
  }

  lemma IntTextNoDelimiter(i: int)
    ensures NoDelimiter(Js.IntToString(i))
  {
    Js.IntToStringChars(i);
  }

  /** An options part starts with a comma, unless it is empty. */
  lemma OptionsStart(q: Query)
    ensures StartsWithDelimiter(Options(q))
    ensures SkipPart(q.skip) == [] ==> Options(q) == OutputPart(q.noOutput)
    ensures SkipPart(q.skip) != [] ==> Options(q) == ", skip=" + (Js.IntToString(q.skip) + OutputPart(q.noOutput))
  {
  }

  /** The same options with a skip shown carry the same skip and output mode. */
  lemma SkipsAgree(d1: string, p1: string, d2: string, p2: string)
    requires NoDelimiter(d1) && NoDelimiter(d2)
    requires StartsWithDelimiter(p1) && StartsWithDelimiter(p2)
    requires ", skip=" + (d1 + p1) == ", skip=" + (d2 + p2)
    ensures d1 == d2 && p1 == p2
  {
    var prefix := ", skip=";
    assert d1 + p1 == (prefix + (d1 + p1))[|prefix|..];
    assert d2 + p2 == (prefix + (d2 + p2))[|prefix|..];
    SplitAtDelimiter(d1, p1, d2, p2);
  }

  /** Options that show a skip differ from options that only show the output mode. */
  lemma SkipShownDiffers(d: string, p: string, o: bool)
    ensures ", skip=" + (d + p) != OutputPart(o)
  {
    var x := ", skip=" + (d + p);
    assert x[2] == 's';
  }

  /** The options part tells whether a skip is shown, which skip, and whether output is. */
  lemma OptionsDetermineQuery(q1: Query, q2: Query)
    requires Options(q1) == Options(q2)
    ensures TerminalHistory.SafeSkip(q1.skip) == TerminalHistory.SafeSkip(q2.skip) && q1.noOutput == q2.noOutput
  {
    OptionsStart(q1);
    OptionsStart(q2);
    var p1, p2 := OutputPart(q1.noOutput), OutputPart(q2.noOutput);
    if q1.skip > 0 && q2.skip > 0 {
      IntTextNoDelimiter(q1.skip);
      IntTextNoDelimiter(q2.skip);
      SkipsAgree(Js.IntToString(q1.skip), p1, Js.IntToString(q2.skip), p2);
      Js.IntToStringInjective(q1.skip, q2.skip);
    } else if q1.skip > 0 {
      SkipShownDiffers(Js.IntToString(q1.skip), p1, q2.noOutput);
    } else if q2.skip > 0 {
      SkipShownDiffers(Js.IntToString(q2.skip), p2, q1.noOutput);
    }
  }

  /** Two summaries that agree agree on the count's text and on the options. */
  lemma SummaryParts(c1: string, o1: string, c2: string, o2: string)
    requires NoDelimiter(c1) && NoDelimiter(c2)
    requires StartsWithDelimiter(o1) && StartsWithDelimiter(o2)
    requires "History(" + c1 + (o1 + Closing(c1)) == "History(" + c2 + (o2 + Closing(c2))
    ensures c1 == c2 && o1 == o2
  {
    var h := "History(";
    var t1, t2 := o1 + Closing(c1), o2 + Closing(c2);
    assert c1 + t1 == (h + c1 + t1)[|h|..];
    assert c2 + t2 == (h + c2 + t2)[|h|..];
    assert StartsWithDelimiter(t1) by { if o1 == [] { assert t1[0] == Closing(c1)[0]; } }
    assert StartsWithDelimiter(t2) by { if o2 == [] { assert t2[0] == Closing(c2)[0]; } }
    SplitAtDelimiter(c1, t1, c2, t2);
    assert o1 == t1[..|o1|];
    assert o2 == t2[..|o2|];
  }

  /**
   * The summary names the query: two calls with the same summary ask for the
   * same count, effectively the same skip and the same output mode, and so
   * read the same result from any history.
   */
  lemma RenderIdentifiesQuery(a1: ToolArgs, a2: ToolArgs, service: TerminalHistoryService)
    requires Render(a1) == Render(a2)
    ensures QueryOf(a1).count == QueryOf(a2).count
    ensures TerminalHistory.SafeSkip(QueryOf(a1).skip) == TerminalHistory.SafeSkip(QueryOf(a2).skip)
    ensures QueryOf(a1).noOutput == QueryOf(a2).noOutput
    ensures ReadTerminalHistory(service, a1) == ReadTerminalHistory(service, a2)
  {
    var q1, q2 := QueryOf(a1), QueryOf(a2);
    IntTextNoDelimiter(q1.count);
    IntTextNoDelimiter(q2.count);
    OptionsStart(q1);
    OptionsStart(q2);
    SummaryParts(Js.IntToString(q1.count), Options(q1), Js.IntToString(q2.count), Options(q2));
    Js.IntToStringInjective(q1.count, q2.count);
    OptionsDetermineQuery(q1, q2);
    SafeSkipQuery(service, q1.count, q1.skip, q2.skip);
  }

  /** Skips that clamp to the same value give the same query result. */
  lemma SafeSkipQuery(service: TerminalHistoryService, count: int, s1: int, s2: int)
    requires TerminalHistory.SafeSkip(s1) == TerminalHistory.SafeSkip(s2)
    ensures service.GetRecentCommands(count, s1) == service.GetRecentCommands(count, s2)
  {
  }
}

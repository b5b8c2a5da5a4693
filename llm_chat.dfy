/**
 * The chat pane's state: the log of entries it shows, whether a turn is
 * running, and the approval gate that holds a tool call until the user
 * approves or rejects it.
 *
 * Each state update of the hook is a method here; each history update is the
 * pure "drop every entry of one kind, then append" rewrite `Rewrite`. The
 * callbacks a turn invokes are methods as well, called as the turn runs. A
 * resolver handed a value is modelled by the method returning `Some(value)`.
 */
module LlmChat {
  import opened Wrappers
  import opened ToolTypes
  import Tools
  import Llm
  import TerminalHistory

  datatype EntryKind =
    | Command | Text | Assistant | Thinking | ToolCall
    | ApprovalPending | ApprovalGranted | ApprovalDenied

  /** An entry of the log; timestamps are opaque text. */
  datatype CommandEntry = CommandEntry(command: string, timestamp: string, kind: EntryKind)

  /** The tool call awaiting the user's decision and the prompt shown for it. */
  datatype PendingApproval = PendingApproval(toolCall: Llm.ToolCall, renderedApproval: string)

  /** `prev.filter(entry => entry.type !== kind)`. */
  function Without(h: seq<CommandEntry>, kind: EntryKind): (r: seq<CommandEntry>)
    ensures |r| <= |h|
    decreases |h|
  {
    if h == [] then []
    else
      var last := h[|h| - 1];
      Without(h[..|h| - 1], kind) + (if last.kind != kind then [last] else [])
  }

  /** The filter keeps exactly the entries of other kinds. */
  lemma {:induction false} WithoutMembers(h: seq<CommandEntry>, kind: EntryKind)
    ensures forall e :: e in Without(h, kind) <==> e in h && e.kind != kind
    decreases |h|
  {
    if h != [] {
      var init, last := h[..|h| - 1], h[|h| - 1];
      WithoutMembers(init, kind);
      assert h == init + [last];
    }
  }

  /** A filter of two logs is the filter of the first, then the filter of the second. */
  lemma {:induction false} WithoutAppend(a: seq<CommandEntry>, b: seq<CommandEntry>, kind: EntryKind)
    ensures Without(a + b, kind) == Without(a, kind) + Without(b, kind)
    decreases |b|
  {
    if b == [] {
      assert a + b == a;
    } else {
      var b' := b[..|b| - 1];
      assert (a + b)[..|a + b| - 1] == a + b';
      WithoutAppend(a, b', kind);
    }
  }

  /** A log with no entry of the kind is left as it is. */
  lemma {:induction false} WithoutNothingToDrop(h: seq<CommandEntry>, kind: EntryKind)
    requires forall i :: 0 <= i < |h| ==> h[i].kind != kind
    ensures Without(h, kind) == h
    decreases |h|
  {
    if h != [] {
      WithoutNothingToDrop(h[..|h| - 1], kind);
      assert h[..|h| - 1] + [h[|h| - 1]] == h;
    }
  }

  /** Filtering twice by the same kind filters once. */
  lemma WithoutIdempotent(h: seq<CommandEntry>, kind: EntryKind)
    ensures Without(Without(h, kind), kind) == Without(h, kind)
  {
    var r := Without(h, kind);
    WithoutMembers(h, kind);
    assert forall i :: 0 <= i < |r| ==> r[i] in r;
    WithoutNothingToDrop(r, kind);
  }

  /** The update all the hook's history changes share: drop one kind, then append. */
  function Rewrite(h: seq<CommandEntry>, drop: EntryKind, entries: seq<CommandEntry>): (r: seq<CommandEntry>)
    ensures |r| >= |entries| && r[|r| - |entries|..] == entries
  {
    var kept := Without(h, drop);
    assert (kept + entries)[|kept|..] == entries;
    kept + entries
  }

  /** A rewrite keeps the entries of other kinds and adds the new ones, and holds nothing else. */
  lemma RewriteMembers(h: seq<CommandEntry>, drop: EntryKind, entries: seq<CommandEntry>)
    ensures forall e :: e in Rewrite(h, drop, entries) <==> (e in h && e.kind != drop) || e in entries
  {
    WithoutMembers(h, drop);
  }

  /**
   * A rewrite that appends none of the kind it drops leaves no entry of that
   * kind, and doing it again appends again on top of a log already filtered.
   */
  lemma RewriteTwice(h: seq<CommandEntry>, drop: EntryKind, e1: seq<CommandEntry>, e2: seq<CommandEntry>)
    requires forall i :: 0 <= i < |e1| ==> e1[i].kind != drop
    ensures Rewrite(Rewrite(h, drop, e1), drop, e2) == Without(h, drop) + (e1 + e2)
  {
    var w := Without(h, drop);
    var r1 := Rewrite(h, drop, e1);
    assert r1 == w + e1;
    WithoutAppend(w, e1, drop);
    WithoutIdempotent(h, drop);
    WithoutNothingToDrop(e1, drop);
    var f := Without(r1, drop);
    assert f == w + e1;
    var r2 := Rewrite(r1, drop, e2);
    assert r2 == (w + e1) + e2;
    Regroup(w, e1, e2);
  }

  /** Regrouping an append, stated over entries so that it is proved apart from the lemma above. */
  lemma Regroup(a: seq<CommandEntry>, b: seq<CommandEntry>, c: seq<CommandEntry>)
    ensures (a + b) + c == a + (b + c)
  {
  }

  /** What the model is told a tool call gave: its output, or its error after `Error: `. */
  function ResultText(result: ToolExecutionResult): (t: string)
    ensures result.success ==> t == result.output
    ensures !result.success && result.error.Some? ==> t == "Error: " + result.error.value
    ensures !result.success && result.error.None? ==> t == "Error: undefined"
  {
    if result.success then result.output
    else "Error: " + (match result.error case None => "undefined" case Some(e) => e)
  }

  predicate NoneOfKind(h: seq<CommandEntry>, kind: EntryKind)
  {
    forall i :: 0 <= i < |h| ==> h[i].kind != kind
  }

  predicate Shows(h: seq<CommandEntry>, kind: EntryKind, text: string)
  {
    exists i :: 0 <= i < |h| && h[i].kind == kind && h[i].command == text
  }

  /** Appending keeps every entry shown. */
  lemma ShowsAppend(h: seq<CommandEntry>, extra: seq<CommandEntry>, kind: EntryKind, text: string)
    requires Shows(h, kind, text)
    ensures Shows(h + extra, kind, text)
  {
    var i :| 0 <= i < |h| && h[i].kind == kind && h[i].command == text;
    assert (h + extra)[i] == h[i];
  }

  /** A rewrite that drops another kind keeps every entry of this kind shown. */
  lemma ShowsRewrite(h: seq<CommandEntry>, drop: EntryKind, entries: seq<CommandEntry>, kind: EntryKind, text: string)
    requires drop != kind && Shows(h, kind, text)
    ensures Shows(Rewrite(h, drop, entries), kind, text)
  {
    var i :| 0 <= i < |h| && h[i].kind == kind && h[i].command == text;
    assert h[i] in h;
    var r := Rewrite(h, drop, entries);
    RewriteMembers(h, drop, entries);
    assert h[i] in r;
    var j :| 0 <= j < |r| && r[j] == h[i];
  }

  /** A rewrite keeps a kind absent when neither the log nor the added entries have it. */
  lemma NoneOfKindRewrite(h: seq<CommandEntry>, drop: EntryKind, entries: seq<CommandEntry>, kind: EntryKind)
    requires NoneOfKind(h, kind) && NoneOfKind(entries, kind)
    ensures NoneOfKind(Rewrite(h, drop, entries), kind)
  {
    var r := Rewrite(h, drop, entries);
    RewriteMembers(h, drop, entries);
    forall i | 0 <= i < |r| ensures r[i].kind != kind {
      assert r[i] in r;
      if r[i] in h {
        var j :| 0 <= j < |h| && h[j] == r[i];
      } else {
        var j :| 0 <= j < |entries| && entries[j] == r[i];
      }
    }
  }

  /** A rewrite that adds none of the kind it drops leaves none of that kind. */
  lemma RewriteDropsKind(h: seq<CommandEntry>, drop: EntryKind, entries: seq<CommandEntry>)
    requires NoneOfKind(entries, drop)
    ensures NoneOfKind(Rewrite(h, drop, entries), drop)
  {
    var r := Rewrite(h, drop, entries);
    RewriteMembers(h, drop, entries);
    forall i | 0 <= i < |r| ensures r[i].kind != drop {
      assert r[i] in r;
      if r[i] !in h || r[i].kind == drop {
        var j :| 0 <= j < |entries| && entries[j] == r[i];
      }
    }
  }

  class ChatState {
    /** The entries shown, oldest first. */
    var history: seq<CommandEntry>
    var isLoading: bool
    var pendingApproval: Option<PendingApproval>
    /** Whether a tool call is awaiting the value the resolver will hand it. */
    var resolverWaiting: bool
    /** The approved call whose execution has not finished yet. */
    var executingCall: Option<Llm.ToolCall>
    /** Whether a chat service exists: it does exactly when a history service was given. */
    const hasChatService: bool
    /** The chat service's tool registry. */
    const toolExecutor: Option<Tools.ToolRegistry>

    /**
     * A pending approval, and an approved call still executing, each hold the
     * resolver; a pending approval is shown, and with none pending no approval
     * prompt is left in the log.
     */
    ghost predicate Valid()
      reads this
    {
      && (pendingApproval.Some? ==> resolverWaiting && executingCall.None?)
      && (pendingApproval.Some? ==> Shows(history, ApprovalPending, pendingApproval.value.renderedApproval))
      && (pendingApproval.None? ==> NoneOfKind(history, ApprovalPending))
      && (executingCall.Some? ==> resolverWaiting && toolExecutor.Some?)
    }

    constructor (historyService: Option<TerminalHistory.TerminalHistoryService>, terminalExecutor: Option<TerminalExecutor>)
      ensures Valid()
      ensures history == [] && !isLoading && pendingApproval.None? && !resolverWaiting && executingCall.None?
      ensures hasChatService <==> historyService.Some?
      ensures toolExecutor == if historyService.Some? then Some(Tools.ToolRegistry(historyService, terminalExecutor)) else None
    {
      history := [];
      isLoading := false;
      pendingApproval := None;
      resolverWaiting := false;
      executingCall := None;
      hasChatService := historyService.Some?;
      toolExecutor := if historyService.Some? then Some(Tools.ToolRegistry(historyService, terminalExecutor)) else None;
    }

    /** `addCommand`: one `command` entry is appended. */
    method AddCommand(command: string, timestamp: string)
      requires Valid()
      modifies this
      ensures Valid()
      ensures history == old(history) + [CommandEntry(command, timestamp, Command)]
      ensures isLoading == old(isLoading) && pendingApproval == old(pendingApproval)
      ensures resolverWaiting == old(resolverWaiting) && executingCall == old(executingCall)
    {
      if pendingApproval.Some? {
        ShowsAppend(history, [CommandEntry(command, timestamp, Command)], ApprovalPending, pendingApproval.value.renderedApproval);
      }
      history := history + [CommandEntry(command, timestamp, Command)];
    }

    /**
     * `sendMessage`: ignored while a turn runs or without a chat service;
     * otherwise the user's text and a thinking marker are appended and a turn
     * starts.
     */
    method SendMessage(userInput: string, timestamp: string) returns (started: bool)
      requires Valid()
      modifies this
      ensures Valid()
      ensures started <==> hasChatService && !old(isLoading)
      ensures !started ==> history == old(history) && isLoading == old(isLoading)
      ensures started ==>
        history == old(history) + [CommandEntry(userInput, timestamp, Text), CommandEntry("", timestamp, Thinking)]
        && isLoading
      ensures pendingApproval == old(pendingApproval)
      ensures resolverWaiting == old(resolverWaiting) && executingCall == old(executingCall)
    {
      if !hasChatService || isLoading {
        return false;
      }
      var added := [CommandEntry(userInput, timestamp, Text), CommandEntry("", timestamp, Thinking)];
      if pendingApproval.Some? {
        ShowsAppend(history, added, ApprovalPending, pendingApproval.value.renderedApproval);
      }
      history := history + added;
      isLoading := true;
      return true;
    }

    /**
     * `onToolCall`, called by a running turn once the previous call has its
     * answer: a call that needs approval replaces the thinking marker with its
     * prompt and waits for the user (`None`); any other call replaces it with
     * the call's summary and a new thinking marker and is answered at once
     * with the call's result.
     */
    method OnToolCall(toolCall: Llm.ToolCall, timestamp: string) returns (reply: Option<string>)
      requires Valid()
      requires !resolverWaiting
      modifies this
      ensures Valid()
      ensures Tools.ToolRequiresApproval(toolCall.name) ==>
        var rendered := Tools.RenderToolApproval(toolCall.name, toolCall.args);
        && history == Rewrite(old(history), Thinking, [CommandEntry(rendered, timestamp, ApprovalPending)])
        && pendingApproval == Some(PendingApproval(toolCall, rendered))
        && resolverWaiting && reply.None?
      ensures !Tools.ToolRequiresApproval(toolCall.name) ==>
        var rendered := Tools.RenderToolCall(toolCall.name, toolCall.args);
        && history == Rewrite(old(history), Thinking,
                              [CommandEntry(rendered, timestamp, ToolCall), CommandEntry("", timestamp, Thinking)])
        && pendingApproval == old(pendingApproval) && resolverWaiting == old(resolverWaiting)
        && reply == Some(if toolExecutor.Some? then ResultText(old(toolExecutor.value.Execute(toolCall.name, toolCall.args)))
                         else "Tool execution not available")
      ensures isLoading == old(isLoading) && executingCall == old(executingCall)
    {
      if Tools.ToolRequiresApproval(toolCall.name) {
        AwaitApproval(toolCall, timestamp);
        reply := None;
      } else {
        var output := RunToolCall(toolCall, timestamp);
        reply := Some(output);
      }
    }

    /** The approval path of `onToolCall`: show the prompt and hold the call. */
    method AwaitApproval(toolCall: Llm.ToolCall, timestamp: string)
      requires Valid()
      requires !resolverWaiting
      modifies this
      ensures Valid()
      ensures var rendered := Tools.RenderToolApproval(toolCall.name, toolCall.args);
        && history == Rewrite(old(history), Thinking, [CommandEntry(rendered, timestamp, ApprovalPending)])
        && pendingApproval == Some(PendingApproval(toolCall, rendered))
      ensures resolverWaiting && isLoading == old(isLoading) && executingCall == old(executingCall)
    {
      var rendered := Tools.RenderToolApproval(toolCall.name, toolCall.args);
      var entry := CommandEntry(rendered, timestamp, ApprovalPending);
      history := Rewrite(history, Thinking, [entry]);
      assert history[|history| - 1] == entry;
      pendingApproval := Some(PendingApproval(toolCall, rendered));
      resolverWaiting := true;
    }

    /** The immediate path of `onToolCall`: show the summary, then run the call. */
    method RunToolCall(toolCall: Llm.ToolCall, timestamp: string) returns (output: string)
      requires Valid()
      modifies this
      ensures Valid()
      ensures history == Rewrite(old(history), Thinking,
        [CommandEntry(Tools.RenderToolCall(toolCall.name, toolCall.args), timestamp, ToolCall),
         CommandEntry("", timestamp, Thinking)])
      ensures output == if toolExecutor.Some? then ResultText(old(toolExecutor.value.Execute(toolCall.name, toolCall.args)))
                        else "Tool execution not available"
      ensures pendingApproval == old(pendingApproval) && resolverWaiting == old(resolverWaiting)
      ensures isLoading == old(isLoading) && executingCall == old(executingCall)
    {
      output := "Tool execution not available";
      if toolExecutor.Some? {
        var result := toolExecutor.value.Execute(toolCall.name, toolCall.args);
        output := ResultText(result);
      }
      var rendered := Tools.RenderToolCall(toolCall.name, toolCall.args);
      var added := [CommandEntry(rendered, timestamp, ToolCall), CommandEntry("", timestamp, Thinking)];
      RecordRewrite(Thinking, added);
    }

    /** A rewrite that drops anything but approval prompts and adds none keeps the state valid. */
    method RecordRewrite(drop: EntryKind, added: seq<CommandEntry>)
      requires Valid()
      requires drop != ApprovalPending && NoneOfKind(added, ApprovalPending)
      modifies this
      ensures Valid()
      ensures history == Rewrite(old(history), drop, added)
      ensures pendingApproval == old(pendingApproval) && resolverWaiting == old(resolverWaiting)
      ensures isLoading == old(isLoading) && executingCall == old(executingCall)
    {
      if pendingApproval.Some? {
        ShowsRewrite(history, drop, added, ApprovalPending, pendingApproval.value.renderedApproval);
      } else {
        NoneOfKindRewrite(history, drop, added, ApprovalPending);
      }
      history := Rewrite(history, drop, added);
    }

    /**
     * `approveToolCall`: does nothing unless a call is pending and its
     * resolver waits. Otherwise the prompt gives way to `Approved` and a
     * thinking marker, and the call starts executing; with no tool executor
     * the call is answered at once that execution is not available.
     */
    method ApproveToolCall(timestamp: string) returns (reply: Option<string>)
      requires Valid()
      modifies this
      ensures Valid()
      ensures old(pendingApproval.None? || !resolverWaiting) ==>
        history == old(history) && pendingApproval == old(pendingApproval)
        && resolverWaiting == old(resolverWaiting) && executingCall == old(executingCall) && reply.None?
      ensures old(pendingApproval.Some? && resolverWaiting) ==>
        && history == Rewrite(old(history), ApprovalPending,
                              [CommandEntry("Approved", timestamp, ApprovalGranted), CommandEntry("", timestamp, Thinking)])
        && pendingApproval.None?
        && (toolExecutor.Some? ==>
              executingCall == Some(old(pendingApproval).value.toolCall) && resolverWaiting && reply.None?)
        && (toolExecutor.None? ==>
              executingCall.None? && !resolverWaiting && reply == Some("Tool execution not available"))
      ensures isLoading == old(isLoading)
    {
      if pendingApproval.None? || !resolverWaiting {
        return None;
      }
      var call := pendingApproval.value.toolCall;
      var granted := [CommandEntry("Approved", timestamp, ApprovalGranted), CommandEntry("", timestamp, Thinking)];
      RewriteDropsKind(history, ApprovalPending, granted);
      history := Rewrite(history, ApprovalPending, granted);
      if toolExecutor.Some? {
        executingCall := Some(call);
        reply := None;
      } else {
        resolverWaiting := false;
        reply := Some("Tool execution not available");
      }
      pendingApproval := None;
    }

    /**
     * The end of an approved call's execution: the thinking marker gives way
     * to the call's summary, and the waiting call is answered with its result.
     */
    method FinishApprovedCall(timestamp: string) returns (reply: Option<string>)
      requires Valid()
      requires executingCall.Some?
      modifies this
      ensures Valid()
      ensures var call := old(executingCall).value;
        && history == Rewrite(old(history), Thinking,
                              [CommandEntry(Tools.RenderToolCall(call.name, call.args), timestamp, ToolCall)])
        && reply == Some(ResultText(old(toolExecutor.value.Execute(call.name, call.args))))
      ensures executingCall.None? && !resolverWaiting
      ensures pendingApproval == old(pendingApproval) && isLoading == old(isLoading)
    {
      var call := executingCall.value;
      var result := toolExecutor.value.Execute(call.name, call.args);
      var rendered := Tools.RenderToolCall(call.name, call.args);
      RecordRewrite(Thinking, [CommandEntry(rendered, timestamp, ToolCall)]);
      reply := Some(ResultText(result));
      resolverWaiting := false;
      executingCall := None;
    }

    /**
     * `rejectToolCall`: does nothing unless a call is pending and its resolver
     * waits. Otherwise the prompt gives way to `Rejected` and the call is
     * answered that the user rejected it.
     */
    method RejectToolCall(timestamp: string) returns (reply: Option<string>)
      requires Valid()
      modifies this
      ensures Valid()
      ensures old(pendingApproval.None? || !resolverWaiting) ==>
        history == old(history) && pendingApproval == old(pendingApproval)
        && resolverWaiting == old(resolverWaiting) && reply.None?
      ensures old(pendingApproval.Some? && resolverWaiting) ==>
        && history == Rewrite(old(history), ApprovalPending, [CommandEntry("Rejected", timestamp, ApprovalDenied)])
        && pendingApproval.None? && !resolverWaiting
        && reply == Some("Tool execution was rejected by user")
      ensures isLoading == old(isLoading) && executingCall == old(executingCall)
    {
      if pendingApproval.None? || !resolverWaiting {
        return None;
      }
      var denied := [CommandEntry("Rejected", timestamp, ApprovalDenied)];
      RewriteDropsKind(history, ApprovalPending, denied);
      history := Rewrite(history, ApprovalPending, denied);
      reply := Some("Tool execution was rejected by user");
      resolverWaiting := false;
      pendingApproval := None;
    }

    /** Replaces every thinking marker with one assistant entry and ends the turn. */
    method Conclude(text: string, timestamp: string)
      requires Valid()
      modifies this
      ensures Valid()
      ensures history == Rewrite(old(history), Thinking, [CommandEntry(text, timestamp, Assistant)])
      ensures NoneOfKind(history, Thinking) && !isLoading
      ensures pendingApproval == old(pendingApproval)
      ensures resolverWaiting == old(resolverWaiting) && executingCall == old(executingCall)
    {
      var added := [CommandEntry(text, timestamp, Assistant)];
      RewriteDropsKind(history, Thinking, added);
      RecordRewrite(Thinking, added);
      isLoading := false;
    }

    /** `onComplete`: the response's text becomes an assistant entry. */
    method OnComplete(message: string, timestamp: string)
      requires Valid()
      modifies this
      ensures Valid()
      ensures history == Rewrite(old(history), Thinking, [CommandEntry(message, timestamp, Assistant)])
      ensures NoneOfKind(history, Thinking) && !isLoading
      ensures pendingApproval == old(pendingApproval)
      ensures resolverWaiting == old(resolverWaiting) && executingCall == old(executingCall)
    {
      Conclude(message, timestamp);
    }

    /** `onError`: the error's message, after `Error: `, becomes an assistant entry. */
    method OnError(message: string, timestamp: string)
      requires Valid()
      modifies this
      ensures Valid()
      ensures history == Rewrite(old(history), Thinking, [CommandEntry("Error: " + message, timestamp, Assistant)])
      ensures NoneOfKind(history, Thinking) && !isLoading
      ensures pendingApproval == old(pendingApproval)
      ensures resolverWaiting == old(resolverWaiting) && executingCall == old(executingCall)
    {
      Conclude("Error: " + message, timestamp);
    }

    /**
     * A failed turn: the chat loop reports the error to `onError` and rethrows
     * it, and the hook's `catch` reports it to `onError` again, so the log
     * gains two error entries.
     */
    method ChatFailed(message: string, loopTimestamp: string, catchTimestamp: string)
      requires Valid()
      modifies this
      ensures Valid()
      ensures history == Without(old(history), Thinking)
        + [CommandEntry("Error: " + message, loopTimestamp, Assistant),
           CommandEntry("Error: " + message, catchTimestamp, Assistant)]
      ensures !isLoading
    {
      var e1 := CommandEntry("Error: " + message, loopTimestamp, Assistant);
      var e2 := CommandEntry("Error: " + message, catchTimestamp, Assistant);
      ghost var h0 := history;
      OnError(message, loopTimestamp);
      ghost var h1 := history;
      assert h1 == Rewrite(h0, Thinking, [e1]);
      OnError(message, catchTimestamp);
      assert history == Rewrite(h1, Thinking, [e2]);
      RewriteTwice(h0, Thinking, [e1], [e2]);
      assert [e1] + [e2] == [e1, e2];
    }
  }
}

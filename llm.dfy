/**
 * The chat loop: it keeps the user's messages, sends a turn to the model,
 * answers the model's tool calls with their outputs for as long as it asks
 * for tools, and hands the text of the final response to the caller.
 *
 * The remote model is an oracle: `Api` maps every request sent so far, the
 * last one being the new request, to the outcome of that request. A turn may
 * make any number of follow-up requests; `fuel` bounds them.
 */
module Llm {
  import opened Wrappers
  import Js
  import opened ToolTypes
  import opened EchoApi
  import Tools
  import TerminalHistory

  /** The two instruction texts a request can carry. */
  datatype Instructions = Initial | ToolFollowup

  function InstructionText(i: Instructions): string
  {
    match i
    case Initial =>
      "You are a helpful assistant integrated into a terminal application.\n"
      + "- When the user asks you to do things they imagine you're their intern on the keyboard in front of a terminal.\n"
      + "- If they ask you to do something that can be accomplished in the terminal, do so. Use your tools.\n"
      + "- If they've affirmatively asked for something that can be provided by running tools against the terminal, do so.\n"
      + "- If you run into errors, try to fix them yourself, as a high agency intern would. \n"
      + "- If you do not have enough information to do something, run commands to understand the user's environment.\n"
      + "- Provide clear, concise responses to help the user with their questions and tasks."
    case ToolFollowup => "Continue the conversation with the tool results."
  }

  /**
   * A request: its input items, its instructions, whether the tool catalogue
   * (with automatic tool choice) is offered, and the response it continues.
   */
  datatype Request = Request(
    input: seq<InputItem>,
    instructions: Instructions,
    withTools: bool,
    previousResponseId: Option<string>)

  /** What a request to the model gives: a response, or an error (a timeout among them). */
  datatype ApiOutcome = Responded(response: Response) | ApiError(message: string)

  type Api = seq<Request> -> ApiOutcome

  /** A tool call handed to the caller: its id, tool name and parsed arguments. */
  datatype ToolCall = ToolCall(id: string, name: string, args: ToolArgs)

  /**
   * How a turn ends: with the texts passed to `onComplete`, in order; with the
   * error passed to `onError` and rethrown; or with the fuel spent.
   */
  datatype ChatOutcome = Answered(texts: seq<string>) | Failed(message: string) | OutOfFuel

  /** The message `addUserMessage` records. */
  function UserMessage(text: string): InputItem
  {
    Message("user", [InputText(text)])
  }

  predicate IsUserMessage(item: InputItem)
  {
    item.Message? && item.role == "user"
  }

  /** `this.lastResponseId ? ...`: an empty id counts as none. */
  predicate HasResponseId(id: Option<string>)
  {
    id.Some? && id.value != ""
  }

  /**
   * The input of a turn's first request: only the newest item when a previous
   * response is being continued, otherwise the whole history.
   */
  function FirstInput(history: seq<InputItem>, lastResponseId: Option<string>): (r: seq<InputItem>)
    requires history != []
    ensures HasResponseId(lastResponseId) ==> r == [history[|history| - 1]]
    ensures !HasResponseId(lastResponseId) ==> r == history
  {
    if HasResponseId(lastResponseId) then [history[|history| - 1]] else history
  }

  // ------------------------------------------------------------ tool calls

  /** The function-call items of a response, in order. */
  function FunctionCalls(items: seq<OutputItem>): (r: seq<OutputItem>)
    ensures |r| <= |items|
    ensures forall i :: 0 <= i < |r| ==> r[i].FunctionCallItem?
    decreases |items|
  {
    if items == [] then []
    else
      var last := items[|items| - 1];
      FunctionCalls(items[..|items| - 1]) + (if IsFunctionCallItem(last) then [last] else [])
  }

  /** The tool call an item asks for. */
  function CallOf(item: OutputItem): ToolCall
    requires item.FunctionCallItem?
  {
    ToolCall(item.callId, item.name, item.arguments)
  }

  /**
   * The outputs sent back for a response: one `function_call_output` per
   * function call, in order, with its call id and the value `onToolCall` gave.
   */
  function ToolOutputs(items: seq<OutputItem>, onToolCall: ToolCall -> string): (r: seq<InputItem>)
    ensures |r| == |FunctionCalls(items)|
    ensures forall i :: 0 <= i < |r| ==>
      r[i] == FunctionCallOutput(FunctionCalls(items)[i].callId, onToolCall(CallOf(FunctionCalls(items)[i])))
  {
    var calls := FunctionCalls(items);
    seq(|calls|, i requires 0 <= i < |calls| => FunctionCallOutput(calls[i].callId, onToolCall(CallOf(calls[i]))))
  }

  /** The function calls of two runs of items are those of the first, then those of the second. */
  lemma {:induction false} FunctionCallsAppend(a: seq<OutputItem>, b: seq<OutputItem>)
    ensures FunctionCalls(a + b) == FunctionCalls(a) + FunctionCalls(b)
    decreases |b|
  {
    if b == [] {
      assert a + b == a;
    } else {
      var b' := b[..|b| - 1];
      assert (a + b)[..|a + b| - 1] == a + b';
      FunctionCallsAppend(a, b');
    }
  }

  /** Processing a response in two parts gives the outputs of the parts, in order. */
  lemma ToolOutputsAppend(a: seq<OutputItem>, b: seq<OutputItem>, onToolCall: ToolCall -> string)
    ensures ToolOutputs(a + b, onToolCall) == ToolOutputs(a, onToolCall) + ToolOutputs(b, onToolCall)
  {
    FunctionCallsAppend(a, b);
  }

  /** Message items produce no outputs: a response without function calls ends the loop. */
  lemma {:induction false} MessagesGiveNoOutputs(items: seq<OutputItem>, onToolCall: ToolCall -> string)
    requires forall i :: 0 <= i < |items| ==> items[i].MessageItem?
    ensures ToolOutputs(items, onToolCall) == []
    decreases |items|
  {
    if items != [] {
      MessagesGiveNoOutputs(items[..|items| - 1], onToolCall);
    }
  }

  /** A single item is kept exactly when it is a function call. */
  lemma FunctionCallsSingle(item: OutputItem)
    ensures FunctionCalls([item]) == if item.FunctionCallItem? then [item] else []
  {
  }

  /** An item is among the calls exactly when it is a function-call item of the response. */
  lemma {:induction false} FunctionCallsMembers(items: seq<OutputItem>, x: OutputItem)
    ensures x in FunctionCalls(items) <==> x in items && x.FunctionCallItem?
    decreases |items|
  {
    if items != [] {
      var init := items[..|items| - 1];
      FunctionCallsMembers(init, x);
      assert items == init + [items[|items| - 1]];
    }
  }

  /**
   * The loop goes on exactly when the response holds a function call: the
   * outputs are empty only when no item is a call.
   */
  lemma NoOutputsWithoutCalls(items: seq<OutputItem>, onToolCall: ToolCall -> string)
    ensures ToolOutputs(items, onToolCall) == [] <==> forall i :: 0 <= i < |items| ==> !items[i].FunctionCallItem?
  {
    if ToolOutputs(items, onToolCall) != [] {
      var x := FunctionCalls(items)[0];
      FunctionCallsMembers(items, x);
    } else {
      forall i | 0 <= i < |items|
        ensures !items[i].FunctionCallItem?
      {
        FunctionCallsMembers(items, items[i]);
      }
    }
  }

  /** Each output answers the call at the same position, under the same call id. */
  lemma OutputsAnswerCalls(items: seq<OutputItem>, onToolCall: ToolCall -> string, i: nat)
    requires i < |ToolOutputs(items, onToolCall)|
    ensures var out := ToolOutputs(items, onToolCall)[i];
      && out.FunctionCallOutput?
      && out.callId == FunctionCalls(items)[i].callId
      && out.output == onToolCall(ToolCall(FunctionCalls(items)[i].callId, FunctionCalls(items)[i].name,
                                           FunctionCalls(items)[i].arguments))
  {
  }

  // ------------------------------------------------------------ final text

  /** The `output_text` parts of a message's content, in order. */
  function OutputTexts(content: seq<ContentItem>): (r: seq<string>)
    ensures |r| <= |content|
    decreases |content|
  {
    if content == [] then []
    else
      var last := content[|content| - 1];
      OutputTexts(content[..|content| - 1]) + (if IsOutputTextContent(last) then [last.text] else [])
  }

  /** A single piece of content gives its text exactly when it is `output_text`. */
  lemma OutputTextsSingle(x: ContentItem)
    ensures OutputTexts([x]) == if IsOutputTextContent(x) then [x.text] else []
  {
  }

  /** The texts of two runs of content are those of the first, then those of the second. */
  lemma {:induction false} OutputTextsAppend(a: seq<ContentItem>, b: seq<ContentItem>)
    ensures OutputTexts(a + b) == OutputTexts(a) + OutputTexts(b)
    decreases |b|
  {
    if b == [] {
      assert a + b == a;
    } else {
      var b' := b[..|b| - 1];
      assert (a + b)[..|a + b| - 1] == a + b';
      OutputTextsAppend(a, b');
    }
  }

  /** The text of a message: its `output_text` parts joined with nothing between them. */
  function MessageText(content: seq<ContentItem>): string
  {
    Js.Join(OutputTexts(content), "")
  }

  /**
   * `extractTextResponse`: the texts passed to `onComplete`, one per message
   * item with content whose text is not empty, in order.
   */
  function CompletedTexts(items: seq<OutputItem>): (r: seq<string>)
    ensures |r| <= |items|
    ensures forall i :: 0 <= i < |r| ==> r[i] != ""
    decreases |items|
  {
    if items == [] then []
    else
      var last := items[|items| - 1];
      var text := if IsMessageItem(last) && last.content.Some? then MessageText(last.content.value) else "";
      CompletedTexts(items[..|items| - 1]) + (if text != "" then [text] else [])
  }

  /** The texts of two runs of items are those of the first, then those of the second. */
  lemma {:induction false} CompletedTextsAppend(a: seq<OutputItem>, b: seq<OutputItem>)
    ensures CompletedTexts(a + b) == CompletedTexts(a) + CompletedTexts(b)
    decreases |b|
  {
    if b == [] {
      assert a + b == a;
    } else {
      var b' := b[..|b| - 1];
      assert (a + b)[..|a + b| - 1] == a + b';
      CompletedTextsAppend(a, b');
    }
  }

  /**
   * A single item gives a text exactly when it is a message with content
   * whose text is not empty, and then it gives that text.
   */
  lemma CompletedTextsSingle(item: OutputItem)
    ensures CompletedTexts([item]) ==
      if IsMessageItem(item) && item.content.Some? && MessageText(item.content.value) != ""
      then [MessageText(item.content.value)] else []
  {
  }

  /** Function-call items add no text. */
  lemma CallsGiveNoText(items: seq<OutputItem>, call: OutputItem)
    requires call.FunctionCallItem?
    ensures CompletedTexts(items + [call]) == CompletedTexts(items)
  {
    assert (items + [call])[..|items|] == items;
  }

  // ------------------------------------------------------------ the turn

  /** Where a turn leaves the conversation with the model. */
  datatype Run = Run(sent: seq<Request>, lastResponseId: Option<string>, outcome: ChatOutcome)

  /**
   * The tool loop once `response` has arrived: answer its function calls and
   * send their outputs, until a response has none.
   */
  function ToolRounds(api: Api, withTools: bool, onToolCall: ToolCall -> string,
                      sent: seq<Request>, lastResponseId: Option<string>, response: Response, fuel: nat): (run: Run)
    ensures |run.sent| >= |sent| && run.sent[..|sent|] == sent
    decreases fuel
  {
    var outputs := ToolOutputs(response.output, onToolCall);
    if outputs == [] then Run(sent, lastResponseId, Answered(CompletedTexts(response.output)))
    else if fuel == 0 then Run(sent, lastResponseId, OutOfFuel)
    else
      var request := Request(outputs, ToolFollowup, withTools, lastResponseId);
      var sent' := sent + [request];
      match api(sent')
      case ApiError(message) => Run(sent', lastResponseId, Failed(message))
      case Responded(next) =>
        var run := ToolRounds(api, withTools, onToolCall, sent', Some(next.id), next, fuel - 1);
        assert run.sent[..|sent|] == run.sent[..|sent'|][..|sent|];
        run
  }

  /**
   * A whole turn, once the user's message is in `history`: the first request,
   * then the tool loop when a tool callback and a tool executor both exist.
   */
  function ChatRun(api: Api, withTools: bool, onToolCall: Option<ToolCall -> string>,
                   history: seq<InputItem>, sent: seq<Request>, lastResponseId: Option<string>, fuel: nat): (run: Run)
    requires history != []
    ensures |run.sent| > |sent| && run.sent[..|sent|] == sent
    ensures run.sent[|sent|] == Request(FirstInput(history, lastResponseId), Initial, withTools, lastResponseId)
  {
    var request := Request(FirstInput(history, lastResponseId), Initial, withTools, lastResponseId);
    var sent' := sent + [request];
    match api(sent')
    case ApiError(message) => Run(sent', lastResponseId, Failed(message))
    case Responded(response) =>
      if onToolCall.Some? && withTools then
        var run := ToolRounds(api, withTools, onToolCall.value, sent', Some(response.id), response, fuel);
        assert run.sent[..|sent|] == run.sent[..|sent'|][..|sent|];
        assert run.sent[|sent|] == run.sent[..|sent'|][|sent|];
        run
      else Run(sent', Some(response.id), Answered(CompletedTexts(response.output)))
  }

  /**
   * What the tool loop sends: every request from position `from` on carries
   * the tool outputs of the response to the request before it, which are
   * never empty, and continues that response by its id.
   */
  predicate FollowUpsAnswer(api: Api, onToolCall: ToolCall -> string, sent: seq<Request>, from: nat)
    requires from <= |sent|
  {
    forall k :: 0 < from <= k < |sent| ==> FollowUpAnswers(api, onToolCall, sent[..k], sent[k])
  }

  /** `request` follows up the response to the last of `before`, with that response's tool outputs. */
  predicate FollowUpAnswers(api: Api, onToolCall: ToolCall -> string, before: seq<Request>, request: Request)
  {
    && api(before).Responded?
    && request.instructions == ToolFollowup
    && request.input == ToolOutputs(api(before).response.output, onToolCall)
    && request.input != []
    && request.previousResponseId == Some(api(before).response.id)
  }

  /** One round of the loop: a response with tool outputs is answered by one more request. */
  lemma ToolRoundsStep(api: Api, withTools: bool, onToolCall: ToolCall -> string,
                       sent: seq<Request>, lastResponseId: Option<string>, response: Response, fuel: nat)
    requires ToolOutputs(response.output, onToolCall) != [] && fuel > 0
    ensures var request := Request(ToolOutputs(response.output, onToolCall), ToolFollowup, withTools, lastResponseId);
      var run := ToolRounds(api, withTools, onToolCall, sent, lastResponseId, response, fuel);
      && (api(sent + [request]).ApiError? ==>
            run == Run(sent + [request], lastResponseId, Failed(api(sent + [request]).message)))
      && (api(sent + [request]).Responded? ==>
            var next := api(sent + [request]).response;
            run == ToolRounds(api, withTools, onToolCall, sent + [request], Some(next.id), next, fuel - 1))
  {
  }

  /**
   * How the loop ends: an error is the last request's; otherwise the
   * remembered id is the last response's, and an answer comes only from a
   * response that asks for no tools, with its texts.
   */
  lemma {:induction false} ToolRoundsEnd(api: Api, withTools: bool, onToolCall: ToolCall -> string,
                                         sent: seq<Request>, lastResponseId: Option<string>,
                                         response: Response, fuel: nat)
    requires sent != [] && api(sent) == Responded(response) && lastResponseId == Some(response.id)
    ensures var run := ToolRounds(api, withTools, onToolCall, sent, lastResponseId, response, fuel);
      && (run.outcome.Failed? ==> api(run.sent) == ApiError(run.outcome.message))
      && (!run.outcome.Failed? ==>
            api(run.sent).Responded? && run.lastResponseId == Some(api(run.sent).response.id))
      && (run.outcome.Answered? ==>
            ToolOutputs(api(run.sent).response.output, onToolCall) == []
            && run.outcome.texts == CompletedTexts(api(run.sent).response.output))
    decreases fuel
  {
    var outputs := ToolOutputs(response.output, onToolCall);
    if outputs != [] && fuel > 0 {
      ToolRoundsStep(api, withTools, onToolCall, sent, lastResponseId, response, fuel);
      var sent' := sent + [Request(outputs, ToolFollowup, withTools, lastResponseId)];
      if api(sent').Responded? {
        var next := api(sent').response;
        ToolRoundsEnd(api, withTools, onToolCall, sent', Some(next.id), next, fuel - 1);
      }
    }
  }

  /** Every request the loop adds, at position `k`, answers the response before it. */
  lemma {:induction false} ToolRoundsAt(api: Api, withTools: bool, onToolCall: ToolCall -> string,
                                        sent: seq<Request>, lastResponseId: Option<string>,
                                        response: Response, fuel: nat, k: nat)
    requires sent != [] && api(sent) == Responded(response) && lastResponseId == Some(response.id)
    requires |sent| <= k < |ToolRounds(api, withTools, onToolCall, sent, lastResponseId, response, fuel).sent|
    ensures var run := ToolRounds(api, withTools, onToolCall, sent, lastResponseId, response, fuel);
      FollowUpAnswers(api, onToolCall, run.sent[..k], run.sent[k])
    decreases fuel
  {
    var run := ToolRounds(api, withTools, onToolCall, sent, lastResponseId, response, fuel);
    var outputs := ToolOutputs(response.output, onToolCall);
    ToolRoundsStep(api, withTools, onToolCall, sent, lastResponseId, response, fuel);
    var request := Request(outputs, ToolFollowup, withTools, lastResponseId);
    var sent' := sent + [request];
    assert run.sent[..|sent'|] == sent';
    if k == |sent| {
      assert run.sent[..k] == sent' [..k] == sent;
      assert run.sent[k] == sent'[k] == request;
    } else {
      assert api(sent').Responded?;
      var next := api(sent').response;
      assert run == ToolRounds(api, withTools, onToolCall, sent', Some(next.id), next, fuel - 1);
      ToolRoundsAt(api, withTools, onToolCall, sent', Some(next.id), next, fuel - 1, k);
    }
  }

  /** The loop's guarantees, over every request it adds and over how it ends. */
  lemma ToolRoundsFollowUps(api: Api, withTools: bool, onToolCall: ToolCall -> string,
                            sent: seq<Request>, lastResponseId: Option<string>,
                            response: Response, fuel: nat)
    requires sent != [] && api(sent) == Responded(response) && lastResponseId == Some(response.id)
    ensures var run := ToolRounds(api, withTools, onToolCall, sent, lastResponseId, response, fuel);
      && FollowUpsAnswer(api, onToolCall, run.sent, |sent|)
      && (run.outcome.Failed? ==> api(run.sent) == ApiError(run.outcome.message))
      && (!run.outcome.Failed? ==>
            api(run.sent).Responded? && run.lastResponseId == Some(api(run.sent).response.id))
      && (run.outcome.Answered? ==>
            ToolOutputs(api(run.sent).response.output, onToolCall) == []
            && run.outcome.texts == CompletedTexts(api(run.sent).response.output))
  {
    var run := ToolRounds(api, withTools, onToolCall, sent, lastResponseId, response, fuel);
    forall k | 0 < |sent| <= k < |run.sent|
      ensures FollowUpAnswers(api, onToolCall, run.sent[..k], run.sent[k])
    {
      ToolRoundsAt(api, withTools, onToolCall, sent, lastResponseId, response, fuel, k);
    }
    ToolRoundsEnd(api, withTools, onToolCall, sent, lastResponseId, response, fuel);
  }

  class ChatLoop {
    /** The user's messages, oldest first: nothing else is ever recorded here. */
    var conversationHistory: seq<InputItem>
    /** The id of the last response, which the next request continues. */
    var lastResponseId: Option<string>
    /** Every request sent so far, oldest first: what the remote side has seen. */
    var sent: seq<Request>
    /** The tool registry, present exactly when a history service was given. */
    const toolExecutor: Option<Tools.ToolRegistry>

    ghost predicate Valid()
      reads this
    {
      forall i :: 0 <= i < |conversationHistory| ==> IsUserMessage(conversationHistory[i])
    }

    constructor (historyService: Option<TerminalHistory.TerminalHistoryService>, terminalExecutor: Option<TerminalExecutor>)
      ensures Valid()
      ensures conversationHistory == [] && lastResponseId == None && sent == []
      ensures toolExecutor.Some? <==> historyService.Some?
      ensures toolExecutor.Some? ==> toolExecutor.value.historyService == historyService
    {
      conversationHistory := [];
      lastResponseId := None;
      sent := [];
      toolExecutor := if historyService.Some? then Some(Tools.ToolRegistry(historyService, terminalExecutor)) else None;
    }

    /** Appends the user's message and nothing else. */
    method AddUserMessage(text: string)
      requires Valid()
      modifies this
      ensures Valid()
      ensures conversationHistory == old(conversationHistory) + [UserMessage(text)]
      ensures lastResponseId == old(lastResponseId) && sent == old(sent)
    {
      conversationHistory := conversationHistory + [UserMessage(text)];
    }

    /**
     * One request: it continues the last response, and a response makes its
     * id the one to continue next.
     */
    method MakeApiCall(api: Api, input: seq<InputItem>, instructions: Instructions) returns (outcome: ApiOutcome)
      modifies this
      ensures sent == old(sent) + [Request(input, instructions, toolExecutor.Some?, old(lastResponseId))]
      ensures outcome == api(sent)
      ensures lastResponseId == if outcome.Responded? then Some(outcome.response.id) else old(lastResponseId)
      ensures conversationHistory == old(conversationHistory)
    {
      sent := sent + [Request(input, instructions, toolExecutor.Some?, lastResponseId)];
      outcome := api(sent);
      if outcome.Responded? {
        lastResponseId := Some(outcome.response.id);
      }
    }

    /** `processFunctionCalls`: answers the function calls one at a time, in order. */
    static method ProcessFunctionCalls(response: Response, onToolCall: ToolCall -> string)
      returns (functionOutputs: seq<InputItem>)
      ensures functionOutputs == ToolOutputs(response.output, onToolCall)
    {
      functionOutputs := [];
      for i := 0 to |response.output|
        invariant functionOutputs == ToolOutputs(response.output[..i], onToolCall)
      {
        var item := response.output[i];
        assert response.output[..i + 1][..i] == response.output[..i];
        if IsFunctionCallItem(item) {
          var toolCall := ToolCall(item.callId, item.name, item.arguments);
          var output := onToolCall(toolCall);
          functionOutputs := functionOutputs + [FunctionCallOutput(item.callId, output)];
        }
      }
      assert response.output[..|response.output|] == response.output;
    }

    /**
     * The `while` loop of `chat`: while the last response asks for tools,
     * answer them and send the outputs.
     */
    method ToolLoop(api: Api, onToolCall: ToolCall -> string, response: Response, fuel: nat)
      returns (outcome: ChatOutcome)
      requires toolExecutor.Some?
      modifies this
      ensures conversationHistory == old(conversationHistory)
      ensures var run := ToolRounds(api, true, onToolCall, old(sent), old(lastResponseId), response, fuel);
        sent == run.sent && lastResponseId == run.lastResponseId && outcome == run.outcome
    {
      ghost var run := ToolRounds(api, true, onToolCall, sent, lastResponseId, response, fuel);
      var current := response;
      var f := fuel;
      while true
        invariant conversationHistory == old(conversationHistory)
        invariant ToolRounds(api, true, onToolCall, sent, lastResponseId, current, f) == run
        decreases f
      {
        var toolOutputs := ProcessFunctionCalls(current, onToolCall);
        if |toolOutputs| == 0 {
          return Answered(CompletedTexts(current.output));
        }
        if f == 0 {
          return OutOfFuel;
        }
        ToolRoundsStep(api, true, onToolCall, sent, lastResponseId, current, f);
        var next := MakeApiCall(api, toolOutputs, ToolFollowup);
        if next.ApiError? {
          return Failed(next.message);
        }
        current := next.response;
        f := f - 1;
      }
    }

    /**
     * `chat`: records the message, sends the first request, runs the tool loop
     * while both a tool callback and a tool executor exist, and ends with the
     * final response's texts or with the first error.
     */
    method Chat(userInput: string, onToolCall: Option<ToolCall -> string>, api: Api, fuel: nat)
      returns (outcome: ChatOutcome)
      requires Valid()
      modifies this
      ensures Valid()
      ensures conversationHistory == old(conversationHistory) + [UserMessage(userInput)]
      ensures var run := ChatRun(api, toolExecutor.Some?, onToolCall, conversationHistory, old(sent), old(lastResponseId), fuel);
        sent == run.sent && lastResponseId == run.lastResponseId && outcome == run.outcome
    {
      AddUserMessage(userInput);
      var input := if HasResponseId(lastResponseId) then [conversationHistory[|conversationHistory| - 1]]
                   else conversationHistory;
      var first := MakeApiCall(api, input, Initial);
      if first.ApiError? {
        outcome := Failed(first.message);
      } else if onToolCall.Some? && toolExecutor.Some? {
        outcome := ToolLoop(api, onToolCall.value, first.response, fuel);
      } else {
        outcome := Answered(CompletedTexts(first.response.output));
      }
    }

    /** `getHistory`: the user's messages so far. */
    method GetHistory() returns (h: seq<InputItem>)
      requires Valid()
      ensures h == conversationHistory
      ensures forall i :: 0 <= i < |h| ==> IsUserMessage(h[i])
    {
      h := conversationHistory;
    }

    /** `clearHistory`: forgets the messages and the response to continue. */
    method ClearHistory()
      modifies this
      ensures Valid()
      ensures conversationHistory == [] && lastResponseId == None && sent == old(sent)
    {
      conversationHistory := [];
      lastResponseId := None;
    }
  }

  /**
   * A turn's first request carries the whole history when there is no
   * response to continue, and otherwise only the new message.
   */
  lemma FirstRequestInput(api: Api, withTools: bool, onToolCall: Option<ToolCall -> string>,
                          history: seq<InputItem>, text: string, sent: seq<Request>,
                          lastResponseId: Option<string>, fuel: nat)
    ensures var run := ChatRun(api, withTools, onToolCall, history + [UserMessage(text)], sent, lastResponseId, fuel);
      && (!HasResponseId(lastResponseId) ==> run.sent[|sent|].input == history + [UserMessage(text)])
      && (HasResponseId(lastResponseId) ==> run.sent[|sent|].input == [UserMessage(text)])
      && run.sent[|sent|].previousResponseId == lastResponseId
  {
  }

  /**
   * Without a tool callback or a tool executor a turn is one request, and its
   * answer is the text of that request's response, function calls or not.
   */
  lemma NoToolLoopWithoutTools(api: Api, withTools: bool, onToolCall: Option<ToolCall -> string>,
                               history: seq<InputItem>, sent: seq<Request>,
                               lastResponseId: Option<string>, fuel: nat)
    requires history != []
    requires onToolCall.None? || !withTools
    ensures var run := ChatRun(api, withTools, onToolCall, history, sent, lastResponseId, fuel);
      && |run.sent| == |sent| + 1
      && (api(run.sent).Responded? ==>
            run.outcome == Answered(CompletedTexts(api(run.sent).response.output))
            && run.lastResponseId == Some(api(run.sent).response.id))
      && (api(run.sent).ApiError? ==>
            run.outcome == Failed(api(run.sent).message) && run.lastResponseId == lastResponseId)
  {
  }

  /**
   * The tool loop of a turn: every request after the first answers the
   * response before it with that response's tool outputs, and the turn ends
   * with an answer only at a response that calls no tool, whose texts it
   * returns; the id kept is that of the last response.
   */
  lemma TurnFollowUps(api: Api, onToolCall: ToolCall -> string, history: seq<InputItem>,
                      sent: seq<Request>, lastResponseId: Option<string>, fuel: nat)
    requires history != []
    ensures var run := ChatRun(api, true, Some(onToolCall), history, sent, lastResponseId, fuel);
      && FollowUpsAnswer(api, onToolCall, run.sent, |sent| + 1)
      && (run.outcome.Answered? ==>
            && api(run.sent).Responded?
            && run.lastResponseId == Some(api(run.sent).response.id)
            && ToolOutputs(api(run.sent).response.output, onToolCall) == []
            && run.outcome.texts == CompletedTexts(api(run.sent).response.output))
  {
    var request := Request(FirstInput(history, lastResponseId), Initial, true, lastResponseId);
    var sent' := sent + [request];
    if api(sent').Responded? {
      var response := api(sent').response;
      ToolRoundsFollowUps(api, true, onToolCall, sent', Some(response.id), response, fuel);
    }
  }
}

/**
 * The shapes exchanged with the Responses API: the items the model's response
 * holds, the items sent to it, and the guards that tell response items apart.
 */
module EchoApi {
  import opened Wrappers
  import opened ToolTypes

  /** A piece of message content, tagged by its `type`. */
  datatype ContentItem = ContentItem(contentType: string, text: string)

  /** An item of a response: a message, or a call of one of the tools. */
  datatype OutputItem =
    | MessageItem(role: Option<string>, content: Option<seq<ContentItem>>)
    | FunctionCallItem(callId: string, name: string, arguments: ToolArgs)

  /** A response: its id and its items, in order. */
  datatype Response = Response(id: string, output: seq<OutputItem>)

  /** A piece of user message content: `{type: 'input_text', text}`. */
  datatype InputContent = InputText(text: string)

  /**
   * An item sent to the API: a message, or the result of a function call,
   * `{type: 'function_call_output', call_id, output}`.
   */
  datatype InputItem =
    | Message(role: string, content: seq<InputContent>)
    | FunctionCallOutput(callId: string, output: string)

  /** The `type` tag of a response item. */
  function ItemType(item: OutputItem): string
  {
    match item
    case MessageItem(_, _) => "message"
    case FunctionCallItem(_, _, _) => "function_call"
  }

  predicate IsMessageItem(item: OutputItem)
  {
    ItemType(item) == "message"
  }

  predicate IsFunctionCallItem(item: OutputItem)
  {
    ItemType(item) == "function_call"
  }

  predicate IsOutputTextContent(content: ContentItem)
  {
    content.contentType == "output_text"
  }

  /** The guards recognise exactly their own kind of item, and no item is both. */
  lemma GuardsMatchKinds(item: OutputItem)
    ensures IsMessageItem(item) <==> item.MessageItem?
    ensures IsFunctionCallItem(item) <==> item.FunctionCallItem?
    ensures !(IsMessageItem(item) && IsFunctionCallItem(item))
  {
    assert "message" != "function_call" by {
      assert "message"[1] != "function_call"[1];
    }
  }
}

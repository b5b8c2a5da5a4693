/**
 * The prompt's keystroke handler: it edits the line being typed, submits it
 * as a chat message or as a slash command, and, while a tool call waits for
 * approval, turns Enter and Escape into the user's answer and ignores every
 * other key.
 *
 * The handler's calls into the chat are returned as `Action`s, in the order
 * the handler makes them.
 */
module PromptContext {
  import Js

  /** The flags of a keystroke that the handler looks at. */
  datatype Key = Key(isReturn: bool, isEscape: bool, isBackspace: bool, isDelete: bool)

  /** A plain keystroke: none of the flags set. */
  const Plain := Key(false, false, false, false)
  const Enter := Key(true, false, false, false)
  const Backspace := Key(false, false, true, false)

  datatype Action =
    | Approve
    | Reject
    | AddCommand(command: string)
    | RunCommand(command: string)
    | SendMessage(text: string)

  /** What one keystroke does: the line afterwards and the calls made. */
  datatype Step = Step(input: string, actions: seq<Action>)

  predicate IsSlashCommand(line: string)
  {
    |line| > 0 && line[0] == '/'
  }

  /**
   * The handler, as a function of the line, the keystroke's text and flags,
   * whether an approval is pending, and whether a command callback exists.
   */
  function Route(line: string, input: string, key: Key, approvalPending: bool, hasOnCommand: bool): (s: Step)
    ensures approvalPending ==> s.input == line
    ensures |s.actions| <= 2
  {
    if approvalPending then
      if key.isReturn then Step(line, [Approve])
      else if key.isEscape then Step(line, [Reject])
      else Step(line, [])
    else if key.isReturn then
      if Js.Trim(line) == "" then Step(line, [])
      else if IsSlashCommand(line) then
        Step("", [AddCommand(line)] + (if hasOnCommand then [RunCommand(line[1..])] else []))
      else Step("", [SendMessage(line)])
    else if key.isBackspace || key.isDelete then Step(Js.Slice(line, 0, -1), [])
    else if input != "" then Step(line + input, [])
    else Step(line, [])
  }

  class PromptInput {
    /** The line being typed. */
    var currentInput: string
    /** Whether the provider was given an `onCommand` callback. */
    const hasOnCommand: bool

    constructor (hasOnCommand: bool)
      ensures currentInput == "" && this.hasOnCommand == hasOnCommand
    {
      currentInput := "";
      this.hasOnCommand := hasOnCommand;
    }

    /** `handleInput`: one keystroke. */
    method HandleInput(input: string, key: Key, approvalPending: bool) returns (actions: seq<Action>)
      modifies this
      ensures Route(old(currentInput), input, key, approvalPending, hasOnCommand) == Step(currentInput, actions)
    {
      actions := [];
      if approvalPending {
        if key.isReturn {
          actions := [Approve];
        } else if key.isEscape {
          actions := [Reject];
        }
        return;
      }
      if key.isReturn {
        if Js.Trim(currentInput) != "" {
          if IsSlashCommand(currentInput) {
            var command := currentInput[1..];
            actions := [AddCommand(currentInput)];
            if hasOnCommand {
              actions := actions + [RunCommand(command)];
            }
          } else {
            actions := [SendMessage(currentInput)];
          }
          currentInput := "";
        }
      } else if key.isBackspace || key.isDelete {
        currentInput := Js.Slice(currentInput, 0, -1);
      } else if input != "" {
        currentInput := currentInput + input;
      }
    }
  }

  /**
   * While an approval is pending the line never changes, Enter only
   * approves, Escape only rejects, and no other key makes any call.
   */
  lemma PendingBlocksInput(line: string, input: string, key: Key, hasOnCommand: bool)
    ensures var s := Route(line, input, key, true, hasOnCommand);
      && s.input == line
      && (key.isReturn ==> s.actions == [Approve])
      && (!key.isReturn && key.isEscape ==> s.actions == [Reject])
      && (!key.isReturn && !key.isEscape ==> s.actions == [])
      && (forall a :: a in s.actions ==> a == Approve || a == Reject)
  {
  }

  /** Without a pending approval no keystroke approves or rejects. */
  lemma NoAnswerWithoutPending(line: string, input: string, key: Key, hasOnCommand: bool)
    ensures forall a :: a in Route(line, input, key, false, hasOnCommand).actions ==> a != Approve && a != Reject
  {
  }

  /** Enter on a blank line changes nothing and calls nothing. */
  lemma BlankEnterDoesNothing(line: string, hasOnCommand: bool)
    requires Js.AllWhiteSpace(line)
    ensures Route(line, "", Enter, false, hasOnCommand) == Step(line, [])
  {
    Js.TrimEmptyIffBlank(line);
  }

  /**
   * Enter on a line with text clears it, and submits it either as a chat
   * message or, when it starts with `/`, as a command whose recorded form is
   * the whole line and whose run form is the line without its `/`.
   */
  lemma SubmitClears(line: string, hasOnCommand: bool)
    requires !Js.AllWhiteSpace(line)
    ensures var s := Route(line, "", Enter, false, hasOnCommand);
      && s.input == ""
      && (!IsSlashCommand(line) ==> s.actions == [SendMessage(line)])
      && (IsSlashCommand(line) ==>
            && s.actions[0] == AddCommand(line)
            && (hasOnCommand ==> |s.actions| == 2 && "/" + s.actions[1].command == line)
            && (!hasOnCommand ==> |s.actions| == 1))
  {
    Js.TrimEmptyIffBlank(line);
    if IsSlashCommand(line) {
      assert "/" + line[1..] == line;
    }
  }

  /** Typing appends the keystroke's text. */
  lemma TypingAppends(line: string, input: string, hasOnCommand: bool)
    ensures Route(line, input, Plain, false, hasOnCommand) == Step(line + input, [])
  {
  }

  /**
   * Backspace undoes a one-character keystroke, and on an empty line it
   * leaves the line empty.
   */
  lemma BackspaceUndoesTyping(line: string, c: char, hasOnCommand: bool)
    ensures var typed := Route(line, [c], Plain, false, hasOnCommand).input;
      Route(typed, "", Backspace, false, hasOnCommand) == Step(line, [])
    ensures Route("", "", Backspace, false, hasOnCommand) == Step("", [])
  {
    var typed := line + [c];
    Js.SliceDropLast(typed);
    assert typed[..|typed| - 1] == line;
    Js.SliceDropLast("");
  }
}

/**
 * The prompt pane's window onto the chat log: the newest entries that fit in
 * its height, and a banner counting the entries above them.
 */
module PromptPane {
  import Js
  import opened Wrappers
  import LlmChat

  /** Rows left for entries: the height less the border and padding, at least 5. */
  function VisibleLines(height: int): (n: int)
    ensures n >= 5 && n >= height - 4
    ensures n == 5 || n == height - 4
  {
    Js.Max(5, height - 4)
  }

  /** `history.slice(-visibleLines)`. */
  function VisibleHistory(history: seq<LlmChat.CommandEntry>, height: int): (r: seq<LlmChat.CommandEntry>)
    ensures r == Js.LastN(history, VisibleLines(height))
  {
    Js.SliceFromNegative(history, VisibleLines(height));
    Js.SliceFrom(history, -VisibleLines(height))
  }

  function HiddenCount(history: seq<LlmChat.CommandEntry>, height: int): int
  {
    |history| - |VisibleHistory(history, height)|
  }

  predicate HasMoreHistory(history: seq<LlmChat.CommandEntry>, height: int)
  {
    HiddenCount(history, height) > 0
  }

  /** The banner shown above the entries, when any are hidden. */
  function Banner(history: seq<LlmChat.CommandEntry>, height: int): (b: Option<string>)
    ensures b.Some? <==> HasMoreHistory(history, height)
  {
    if HasMoreHistory(history, height) then
      Some("\U{22EE} (" + Js.IntToString(HiddenCount(history, height)) + " more entries above)")
    else None
  }

  /**
   * The pane shows the newest `min(|history|, visibleLines)` entries in
   * order; the entries hidden are exactly the older rest, counted by the
   * banner; there are some exactly when the log is longer than the window.
   */
  lemma WindowSplitsHistory(history: seq<LlmChat.CommandEntry>, height: int)
    ensures var visible, hidden := VisibleHistory(history, height), HiddenCount(history, height);
      && |visible| == Js.Min(|history|, VisibleLines(height))
      && hidden == Js.Max(0, |history| - VisibleLines(height))
      && hidden >= 0
      && history == history[..hidden] + visible
      && (HasMoreHistory(history, height) <==> |history| > VisibleLines(height))
  {
    var visible := VisibleHistory(history, height);
    assert history == history[..|history| - |visible|] + visible;
  }

  /** A taller pane hides no more entries. */
  lemma TallerHidesLess(history: seq<LlmChat.CommandEntry>, h1: int, h2: int)
    requires h1 <= h2
    ensures HiddenCount(history, h2) <= HiddenCount(history, h1)
  {
    WindowSplitsHistory(history, h1);
    WindowSplitsHistory(history, h2);
  }
}

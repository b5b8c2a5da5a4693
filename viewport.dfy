/**
 * Fitting chat entries into a pane of a given height: the newest entries are
 * kept, each as many lines as its rendered text needs at the pane's width.
 */
module Viewport {
  import Js

  datatype ChatEntry = ChatEntry(command: string, timestamp: string, kind: string)

  datatype ViewportResult = ViewportResult(
    visibleEntries: seq<ChatEntry>,
    hiddenCount: int,
    usedLines: int)

  /** The text an entry is rendered as: `[timestamp] command`. */
  function RenderedLine(entry: ChatEntry): string
  {
    "[" + entry.timestamp + "] " + entry.command
  }

  /** The rounded-up quotient of `n` by a positive `d`. */
  function CeilDiv(n: nat, d: int): (q: nat)
    requires d > 0
    ensures q * d >= n
    ensures q == 0 || (q - 1) * d < n
  {
    if n == 0 then 0 else 1 + CeilDiv(if n >= d then n - d else 0, d)
  }

  /**
   * The lines an entry takes at width `availableWidth`: the fewest whole lines
   * that hold its rendered text, and never fewer than one.
   */
  function EstimateEntryLines(entry: ChatEntry, availableWidth: int): (r: nat)
    requires availableWidth > 0
    ensures r >= 1
    ensures r * availableWidth >= |RenderedLine(entry)|
    ensures (r - 1) * availableWidth < |RenderedLine(entry)|
  {
    Js.Max(1, CeilDiv(|RenderedLine(entry)|, availableWidth))
  }

  /** The lines a run of entries takes. */
  function TotalLines(entries: seq<ChatEntry>, availableWidth: int): (n: nat)
    requires availableWidth > 0
    ensures n >= |entries|
    decreases |entries|
  {
    if entries == [] then 0
    else EstimateEntryLines(entries[0], availableWidth) + TotalLines(entries[1..], availableWidth)
  }

  /** A longer suffix takes more lines than a shorter one, by at least the entries added. */
  lemma {:induction false} SuffixLinesGrow(entries: seq<ChatEntry>, j: nat, k: nat, availableWidth: int)
    requires availableWidth > 0
    requires j < k <= |entries|
    ensures TotalLines(entries[j..], availableWidth)
         >= TotalLines(entries[k..], availableWidth) + EstimateEntryLines(entries[k - 1], availableWidth)
    decreases k - j
  {
    assert entries[k - 1..][1..] == entries[k..];
    if j < k - 1 {
      SuffixLinesGrow(entries, j + 1, k, availableWidth);
      assert entries[j..][1..] == entries[j + 1..];
    }
  }

  /** An entry put in front adds its own lines. */
  lemma PrependLines(entry: ChatEntry, entries: seq<ChatEntry>, availableWidth: int)
    requires availableWidth > 0
    ensures TotalLines([entry] + entries, availableWidth)
         == EstimateEntryLines(entry, availableWidth) + TotalLines(entries, availableWidth)
  {
    assert ([entry] + entries)[1..] == entries;
  }

  /**
   * When the entry just before the suffix from `k` does not fit beside it,
   * no longer suffix fits either.
   */
  lemma HiddenPrefixOverflows(entries: seq<ChatEntry>, k: nat, availableLines: int, availableWidth: int)
    requires availableWidth > 0
    requires k <= |entries|
    requires k > 0 ==>
      TotalLines(entries[k..], availableWidth) + EstimateEntryLines(entries[k - 1], availableWidth) > availableLines
    ensures forall j :: 0 <= j < k ==> TotalLines(entries[j..], availableWidth) > availableLines
  {
    forall j | 0 <= j < k
      ensures TotalLines(entries[j..], availableWidth) > availableLines
    {
      SuffixLinesGrow(entries, j, k, availableWidth);
    }
  }

  /**
   * Fits the newest entries into `availableLines` lines: the result is the
   * longest suffix of `entries` whose lines fit, in the original order, with
   * the count of entries left out and the lines used.
   */
  method CalculateVisibleEntries(entries: seq<ChatEntry>, availableLines: int, availableWidth: int)
    returns (result: ViewportResult)
    requires availableWidth > 0
    ensures 0 <= result.hiddenCount <= |entries|
    ensures result.visibleEntries == entries[result.hiddenCount..]
    ensures result.hiddenCount == |entries| - |result.visibleEntries|
    ensures result.usedLines == TotalLines(result.visibleEntries, availableWidth)
    ensures result.usedLines <= Js.Max(0, availableLines)
    ensures availableLines <= 0 ==> result.visibleEntries == [] && result.usedLines == 0
    ensures result.hiddenCount > 0 ==>
      result.usedLines + EstimateEntryLines(entries[result.hiddenCount - 1], availableWidth) > availableLines
    ensures forall j :: 0 <= j < result.hiddenCount ==> TotalLines(entries[j..], availableWidth) > availableLines
  {
    var usedLines := 0;
    var visibleEntries: seq<ChatEntry> := [];
    var i := |entries| - 1;
    while i >= 0
      invariant -1 <= i < |entries|
      invariant visibleEntries == entries[i + 1..]
      invariant usedLines == TotalLines(visibleEntries, availableWidth)
      invariant usedLines <= Js.Max(0, availableLines)
    {
      var entry := entries[i];
      var entryLines := EstimateEntryLines(entry, availableWidth);
      if usedLines + entryLines <= availableLines {
        PrependLines(entry, visibleEntries, availableWidth);
        visibleEntries := [entry] + visibleEntries;
        usedLines := usedLines + entryLines;
      } else {
        break;
      }
      i := i - 1;
    }
    var hiddenCount := |entries| - |visibleEntries|;
    HiddenPrefixOverflows(entries, hiddenCount, availableLines, availableWidth);
    result := ViewportResult(visibleEntries, hiddenCount, usedLines);
  }
}

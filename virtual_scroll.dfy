/**
 * The bounded scroll buffer: it keeps the newest `maxItems` items and shows
 * a window of them, the newest `maxVisibleItems` when it follows the bottom,
 * the oldest otherwise.
 *
 * Both bounds go through `slice(-n)`, whose zero and negative readings are
 * modelled as written: a bound of 0 keeps everything, and a negative bound
 * drops items from the front.
 */
module VirtualScroll {
  import Js

  /** How many items a new buffer shows. */
  const DefaultMaxVisibleItems: int := 50

  /** `combined.length > maxItems ? combined.slice(-maxItems) : combined`. */
  function Trimmed<T>(combined: seq<T>, maxItems: int): (r: seq<T>)
    ensures |combined| <= maxItems ==> r == combined
    ensures |r| <= |combined| && r == combined[|combined| - |r|..]
  {
    if |combined| > maxItems then Js.SliceFrom(combined, -maxItems) else combined
  }

  /**
   * With a positive bound the buffer holds the newest `maxItems` items, in
   * order, and never more.
   */
  lemma TrimmedKeepsNewest<T>(combined: seq<T>, maxItems: int)
    requires maxItems > 0
    ensures Trimmed(combined, maxItems) == Js.LastN(combined, maxItems)
    ensures |Trimmed(combined, maxItems)| == Js.Min(|combined|, maxItems)
  {
    if |combined| > maxItems {
      Js.SliceFromNegative(combined, maxItems);
    }
  }

  /** A bound of 0 reads as `slice(0)`: nothing is ever dropped. */
  lemma ZeroBoundKeepsAll<T>(combined: seq<T>)
    ensures Trimmed(combined, 0) == combined
  {
    if |combined| > 0 {
      Js.SliceFromNegativeZero(combined);
    }
  }

  /** A negative bound `-k` reads as `slice(k)`: the oldest `k` items are dropped. */
  lemma NegativeBoundDropsOldest<T>(combined: seq<T>, k: nat)
    requires k > 0
    ensures Trimmed(combined, -(k as int)) == if k < |combined| then combined[k..] else []
  {
  }

  /**
   * Adding in batches ends where adding all at once does: trimming what was
   * kept and the new items gives the newest items of the whole run.
   */
  lemma TrimmedAppend<T>(kept: seq<T>, more: seq<T>, maxItems: int)
    requires maxItems > 0
    ensures Trimmed(Trimmed(kept, maxItems) + more, maxItems) == Trimmed(kept + more, maxItems)
  {
    var t := Trimmed(kept, maxItems);
    TrimmedKeepsNewest(kept, maxItems);
    TrimmedKeepsNewest(t + more, maxItems);
    TrimmedKeepsNewest(kept + more, maxItems);
    var whole := kept + more;
    var d := |kept| - |t|;
    assert t + more == whole[d..];
    SuffixOfSuffix(whole, d, Js.Min(maxItems, |t + more|));
  }

  /** The last `n` items of a suffix that has at least `n` are the last `n` of the whole. */
  lemma SuffixOfSuffix<T>(s: seq<T>, d: nat, n: nat)
    requires d <= |s| && n <= |s| - d
    ensures s[d..][|s| - d - n..] == s[|s| - n..]
  {
  }

  /** The items shown: the last `n` when following the bottom, else the first `n`. */
  function Visible<T>(items: seq<T>, maxVisibleItems: int, autoScrollToBottom: bool): (r: seq<T>)
    ensures |r| <= |items|
    ensures autoScrollToBottom ==> r == items[|items| - |r|..]
    ensures !autoScrollToBottom ==> r == items[..|r|]
  {
    if autoScrollToBottom then Js.SliceFrom(items, -maxVisibleItems)
    else Js.Slice(items, 0, maxVisibleItems)
  }

  /** With a positive window, exactly `min(n, |items|)` items are shown. */
  lemma VisibleCount<T>(items: seq<T>, maxVisibleItems: int, autoScrollToBottom: bool)
    ensures maxVisibleItems > 0 ==>
      |Visible(items, maxVisibleItems, autoScrollToBottom)| == Js.Min(maxVisibleItems, |items|)
  {
    if autoScrollToBottom && maxVisibleItems > 0 {
      Js.SliceFromNegative(items, maxVisibleItems);
    }
  }

  /**
   * A zero window reads as `slice(-0)`, which is `slice(0)`: following the
   * bottom it shows every item, and otherwise none.
   */
  lemma ZeroWindow<T>(items: seq<T>)
    ensures Visible(items, 0, true) == items
    ensures Visible(items, 0, false) == []
  {
    Js.SliceFromNegativeZero(items);
  }

  class ScrollBuffer<T> {
    const maxItems: int
    const autoScrollToBottom: bool
    var items: seq<T>
    var maxVisibleItems: int

    constructor (maxItems: int, autoScrollToBottom: bool)
      ensures this.maxItems == maxItems && this.autoScrollToBottom == autoScrollToBottom
      ensures items == [] && maxVisibleItems == DefaultMaxVisibleItems
    {
      this.maxItems := maxItems;
      this.autoScrollToBottom := autoScrollToBottom;
      items := [];
      maxVisibleItems := DefaultMaxVisibleItems;
    }

    /** `addItem`: the item joins the end, and the oldest beyond the bound leave. */
    method AddItem(item: T)
      modifies this
      ensures items == Trimmed(old(items) + [item], maxItems)
      ensures maxVisibleItems == old(maxVisibleItems)
    {
      var newItems := items + [item];
      if |newItems| > maxItems {
        items := Js.SliceFrom(newItems, -maxItems);
      } else {
        items := newItems;
      }
    }

    /** `addItems`: the items join the end in order, and the oldest beyond the bound leave. */
    method AddItems(newItems: seq<T>)
      modifies this
      ensures items == Trimmed(old(items) + newItems, maxItems)
      ensures maxVisibleItems == old(maxVisibleItems)
    {
      var combined := items + newItems;
      if |combined| > maxItems {
        items := Js.SliceFrom(combined, -maxItems);
      } else {
        items := combined;
      }
    }

    /** `clear`. */
    method Clear()
      modifies this
      ensures items == [] && maxVisibleItems == old(maxVisibleItems)
    {
      items := [];
    }

    method SetMaxVisibleItems(max: int)
      modifies this
      ensures maxVisibleItems == max && items == old(items)
    {
      maxVisibleItems := max;
    }

    /** `visibleItems`: with a positive window, the newest or the oldest items that fit. */
    function VisibleItems(): (r: seq<T>)
      reads this
      ensures maxVisibleItems > 0 && autoScrollToBottom ==> r == Js.LastN(items, maxVisibleItems)
      ensures maxVisibleItems > 0 && !autoScrollToBottom ==> r == items[..Js.Min(maxVisibleItems, |items|)]
    {
      VisibleCount(items, maxVisibleItems, autoScrollToBottom);
      Visible(items, maxVisibleItems, autoScrollToBottom)
    }
  }

  /**
   * With a positive bound, the item just added is the newest kept, the
   * buffer never exceeds the bound, and a buffer under the bound loses
   * nothing.
   */
  lemma AddItemOutcome<T>(items: seq<T>, item: T, maxItems: int)
    requires maxItems > 0
    ensures var r := Trimmed(items + [item], maxItems);
      && |r| <= maxItems && r != [] && r[|r| - 1] == item
      && (|items| < maxItems ==> r == items + [item])
  {
    TrimmedKeepsNewest(items + [item], maxItems);
  }
}

/** The windowing arithmetic of the virtual-scroll service
    (src/app/services/virtual-scroll.service.ts): which item indices are
    materialised for a scroll offset, and when an item counts as centred.
    Pixels are natural numbers; item heights are positive. */
module ScrollWindow {
  import opened Common

  type Positive = n: nat | n > 0 witness 1

  /** `VirtualScrollOptions`. */
  datatype Options = Options(itemHeight: Positive, containerHeight: nat, bufferSize: nat)

  /** `Partial<VirtualScrollOptions>`: a field that is `None` was not given. */
  datatype PartialOptions = PartialOptions(itemHeight: Option<Positive>, containerHeight: Option<nat>, bufferSize: Option<nat>)

  /** `VirtualScrollState`, the value held by the service's state cell. */
  datatype ScrollState = ScrollState(
    startIndex: nat, endIndex: int, visibleItems: seq<int>,
    totalItems: nat, scrollTop: nat, isScrolling: bool)

  /** The service's `defaultOptions`. */
  const DefaultOptions: Options := Options(100, 500, 5)

  /** The state cell's value before anything happened. */
  const InitialState: ScrollState := ScrollState(0, 0, [], 0, 0, false)

  const NoOptions: PartialOptions := PartialOptions(None, None, None)

  /** `{ ...base, ...given }`: every field given wins over the base, and
      every field not given is the base's. */
  function Merge(base: Options, given: PartialOptions): (r: Options)
    ensures given.itemHeight.Some? ==> r.itemHeight == given.itemHeight.value
    ensures given.itemHeight.None? ==> r.itemHeight == base.itemHeight
    ensures given.containerHeight.Some? ==> r.containerHeight == given.containerHeight.value
    ensures given.containerHeight.None? ==> r.containerHeight == base.containerHeight
    ensures given.bufferSize.Some? ==> r.bufferSize == given.bufferSize.value
    ensures given.bufferSize.None? ==> r.bufferSize == base.bufferSize
  {
    Options(
      if given.itemHeight.Some? then given.itemHeight.value else base.itemHeight,
      if given.containerHeight.Some? then given.containerHeight.value else base.containerHeight,
      if given.bufferSize.Some? then given.bufferSize.value else base.bufferSize)
  }

  /** Spreading nothing over the base gives the base. */
  lemma MergeNothing(base: Options)
    ensures Merge(base, NoOptions) == base
  {
  }

  /** Spreading a full set of options over any base gives those options. */
  lemma MergeFull(base: Options, itemHeight: Positive, containerHeight: nat, bufferSize: nat)
    ensures Merge(base, PartialOptions(Some(itemHeight), Some(containerHeight), Some(bufferSize)))
            == Options(itemHeight, containerHeight, bufferSize)
  {
  }

  /** `Math.ceil(a / b)` for naturals: the least multiple count covering `a`. */
  function CeilDiv(a: nat, b: Positive): (r: nat)
    ensures r * b >= a
    ensures r == 0 || (r - 1) * b < a
  {
    var q := (a + b - 1) / b;
    assert (a + b - 1) == q * b + (a + b - 1) % b;
    q
  }

  /** `startIndex = max(0, floor(scrollTop / itemHeight) - bufferSize)`. */
  function StartIndex(scrollTop: nat, o: Options): (r: nat)
    ensures r <= scrollTop / o.itemHeight
    ensures r == 0 || r + o.bufferSize == scrollTop / o.itemHeight
    ensures r + o.bufferSize >= scrollTop / o.itemHeight
  {
    var first := scrollTop / o.itemHeight - o.bufferSize;
    if first < 0 then 0 else first
  }

  /** `endIndex = min(totalItems - 1, ceil((scrollTop + height) / itemHeight) + bufferSize)`. */
  function EndIndex(scrollTop: nat, clientHeight: nat, totalItems: nat, o: Options): (r: int)
    ensures r <= totalItems - 1
    ensures r <= CeilDiv(scrollTop + clientHeight, o.itemHeight) + o.bufferSize
    ensures r == totalItems - 1 || r == CeilDiv(scrollTop + clientHeight, o.itemHeight) + o.bufferSize
  {
    var last := CeilDiv(scrollTop + clientHeight, o.itemHeight) + o.bufferSize;
    if totalItems - 1 < last then totalItems - 1 else last
  }

  /** The ascending run `lo, lo + 1, ..., hi`; empty when `lo > hi`. */
  function Range(lo: int, hi: int): (r: seq<int>)
    ensures |r| == if lo <= hi then hi - lo + 1 else 0
    ensures forall k :: 0 <= k < |r| ==> r[k] == lo + k
    decreases hi - lo
  {
    if lo > hi then [] else [lo] + Range(lo + 1, hi)
  }

  /** Membership in a run is exactly lying between its ends. */
  lemma RangeMembers(lo: int, hi: int, x: int)
    ensures x in Range(lo, hi) <==> lo <= x <= hi
  {
    var r := Range(lo, hi);
    if lo <= x <= hi {
      assert r[x - lo] == x;
    }
  }

  /** `updateVisibleItems` (lines 226-236): the window's two ends and the
      index list built by its `for`/push loop. */
  method ComputeWindow(scrollTop: nat, clientHeight: nat, totalItems: nat, o: Options)
    returns (startIndex: nat, endIndex: int, visibleItems: seq<int>)
    ensures startIndex == StartIndex(scrollTop, o)
    ensures endIndex == EndIndex(scrollTop, clientHeight, totalItems, o)
    ensures |visibleItems| == if startIndex <= endIndex then endIndex - startIndex + 1 else 0
    ensures forall k :: 0 <= k < |visibleItems| ==> visibleItems[k] == startIndex + k
    ensures forall x :: x in visibleItems <==> startIndex <= x <= endIndex
    ensures forall x :: x in visibleItems ==> 0 <= x < totalItems
  {
    startIndex := StartIndex(scrollTop, o);
    endIndex := EndIndex(scrollTop, clientHeight, totalItems, o);
    visibleItems := [];
    var i: int := startIndex;
    while i <= endIndex
      invariant startIndex <= i <= if startIndex <= endIndex then endIndex + 1 else startIndex
      invariant |visibleItems| == i - startIndex
      invariant forall k :: 0 <= k < |visibleItems| ==> visibleItems[k] == startIndex + k
      decreases endIndex - i
    {
      visibleItems := visibleItems + [i];
      i := i + 1;
    }
    forall x ensures x in visibleItems <==> startIndex <= x <= endIndex {
      if startIndex <= x <= endIndex {
        assert visibleItems[x - startIndex] == x;
      }
    }
  }

  /** The state after `updateVisibleItems`: the window replaces the four
      window fields; `totalItems` and `isScrolling` are kept. */
  function WithWindow(st: ScrollState, scrollTop: nat, clientHeight: nat, totalItems: nat, o: Options): (r: ScrollState)
    ensures r.totalItems == st.totalItems && r.isScrolling == st.isScrolling
    ensures r.scrollTop == scrollTop
    ensures r.startIndex == StartIndex(scrollTop, o) && r.endIndex == EndIndex(scrollTop, clientHeight, totalItems, o)
    ensures r.visibleItems == Range(r.startIndex, r.endIndex)
    ensures forall x :: x in r.visibleItems <==> r.startIndex <= x <= r.endIndex
  {
    var s, e := StartIndex(scrollTop, o), EndIndex(scrollTop, clientHeight, totalItems, o);
    forall x ensures x in Range(s, e) <==> s <= x <= e { RangeMembers(s, e, x); }
    st.(startIndex := s, endIndex := e, visibleItems := Range(s, e), scrollTop := scrollTop)
  }

  /** Every materialised index is a real item index. */
  lemma WindowInBounds(scrollTop: nat, clientHeight: nat, totalItems: nat, o: Options, x: int)
    requires x in Range(StartIndex(scrollTop, o), EndIndex(scrollTop, clientHeight, totalItems, o))
    ensures 0 <= x < totalItems
  {
    RangeMembers(StartIndex(scrollTop, o), EndIndex(scrollTop, clientHeight, totalItems, o), x);
  }

  /** The window never holds more than
      `ceil((s+h)/ih) - floor(s/ih) + 2 * bufferSize + 1` indices. */
  lemma WindowLength(scrollTop: nat, clientHeight: nat, totalItems: nat, o: Options)
    ensures |Range(StartIndex(scrollTop, o), EndIndex(scrollTop, clientHeight, totalItems, o))|
         <= CeilDiv(scrollTop + clientHeight, o.itemHeight) - scrollTop / o.itemHeight + 2 * o.bufferSize + 1
  {
    var f := scrollTop / o.itemHeight;
    var c := CeilDiv(scrollTop + clientHeight, o.itemHeight);
    assert f * o.itemHeight <= scrollTop;
    assert f * o.itemHeight < (c + 1) * o.itemHeight;
    LtCancel(f, c + 1, o.itemHeight);
    RangeLength(StartIndex(scrollTop, o), EndIndex(scrollTop, clientHeight, totalItems, o),
                scrollTop / o.itemHeight, CeilDiv(scrollTop + clientHeight, o.itemHeight), o.bufferSize);
  }

  lemma RangeLength(s: int, e: int, f: int, c: int, b: nat)
    requires e <= c + b && s + b >= f && f <= c
    ensures |Range(s, e)| <= c - f + 2 * b + 1
  {
  }

  /** Every item that overlaps the viewport `[s, s + h)` (item k occupies
      `[k * ih, (k + 1) * ih)`) is materialised. */
  lemma WindowCoversViewport(scrollTop: nat, clientHeight: nat, totalItems: nat, o: Options, k: nat)
    requires k < totalItems
    requires k * o.itemHeight < scrollTop + clientHeight
    requires scrollTop < (k + 1) * o.itemHeight
    ensures k in Range(StartIndex(scrollTop, o), EndIndex(scrollTop, clientHeight, totalItems, o))
  {
    var ih := o.itemHeight;
    var f := scrollTop / ih;
    var c := CeilDiv(scrollTop + clientHeight, ih);
    assert f * ih <= scrollTop;
    LtCancel(f, k + 1, ih);
    LtCancel(k, c, ih);
    RangeMembers(StartIndex(scrollTop, o), EndIndex(scrollTop, clientHeight, totalItems, o), k);
  }

  lemma MulMono(a: nat, b: nat, c: nat)
    requires a <= b
    ensures a * c <= b * c
  {
  }

  /** At the top of a non-empty list, index 0 is materialised. */
  lemma TopIncludesFirst(clientHeight: nat, totalItems: nat, o: Options)
    requires totalItems > 0
    ensures 0 in Range(StartIndex(0, o), EndIndex(0, clientHeight, totalItems, o))
  {
    RangeMembers(StartIndex(0, o), EndIndex(0, clientHeight, totalItems, o), 0);
  }

  /** Sixteen 420-pixel items, buffer 8, an 800-pixel viewport at the top:
      the window is 0..10. */
  lemma SixteenItemsExample()
    ensures StartIndex(0, Options(420, 800, 8)) == 0
    ensures EndIndex(0, 800, 16, Options(420, 800, 8)) == 10
    ensures 0 in Range(0, 10)
  {
    assert CeilDiv(800, 420) == 2;
    RangeMembers(0, 10, 0);
  }

  /** The window is not bounded by `ceil(h / ih) + 2 * bufferSize`: one
      100-pixel viewport over 100-pixel items with no buffer materialises
      two items, because the end index is inclusive. */
  lemma WindowExceedsViewportCount()
    ensures CeilDiv(100, 100) + 2 * 0 == 1
    ensures |Range(StartIndex(0, Options(100, 100, 0)), EndIndex(0, 100, 10, Options(100, 100, 0)))| == 2
  {
    assert CeilDiv(100, 100) == 1;
  }

  // ---------------------------------------------------------------- centring

  /** A bounding box: its top edge and its height, in pixels. */
  datatype Rect = Rect(top: real, height: real)

  function Abs(x: real): real { if x < 0.0 then -x else x }

  function Center(r: Rect): real { r.top + r.height / 2.0 }

  /** `isItemCentered`'s test (line 137): the two vertical centres are
      strictly less than half an item height apart. */
  predicate Centered(container: Rect, item: Rect, itemHeight: Positive)
  {
    Abs(Center(container) - Center(item)) < itemHeight as real / 2.0
  }

  /** The box of item `index` when items are stacked `itemHeight` apart from
      `origin` (the layout the directive gives them). */
  function ItemBox(origin: real, index: int, itemHeight: Positive): Rect
  {
    Rect(origin + (index * itemHeight) as real, itemHeight as real)
  }

  /** With items stacked edge to edge, two different items are never both
      centred. */
  lemma AtMostOneCentered(container: Rect, origin: real, itemHeight: Positive, i: int, j: int)
    requires i != j
    ensures !(Centered(container, ItemBox(origin, i, itemHeight), itemHeight)
              && Centered(container, ItemBox(origin, j, itemHeight), itemHeight))
  {
    var ci := Center(ItemBox(origin, i, itemHeight));
    var cj := Center(ItemBox(origin, j, itemHeight));
    var d := if i > j then i - j else j - i;
    MulMono(1, d, itemHeight);
    assert Abs(ci - cj) == (d * itemHeight) as real;
    assert Abs(ci - cj) >= itemHeight as real;
  }
}

/** The neighbour window of `captureNextThreeScreenshots`
    (src/app/services/panorama.service.ts, lines 771-782): up to three ids
    before the active one and up to five after it, in registration order. */
module CaptureWindow {

  /** `Array.prototype.indexOf`: the first position of `x`, or -1. */
  function IndexOf<T(==)>(s: seq<T>, x: T): (i: int)
    ensures -1 <= i < |s|
    ensures i == -1 <==> x !in s
    ensures i >= 0 ==> s[i] == x && x !in s[..i]
  {
    if |s| == 0 then -1
    else if s[0] == x then 0
    else
      var j := IndexOf(s[1..], x);
      if j < 0 then -1
      else
        assert s[..j + 1] == [s[0]] + s[1..][..j];
        j + 1
  }

  function Max0(x: int): nat { if x < 0 then 0 else x }
  function Min(a: int, b: int): int { if a < b then a else b }

  /** The first position of the window (`Math.max(0, i - 3)`). */
  function WindowLo(i: nat): nat { Max0(i - 3) }

  /** The end of the window (`slice(i + 1, i + 6)` clamps to the length). */
  function WindowHi(n: nat, i: nat): nat { Max0(Min(n, i + 6)) }

  /** `[...order.slice(max(0, i - 3), i), ...order.slice(i + 1, i + 6)]`. */
  function NeighbourWindow<T>(order: seq<T>, i: nat): (r: seq<T>)
    requires i < |order|
    ensures |r| == (i - WindowLo(i)) + (WindowHi(|order|, i) - i - 1)
    ensures i - WindowLo(i) <= 3 && WindowHi(|order|, i) - i - 1 <= 5 && |r| <= 8
    ensures forall k :: 0 <= k < i - WindowLo(i) ==> r[k] == order[WindowLo(i) + k]
    ensures forall k :: i - WindowLo(i) <= k < |r| ==> r[k] == order[WindowLo(i) + k + 1]
  {
    order[WindowLo(i)..i] + order[i + 1..WindowHi(|order|, i)]
  }

  /** An element is a target exactly when it sits at a window position other
      than the active one. */
  lemma WindowMembers<T>(order: seq<T>, i: nat, x: T)
    requires i < |order|
    ensures x in NeighbourWindow(order, i) <==>
      exists j :: WindowLo(i) <= j < WindowHi(|order|, i) && j != i && order[j] == x
  {
    var r := NeighbourWindow(order, i);
    var lo, hi := WindowLo(i), WindowHi(|order|, i);
    if x in r {
      var k :| 0 <= k < |r| && r[k] == x;
      var j := if k < i - lo then lo + k else lo + k + 1;
      assert order[j] == x;
    }
    if j :| lo <= j < hi && j != i && order[j] == x {
      var k := if j < i then j - lo else j - lo - 1;
      assert r[k] == x;
    }
  }

  /** The window is full (eight ids) when three ids precede and five follow. */
  lemma FullWindow<T>(order: seq<T>, i: nat)
    requires 3 <= i && i + 6 <= |order|
    ensures |NeighbourWindow(order, i)| == 8
  {
  }

  /** When `i` is the FIRST position of the active id, the active id is a
      target exactly when it occurs again among the five positions after `i`;
      so with no repeated id it is never a target. */
  lemma ActiveIdExcluded<T>(order: seq<T>, i: nat)
    requires i < |order| && order[i] !in order[..i]
    ensures order[i] in NeighbourWindow(order, i) <==> order[i] in order[i + 1..WindowHi(|order|, i)]
    ensures (forall a, b :: 0 <= a < b < |order| ==> order[a] != order[b]) ==> order[i] !in NeighbourWindow(order, i)
  {
    var lo, hi := WindowLo(i), WindowHi(|order|, i);
    assert order[lo..i] == order[..i][lo..];
    assert order[i] !in order[lo..i];
    if forall a, b :: 0 <= a < b < |order| ==> order[a] != order[b] {
      var tail := order[i + 1..hi];
      forall k | 0 <= k < |tail|
        ensures tail[k] != order[i]
      {
        assert tail[k] == order[i + 1 + k];
      }
    }
  }
}

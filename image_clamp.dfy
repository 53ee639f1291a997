/** The dimension clamp of `compressImage`
    (src/app/services/panorama.service.ts, lines 509-520). */
module ImageClamp {
  import opened Common

  /** `Math.round(p / q)` for `p >= 0`: the nearest integer, halves upward. */
  function RoundDiv(p: nat, q: nat): (r: nat)
    requires q > 0
    ensures 2 * q * r <= 2 * p + q < 2 * q * (r + 1)
  {
    var r := (2 * p + q) / (2 * q);
    assert 2 * p + q == r * (2 * q) + (2 * p + q) % (2 * q);
    r
  }

  /** Scaling `a` by a ratio `b / c` below one and rounding never exceeds `a`. */
  lemma RoundedShrink(a: nat, b: nat, c: nat)
    requires b < c
    ensures RoundDiv(a * b, c) <= a
  {
    var r := RoundDiv(a * b, c);
    assert a * b <= a * c;
    assert 2 * c * r < 2 * c * (a + 1);
    LtCancel(r, a + 1, 2 * c);
  }

  /** One step of the clamp: a `side` longer than `limit` becomes `limit`,
      and the `other` side is scaled by the same ratio and rounded. */
  function Fit(side: nat, other: nat, limit: nat): (r: (nat, nat))
    ensures r.0 <= side && r.1 <= other
    ensures side <= limit ==> r == (side, other)
    ensures side > limit ==> r.0 == limit && r.1 == RoundDiv(other * limit, side)
  {
    if side > limit then
      RoundedShrink(other, limit, side);
      (limit, RoundDiv(other * limit, side))
    else (side, other)
  }

  /** The new width and height: first fit the width, then the height, each
      time scaling the other side by the same ratio and rounding it. */
  function Clamp(width: nat, height: nat, maxWidth: nat, maxHeight: nat): (r: (nat, nat))
    ensures r.0 <= maxWidth && r.1 <= maxHeight
    ensures r.0 <= width && r.1 <= height
    ensures width <= maxWidth && height <= maxHeight ==> r == (width, height)
    ensures !(width <= maxWidth && height <= maxHeight) ==> r.0 == maxWidth || r.1 == maxHeight
    ensures width <= maxWidth && height > maxHeight ==> r == (RoundDiv(width * maxHeight, height), maxHeight)
    ensures width > maxWidth && RoundDiv(height * maxWidth, width) <= maxHeight ==>
      r == (maxWidth, RoundDiv(height * maxWidth, width))
    ensures width > maxWidth && RoundDiv(height * maxWidth, width) > maxHeight ==>
      r == (RoundDiv(maxWidth * maxHeight, RoundDiv(height * maxWidth, width)), maxHeight)
  {
    var (w1, h1) := Fit(width, height, maxWidth);
    var (h2, w2) := Fit(h1, w1, maxHeight);
    (w2, h2)
  }
}

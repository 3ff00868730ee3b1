/**
 * Integer sizing of the framebuffers: `getResolution` and the JavaScript
 * arithmetic the bloom pyramid relies on (`Math.round` and the 32-bit
 * signed right shift `>>`).
 */
module Sizing {

  datatype Size = Size(width: int, height: int)

  /** `Math.round`: the nearest integer, halves rounded towards +infinity. */
  function Round(x: real): (r: int)
    ensures r as real <= x + 0.5 < r as real + 1.0
  {
    (x + 0.5).Floor
  }

  lemma RoundMonotone(a: real, b: real)
    requires a <= b
    ensures Round(a) <= Round(b)
  {
    assert a + 0.5 <= b + 0.5;
  }

  /**
   * `getResolution`: the shorter axis of the drawing buffer gets `resolution`
   * texels and the longer axis `resolution` times the long-to-short ratio, both
   * rounded; a square buffer gets `resolution` on both axes.
   */
  function GetResolution(resolution: real, bufferWidth: nat, bufferHeight: nat): (r: Size)
    requires bufferWidth > 0 && bufferHeight > 0
    ensures bufferWidth > bufferHeight ==>
              r == Size(Round(resolution * (bufferWidth as real / bufferHeight as real)), Round(resolution))
    ensures bufferWidth <= bufferHeight ==>
              r == Size(Round(resolution), Round(resolution * (bufferHeight as real / bufferWidth as real)))
    ensures resolution >= 0.0 ==>
              (bufferWidth > bufferHeight ==> r.width >= r.height) &&
              (bufferWidth <= bufferHeight ==> r.height >= r.width)
    ensures resolution >= 0.5 ==> r.width >= 1 && r.height >= 1
  {
    var W, H := bufferWidth as real, bufferHeight as real;
    var aspectRatio := W / H;
    var ratio := if aspectRatio < 1.0 then 1.0 / aspectRatio else aspectRatio;
    RatioFacts(W, H);
    RoundFacts(resolution, ratio);
    var min := Round(resolution);
    var max := Round(resolution * ratio);
    if bufferWidth > bufferHeight then Size(max, min) else Size(min, max)
  }

  /** The long-to-short ratio `getResolution` computes is at least 1. */
  lemma RatioFacts(W: real, H: real)
    requires W > 0.0 && H > 0.0
    ensures var a := W / H; var ratio := if a < 1.0 then 1.0 / a else a;
      ratio >= 1.0 && (W > H ==> ratio == W / H) && (W <= H ==> ratio == H / W)
  {
    var a := W / H;
    assert a * H == W;
    if a < 1.0 {
      assert W < H;
      assert (H / W) * W == H;
      assert 1.0 / a == H / W;
    } else {
      assert a * H >= 1.0 * H;
      if W == H {
        assert a == 1.0;
      }
    }
  }

  lemma RoundFacts(resolution: real, ratio: real)
    requires ratio >= 1.0
    ensures resolution >= 0.0 ==> Round(resolution * ratio) >= Round(resolution)
    ensures resolution >= 0.5 ==> Round(resolution) >= 1
  {
    if resolution >= 0.0 {
      assert resolution * ratio >= resolution * 1.0;
      RoundMonotone(resolution, resolution * ratio);
    }
    if resolution >= 0.5 {
      RoundMonotone(0.5, resolution);
    }
  }

  const TwoTo31: int := 0x8000_0000
  const TwoTo32: int := 0x1_0000_0000

  /** ECMAScript ToInt32: wrap an integer into the signed 32-bit range. */
  function ToInt32(x: int): (r: int)
    ensures -TwoTo31 <= r < TwoTo31
    ensures (x - r) % TwoTo32 == 0
    ensures -TwoTo31 <= x < TwoTo31 ==> r == x
  {
    var m := x % TwoTo32;
    if m >= TwoTo31 then m - TwoTo32 else m
  }

  function Pow2(k: nat): (r: nat)
    ensures r >= 1
  {
    if k == 0 then 1 else 2 * Pow2(k - 1)
  }

  /**
   * `x >> k` on integers: the left operand wrapped to 32 bits, the count taken
   * modulo 32, and an arithmetic shift, which is division rounding down.
   */
  function ShiftRight(x: int, k: nat): (r: int)
    ensures -TwoTo31 <= r < TwoTo31
    ensures k % 32 == 0 ==> r == ToInt32(x)
    ensures ToInt32(x) >= 0 <==> r >= 0
  {
    var n, d := ToInt32(x), Pow2(k % 32);
    QuotientBounds(n, d);
    n / d
  }

  /** Dividing by a positive divisor moves a number towards zero and keeps its sign. */
  lemma QuotientBounds(n: int, d: int)
    requires d >= 1
    ensures n >= 0 ==> 0 <= n / d <= n
    ensures n < 0 ==> n <= n / d < 0
  {
    var q, m := n / d, n % d;
    assert q * d + m == n && 0 <= m < d;
    if q >= 0 {
      MulMonotone(1, d, q);
    } else {
      MulMonotone(q, -1, d - 1);
    }
  }

  lemma {:induction false} Pow2Monotone(a: nat, b: nat)
    requires a <= b
    ensures Pow2(a) <= Pow2(b)
    decreases b
  {
    if a < b {
      Pow2Monotone(a, b - 1);
    }
  }

  lemma MulMonotone(a: int, b: int, d: int)
    requires a <= b && d >= 0
    ensures a * d <= b * d
  {
    assert b * d - a * d == (b - a) * d;
  }

  lemma MulCancel(a: int, b: int, d: int)
    requires d > 0 && a * d < b * d
    ensures a < b
  {
    assert (b - a) * d > 0;
  }

  /** A larger divisor gives a smaller quotient for a non-negative dividend. */
  lemma DivideByLarger(x: int, d1: int, d2: int)
    requires x >= 0 && 0 < d1 <= d2
    ensures x / d2 <= x / d1
  {
    var q1, q2 := x / d1, x / d2;
    MulMonotone(d1, d2, q2);
    assert q2 * d1 <= x;
    assert x < (q1 + 1) * d1;
    MulCancel(q2, q1 + 1, d1);
  }

  /** For non-negative 32-bit values and counts below 32, `x >> k` is `x` divided by 2^k, rounded down. */
  lemma ShiftRightIsDivision(x: int, k: nat)
    requires 0 <= x < TwoTo31 && k < 32
    ensures ShiftRight(x, k) == x / Pow2(k)
  {
    assert ToInt32(x) == x;
    assert k % 32 == k;
  }

  /** The bloom pyramid's level `i`: both sides shifted right by `i + 1`. */
  function BloomLevel(res: Size, i: nat): Size {
    Size(ShiftRight(res.width, i + 1), ShiftRight(res.height, i + 1))
  }

  /** `width < 2 || height < 2` stops the bloom pyramid. */
  predicate Fits(s: Size) {
    s.width >= 2 && s.height >= 2
  }

  /**
   * For a base size within 32 bits, levels only shrink, so once a level is too
   * small every later level (up to the 31st) is too: stopping at the first one
   * loses nothing.
   */
  lemma BloomLevelsShrink(res: Size, i: nat, k: nat)
    requires 0 <= res.width < TwoTo31 && 0 <= res.height < TwoTo31
    requires i <= k < 31
    ensures BloomLevel(res, k).width <= BloomLevel(res, i).width
    ensures BloomLevel(res, k).height <= BloomLevel(res, i).height
    ensures !Fits(BloomLevel(res, i)) ==> !Fits(BloomLevel(res, k))
  {
    ShiftRightIsDivision(res.width, i + 1);
    ShiftRightIsDivision(res.width, k + 1);
    ShiftRightIsDivision(res.height, i + 1);
    ShiftRightIsDivision(res.height, k + 1);
    Pow2Monotone(i + 1, k + 1);
    DivideByLarger(res.width, Pow2(i + 1), Pow2(k + 1));
    DivideByLarger(res.height, Pow2(i + 1), Pow2(k + 1));
  }
}

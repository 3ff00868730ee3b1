/**
 * Texture-shaped fields. A field is a grid of texels, row `j` (y, bottom to top)
 * holding columns `i` (x, left to right), read with clamp-to-edge addressing
 * as every texture of the simulation is (CLAMP_TO_EDGE wrap mode).
 */
module Grid {

  type Field<T> = seq<seq<T>>

  /** A two-component texel: the RG texture of the velocity field. */
  datatype Vec2 = Vec2(x: real, y: real)

  /** A colour texel of the dye field (only the colour channels are modelled). */
  datatype Rgb = Rgb(r: real, g: real, b: real)

  const ZeroVec := Vec2(0.0, 0.0)
  const ZeroRgb := Rgb(0.0, 0.0, 0.0)

  /** `g` has `h` rows of `w` texels each. */
  predicate IsGrid<T>(g: Field<T>, w: nat, h: nat) {
    |g| == h && forall j :: 0 <= j < h ==> |g[j]| == w
  }

  /** Every texel of `g` equals `z`. */
  ghost predicate IsUniform<T>(g: Field<T>, z: T) {
    forall j, i :: 0 <= j < |g| && 0 <= i < |g[j]| ==> g[j][i] == z
  }

  /** Clamp-to-edge addressing of a texel index. */
  function Clamp(k: int, n: nat): (r: nat)
    requires n > 0
    ensures r < n
    ensures 0 <= k < n ==> r == k
    ensures k < 0 ==> r == 0
    ensures k >= n ==> r == n - 1
  {
    if k < 0 then 0 else if k >= n then n - 1 else k
  }

  /** The texel a texture fetch at integer offset (i, j) returns. */
  function At<T>(g: Field<T>, w: nat, h: nat, i: int, j: int): T
    requires IsGrid(g, w, h) && w > 0 && h > 0
  {
    g[Clamp(j, h)][Clamp(i, w)]
  }

  /** The texture coordinate of the centre of texel `k` out of `n`. */
  function Centre(k: int, n: nat): real
    requires n > 0
  {
    (k as real + 0.5) / n as real
  }

  /** A fresh texture: `gl.clear` leaves every texel at zero. */
  function Blank<T>(w: nat, h: nat, zero: T): (r: Field<T>)
    ensures IsGrid(r, w, h) && IsUniform(r, zero)
  {
    seq(h, j => seq(w, i => zero))
  }

  /** `u_value * texture2D(u_texture, v_texcoord)` at every texel. */
  function Scale(g: Field<real>, w: nat, h: nat, s: real): (r: Field<real>)
    requires IsGrid(g, w, h)
    ensures IsGrid(r, w, h)
    ensures forall j, i :: 0 <= j < h && 0 <= i < w ==> r[j][i] == s * g[j][i]
  {
    seq(h, j requires 0 <= j < h => seq(w, i requires 0 <= i < w => s * g[j][i]))
  }

  function ScaleVec(s: real, v: Vec2): Vec2 { Vec2(s * v.x, s * v.y) }
  function AddVec(a: Vec2, b: Vec2): Vec2 { Vec2(a.x + b.x, a.y + b.y) }
  function ScaleRgb(s: real, c: Rgb): Rgb { Rgb(s * c.r, s * c.g, s * c.b) }
  function AddRgb(a: Rgb, b: Rgb): Rgb { Rgb(a.r + b.r, a.g + b.g, a.b + b.b) }

  /**
   * Additive blending, `blendFunc(ONE, ONE)` with `BLEND` enabled: what a pass
   * leaves in its framebuffer is the shader output plus what the framebuffer held.
   */
  function BlendVec(src: Field<Vec2>, dst: Field<Vec2>, w: nat, h: nat): (r: Field<Vec2>)
    requires IsGrid(src, w, h) && IsGrid(dst, w, h)
    ensures IsGrid(r, w, h)
    ensures forall j, i :: 0 <= j < h && 0 <= i < w ==> r[j][i] == AddVec(src[j][i], dst[j][i])
  {
    seq(h, j requires 0 <= j < h => seq(w, i requires 0 <= i < w => AddVec(src[j][i], dst[j][i])))
  }

  function BlendRgb(src: Field<Rgb>, dst: Field<Rgb>, w: nat, h: nat): (r: Field<Rgb>)
    requires IsGrid(src, w, h) && IsGrid(dst, w, h)
    ensures IsGrid(r, w, h)
    ensures forall j, i :: 0 <= j < h && 0 <= i < w ==> r[j][i] == AddRgb(src[j][i], dst[j][i])
  {
    seq(h, j requires 0 <= j < h => seq(w, i requires 0 <= i < w => AddRgb(src[j][i], dst[j][i])))
  }

  /** GLSL `abs` and `Math.abs` on reals. */
  function Abs(x: real): real { if x < 0.0 then -x else x }

  /** Two grids of the same shape that agree texel by texel are equal. */
  lemma {:induction false} Extensionality<T>(a: Field<T>, b: Field<T>, w: nat, h: nat)
    requires IsGrid(a, w, h) && IsGrid(b, w, h)
    requires forall j, i :: 0 <= j < h && 0 <= i < w ==> a[j][i] == b[j][i]
    ensures a == b
  {
    forall j | 0 <= j < h ensures a[j] == b[j] {
      assert |a[j]| == |b[j]| == w;
      assert forall i :: 0 <= i < w ==> a[j][i] == b[j][i];
    }
  }

  /** Clearing twice with factors `a` then `b` is clearing once with `a * b`. */
  lemma ScaleTwice(g: Field<real>, w: nat, h: nat, a: real, b: real)
    requires IsGrid(g, w, h)
    ensures Scale(Scale(g, w, h, a), w, h, b) == Scale(g, w, h, b * a)
  {
    var lhs, rhs := Scale(Scale(g, w, h, a), w, h, b), Scale(g, w, h, b * a);
    forall j, i | 0 <= j < h && 0 <= i < w ensures lhs[j][i] == rhs[j][i] {
      calc {
        lhs[j][i];
        b * (a * g[j][i]);
        (b * a) * g[j][i];
      }
    }
    Extensionality(lhs, rhs, w, h);
  }

  /** A clear with factor 1 copies the texture. */
  lemma ScaleByOne(g: Field<real>, w: nat, h: nat)
    requires IsGrid(g, w, h)
    ensures Scale(g, w, h, 1.0) == g
  {
    Extensionality(Scale(g, w, h, 1.0), g, w, h);
  }

  /** A clear of an all-zero texture stays all zero, whatever the factor. */
  lemma ScaleZero(g: Field<real>, w: nat, h: nat, s: real)
    requires IsGrid(g, w, h) && IsUniform(g, 0.0)
    ensures IsUniform(Scale(g, w, h, s), 0.0)
  {
  }
}

/**
 * The fragment shaders of the solver, evaluated at every texel of the
 * viewport. Each `...At` function is the body of one shader's `main` for the
 * texel (i, j); the field-valued function applies it over the whole target.
 *
 * Neighbour fetches in these shaders sit exactly one texel away from the
 * texel centre, so nearest and bilinear filtering both return the
 * neighbouring texel: they are modelled as clamp-to-edge index reads (`At`).
 * The fetches that land between texel centres (advection's back-traced
 * sample) go through an abstract sampler of the `Gpu` record, which also
 * carries the two transcendental functions the shaders call.
 */
module Stencils {
  import opened Grid

  /** A texture fetch at a texture coordinate, with the texture's filtering. */
  type Sampler<!T> = (Field<T>, real, real) -> T

  /** GPU-side maths the model leaves abstract. */
  datatype Gpu = Gpu(
    length: (real, real) -> real,   // GLSL `length` of a 2-vector
    exp: real -> real,              // GLSL `exp`
    sampleVec: Sampler<Vec2>,       // fetch from the velocity texture
    sampleRgb: Sampler<Rgb>         // fetch from the dye texture
  )
  {
    /** `length` is a Euclidean norm, hence never negative. */
    ghost predicate Valid() {
      forall a, b :: length(a, b) >= 0.0
    }

    /** Filtering an all-zero texture yields zero wherever it samples. */
    ghost predicate SamplesZero() {
      (forall g, x, y :: IsUniform(g, ZeroVec) ==> sampleVec(g, x, y) == ZeroVec) &&
      (forall g, x, y :: IsUniform(g, ZeroRgb) ==> sampleRgb(g, x, y) == ZeroRgb)
    }

    /** At a texel centre the filtered value is the texel itself. */
    ghost predicate SamplesCentres() {
      (forall g: Field<Vec2>, w: nat, h: nat, i: nat, j: nat ::
         IsGrid(g, w, h) && i < w && j < h ==> sampleVec(g, Centre(i, w), Centre(j, h)) == g[j][i]) &&
      (forall g: Field<Rgb>, w: nat, h: nat, i: nat, j: nat ::
         IsGrid(g, w, h) && i < w && j < h ==> sampleRgb(g, Centre(i, w), Centre(j, h)) == g[j][i])
    }
  }

  // ---------------------------------------------------------------- curl

  function CurlAt(v: Field<Vec2>, w: nat, h: nat, i: nat, j: nat): real
    requires IsGrid(v, w, h) && i < w && j < h
  {
    var l := At(v, w, h, i - 1, j).y;
    var r := At(v, w, h, i + 1, j).y;
    var b := At(v, w, h, i, j - 1).x;
    var t := At(v, w, h, i, j + 1).x;
    0.5 * (r - l - t + b)
  }

  function Curl(v: Field<Vec2>, w: nat, h: nat): (r: Field<real>)
    requires IsGrid(v, w, h)
    ensures IsGrid(r, w, h)
    ensures forall j, i :: 0 <= j < h && 0 <= i < w ==> r[j][i] == CurlAt(v, w, h, i, j)
  {
    seq(h, j requires 0 <= j < h => seq(w, i requires 0 <= i < w => CurlAt(v, w, h, i, j)))
  }

  // ---------------------------------------------------------- divergence

  /** `v_texcoord < u_texelSize`: the texel centre lies in the first texel's span. */
  predicate BeforeFirstTexel(k: nat, n: nat)
    requires n > 0
  {
    Centre(k, n) < 1.0 / n as real
  }

  /** `v_texcoord > 1.0 - u_texelSize`: the texel centre lies in the last texel's span. */
  predicate AfterLastTexel(k: nat, n: nat)
    requires n > 0
  {
    Centre(k, n) > 1.0 - 1.0 / n as real
  }

  /** Central differences, with the neighbour across a wall replaced by the negated centre. */
  function DivergenceAt(v: Field<Vec2>, w: nat, h: nat, i: nat, j: nat): real
    requires IsGrid(v, w, h) && i < w && j < h
  {
    var c := v[j][i];
    var l := if BeforeFirstTexel(i, w) then -c.x else At(v, w, h, i - 1, j).x;
    var r := if AfterLastTexel(i, w) then -c.x else At(v, w, h, i + 1, j).x;
    var b := if BeforeFirstTexel(j, h) then -c.y else At(v, w, h, i, j - 1).y;
    var t := if AfterLastTexel(j, h) then -c.y else At(v, w, h, i, j + 1).y;
    0.5 * (r - l + t - b)
  }

  function Divergence(v: Field<Vec2>, w: nat, h: nat): (r: Field<real>)
    requires IsGrid(v, w, h)
    ensures IsGrid(r, w, h)
    ensures forall j, i :: 0 <= j < h && 0 <= i < w ==> r[j][i] == DivergenceAt(v, w, h, i, j)
  {
    seq(h, j requires 0 <= j < h => seq(w, i requires 0 <= i < w => DivergenceAt(v, w, h, i, j)))
  }

  // ----------------------------------------------------------- vorticity

  function VorticityAt(v: Field<Vec2>, c: Field<real>, w: nat, h: nat, strength: real, dt: real,
                       gpu: Gpu, i: nat, j: nat): Vec2
    requires IsGrid(v, w, h) && IsGrid(c, w, h) && i < w && j < h
    requires gpu.Valid()
  {
    var l := At(c, w, h, i - 1, j);
    var r := At(c, w, h, i + 1, j);
    var b := At(c, w, h, i, j - 1);
    var t := At(c, w, h, i, j + 1);
    var fx := 0.5 * (Abs(t) - Abs(b));
    var fy := 0.5 * (Abs(r) - Abs(l));
    var norm := gpu.length(fx, fy) + 0.0001;
    var s := strength * c[j][i];
    var force := Vec2(fx / norm * s, -(fy / norm * s));
    AddVec(v[j][i], ScaleVec(dt, force))
  }

  function Vorticity(v: Field<Vec2>, c: Field<real>, w: nat, h: nat, strength: real, dt: real,
                     gpu: Gpu): (r: Field<Vec2>)
    requires IsGrid(v, w, h) && IsGrid(c, w, h) && gpu.Valid()
    ensures IsGrid(r, w, h)
    ensures forall j, i :: 0 <= j < h && 0 <= i < w ==>
              r[j][i] == VorticityAt(v, c, w, h, strength, dt, gpu, i, j)
  {
    seq(h, j requires 0 <= j < h =>
      seq(w, i requires 0 <= i < w => VorticityAt(v, c, w, h, strength, dt, gpu, i, j)))
  }

  // ------------------------------------------------------------ pressure

  /** One Jacobi relaxation of the pressure Poisson equation. */
  function PressureAt(p: Field<real>, d: Field<real>, w: nat, h: nat, i: nat, j: nat): real
    requires IsGrid(p, w, h) && IsGrid(d, w, h) && i < w && j < h
  {
    var l := At(p, w, h, i - 1, j);
    var r := At(p, w, h, i + 1, j);
    var b := At(p, w, h, i, j - 1);
    var t := At(p, w, h, i, j + 1);
    (l + r + b + t - d[j][i]) * 0.25
  }

  function Pressure(p: Field<real>, d: Field<real>, w: nat, h: nat): (r: Field<real>)
    requires IsGrid(p, w, h) && IsGrid(d, w, h)
    ensures IsGrid(r, w, h)
    ensures forall j, i :: 0 <= j < h && 0 <= i < w ==> r[j][i] == PressureAt(p, d, w, h, i, j)
  {
    seq(h, j requires 0 <= j < h => seq(w, i requires 0 <= i < w => PressureAt(p, d, w, h, i, j)))
  }

  // ------------------------------------------------- gradient subtraction

  function GradientSubtractAt(p: Field<real>, v: Field<Vec2>, w: nat, h: nat, i: nat, j: nat): Vec2
    requires IsGrid(p, w, h) && IsGrid(v, w, h) && i < w && j < h
  {
    var l := At(p, w, h, i - 1, j);
    var r := At(p, w, h, i + 1, j);
    var b := At(p, w, h, i, j - 1);
    var t := At(p, w, h, i, j + 1);
    var vel := v[j][i];
    Vec2(vel.x - 0.5 * (r - l), vel.y - 0.5 * (t - b))
  }

  function GradientSubtract(p: Field<real>, v: Field<Vec2>, w: nat, h: nat): (r: Field<Vec2>)
    requires IsGrid(p, w, h) && IsGrid(v, w, h)
    ensures IsGrid(r, w, h)
    ensures forall j, i :: 0 <= j < h && 0 <= i < w ==> r[j][i] == GradientSubtractAt(p, v, w, h, i, j)
  {
    seq(h, j requires 0 <= j < h => seq(w, i requires 0 <= i < w => GradientSubtractAt(p, v, w, h, i, j)))
  }

  // --------------------------------------------------------------- splat

  /** The Gaussian falloff `exp(-dot(p, p) / radius)`, with `p.x` stretched by the aspect ratio. */
  function SplatWeight(u: real, v: real, x: real, y: real, aspect: real, radius: real, gpu: Gpu): (r: real)
    requires radius != 0.0
    ensures u == x && v == y ==> r == gpu.exp(0.0)
    ensures radius > 0.0 ==> exists e :: e <= 0.0 && r == gpu.exp(e)
  {
    var px := (u - x) * aspect;
    var py := v - y;
    var e := -(px * px + py * py) / radius;
    assert radius > 0.0 ==> e <= 0.0 by {
      if radius > 0.0 {
        assert px * px >= 0.0 && py * py >= 0.0;
        assert e * radius == -(px * px + py * py);
      }
    }
    assert u == x && v == y ==> e == 0.0 by {
      if u == x && v == y {
        assert px == 0.0 && py == 0.0;
      }
    }
    gpu.exp(e)
  }

  /** Splat into the velocity texture: `u_color` is `(dx, dy, 0)`, of which RG is stored. */
  function SplatVelocity(g: Field<Vec2>, w: nat, h: nat, x: real, y: real, force: Vec2,
                         aspect: real, radius: real, gpu: Gpu): (r: Field<Vec2>)
    requires IsGrid(g, w, h) && radius != 0.0
    ensures IsGrid(r, w, h)
    ensures forall j, i :: 0 <= j < h && 0 <= i < w ==>
              r[j][i] == AddVec(g[j][i], ScaleVec(SplatWeight(Centre(i, w), Centre(j, h), x, y, aspect, radius, gpu), force))
  {
    seq(h, j requires 0 <= j < h => seq(w, i requires 0 <= i < w =>
      AddVec(g[j][i], ScaleVec(SplatWeight(Centre(i, w), Centre(j, h), x, y, aspect, radius, gpu), force))))
  }

  /** Splat into the dye texture. */
  function SplatDye(g: Field<Rgb>, w: nat, h: nat, x: real, y: real, color: Rgb,
                    aspect: real, radius: real, gpu: Gpu): (r: Field<Rgb>)
    requires IsGrid(g, w, h) && radius != 0.0
    ensures IsGrid(r, w, h)
    ensures forall j, i :: 0 <= j < h && 0 <= i < w ==>
              r[j][i] == AddRgb(g[j][i], ScaleRgb(SplatWeight(Centre(i, w), Centre(j, h), x, y, aspect, radius, gpu), color))
  {
    seq(h, j requires 0 <= j < h => seq(w, i requires 0 <= i < w =>
      AddRgb(g[j][i], ScaleRgb(SplatWeight(Centre(i, w), Centre(j, h), x, y, aspect, radius, gpu), color))))
  }

  // ----------------------------------------------------------- advection

  /** `v_texcoord - u_dt * velocity * u_texelSize`: where the sample is taken from. */
  function BackTrace(vel: Field<Vec2>, u: real, v: real, dt: real, texel: Vec2, gpu: Gpu): (r: Vec2)
    ensures dt == 0.0 || gpu.sampleVec(vel, u, v) == ZeroVec ==> r == Vec2(u, v)
    ensures texel.x == 0.0 ==> r.x == u
    ensures texel.y == 0.0 ==> r.y == v
  {
    var s := gpu.sampleVec(vel, u, v);
    Vec2(u - dt * s.x * texel.x, v - dt * s.y * texel.y)
  }

  /** The velocity texture advected along itself. */
  function AdvectVelocity(vel: Field<Vec2>, w: nat, h: nat, texel: Vec2, dt: real, dissipation: real,
                          gpu: Gpu): (r: Field<Vec2>)
    ensures IsGrid(r, w, h)
    ensures forall j, i :: 0 <= j < h && 0 <= i < w ==>
              var c := BackTrace(vel, Centre(i, w), Centre(j, h), dt, texel, gpu);
              r[j][i] == ScaleVec(dissipation, gpu.sampleVec(vel, c.x, c.y))
  {
    seq(h, j requires 0 <= j < h => seq(w, i requires 0 <= i < w =>
      var c := BackTrace(vel, Centre(i, w), Centre(j, h), dt, texel, gpu);
      ScaleVec(dissipation, gpu.sampleVec(vel, c.x, c.y))))
  }

  /** The dye texture (w by h) advected along the velocity texture. */
  function AdvectDye(vel: Field<Vec2>, dye: Field<Rgb>, w: nat, h: nat, texel: Vec2, dt: real,
                     dissipation: real, gpu: Gpu): (r: Field<Rgb>)
    ensures IsGrid(r, w, h)
    ensures forall j, i :: 0 <= j < h && 0 <= i < w ==>
              var c := BackTrace(vel, Centre(i, w), Centre(j, h), dt, texel, gpu);
              r[j][i] == ScaleRgb(dissipation, gpu.sampleRgb(dye, c.x, c.y))
  {
    seq(h, j requires 0 <= j < h => seq(w, i requires 0 <= i < w =>
      var c := BackTrace(vel, Centre(i, w), Centre(j, h), dt, texel, gpu);
      ScaleRgb(dissipation, gpu.sampleRgb(dye, c.x, c.y))))
  }
}

/**
 * One frame of the solver as a function on values: the configuration, the
 * five render targets `step` touches, the pass sequence of `step` and the
 * two-pass `splat`. Each pass is `Slots.Pass`: render into the write slot,
 * then swap.
 */
module Solver {
  import opened Grid
  import opened Stencils
  import opened StencilProperties
  import opened Buffers
  import opened Pointers
  import opened Colors

  /** The part of `config` the modelled code reads. */
  datatype Config = Config(
    simResolution: real,
    dyeResolution: real,
    densityDissipation: real,
    velocityDissipation: real,
    pressure: real,
    pressureIterations: int,
    curl: real,
    splatRadius: real,
    splatForce: real,
    colorful: bool,
    colorUpdateSpeed: real,
    paused: bool,
    bloomIterations: int,
    bloomResolution: real,
    bloom: bool,
    sunrays: bool)
  {
    /**
     * Resolutions that round to at least one texel, and a splat radius the
     * splat shader can divide by.
     */
    predicate Valid() {
      simResolution >= 0.5 && dyeResolution >= 0.5 && bloomResolution >= 0.5 && splatRadius > 0.0
    }

    /**
     * Whether `render` leaves additive blending behind: it enables `BLEND`
     * for the screen and, when `BLOOM` or `SUNRAYS` draws its layer last, with
     * `blendFunc(ONE, ONE)`. The other function it sets,
     * `(ONE, ONE_MINUS_SRC_ALPHA)`, overwrites a target with an opaque pass, and
     * the splat shader, the one solver pass that runs under this state, writes
     * alpha 1.
     */
    predicate RenderLeavesAdditive() {
      bloom || sunrays
    }
  }

  /** The initial `config` object. */
  const Defaults := Config(
    simResolution := 128.0,
    dyeResolution := 1024.0,
    densityDissipation := 1.0,
    velocityDissipation := 0.2,
    pressure := 0.8,
    pressureIterations := 20,
    curl := 30.0,
    splatRadius := 0.25,
    splatForce := 6000.0,
    colorful := true,
    colorUpdateSpeed := 10.0,
    paused := false,
    bloomIterations := 8,
    bloomResolution := 256.0,
    bloom := true,
    sunrays := true)

  /** The initial configuration is valid, and `render` leaves additive blending behind under it. */
  lemma DefaultsValid()
    ensures Defaults.Valid() && Defaults.RenderLeavesAdditive()
  {
  }

  /** How many times `for (let i = 0; i < n; i++)` runs its body. */
  function Iterations(n: int): (k: nat)
    ensures n >= 0 ==> k == n
    ensures n < 0 ==> k == 0
  {
    if n > 0 then n else 0
  }

  /** The solver's render targets. */
  datatype Fluid = Fluid(
    velocity: Slots<Vec2>,
    pressure: Slots<real>,
    dye: Slots<Rgb>,
    divergence: Target<real>,
    curl: Target<real>)
  {
    function Width(): nat { velocity.read.width }
    function Height(): nat { velocity.read.height }

    /**
     * Velocity, pressure, divergence and curl share the simulation size;
     * the dye has its own size; no texture is empty.
     */
    ghost predicate Valid() {
      velocity.Valid() && pressure.Valid() && dye.Valid() && divergence.Valid() && curl.Valid() &&
      Width() > 0 && Height() > 0 &&
      pressure.read.width == Width() && pressure.read.height == Height() &&
      divergence.width == Width() && divergence.height == Height() &&
      curl.width == Width() && curl.height == Height() &&
      dye.read.width > 0 && dye.read.height > 0
    }

    /** Nothing is flowing, no pressure is left and no dye is shown. */
    ghost predicate AtRest() {
      IsUniform(velocity.read.texels, ZeroVec) &&
      IsUniform(pressure.read.texels, 0.0) &&
      IsUniform(dye.read.texels, ZeroRgb)
    }

    /** Every texture of the solver, stale write slots included, is zero. */
    ghost predicate AllZero() {
      AtRest() &&
      IsUniform(velocity.write.texels, ZeroVec) &&
      IsUniform(pressure.write.texels, 0.0) &&
      IsUniform(dye.write.texels, ZeroRgb) &&
      IsUniform(divergence.texels, 0.0) &&
      IsUniform(curl.texels, 0.0)
    }
  }

  /** Same sizes, texture for texture. */
  ghost predicate SameShape(a: Fluid, b: Fluid) {
    a.Width() == b.Width() && a.Height() == b.Height() &&
    a.dye.read.width == b.dye.read.width && a.dye.read.height == b.dye.read.height
  }

  /**
   * `n` Jacobi iterations of the pressure shader against the divergence
   * `div`, each a pass over the pressure pair. Every pass swaps the handles,
   * so after `n` passes the read slot is the original read framebuffer when
   * `n` is even and the original write framebuffer when it is odd.
   */
  function PressureSolve(p: Slots<real>, div: Field<real>, n: nat): (r: Slots<real>)
    requires p.Valid() && IsGrid(div, p.read.width, p.read.height)
    ensures r.Valid() && r.read.width == p.read.width && r.read.height == p.read.height
    ensures r.read.id == (if n % 2 == 0 then p.read.id else p.write.id)
    ensures r.write.id == (if n % 2 == 0 then p.write.id else p.read.id)
    decreases n
  {
    if n == 0 then p
    else
      var q := PressureSolve(p, div, n - 1);
      q.Pass(Pressure(q.read.texels, div, q.read.width, q.read.height))
  }

  /**
   * The first two passes of `step`: the curl of the velocity into the curl
   * target, then vorticity confinement as one pass over the velocity pair.
   */
  function Confined(f: Fluid, c: Config, dt: real, gpu: Gpu): (r: Fluid)
    requires f.Valid() && gpu.Valid()
    ensures r.Valid() && SameShape(r, f)
    ensures r.velocity.read.id == f.velocity.write.id && r.velocity.write.id == f.velocity.read.id
    ensures r.curl.id == f.curl.id && r.pressure == f.pressure && r.dye == f.dye && r.divergence == f.divergence
  {
    var w, h := f.Width(), f.Height();
    var curl := f.curl.(texels := Curl(f.velocity.read.texels, w, h));
    f.(curl := curl, velocity := f.velocity.Pass(Vorticity(f.velocity.read.texels, curl.texels, w, h, c.curl, dt, gpu)))
  }

  /**
   * The projection of `step`: the divergence of the velocity, the pressure
   * clear (one pass scaling by `PRESSURE`), the Jacobi iterations and the
   * gradient subtraction (one velocity pass).
   */
  function Projected(f: Fluid, c: Config): (r: Fluid)
    requires f.Valid()
    ensures r.Valid() && SameShape(r, f)
    ensures r.velocity.read.id == f.velocity.write.id && r.velocity.write.id == f.velocity.read.id
    ensures var odd := (1 + Iterations(c.pressureIterations)) % 2 == 1;
      r.pressure.read.id == (if odd then f.pressure.write.id else f.pressure.read.id) &&
      r.pressure.write.id == (if odd then f.pressure.read.id else f.pressure.write.id)
    ensures r.divergence.id == f.divergence.id && r.curl == f.curl && r.dye == f.dye
  {
    var w, h := f.Width(), f.Height();
    var divergence := f.divergence.(texels := Divergence(f.velocity.read.texels, w, h));
    var p0 := f.pressure.Pass(Scale(f.pressure.read.texels, w, h, c.pressure));
    var p := PressureSolve(p0, divergence.texels, Iterations(c.pressureIterations));
    var v := f.velocity.Pass(GradientSubtract(p.read.texels, f.velocity.read.texels, w, h));
    f.(velocity := v, pressure := p, divergence := divergence)
  }

  /**
   * The last two passes of `step`: the velocity advected along itself, then
   * the dye advected along the new velocity; both use the velocity texel size.
   */
  function Advected(f: Fluid, c: Config, dt: real, gpu: Gpu): (r: Fluid)
    requires f.Valid() && gpu.Valid()
    ensures r.Valid() && SameShape(r, f)
    ensures r.velocity.read.id == f.velocity.write.id && r.velocity.write.id == f.velocity.read.id
    ensures r.dye.read.id == f.dye.write.id && r.dye.write.id == f.dye.read.id
    ensures r.pressure == f.pressure && r.divergence == f.divergence && r.curl == f.curl
  {
    var w, h := f.Width(), f.Height();
    var texel := f.velocity.read.TexelSize();
    var v := f.velocity.Pass(AdvectVelocity(f.velocity.read.texels, w, h, texel, dt, c.velocityDissipation, gpu));
    var dye := f.dye.Pass(AdvectDye(v.read.texels, f.dye.read.texels, f.dye.read.width, f.dye.read.height,
                                    texel, dt, c.densityDissipation, gpu));
    f.(velocity := v, dye := dye)
  }

  /**
   * `step`: curl, vorticity confinement, divergence, the pressure clear, the
   * Jacobi iterations, gradient subtraction, velocity advection and dye
   * advection, in that order. Velocity is swapped three times, pressure
   * once plus once per iteration, and dye once.
   */
  function StepFluid(f: Fluid, c: Config, dt: real, gpu: Gpu): (r: Fluid)
    requires f.Valid() && gpu.Valid()
    ensures r.Valid() && SameShape(r, f)
    ensures r.velocity.read.id == f.velocity.write.id && r.velocity.write.id == f.velocity.read.id
    ensures r.dye.read.id == f.dye.write.id && r.dye.write.id == f.dye.read.id
    ensures var odd := (1 + Iterations(c.pressureIterations)) % 2 == 1;
      r.pressure.read.id == (if odd then f.pressure.write.id else f.pressure.read.id) &&
      r.pressure.write.id == (if odd then f.pressure.read.id else f.pressure.write.id)
    ensures r.divergence.id == f.divergence.id && r.curl.id == f.curl.id
  {
    Advected(Projected(Confined(f, c, dt, gpu), c), c, dt, gpu)
  }

  /** Jacobi iterations from an all-zero pressure pair with zero divergence stay all zero. */
  lemma {:induction false} PressureSolveOfZero(p: Slots<real>, div: Field<real>, n: nat)
    requires p.Valid() && IsGrid(div, p.read.width, p.read.height)
    requires IsUniform(p.read.texels, 0.0) && IsUniform(p.write.texels, 0.0) && IsUniform(div, 0.0)
    ensures var r := PressureSolve(p, div, n);
      IsUniform(r.read.texels, 0.0) && IsUniform(r.write.texels, 0.0)
    decreases n
  {
    if n > 0 {
      PressureSolveOfZero(p, div, n - 1);
      var q := PressureSolve(p, div, n - 1);
      PressureOfUniform(q.read.texels, div, q.read.width, q.read.height, 0.0);
    }
  }

  /**
   * A fluid at rest stays at rest through a step, and every texture the step
   * writes, the stale write slots included, is zero afterwards.
   */
  lemma StepOfRest(f: Fluid, c: Config, dt: real, gpu: Gpu)
    requires f.Valid() && gpu.Valid() && gpu.SamplesZero()
    requires f.AtRest()
    ensures StepFluid(f, c, dt, gpu).AllZero()
  {
    var w, h := f.Width(), f.Height();
    var vel := f.velocity.read.texels;
    CurlOfUniform(vel, w, h, ZeroVec);
    VorticityOfCurlFree(vel, Curl(vel, w, h), w, h, c.curl, dt, gpu);
    var f1 := Confined(f, c, dt, gpu);
    DivergenceOfZero(f1.velocity.read.texels, w, h);
    var divergence := Divergence(f1.velocity.read.texels, w, h);
    ScaleZero(f1.pressure.read.texels, w, h, c.pressure);
    var p0 := f1.pressure.Pass(Scale(f1.pressure.read.texels, w, h, c.pressure));
    PressureSolveOfZero(p0, divergence, Iterations(c.pressureIterations));
    var p := PressureSolve(p0, divergence, Iterations(c.pressureIterations));
    GradientOfUniform(p.read.texels, f1.velocity.read.texels, w, h, 0.0);
    var f2 := Projected(f1, c);
    var texel := f2.velocity.read.TexelSize();
    AdvectVelocityOfZero(f2.velocity.read.texels, w, h, texel, dt, c.velocityDissipation, gpu);
    var v3 := f2.velocity.Pass(AdvectVelocity(f2.velocity.read.texels, w, h, texel, dt, c.velocityDissipation, gpu));
    AdvectDyeOfZero(v3.read.texels, f2.dye.read.texels, f2.dye.read.width, f2.dye.read.height,
                    texel, dt, c.densityDissipation, gpu);
  }

  /** `step` run once per frame with the given time steps. */
  function Steps(f: Fluid, c: Config, dts: seq<real>, gpu: Gpu): (r: Fluid)
    requires f.Valid() && gpu.Valid()
    ensures r.Valid() && SameShape(r, f)
    decreases |dts|
  {
    if dts == [] then f else Steps(StepFluid(f, c, dts[0], gpu), c, dts[1..], gpu)
  }

  /** A fluid at rest stays at rest however many frames are stepped. */
  lemma {:induction false} StepsOfRest(f: Fluid, c: Config, dts: seq<real>, gpu: Gpu)
    requires f.Valid() && gpu.Valid() && gpu.SamplesZero()
    requires f.AtRest()
    ensures Steps(f, c, dts, gpu).AtRest()
    decreases |dts|
  {
    if dts != [] {
      StepOfRest(f, c, dts[0], gpu);
      StepsOfRest(StepFluid(f, c, dts[0], gpu), c, dts[1..], gpu);
    }
  }

  // --------------------------------------------------------------- splats

  /** The arguments of `splat(x, y, dx, dy, color)`. */
  datatype Splat = Splat(x: real, y: real, dx: real, dy: real, color: Rgb)

  /** The splat radius the shader receives: `correctRadius(SPLAT_RADIUS / 100)`. */
  function SplatRadius(c: Config, canvas: Canvas): (r: real)
    requires c.Valid() && canvas.Valid()
    ensures r > 0.0
  {
    CorrectRadius(c.splatRadius / 100.0, canvas)
  }

  /**
   * What a splat pass leaves in the velocity write slot: the splat shader's
   * output, plus the slot's old texels when blending is additive.
   */
  function SplatVelocityOutput(v: Slots<Vec2>, s: Splat, aspect: real, radius: real, gpu: Gpu,
                               additive: bool): (r: Field<Vec2>)
    requires v.Valid() && radius != 0.0
    ensures IsGrid(r, v.read.width, v.read.height)
    ensures !additive ==> r == SplatVelocity(v.read.texels, v.read.width, v.read.height,
                                             s.x, s.y, Vec2(s.dx, s.dy), aspect, radius, gpu)
    ensures additive ==> r == BlendVec(SplatVelocity(v.read.texels, v.read.width, v.read.height,
                                                     s.x, s.y, Vec2(s.dx, s.dy), aspect, radius, gpu),
                                       v.write.texels, v.read.width, v.read.height)
  {
    var w, h := v.read.width, v.read.height;
    var t := SplatVelocity(v.read.texels, w, h, s.x, s.y, Vec2(s.dx, s.dy), aspect, radius, gpu);
    if additive then BlendVec(t, v.write.texels, w, h) else t
  }

  /** The splat colour: `color` scaled from 0..255 to 0..1. */
  function SplatColor(s: Splat): Rgb {
    Rgb(s.color.r / 255.0, s.color.g / 255.0, s.color.b / 255.0)
  }

  /** What a splat pass leaves in the dye write slot. */
  function SplatDyeOutput(d: Slots<Rgb>, s: Splat, aspect: real, radius: real, gpu: Gpu,
                          additive: bool): (r: Field<Rgb>)
    requires d.Valid() && radius != 0.0
    ensures IsGrid(r, d.read.width, d.read.height)
    ensures !additive ==> r == SplatDye(d.read.texels, d.read.width, d.read.height,
                                        s.x, s.y, SplatColor(s), aspect, radius, gpu)
    ensures additive ==> r == BlendRgb(SplatDye(d.read.texels, d.read.width, d.read.height,
                                                s.x, s.y, SplatColor(s), aspect, radius, gpu),
                                       d.write.texels, d.read.width, d.read.height)
  {
    var w, h := d.read.width, d.read.height;
    var t := SplatDye(d.read.texels, w, h, s.x, s.y, SplatColor(s), aspect, radius, gpu);
    if additive then BlendRgb(t, d.write.texels, w, h) else t
  }

  /**
   * `splat`: the force `(dx, dy)` added to the velocity and the colour, scaled
   * from 0..255 to 0..1, added to the dye, both with the same Gaussian around
   * (x, y); one pass over each pair. `additive` is the blend state the pass
   * runs under.
   */
  function SplatFluid(f: Fluid, s: Splat, c: Config, canvas: Canvas, gpu: Gpu, additive: bool): (r: Fluid)
    requires f.Valid() && c.Valid() && canvas.Valid()
    ensures r.Valid() && SameShape(r, f)
    ensures r.velocity.read.id == f.velocity.write.id && r.velocity.write == f.velocity.read
    ensures r.dye.read.id == f.dye.write.id && r.dye.write == f.dye.read
    ensures r.pressure == f.pressure && r.divergence == f.divergence && r.curl == f.curl
  {
    var aspect, radius := canvas.Aspect(), SplatRadius(c, canvas);
    var v := f.velocity.Pass(SplatVelocityOutput(f.velocity, s, aspect, radius, gpu, additive));
    var d := f.dye.Pass(SplatDyeOutput(f.dye, s, aspect, radius, gpu, additive));
    f.(velocity := v, dye := d)
  }

  /** The splats applied one after the other, in list order, all under one blend state. */
  function Splats(f: Fluid, ss: seq<Splat>, c: Config, canvas: Canvas, gpu: Gpu, additive: bool): (r: Fluid)
    requires f.Valid() && c.Valid() && canvas.Valid()
    ensures r.Valid() && SameShape(r, f)
    ensures r.pressure == f.pressure && r.divergence == f.divergence && r.curl == f.curl
    decreases |ss|
  {
    if ss == [] then f
    else SplatFluid(Splats(f, ss[..|ss| - 1], c, canvas, gpu, additive), ss[|ss| - 1], c, canvas, gpu, additive)
  }

  /** Applying one more splat after a list is applying the extended list. */
  lemma SplatsSnoc(f: Fluid, ss: seq<Splat>, s: Splat, c: Config, canvas: Canvas, gpu: Gpu, additive: bool)
    requires f.Valid() && c.Valid() && canvas.Valid()
    ensures SplatFluid(Splats(f, ss, c, canvas, gpu, additive), s, c, canvas, gpu, additive)
         == Splats(f, ss + [s], c, canvas, gpu, additive)
  {
    assert (ss + [s])[..|ss|] == ss;
  }

  /** Applying two lists one after the other is applying their concatenation. */
  lemma {:induction false} SplatsAppend(f: Fluid, a: seq<Splat>, b: seq<Splat>, c: Config, canvas: Canvas, gpu: Gpu,
                                        additive: bool)
    requires f.Valid() && c.Valid() && canvas.Valid()
    ensures Splats(Splats(f, a, c, canvas, gpu, additive), b, c, canvas, gpu, additive)
         == Splats(f, a + b, c, canvas, gpu, additive)
    decreases |b|
  {
    if b == [] {
      assert a + b == a;
    } else {
      var init, last := b[..|b| - 1], b[|b| - 1];
      SplatsAppend(f, a, init, c, canvas, gpu, additive);
      assert (a + b)[..|a + b| - 1] == a + init;
      assert (a + b)[|a + b| - 1] == last;
    }
  }

  /**
   * Two splats in either order leave the same velocity and dye on screen,
   * under either blend state; only the stale write slots, which hold the
   * intermediate textures, differ.
   */
  lemma SplatOrderIrrelevant(f: Fluid, a: Splat, b: Splat, c: Config, canvas: Canvas, gpu: Gpu, additive: bool)
    requires f.Valid() && c.Valid() && canvas.Valid()
    ensures var ab := SplatFluid(SplatFluid(f, a, c, canvas, gpu, additive), b, c, canvas, gpu, additive);
            var ba := SplatFluid(SplatFluid(f, b, c, canvas, gpu, additive), a, c, canvas, gpu, additive);
            ab.velocity.read == ba.velocity.read && ab.dye.read == ba.dye.read
  {
    var aspect, radius := canvas.Aspect(), SplatRadius(c, canvas);
    VelocityOrderIrrelevant(f.velocity, a, b, aspect, radius, gpu, additive);
    DyeOrderIrrelevant(f.dye, a, b, aspect, radius, gpu, additive);
  }

  /** The velocity half of `SplatOrderIrrelevant`. */
  lemma VelocityOrderIrrelevant(v: Slots<Vec2>, a: Splat, b: Splat, aspect: real, radius: real, gpu: Gpu,
                                additive: bool)
    requires v.Valid() && radius != 0.0
    ensures var va := v.Pass(SplatVelocityOutput(v, a, aspect, radius, gpu, additive));
            var vb := v.Pass(SplatVelocityOutput(v, b, aspect, radius, gpu, additive));
            va.Pass(SplatVelocityOutput(va, b, aspect, radius, gpu, additive)).read
              == vb.Pass(SplatVelocityOutput(vb, a, aspect, radius, gpu, additive)).read
  {
    var w, h, g := v.read.width, v.read.height, v.read.texels;
    var fa, fb := Vec2(a.dx, a.dy), Vec2(b.dx, b.dy);
    VelocitySplatsCommute(g, w, h, aspect, radius, gpu, a.x, a.y, fa, b.x, b.y, fb);
    if additive {
      var d := v.write.texels;
      SplatVelocityOfBlend(SplatVelocity(g, w, h, a.x, a.y, fa, aspect, radius, gpu), d, w, h, b.x, b.y, fb, aspect, radius, gpu);
      SplatVelocityOfBlend(SplatVelocity(g, w, h, b.x, b.y, fb, aspect, radius, gpu), d, w, h, a.x, a.y, fa, aspect, radius, gpu);
    }
  }

  /** The dye half of `SplatOrderIrrelevant`. */
  lemma DyeOrderIrrelevant(d: Slots<Rgb>, a: Splat, b: Splat, aspect: real, radius: real, gpu: Gpu, additive: bool)
    requires d.Valid() && radius != 0.0
    ensures var da := d.Pass(SplatDyeOutput(d, a, aspect, radius, gpu, additive));
            var db := d.Pass(SplatDyeOutput(d, b, aspect, radius, gpu, additive));
            da.Pass(SplatDyeOutput(da, b, aspect, radius, gpu, additive)).read
              == db.Pass(SplatDyeOutput(db, a, aspect, radius, gpu, additive)).read
  {
    var w, h, g := d.read.width, d.read.height, d.read.texels;
    var ca, cb := SplatColor(a), SplatColor(b);
    DyeSplatsCommute(g, w, h, aspect, radius, gpu, a.x, a.y, ca, b.x, b.y, cb);
    if additive {
      var o := d.write.texels;
      SplatDyeOfBlend(SplatDye(g, w, h, a.x, a.y, ca, aspect, radius, gpu), o, w, h, b.x, b.y, cb, aspect, radius, gpu);
      SplatDyeOfBlend(SplatDye(g, w, h, b.x, b.y, cb, aspect, radius, gpu), o, w, h, a.x, a.y, ca, aspect, radius, gpu);
    }
  }

  /**
   * A splat with no force leaves the velocity texels as they were when
   * blending is off; under additive blending the old write slot is added in.
   */
  lemma SplatWithoutForce(f: Fluid, s: Splat, c: Config, canvas: Canvas, gpu: Gpu, additive: bool)
    requires f.Valid() && c.Valid() && canvas.Valid()
    requires s.dx == 0.0 && s.dy == 0.0
    ensures SplatFluid(f, s, c, canvas, gpu, additive).velocity.read.texels ==
              if additive then BlendVec(f.velocity.read.texels, f.velocity.write.texels, f.Width(), f.Height())
              else f.velocity.read.texels
  {
    SplatOfNoForce(f.velocity.read.texels, f.Width(), f.Height(), s.x, s.y,
                   canvas.Aspect(), SplatRadius(c, canvas), gpu);
  }

  /**
   * Under additive blending a splat with no force still changes the velocity
   * wherever the write slot held anything: the texel becomes the sum of the
   * two slots.
   */
  lemma BlendedSplatMovesFluid(f: Fluid, s: Splat, c: Config, canvas: Canvas, gpu: Gpu, i: nat, j: nat)
    requires f.Valid() && c.Valid() && canvas.Valid()
    requires s.dx == 0.0 && s.dy == 0.0 && i < f.Width() && j < f.Height()
    requires f.velocity.write.texels[j][i] != ZeroVec
    ensures SplatFluid(f, s, c, canvas, gpu, true).velocity.read.texels[j][i]
              == AddVec(f.velocity.read.texels[j][i], f.velocity.write.texels[j][i])
    ensures SplatFluid(f, s, c, canvas, gpu, true).velocity.read.texels != f.velocity.read.texels
  {
    SplatWithoutForce(f, s, c, canvas, gpu, true);
    var r := SplatFluid(f, s, c, canvas, gpu, true).velocity.read.texels;
    assert r[j][i] != f.velocity.read.texels[j][i];
  }

  /** `splatPointer`: the pointer's delta times `SPLAT_FORCE` at its position, in its colour. */
  function PointerSplat(p: PointerView, force: real): (s: Splat)
    ensures s.x == p.texcoordX && s.y == p.texcoordY && s.color == p.color
    ensures s.dx * p.deltaY == s.dy * p.deltaX
    ensures force == 1.0 ==> s.dx == p.deltaX && s.dy == p.deltaY
  {
    Splat(p.texcoordX, p.texcoordY, p.deltaX * force, p.deltaY * force, p.color)
  }

  /** The splats `applyInputs` makes for the pointers: one per moved pointer, in order. */
  function PointerSplats(ps: seq<PointerView>, force: real): (r: seq<Splat>)
    ensures |r| <= |ps|
    ensures (forall k :: 0 <= k < |ps| ==> !ps[k].moved) ==> r == []
    decreases |ps|
  {
    if ps == [] then []
    else
      var last := ps[|ps| - 1];
      PointerSplats(ps[..|ps| - 1], force) + (if last.moved then [PointerSplat(last, force)] else [])
  }

  /** Visiting one more pointer adds its splat exactly when it moved. */
  lemma PointerSplatsStep(f: Fluid, ps: seq<PointerView>, i: nat, force: real, c: Config, canvas: Canvas, gpu: Gpu,
                           additive: bool)
    requires f.Valid() && c.Valid() && canvas.Valid() && i < |ps|
    ensures var before := Splats(f, PointerSplats(ps[..i], force), c, canvas, gpu, additive);
      Splats(f, PointerSplats(ps[..i + 1], force), c, canvas, gpu, additive) ==
        (if ps[i].moved then SplatFluid(before, PointerSplat(ps[i], force), c, canvas, gpu, additive) else before)
  {
    assert ps[..i + 1][..i] == ps[..i];
    if ps[i].moved {
      SplatsSnoc(f, PointerSplats(ps[..i], force), PointerSplat(ps[i], force), c, canvas, gpu, additive);
    } else {
      assert PointerSplats(ps[..i + 1], force) == PointerSplats(ps[..i], force);
    }
  }

  /** One random draw of `multipleSplats`: a hue and four `Math.random()` values. */
  datatype Draw = Draw(hue: Random, x: Random, y: Random, dx: Random, dy: Random)

  /** One splat of `multipleSplats`: a random position, a force within ±500 per axis and a random colour. */
  function RandomSplat(d: Draw): (s: Splat)
    ensures 0.0 <= s.x < 1.0 && 0.0 <= s.y < 1.0
    ensures -500.0 <= s.dx < 500.0 && -500.0 <= s.dy < 500.0
    ensures s.color == GenerateColor(d.hue)
  {
    Splat(d.x, d.y, 1000.0 * (d.dx - 0.5), 1000.0 * (d.dy - 0.5), GenerateColor(d.hue))
  }

  /** The first `n` splats of `multipleSplats(n)`, splat `k` made from draw `k`. */
  function RandomSplats(n: nat, draw: nat -> Draw): (r: seq<Splat>)
    ensures |r| == n
    ensures forall k :: 0 <= k < n ==> r[k] == RandomSplat(draw(k))
  {
    if n == 0 then [] else RandomSplats(n - 1, draw) + [RandomSplat(draw(n - 1))]
  }

  /** One more random splat extends the burst by one. */
  lemma RandomSplatsStep(f: Fluid, i: nat, draw: nat -> Draw, c: Config, canvas: Canvas, gpu: Gpu, additive: bool)
    requires f.Valid() && c.Valid() && canvas.Valid()
    ensures Splats(f, RandomSplats(i + 1, draw), c, canvas, gpu, additive)
         == SplatFluid(Splats(f, RandomSplats(i, draw), c, canvas, gpu, additive), RandomSplat(draw(i)), c, canvas, gpu, additive)
  {
    assert RandomSplats(i + 1, draw) == RandomSplats(i, draw) + [RandomSplat(draw(i))];
    SplatsSnoc(f, RandomSplats(i, draw), RandomSplat(draw(i)), c, canvas, gpu, additive);
  }
}

/**
 * The simulation's mutable state: the configuration, the framebuffers, the
 * pointer list, the queue of pending random bursts and the two timers, with
 * the operations the frame loop and the input handlers run on them.
 */
module Simulation {
  import opened Grid
  import opened Stencils
  import opened Buffers
  import opened Pointers
  import opened Colors
  import opened Sizing
  import opened Solver

  /** `calcDeltaTime`: seconds since the last frame, capped at one 60 Hz frame. */
  function DeltaTime(now: int, last: int): (dt: real)
    ensures dt <= 0.016666
    ensures dt <= (now - last) as real / 1000.0
    ensures dt == (now - last) as real / 1000.0 || dt == 0.016666
  {
    var elapsed := (now - last) as real / 1000.0;
    if elapsed < 0.016666 then elapsed else 0.016666
  }

  /**
   * The first digit of a positive number below 10 written in decimal: the
   * digit JavaScript puts before the `.` or `e` of its exponential form.
   */
  function LeadingDigit(x: real): (d: int)
    requires 0.0 < x < 10.0
    ensures 1 <= d <= 9
    ensures x >= 1.0 ==> d as real <= x < d as real + 1.0
    decreases (1.0 / x).Floor
  {
    if x >= 1.0 then x.Floor
    else
      ReciprocalShrinks(x);
      LeadingDigit(10.0 * x)
  }

  /** Scaling a number below 1 by ten lowers the integer part of its reciprocal. */
  lemma ReciprocalShrinks(x: real)
    requires 0.0 < x < 1.0
    ensures 0 <= (1.0 / (10.0 * x)).Floor < (1.0 / x).Floor
  {
    var y := 1.0 / x;
    assert y * x == 1.0;
    assert y > 1.0;
    assert 1.0 / (10.0 * x) == y / 10.0;
    var a, b := (y / 10.0).Floor, y.Floor;
    assert a as real <= y / 10.0 < b as real / 10.0 + 0.1;
  }

  /**
   * `parseInt` of a non-negative number below 10^21, which JavaScript first
   * turns into a string: in decimal when the number is 0 or at least 10^-6,
   * where `parseInt` reads the integer part, and in exponential form `d.ddde-n`
   * below 10^-6, where `parseInt` reads the single digit `d`.
   */
  function ParseInt(x: real): (n: int)
    requires 0.0 <= x < 1_000_000_000_000_000_000_000.0
    ensures x == 0.0 || x >= 0.000001 ==> n == x.Floor
    ensures 0.0 < x < 0.000001 ==> 1 <= n <= 9
  {
    if x == 0.0 || x >= 0.000001 then x.Floor else LeadingDigit(x)
  }

  /**
   * The size of a burst the space bar queues: `parseInt(Math.random() * 20) + 5`,
   * which is 5 to 24. For a draw below 5 * 10^-8 the product is written in
   * exponential form and the burst has 6 to 14 splats, not 5.
   */
  function BurstSize(random: Random): (n: int)
    ensures 5 <= n <= 24
    ensures random == 0.0 || random * 20.0 >= 0.000001 ==> n == (random * 20.0).Floor + 5
    ensures 0.0 < random * 20.0 < 0.000001 ==> 6 <= n <= 14
  {
    ParseInt(random * 20.0) + 5
  }

  /** A draw of 3 * 10^-8 times 20 is `6e-7` as a string, so the burst has 6 + 5 splats. */
  lemma TinyDrawBurst()
    ensures BurstSize(0.00000003) == 11
  {
    var x := 0.00000003 * 20.0;
    assert x == 0.0000006;
    assert LeadingDigit(6.0) == 6;
    assert LeadingDigit(0.6) == 6;
    assert LeadingDigit(0.06) == 6;
    assert LeadingDigit(0.006) == 6;
    assert LeadingDigit(0.0006) == 6;
    assert LeadingDigit(0.00006) == 6;
    assert LeadingDigit(0.000006) == 6;
    assert LeadingDigit(0.0000006) == 6;
  }

  /** The random splats `applyInputs` makes: one burst from the top of the queue, if any. */
  function QueuedSplats(stack: seq<int>, draw: nat -> Draw): (r: seq<Splat>)
    ensures stack == [] ==> r == []
    ensures stack != [] ==> |r| == Iterations(stack[|stack| - 1])
  {
    if stack == [] then [] else RandomSplats(Iterations(stack[|stack| - 1]), draw)
  }

  /**
   * The bloom targets for a drawing buffer of the given size, named from
   * `firstId` on: the bloom target at the bloom resolution, then level `k` of
   * the pyramid at the base size shifted right by `k + 1`, as many levels as
   * `BLOOM_ITERATIONS` allows up to the first with a side below 2.
   */
  ghost predicate BloomPyramid(c: Config, bufferWidth: nat, bufferHeight: nat, firstId: nat,
                               bloom: Target<Rgb>, levels: seq<Target<Rgb>>)
    requires c.Valid() && bufferWidth > 0 && bufferHeight > 0
  {
    var res := GetResolution(c.bloomResolution, bufferWidth, bufferHeight);
    bloom == CreateFbo(firstId, res.width as nat, res.height as nat, ZeroRgb) &&
    |levels| <= Iterations(c.bloomIterations) &&
    (forall k :: 0 <= k < |levels| ==>
       Fits(BloomLevel(res, k)) &&
       levels[k] == CreateFbo(firstId + 1 + k, BloomLevel(res, k).width as nat, BloomLevel(res, k).height as nat, ZeroRgb)) &&
    (|levels| < Iterations(c.bloomIterations) ==> !Fits(BloomLevel(res, |levels|)))
  }

  /**
   * `initBloomFramebuffers`: the bloom target, then the pyramid rebuilt from
   * empty, one level per iteration until `BLOOM_ITERATIONS` levels or the
   * first level with a side below 2.
   */
  method BloomTargets(c: Config, bufferWidth: nat, bufferHeight: nat, firstId: nat)
    returns (bloom: Target<Rgb>, levels: seq<Target<Rgb>>)
    requires c.Valid() && bufferWidth > 0 && bufferHeight > 0
    ensures BloomPyramid(c, bufferWidth, bufferHeight, firstId, bloom, levels)
  {
    var res := GetResolution(c.bloomResolution, bufferWidth, bufferHeight);
    bloom := CreateFbo(firstId, res.width as nat, res.height as nat, ZeroRgb);
    var id := firstId + 1;
    levels := [];
    var i := 0;
    while i < c.bloomIterations
      invariant 0 <= i <= Iterations(c.bloomIterations)
      invariant |levels| == i && id == firstId + 1 + i
      invariant forall k :: 0 <= k < i ==>
                  Fits(BloomLevel(res, k)) &&
                  levels[k] == CreateFbo(firstId + 1 + k, BloomLevel(res, k).width as nat,
                                         BloomLevel(res, k).height as nat, ZeroRgb)
    {
      var width := ShiftRight(res.width, i + 1);
      var height := ShiftRight(res.height, i + 1);
      if width < 2 || height < 2 {
        break;
      }
      levels := levels + [CreateFbo(id, width as nat, height as nat, ZeroRgb)];
      id := id + 1;
      i := i + 1;
    }
  }

  class Simulation {
    var config: Config
    var velocity: DoubleFbo<Vec2>
    var pressure: DoubleFbo<real>
    var dye: DoubleFbo<Rgb>
    var divergence: Target<real>
    var curl: Target<real>
    var bloom: Target<Rgb>
    var bloomFramebuffers: seq<Target<Rgb>>
    var pointers: seq<Pointer>
    var splatStack: seq<int>
    var lastUpdateTime: int
    var colorUpdateTimer: real
    /** The next unused framebuffer name. */
    var nextId: nat
    /**
     * The blend state the solver's passes run under: whether the last pass
     * drawn left `BLEND` enabled with `blendFunc(ONE, ONE)`, so that a pass
     * adds its output to what its framebuffer held.
     */
    var additive: bool

    function State(): Fluid
      reads this, velocity, pressure, dye
    {
      Fluid(velocity.Pair(), pressure.Pair(), dye.Pair(), divergence, curl)
    }

    /** The pointer records, as values. */
    function Views(): (vs: seq<PointerView>)
      reads this`pointers, pointers
      ensures |vs| == |pointers| && forall k :: 0 <= k < |pointers| ==> vs[k] == pointers[k].View()
    {
      var ps := pointers;
      seq(|ps|, k requires 0 <= k < |ps| reads ps => ps[k].View())
    }

    ghost predicate DistinctPointers()
      reads this
    {
      forall a, b :: 0 <= a < b < |pointers| ==> pointers[a] != pointers[b]
    }

    ghost predicate Valid()
      reads this, velocity, pressure, dye
    {
      config.Valid() && State().Valid() && DistinctPointers()
    }

    /** What `initBloomFramebuffers` establishes for a drawing buffer of the given size. */
    ghost predicate BloomReady(bufferWidth: nat, bufferHeight: nat, firstId: nat)
      requires config.Valid() && bufferWidth > 0 && bufferHeight > 0
      reads this
    {
      BloomPyramid(config, bufferWidth, bufferHeight, firstId, bloom, bloomFramebuffers) &&
      nextId == firstId + 1 + |bloomFramebuffers|
    }

    /** `initBloomFramebuffers` on this simulation, naming its targets from `nextId` on. */
    method InitBloomFramebuffers(bufferWidth: nat, bufferHeight: nat)
      requires config.Valid() && bufferWidth > 0 && bufferHeight > 0
      modifies this`bloom, this`bloomFramebuffers, this`nextId
      ensures BloomReady(bufferWidth, bufferHeight, old(nextId))
    {
      bloom, bloomFramebuffers := BloomTargets(config, bufferWidth, bufferHeight, nextId);
      nextId := nextId + 1 + |bloomFramebuffers|;
    }

    /**
     * The first `initFramebuffers` together with the start-up globals: one
     * pointer, an empty burst queue, the colour timer at zero and the clock
     * read at `now`. All textures are fresh and cleared.
     */
    constructor (c: Config, bufferWidth: nat, bufferHeight: nat, now: int)
      requires c.Valid() && bufferWidth > 0 && bufferHeight > 0
      ensures Valid() && State().AllZero()
      ensures config == c && splatStack == [] && lastUpdateTime == now && colorUpdateTimer == 0.0 && !additive
      ensures |pointers| == 1 && pointers[0].View() == Initial
      ensures SolverTargetsReady(GetResolution(c.simResolution, bufferWidth, bufferHeight),
                                 GetResolution(c.dyeResolution, bufferWidth, bufferHeight))
      ensures BloomReady(bufferWidth, bufferHeight, 8)
      ensures fresh(velocity) && fresh(pressure) && fresh(dye)
    {
      config := c;
      var p := new Pointer();
      pointers := [p];
      splatStack := [];
      var simRes := GetResolution(c.simResolution, bufferWidth, bufferHeight);
      var dyeRes := GetResolution(c.dyeResolution, bufferWidth, bufferHeight);
      var sw, sh := simRes.width as nat, simRes.height as nat;
      dye := new DoubleFbo(dyeRes.width as nat, dyeRes.height as nat, ZeroRgb, 0, 1);
      velocity := new DoubleFbo(sw, sh, ZeroVec, 2, 3);
      divergence := CreateFbo(4, sw, sh, 0.0);
      curl := CreateFbo(5, sw, sh, 0.0);
      pressure := new DoubleFbo(sw, sh, 0.0, 6, 7);
      var b, levels := BloomTargets(c, bufferWidth, bufferHeight, 8);
      bloom, bloomFramebuffers := b, levels;
      nextId := 9 + |levels|;
      lastUpdateTime := now;
      colorUpdateTimer := 0.0;
      additive := false;
    }

    /**
     * `initFramebuffers` after a canvas resize: the solver's targets at the
     * simulation and dye resolutions, then the bloom pyramid rebuilt.
     */
    method InitFramebuffers(bufferWidth: nat, bufferHeight: nat, gpu: Gpu)
      requires Valid() && bufferWidth > 0 && bufferHeight > 0
      modifies this`divergence, this`curl, this`pressure, this`bloom, this`bloomFramebuffers, this`nextId,
               velocity, dye
      ensures Valid() && velocity == old(velocity) && dye == old(dye) && fresh(pressure)
      ensures SolverTargetsReady(GetResolution(config.simResolution, bufferWidth, bufferHeight),
                                 GetResolution(config.dyeResolution, bufferWidth, bufferHeight))
      ensures BloomReady(bufferWidth, bufferHeight, old(nextId) + 8)
      ensures var simRes := GetResolution(config.simResolution, bufferWidth, bufferHeight);
              var sw, sh := simRes.width as nat, simRes.height as nat;
              if old(velocity.read.width) == sw && old(velocity.read.height) == sh then
                velocity.Pair() == old(velocity.Pair())
              else
                velocity.read == Target(old(nextId) + 2, sw, sh, Resample(old(velocity.read.texels), sw, sh, gpu.sampleVec)) &&
                velocity.write == CreateFbo(old(nextId) + 3, sw, sh, ZeroVec)
      ensures var dyeRes := GetResolution(config.dyeResolution, bufferWidth, bufferHeight);
              var dw, dh := dyeRes.width as nat, dyeRes.height as nat;
              if old(dye.read.width) == dw && old(dye.read.height) == dh then
                dye.Pair() == old(dye.Pair())
              else
                dye.read == Target(old(nextId), dw, dh, Resample(old(dye.read.texels), dw, dh, gpu.sampleRgb)) &&
                dye.write == CreateFbo(old(nextId) + 1, dw, dh, ZeroRgb)
    {
      var simRes := GetResolution(config.simResolution, bufferWidth, bufferHeight);
      var dyeRes := GetResolution(config.dyeResolution, bufferWidth, bufferHeight);
      ResizeSolverTargets(simRes, dyeRes, gpu);
      InitBloomFramebuffers(bufferWidth, bufferHeight);
    }

    /**
     * The solver's targets at the given sizes: velocity, pressure, divergence
     * and curl at `simRes`, the dye at `dyeRes`; pressure, divergence and curl
     * cleared.
     */
    ghost predicate SolverTargetsReady(simRes: Size, dyeRes: Size)
      reads this, velocity, pressure, dye
    {
      State().Width() == simRes.width && State().Height() == simRes.height &&
      dye.read.width == dyeRes.width && dye.read.height == dyeRes.height &&
      IsUniform(pressure.read.texels, 0.0) && IsUniform(pressure.write.texels, 0.0) &&
      IsUniform(divergence.texels, 0.0) && IsUniform(curl.texels, 0.0)
    }

    /**
     * The solver half of `initFramebuffers`: dye and velocity keep their
     * pairs, which `resizeDoubleFBO` leaves alone when the size is unchanged;
     * divergence, curl and pressure are created anew at the simulation size.
     */
    method ResizeSolverTargets(simRes: Size, dyeRes: Size, gpu: Gpu)
      requires Valid() && simRes.width > 0 && simRes.height > 0 && dyeRes.width > 0 && dyeRes.height > 0
      modifies this`divergence, this`curl, this`pressure, this`nextId, velocity, dye
      ensures Valid() && SolverTargetsReady(simRes, dyeRes)
      ensures velocity == old(velocity) && dye == old(dye) && fresh(pressure)
      ensures old(velocity.read.width) == simRes.width && old(velocity.read.height) == simRes.height ==>
                velocity.Pair() == old(velocity.Pair())
      ensures old(dye.read.width) == dyeRes.width && old(dye.read.height) == dyeRes.height ==>
                dye.Pair() == old(dye.Pair())
      ensures !(old(velocity.read.width) == simRes.width && old(velocity.read.height) == simRes.height) ==>
                velocity.read == Target(old(nextId) + 2, simRes.width as nat, simRes.height as nat,
                                        Resample(old(velocity.read.texels), simRes.width as nat, simRes.height as nat, gpu.sampleVec)) &&
                velocity.write == CreateFbo(old(nextId) + 3, simRes.width as nat, simRes.height as nat, ZeroVec)
      ensures !(old(dye.read.width) == dyeRes.width && old(dye.read.height) == dyeRes.height) ==>
                dye.read == Target(old(nextId), dyeRes.width as nat, dyeRes.height as nat,
                                   Resample(old(dye.read.texels), dyeRes.width as nat, dyeRes.height as nat, gpu.sampleRgb)) &&
                dye.write == CreateFbo(old(nextId) + 1, dyeRes.width as nat, dyeRes.height as nat, ZeroRgb)
      ensures divergence.id == old(nextId) + 4 && curl.id == old(nextId) + 5 && nextId == old(nextId) + 8
    {
      var sw, sh := simRes.width as nat, simRes.height as nat;
      dye.Resize(dyeRes.width as nat, dyeRes.height as nat, gpu.sampleRgb, ZeroRgb, nextId, nextId + 1);
      velocity.Resize(sw, sh, gpu.sampleVec, ZeroVec, nextId + 2, nextId + 3);
      divergence := CreateFbo(nextId + 4, sw, sh, 0.0);
      curl := CreateFbo(nextId + 5, sw, sh, 0.0);
      pressure := new DoubleFbo(sw, sh, 0.0, nextId + 6, nextId + 7);
      nextId := nextId + 8;
      assert State().Valid();
    }

    /** The curl program into `curl`, then the vorticity program as a velocity pass. */
    method ConfineVorticity(dt: real, gpu: Gpu)
      requires Valid() && gpu.Valid()
      modifies this`curl, velocity
      ensures Valid()
      ensures State() == Confined(old(State()), config, dt, gpu)
      ensures velocity.swaps == old(velocity.swaps) + 1
    {
      var w, h := velocity.read.width, velocity.read.height;
      curl := curl.(texels := Curl(velocity.read.texels, w, h));
      velocity.Blit(Vorticity(velocity.read.texels, curl.texels, w, h, config.curl, dt, gpu));
      velocity.Swap();
    }

    /**
     * The divergence program into `divergence`, the clear program as a
     * pressure pass, `PRESSURE_ITERATIONS` pressure passes and the
     * gradient-subtract program as a velocity pass.
     */
    method Project()
      requires Valid()
      modifies this`divergence, velocity, pressure
      ensures Valid()
      ensures State() == Projected(old(State()), config)
      ensures velocity.swaps == old(velocity.swaps) + 1
      ensures pressure.swaps == old(pressure.swaps) + 1 + Iterations(config.pressureIterations)
    {
      var w, h := velocity.read.width, velocity.read.height;
      divergence := divergence.(texels := Divergence(velocity.read.texels, w, h));
      pressure.Blit(Scale(pressure.read.texels, w, h, config.pressure));
      pressure.Swap();
      SolvePressure();
      velocity.Blit(GradientSubtract(pressure.read.texels, velocity.read.texels, w, h));
      velocity.Swap();
    }

    /** The Jacobi loop of `step`: `PRESSURE_ITERATIONS` passes of the pressure program. */
    method SolvePressure()
      requires Valid()
      modifies pressure
      ensures Valid()
      ensures pressure.Pair() == PressureSolve(old(pressure.Pair()), divergence.texels, Iterations(config.pressureIterations))
      ensures pressure.swaps == old(pressure.swaps) + Iterations(config.pressureIterations)
    {
      var w, h := pressure.read.width, pressure.read.height;
      var i := 0;
      while i < config.pressureIterations
        invariant 0 <= i <= Iterations(config.pressureIterations)
        invariant pressure.Valid() && pressure.Pair() == PressureSolve(old(pressure.Pair()), divergence.texels, i)
        invariant pressure.swaps == old(pressure.swaps) + i
      {
        pressure.Blit(Pressure(pressure.read.texels, divergence.texels, w, h));
        pressure.Swap();
        i := i + 1;
      }
    }

    /** The advection program as a velocity pass, then as a dye pass. */
    method Advect(dt: real, gpu: Gpu)
      requires Valid() && gpu.Valid()
      modifies velocity, dye
      ensures Valid()
      ensures State() == Advected(old(State()), config, dt, gpu)
      ensures velocity.swaps == old(velocity.swaps) + 1 && dye.swaps == old(dye.swaps) + 1
    {
      var w, h := velocity.read.width, velocity.read.height;
      var texel := velocity.read.TexelSize();
      velocity.Blit(AdvectVelocity(velocity.read.texels, w, h, texel, dt, config.velocityDissipation, gpu));
      velocity.Swap();
      dye.Blit(AdvectDye(velocity.read.texels, dye.read.texels, dye.read.width, dye.read.height,
                         texel, dt, config.densityDissipation, gpu));
      dye.Swap();
    }

    /** `step`: the solver's pass sequence, each pass rendering into a write slot and swapping. */
    method Step(dt: real, gpu: Gpu)
      requires Valid() && gpu.Valid()
      modifies this`divergence, this`curl, this`additive, velocity, pressure, dye
      ensures Valid() && !additive
      ensures State() == StepFluid(old(State()), config, dt, gpu)
      ensures velocity.swaps == old(velocity.swaps) + 3
      ensures pressure.swaps == old(pressure.swaps) + 1 + Iterations(config.pressureIterations)
      ensures dye.swaps == old(dye.swaps) + 1
    {
      additive := false;
      ConfineVorticity(dt, gpu);
      Project();
      Advect(dt, gpu);
    }

    /** `splat`: one pass over the velocity pair and one over the dye pair. */
    method ApplySplat(s: Splat, canvas: Canvas, gpu: Gpu)
      requires Valid() && canvas.Valid()
      modifies velocity, dye
      ensures Valid()
      ensures State() == SplatFluid(old(State()), s, config, canvas, gpu, additive)
      ensures velocity.swaps == old(velocity.swaps) + 1 && dye.swaps == old(dye.swaps) + 1
    {
      var aspect, radius := canvas.Aspect(), SplatRadius(config, canvas);
      velocity.Blit(SplatVelocityOutput(velocity.Pair(), s, aspect, radius, gpu, additive));
      velocity.Swap();
      dye.Blit(SplatDyeOutput(dye.Pair(), s, aspect, radius, gpu, additive));
      dye.Swap();
    }

    /**
     * What `render` leaves behind for the next frame's passes: `BLEND` on, with
     * `blendFunc(ONE, ONE)` after the bloom or sunrays layer. What it draws on
     * screen is not modelled.
     */
    method Render()
      modifies this`additive
      ensures additive == config.RenderLeavesAdditive()
    {
      additive := config.bloom || config.sunrays;
    }

    /** `multipleSplats(amount)`: `amount` random splats, splat `k` from draw `k`. */
    method MultipleSplats(amount: int, canvas: Canvas, gpu: Gpu, draw: nat -> Draw)
      requires Valid() && canvas.Valid()
      modifies velocity, dye
      ensures Valid()
      ensures State() == Splats(old(State()), RandomSplats(Iterations(amount), draw), config, canvas, gpu, additive)
      ensures velocity.swaps == old(velocity.swaps) + Iterations(amount)
      ensures dye.swaps == old(dye.swaps) + Iterations(amount)
    {
      ghost var start := State();
      var i := 0;
      while i < amount
        invariant 0 <= i <= Iterations(amount)
        invariant Valid() && RandomSplatsDone(start, i, canvas, gpu, draw)
        invariant velocity.swaps == old(velocity.swaps) + i && dye.swaps == old(dye.swaps) + i
      {
        RandomSplatNext(start, i, canvas, gpu, draw);
        i := i + 1;
      }
      assert i == Iterations(amount);
    }

    /** The first `i` splats of the burst are on screen. */
    ghost predicate RandomSplatsDone(start: Fluid, i: nat, canvas: Canvas, gpu: Gpu, draw: nat -> Draw)
      reads this, velocity, pressure, dye
    {
      start.Valid() && config.Valid() && canvas.Valid() &&
      State() == Splats(start, RandomSplats(i, draw), config, canvas, gpu, additive)
    }

    /** One iteration of the `multipleSplats` loop: splat `i` from draw `i`. */
    method RandomSplatNext(ghost start: Fluid, i: nat, canvas: Canvas, gpu: Gpu, draw: nat -> Draw)
      requires Valid() && RandomSplatsDone(start, i, canvas, gpu, draw)
      modifies velocity, dye
      ensures Valid() && RandomSplatsDone(start, i + 1, canvas, gpu, draw)
      ensures velocity.swaps == old(velocity.swaps) + 1 && dye.swaps == old(dye.swaps) + 1
    {
      ghost var before := State();
      RandomSplatsStep(start, i, draw, config, canvas, gpu, additive);
      ApplySplat(RandomSplat(draw(i)), canvas, gpu);
      assert State() == SplatFluid(before, RandomSplat(draw(i)), config, canvas, gpu, additive);
    }

    /** `splatPointer`: a splat at the pointer's position, pushed by its delta times `SPLAT_FORCE`. */
    method SplatPointer(p: Pointer, canvas: Canvas, gpu: Gpu)
      requires Valid() && canvas.Valid()
      modifies velocity, dye
      ensures Valid()
      ensures State() == SplatFluid(old(State()), PointerSplat(p.View(), config.splatForce), config, canvas, gpu, additive)
    {
      var dx := p.deltaX * config.splatForce;
      var dy := p.deltaY * config.splatForce;
      ghost var s := PointerSplat(p.View(), config.splatForce);
      assert s == Splat(p.texcoordX, p.texcoordY, dx, dy, p.color);
      ApplySplat(Splat(p.texcoordX, p.texcoordY, dx, dy, p.color), canvas, gpu);
    }

    /** The body of the pointer loop of `applyInputs`: a moved pointer is marked unmoved and splatted. */
    method ApplyPointer(p: Pointer, canvas: Canvas, gpu: Gpu)
      requires Valid() && canvas.Valid()
      modifies p, velocity, dye
      ensures Valid()
      ensures p.View() == old(p.View()).(moved := false)
      ensures State() == if old(p.moved) then SplatFluid(old(State()), PointerSplat(old(p.View()), config.splatForce),
                                                         config, canvas, gpu, additive)
                         else old(State())
    {
      if p.moved {
        ghost var before := State();
        ghost var s := PointerSplat(p.View(), config.splatForce);
        p.moved := false;
        assert PointerSplat(p.View(), config.splatForce) == s;
        SplatPointer(p, canvas, gpu);
        assert State() == SplatFluid(before, s, config, canvas, gpu, additive);
      }
    }

    /** The first half of `applyInputs`: one burst size popped off the queue, if any, and splatted. */
    method ApplyQueued(canvas: Canvas, gpu: Gpu, draw: nat -> Draw)
      requires Valid() && canvas.Valid()
      modifies this`splatStack, velocity, dye
      ensures Valid()
      ensures old(splatStack) != [] ==> splatStack == old(splatStack)[..|old(splatStack)| - 1]
      ensures old(splatStack) == [] ==> splatStack == []
      ensures State() == Splats(old(State()), QueuedSplats(old(splatStack), draw), config, canvas, gpu, additive)
      ensures Views() == old(Views())
    {
      if |splatStack| > 0 {
        var amount := splatStack[|splatStack| - 1];
        splatStack := splatStack[..|splatStack| - 1];
        MultipleSplats(amount, canvas, gpu, draw);
      }
    }

    /**
     * The second half of `applyInputs`: in list order, every moved pointer
     * has `moved` cleared and is splatted. Afterwards no pointer is moved and
     * no other pointer field has changed.
     */
    method ApplyPointers(canvas: Canvas, gpu: Gpu)
      requires Valid() && canvas.Valid()
      modifies velocity, dye, pointers
      ensures Valid()
      ensures forall k :: 0 <= k < |pointers| ==> pointers[k].View() == old(pointers[k].View()).(moved := false)
      ensures State() == Splats(old(State()), PointerSplats(old(Views()), config.splatForce), config, canvas, gpu, additive)
    {
      ghost var start, views := State(), Views();
      var i := 0;
      while i < |pointers|
        invariant 0 <= i <= |pointers|
        invariant Valid() && PointersDone(start, views, i, canvas, gpu)
      {
        ApplyPointerAt(start, views, i, canvas, gpu);
        i := i + 1;
      }
      assert views[..i] == views;
    }

    /**
     * The pointer loop of `applyInputs` has visited the first `i` of the
     * pointers whose records were `views` when it started: those are marked
     * unmoved and splatted, the others are untouched.
     */
    ghost predicate PointersDone(start: Fluid, views: seq<PointerView>, i: nat, canvas: Canvas, gpu: Gpu)
      reads this, velocity, pressure, dye, pointers
    {
      start.Valid() && config.Valid() && canvas.Valid() && |views| == |pointers| && i <= |pointers| &&
      State() == Splats(start, PointerSplats(views[..i], config.splatForce), config, canvas, gpu, additive) &&
      (forall k :: 0 <= k < i ==> pointers[k].View() == views[k].(moved := false)) &&
      (forall k :: i <= k < |pointers| ==> pointers[k].View() == views[k])
    }

    /** One iteration of the pointer loop of `applyInputs`. */
    method ApplyPointerAt(ghost start: Fluid, ghost views: seq<PointerView>, i: nat, canvas: Canvas, gpu: Gpu)
      requires Valid() && PointersDone(start, views, i, canvas, gpu) && i < |pointers|
      modifies pointers[i], velocity, dye
      ensures Valid() && PointersDone(start, views, i + 1, canvas, gpu)
    {
      PointerSplatsStep(start, views, i, config.splatForce, config, canvas, gpu, additive);
      ApplyPointer(pointers[i], canvas, gpu);
    }

    /**
     * `applyInputs`: the queued burst first, then the moved pointers; the
     * whole frame's input is one list of splats.
     */
    method ApplyInputs(canvas: Canvas, gpu: Gpu, draw: nat -> Draw)
      requires Valid() && canvas.Valid()
      modifies this`splatStack, velocity, dye, pointers
      ensures Valid()
      ensures old(splatStack) != [] ==> splatStack == old(splatStack)[..|old(splatStack)| - 1]
      ensures old(splatStack) == [] ==> splatStack == []
      ensures forall k :: 0 <= k < |pointers| ==> pointers[k].View() == old(pointers[k].View()).(moved := false)
      ensures State() == Splats(old(State()),
                                QueuedSplats(old(splatStack), draw) + PointerSplats(old(Views()), config.splatForce),
                                config, canvas, gpu, additive)
    {
      ghost var s0, views := State(), Views();
      ghost var queued, moved := QueuedSplats(splatStack, draw), PointerSplats(views, config.splatForce);
      ApplyQueued(canvas, gpu, draw);
      ghost var s1 := State();
      ApplyPointers(canvas, gpu);
      InputsCompose(s0, s1, State(), queued, moved, config, canvas, gpu, additive);
    }

    /** `calcDeltaTime`: the capped time step, and the clock moved to `now`. */
    method CalcDeltaTime(now: int) returns (dt: real)
      modifies this`lastUpdateTime
      ensures dt == DeltaTime(now, old(lastUpdateTime)) && lastUpdateTime == now
    {
      dt := (now - lastUpdateTime) as real / 1000.0;
      if 0.016666 < dt {
        dt := 0.016666;
      }
      lastUpdateTime := now;
    }

    /**
     * `updateColors`: with `COLORFUL` set, the timer runs at `COLOR_UPDATE_SPEED`;
     * once it reaches 1 it restarts at zero and pointer `k` gets a new colour of
     * hue `hues[k]`. Nothing else changes.
     */
    method UpdateColors(dt: real, hues: seq<Random>)
      requires Valid() && |hues| == |pointers|
      modifies this`colorUpdateTimer, pointers
      ensures Valid()
      ensures var t := old(colorUpdateTimer) + dt * config.colorUpdateSpeed;
              var recolour := config.colorful && t >= 1.0;
              colorUpdateTimer == (if !config.colorful then old(colorUpdateTimer) else if recolour then 0.0 else t) &&
              forall k :: 0 <= k < |pointers| ==>
                pointers[k].View() == (if recolour then old(pointers[k].View()).(color := GenerateColor(hues[k]))
                                       else old(pointers[k].View()))
    {
      if !config.colorful {
        return;
      }
      colorUpdateTimer := colorUpdateTimer + dt * config.colorUpdateSpeed;
      if colorUpdateTimer >= 1.0 {
        colorUpdateTimer := 0.0;
        Recolour(hues);
      }
    }

    /** Pointer `k` takes the colour of hue `hues[k]`; nothing else about the pointers changes. */
    method Recolour(hues: seq<Random>)
      requires DistinctPointers() && |hues| == |pointers|
      modifies pointers
      ensures forall k :: 0 <= k < |pointers| ==> pointers[k].View() == old(pointers[k].View()).(color := GenerateColor(hues[k]))
    {
      ghost var colours := seq(|hues|, k requires 0 <= k < |hues| => GenerateColor(hues[k]));
      var i := 0;
      while i < |pointers|
        invariant 0 <= i <= |pointers|
        invariant forall k :: 0 <= k < i ==> pointers[k].View() == old(pointers[k].View()).(color := colours[k])
        invariant forall k :: i <= k < |pointers| ==> pointers[k].View() == old(pointers[k].View())
        modifies pointers
      {
        pointers[i].color := GenerateColor(hues[i]);
        assert pointers[i].color == colours[i];
        i := i + 1;
      }
    }

    /**
     * The `keydown` handler: `KeyP` toggles the pause, the space bar queues a
     * burst of 5 to 24 random splats (`random` is the `Math.random()` draw).
     */
    method KeyDown(code: string, key: string, random: Random)
      requires Valid()
      modifies this`config, this`splatStack
      ensures Valid()
      ensures config == (if code == "KeyP" then old(config).(paused := !old(config).paused) else old(config))
      ensures splatStack == (if key == " " then old(splatStack) + [BurstSize(random)] else old(splatStack))
    {
      if code == "KeyP" {
        config := config.(paused := !config.paused);
      }
      if key == " " {
        splatStack := splatStack + [BurstSize(random)];
      }
    }
  }

  /** The two halves of `applyInputs` compose: the queued burst, then the pointer splats, on one list. */
  lemma InputsCompose(s0: Fluid, s1: Fluid, s2: Fluid, queued: seq<Splat>, moved: seq<Splat>,
                      c: Config, canvas: Canvas, gpu: Gpu, additive: bool)
    requires s0.Valid() && c.Valid() && canvas.Valid()
    requires s1 == Splats(s0, queued, c, canvas, gpu, additive)
    requires s2 == Splats(s1, moved, c, canvas, gpu, additive)
    ensures s2 == Splats(s0, queued + moved, c, canvas, gpu, additive)
  {
    SplatsAppend(s0, queued, moved, c, canvas, gpu, additive);
  }

  /** Pressing `P` twice leaves the configuration and the burst queue as they were. */
  method PauseTwice(s: Simulation, random: Random)
    requires s.Valid()
    modifies s
    ensures s.config == old(s.config) && s.splatStack == old(s.splatStack)
  {
    s.KeyDown("KeyP", "p", random);
    s.KeyDown("KeyP", "p", random);
  }
}

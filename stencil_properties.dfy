/**
 * What each solver shader does to the fields it reads: the zero field is a
 * fixed point of every pass, uniform fields have no curl, no interior
 * divergence and no pressure gradient, the wall test of the divergence
 * shader picks out exactly the edge texels, splats add up in any order and
 * advection by a still velocity field only applies the dissipation factor.
 */
module StencilProperties {
  import opened Grid
  import opened Stencils

  /** Dividing by a positive denominator keeps the order of the numerators. */
  lemma DivideOrder(a: real, b: real, d: real)
    requires d > 0.0
    ensures a / d < b / d <==> a < b
  {
    assert (a / d) * d == a && (b / d) * d == b;
    if a < b {
      assert (b / d - a / d) * d == b - a;
    } else {
      assert (a / d - b / d) * d == a - b;
    }
  }

  /** The divergence shader's texture-coordinate tests pick out exactly the first and last texel. */
  lemma WallTexels(k: nat, n: nat)
    requires k < n
    ensures BeforeFirstTexel(k, n) <==> k == 0
    ensures AfterLastTexel(k, n) <==> k == n - 1
  {
    var N := n as real;
    DivideOrder(k as real + 0.5, 1.0, N);
    assert 1.0 - 1.0 / N == (N - 1.0) / N;
    DivideOrder(N - 1.0, k as real + 0.5, N);
  }

  /** A uniform velocity field has no curl anywhere, edges included. */
  lemma CurlOfUniform(v: Field<Vec2>, w: nat, h: nat, c: Vec2)
    requires IsGrid(v, w, h) && IsUniform(v, c)
    ensures IsUniform(Curl(v, w, h), 0.0)
  {
    var r := Curl(v, w, h);
    forall j, i | 0 <= j < |r| && 0 <= i < |r[j]| ensures r[j][i] == 0.0 {
      assert At(v, w, h, i - 1, j) == c && At(v, w, h, i + 1, j) == c;
      assert At(v, w, h, i, j - 1) == c && At(v, w, h, i, j + 1) == c;
    }
  }

  /** The zero velocity field has zero divergence everywhere, walls included. */
  lemma DivergenceOfZero(v: Field<Vec2>, w: nat, h: nat)
    requires IsGrid(v, w, h) && IsUniform(v, ZeroVec)
    ensures IsUniform(Divergence(v, w, h), 0.0)
  {
    var r := Divergence(v, w, h);
    forall j, i | 0 <= j < |r| && 0 <= i < |r[j]| ensures r[j][i] == 0.0 {
      assert v[j][i] == ZeroVec;
      assert At(v, w, h, i - 1, j) == ZeroVec && At(v, w, h, i + 1, j) == ZeroVec;
      assert At(v, w, h, i, j - 1) == ZeroVec && At(v, w, h, i, j + 1) == ZeroVec;
    }
  }

  /** Away from the walls a uniform flow is divergence free. */
  lemma DivergenceOfUniformInterior(v: Field<Vec2>, w: nat, h: nat, c: Vec2, i: nat, j: nat)
    requires IsGrid(v, w, h) && IsUniform(v, c)
    requires 0 < i < w - 1 && 0 < j < h - 1
    ensures Divergence(v, w, h)[j][i] == 0.0
  {
    WallTexels(i, w);
    WallTexels(j, h);
    assert v[j][i] == c;
    assert At(v, w, h, i - 1, j) == c && At(v, w, h, i + 1, j) == c;
    assert At(v, w, h, i, j - 1) == c && At(v, w, h, i, j + 1) == c;
  }

  /**
   * At the left wall the neighbour beyond the wall is the reflected centre, so a
   * uniform flow with horizontal component `c.x` shows divergence `c.x` there.
   */
  lemma DivergenceAtLeftWall(v: Field<Vec2>, w: nat, h: nat, c: Vec2, j: nat)
    requires IsGrid(v, w, h) && IsUniform(v, c)
    requires w >= 2 && 0 < j < h - 1
    ensures Divergence(v, w, h)[j][0] == c.x
  {
    WallTexels(0, w);
    WallTexels(j, h);
    assert v[j][0] == c;
    assert At(v, w, h, 1, j) == c;
    assert At(v, w, h, 0, j - 1) == c && At(v, w, h, 0, j + 1) == c;
  }

  /** A field whose curl vanishes everywhere gets no confinement force anywhere. */
  lemma VorticityOfCurlFree(v: Field<Vec2>, c: Field<real>, w: nat, h: nat, strength: real, dt: real, gpu: Gpu)
    requires IsGrid(v, w, h) && IsGrid(c, w, h) && gpu.Valid()
    requires IsUniform(c, 0.0)
    ensures Vorticity(v, c, w, h, strength, dt, gpu) == v
  {
    var r := Vorticity(v, c, w, h, strength, dt, gpu);
    forall j, i | 0 <= j < h && 0 <= i < w ensures r[j][i] == v[j][i] {
      VorticityAtCurlFreeTexel(v, c, w, h, strength, dt, gpu, i, j);
    }
    Extensionality(r, v, w, h);
  }

  /**
   * The confinement force is scaled by the curl at the texel itself: wherever
   * that curl is zero the velocity is left as it was, whatever the neighbours.
   */
  lemma VorticityAtCurlFreeTexel(v: Field<Vec2>, c: Field<real>, w: nat, h: nat, strength: real, dt: real,
                                 gpu: Gpu, i: nat, j: nat)
    requires IsGrid(v, w, h) && IsGrid(c, w, h) && gpu.Valid()
    requires i < w && j < h && c[j][i] == 0.0
    ensures Vorticity(v, c, w, h, strength, dt, gpu)[j][i] == v[j][i]
  {
  }

  /** A uniform pressure with zero divergence is a fixed point of the Jacobi update. */
  lemma PressureOfUniform(p: Field<real>, d: Field<real>, w: nat, h: nat, k: real)
    requires IsGrid(p, w, h) && IsGrid(d, w, h)
    requires IsUniform(p, k) && IsUniform(d, 0.0)
    ensures IsUniform(Pressure(p, d, w, h), k)
  {
    var r := Pressure(p, d, w, h);
    forall j, i | 0 <= j < |r| && 0 <= i < |r[j]| ensures r[j][i] == k {
      assert d[j][i] == 0.0;
      assert At(p, w, h, i - 1, j) == k && At(p, w, h, i + 1, j) == k;
      assert At(p, w, h, i, j - 1) == k && At(p, w, h, i, j + 1) == k;
    }
  }

  /** A uniform pressure has no gradient: subtracting it leaves the velocity as it was. */
  lemma GradientOfUniform(p: Field<real>, v: Field<Vec2>, w: nat, h: nat, k: real)
    requires IsGrid(p, w, h) && IsGrid(v, w, h) && IsUniform(p, k)
    ensures GradientSubtract(p, v, w, h) == v
  {
    var r := GradientSubtract(p, v, w, h);
    forall j, i | 0 <= j < h && 0 <= i < w ensures r[j][i] == v[j][i] {
      assert At(p, w, h, i - 1, j) == k && At(p, w, h, i + 1, j) == k;
      assert At(p, w, h, i, j - 1) == k && At(p, w, h, i, j + 1) == k;
    }
    Extensionality(r, v, w, h);
  }

  /** Splats are additive, so two splats into the velocity texture commute. */
  lemma VelocitySplatsCommute(g: Field<Vec2>, w: nat, h: nat, aspect: real, radius: real, gpu: Gpu,
                              x1: real, y1: real, f1: Vec2, x2: real, y2: real, f2: Vec2)
    requires IsGrid(g, w, h) && radius != 0.0
    ensures SplatVelocity(SplatVelocity(g, w, h, x1, y1, f1, aspect, radius, gpu), w, h, x2, y2, f2, aspect, radius, gpu)
         == SplatVelocity(SplatVelocity(g, w, h, x2, y2, f2, aspect, radius, gpu), w, h, x1, y1, f1, aspect, radius, gpu)
  {
    var a := SplatVelocity(SplatVelocity(g, w, h, x1, y1, f1, aspect, radius, gpu), w, h, x2, y2, f2, aspect, radius, gpu);
    var b := SplatVelocity(SplatVelocity(g, w, h, x2, y2, f2, aspect, radius, gpu), w, h, x1, y1, f1, aspect, radius, gpu);
    Extensionality(a, b, w, h);
  }

  /** Splats are additive, so two splats into the dye texture commute. */
  lemma DyeSplatsCommute(g: Field<Rgb>, w: nat, h: nat, aspect: real, radius: real, gpu: Gpu,
                         x1: real, y1: real, c1: Rgb, x2: real, y2: real, c2: Rgb)
    requires IsGrid(g, w, h) && radius != 0.0
    ensures SplatDye(SplatDye(g, w, h, x1, y1, c1, aspect, radius, gpu), w, h, x2, y2, c2, aspect, radius, gpu)
         == SplatDye(SplatDye(g, w, h, x2, y2, c2, aspect, radius, gpu), w, h, x1, y1, c1, aspect, radius, gpu)
  {
    var a := SplatDye(SplatDye(g, w, h, x1, y1, c1, aspect, radius, gpu), w, h, x2, y2, c2, aspect, radius, gpu);
    var b := SplatDye(SplatDye(g, w, h, x2, y2, c2, aspect, radius, gpu), w, h, x1, y1, c1, aspect, radius, gpu);
    Extensionality(a, b, w, h);
  }

  /**
   * A splat adds the same amount to every input, so splatting a blended
   * texture is blending the splatted texture.
   */
  lemma SplatVelocityOfBlend(g: Field<Vec2>, d: Field<Vec2>, w: nat, h: nat, x: real, y: real, force: Vec2,
                             aspect: real, radius: real, gpu: Gpu)
    requires IsGrid(g, w, h) && IsGrid(d, w, h) && radius != 0.0
    ensures SplatVelocity(BlendVec(g, d, w, h), w, h, x, y, force, aspect, radius, gpu)
         == BlendVec(SplatVelocity(g, w, h, x, y, force, aspect, radius, gpu), d, w, h)
  {
    Extensionality(SplatVelocity(BlendVec(g, d, w, h), w, h, x, y, force, aspect, radius, gpu),
                   BlendVec(SplatVelocity(g, w, h, x, y, force, aspect, radius, gpu), d, w, h), w, h);
  }

  lemma SplatDyeOfBlend(g: Field<Rgb>, d: Field<Rgb>, w: nat, h: nat, x: real, y: real, color: Rgb,
                        aspect: real, radius: real, gpu: Gpu)
    requires IsGrid(g, w, h) && IsGrid(d, w, h) && radius != 0.0
    ensures SplatDye(BlendRgb(g, d, w, h), w, h, x, y, color, aspect, radius, gpu)
         == BlendRgb(SplatDye(g, w, h, x, y, color, aspect, radius, gpu), d, w, h)
  {
    Extensionality(SplatDye(BlendRgb(g, d, w, h), w, h, x, y, color, aspect, radius, gpu),
                   BlendRgb(SplatDye(g, w, h, x, y, color, aspect, radius, gpu), d, w, h), w, h);
  }

  ghost predicate Increasing(f: real -> real) {
    forall a, b :: a <= b ==> f(a) <= f(b)
  }

  /**
   * For a positive radius and an increasing `exp`, the splat weight never
   * exceeds its value at the splat point, which is `exp(0)`.
   */
  lemma SplatPeak(u: real, v: real, x: real, y: real, aspect: real, radius: real, gpu: Gpu)
    requires radius > 0.0 && Increasing(gpu.exp)
    ensures SplatWeight(x, y, x, y, aspect, radius, gpu) == gpu.exp(0.0)
    ensures SplatWeight(u, v, x, y, aspect, radius, gpu) <= gpu.exp(0.0)
  {
    var px := (u - x) * aspect;
    var py := v - y;
    assert px * px >= 0.0 && py * py >= 0.0;
    var e := -(px * px + py * py) / radius;
    assert e * radius == -(px * px + py * py);
    assert e <= 0.0;
  }

  /** Every stored texel adds nothing when the force is zero. */
  lemma SplatOfNoForce(g: Field<Vec2>, w: nat, h: nat, x: real, y: real, aspect: real, radius: real, gpu: Gpu)
    requires IsGrid(g, w, h) && radius != 0.0
    ensures SplatVelocity(g, w, h, x, y, ZeroVec, aspect, radius, gpu) == g
  {
    Extensionality(SplatVelocity(g, w, h, x, y, ZeroVec, aspect, radius, gpu), g, w, h);
  }

  /** Advecting the zero velocity field yields the zero velocity field. */
  lemma AdvectVelocityOfZero(vel: Field<Vec2>, w: nat, h: nat, texel: Vec2, dt: real, dissipation: real, gpu: Gpu)
    requires IsUniform(vel, ZeroVec) && gpu.SamplesZero()
    ensures IsUniform(AdvectVelocity(vel, w, h, texel, dt, dissipation, gpu), ZeroVec)
  {
    var r := AdvectVelocity(vel, w, h, texel, dt, dissipation, gpu);
    forall j, i | 0 <= j < |r| && 0 <= i < |r[j]| ensures r[j][i] == ZeroVec {
      var c := BackTrace(vel, Centre(i, w), Centre(j, h), dt, texel, gpu);
      assert gpu.sampleVec(vel, c.x, c.y) == ZeroVec;
    }
  }

  /** Advecting an all-zero dye texture, along any velocity, yields all-zero dye. */
  lemma AdvectDyeOfZero(vel: Field<Vec2>, dye: Field<Rgb>, w: nat, h: nat, texel: Vec2, dt: real,
                        dissipation: real, gpu: Gpu)
    requires IsUniform(dye, ZeroRgb) && gpu.SamplesZero()
    ensures IsUniform(AdvectDye(vel, dye, w, h, texel, dt, dissipation, gpu), ZeroRgb)
  {
    var r := AdvectDye(vel, dye, w, h, texel, dt, dissipation, gpu);
    forall j, i | 0 <= j < |r| && 0 <= i < |r[j]| ensures r[j][i] == ZeroRgb {
      var c := BackTrace(vel, Centre(i, w), Centre(j, h), dt, texel, gpu);
      assert gpu.sampleRgb(dye, c.x, c.y) == ZeroRgb;
    }
  }

  /**
   * With a still velocity field the back-trace lands on the texel's own centre,
   * so advection only multiplies the dye by the dissipation factor.
   */
  lemma AdvectDyeStill(vel: Field<Vec2>, dye: Field<Rgb>, w: nat, h: nat, texel: Vec2, dt: real,
                       dissipation: real, gpu: Gpu)
    requires IsUniform(vel, ZeroVec) && IsGrid(dye, w, h)
    requires gpu.SamplesZero() && gpu.SamplesCentres()
    ensures AdvectDye(vel, dye, w, h, texel, dt, dissipation, gpu)
         == seq(h, j requires 0 <= j < h => seq(w, i requires 0 <= i < w => ScaleRgb(dissipation, dye[j][i])))
  {
    var r := AdvectDye(vel, dye, w, h, texel, dt, dissipation, gpu);
    var s := seq(h, j requires 0 <= j < h => seq(w, i requires 0 <= i < w => ScaleRgb(dissipation, dye[j][i])));
    forall j, i | 0 <= j < h && 0 <= i < w ensures r[j][i] == s[j][i] {
      var u, v := Centre(i, w), Centre(j, h);
      assert gpu.sampleVec(vel, u, v) == ZeroVec;
      assert BackTrace(vel, u, v, dt, texel, gpu) == Vec2(u, v);
      assert gpu.sampleRgb(dye, u, v) == dye[j][i];
    }
    Extensionality(r, s, w, h);
  }
}

/** Splat colours: `HSVtoRGB` and `generateColor`, over the reals. */
module Colors {
  import opened Grid

  /** A `Math.random()` value: a real in [0, 1). */
  type Random = r: real | 0.0 <= r < 1.0

  function Max3(a: real, b: real, c: real): real {
    if a >= b && a >= c then a else if b >= c then b else c
  }

  function Min3(a: real, b: real, c: real): real {
    if a <= b && a <= c then a else if b <= c then b else c
  }

  /** The channel order of sector `k` of the hue circle. */
  function Sector(k: int, v: real, p: real, q: real, t: real): Rgb {
    if k == 0 then Rgb(v, t, p)
    else if k == 1 then Rgb(q, v, p)
    else if k == 2 then Rgb(p, v, t)
    else if k == 3 then Rgb(p, q, v)
    else if k == 4 then Rgb(t, p, v)
    else Rgb(v, p, q)
  }

  /**
   * `HSVtoRGB`: the hue picks one of six sectors (`i % 6`), `f` is the position
   * inside it, and the channels take the values `v`, `p`, `q` and `t`, scaled to 0..255.
   * The hue must be non-negative (it is a `Math.random()` draw): for a negative
   * hue the source's `i % 6` is negative and matches no `case`.
   */
  function HsvToRgb(h: real, s: real, v: real): (c: Rgb)
    requires h >= 0.0
    ensures v == 0.0 ==> c == ZeroRgb
  {
    var i := (h * 6.0).Floor;
    if v == 0.0 then
      SectorColorOfBlack(i % 6, h * 6.0 - i as real, s);
      SectorColor(i % 6, h * 6.0 - i as real, s, v)
    else
      SectorColor(i % 6, h * 6.0 - i as real, s, v)
  }

  /** A value of zero is black in every sector, whatever the saturation. */
  lemma SectorColorOfBlack(k: int, f: real, s: real)
    ensures SectorColor(k, f, s, 0.0) == ZeroRgb
  {
    var p, q, t := 0.0 * (1.0 - s), 0.0 * (1.0 - f * s), 0.0 * (1.0 - (1.0 - f) * s);
    assert p == 0.0 && q == 0.0 && t == 0.0;
    assert Sector(k, 0.0, p, q, t) == ZeroRgb;
  }

  /** The colour at position `f` inside sector `k`, scaled to 0..255. */
  function SectorColor(k: int, f: real, s: real, v: real): Rgb {
    var p := v * (1.0 - s);
    var q := v * (1.0 - f * s);
    var t := v * (1.0 - (1.0 - f) * s);
    ScaleRgb(255.0, Sector(k, v, p, q, t))
  }

  lemma ProductNonnegative(a: real, b: real, c: real)
    requires a >= 0.0 && b >= 0.0 && c >= 0.0
    ensures a * b * c >= 0.0
  {
    assert a * b >= 0.0;
  }

  /** In every sector, `v` is the largest channel and `p` the smallest when `q` and `t` lie between them. */
  lemma SectorExtremes(k: int, v: real, p: real, q: real, t: real)
    requires p <= q <= v && p <= t <= v
    ensures var c := Sector(k, v, p, q, t); Max3(c.r, c.g, c.b) == v && Min3(c.r, c.g, c.b) == p
  {
  }

  /**
   * For a saturation in [0, 1] and a non-negative value, the brightest channel
   * is `255 v` and the darkest `255 v (1 - s)`: saturation is the spread between them.
   */
  lemma HsvExtremes(h: real, s: real, v: real)
    requires h >= 0.0 && 0.0 <= s <= 1.0 && v >= 0.0
    ensures var c := HsvToRgb(h, s, v);
      Max3(c.r, c.g, c.b) == v * 255.0 && Min3(c.r, c.g, c.b) == v * (1.0 - s) * 255.0
  {
    var i := (h * 6.0).Floor;
    SectorColorExtremes(i % 6, h * 6.0 - i as real, s, v);
  }

  /** With no saturation every hue gives the grey `255 v` in all three channels. */
  lemma HsvGrey(h: real, v: real)
    requires h >= 0.0
    ensures var c := HsvToRgb(h, 0.0, v); c.r == 255.0 * v && c.g == 255.0 * v && c.b == 255.0 * v
  {
  }

  lemma SectorColorExtremes(k: int, f: real, s: real, v: real)
    requires 0.0 <= f < 1.0 && 0.0 <= s <= 1.0 && v >= 0.0
    ensures var c := SectorColor(k, f, s, v);
      Max3(c.r, c.g, c.b) == v * 255.0 && Min3(c.r, c.g, c.b) == v * (1.0 - s) * 255.0
  {
    var p, q, t := v * (1.0 - s), v * (1.0 - f * s), v * (1.0 - (1.0 - f) * s);
    SectorValues(v, s, f, p, q, t);
    SectorExtremes(k, v, p, q, t);
  }

  /** Inside a sector (`0 <= f < 1`), `q` and `t` lie between `p` and `v`. */
  lemma SectorValues(v: real, s: real, f: real, p: real, q: real, t: real)
    requires 0.0 <= s <= 1.0 && v >= 0.0 && 0.0 <= f < 1.0
    requires p == v * (1.0 - s) && q == v * (1.0 - f * s) && t == v * (1.0 - (1.0 - f) * s)
    ensures p <= q <= v && p <= t <= v
  {
    assert q - p == v * s * (1.0 - f);
    assert v - q == v * s * f;
    assert t - p == v * s * f;
    assert v - t == v * s * (1.0 - f);
    ProductNonnegative(v, s, 1.0 - f);
    ProductNonnegative(v, s, f);
  }

  /** One channel at 0.15 * 255, one at zero, and all three between them. */
  predicate DimSpan(c: Rgb) {
    0.0 <= c.r <= 38.25 && 0.0 <= c.g <= 38.25 && 0.0 <= c.b <= 38.25 &&
    (c.r == 38.25 || c.g == 38.25 || c.b == 38.25) && (c.r == 0.0 || c.g == 0.0 || c.b == 0.0)
  }

  /**
   * `generateColor`: a fully saturated colour of hue `hue`, dimmed to 15 %,
   * so that it spans 0 to 0.15 * 255.
   */
  function GenerateColor(hue: real): (c: Rgb)
    requires hue >= 0.0
    ensures DimSpan(c)
  {
    var full := HsvToRgb(hue, 1.0, 1.0);
    HsvExtremes(hue, 1.0, 1.0);
    assert Max3(full.r, full.g, full.b) == 255.0 && Min3(full.r, full.g, full.b) == 0.0;
    DimExtremes(full);
    ScaleRgb(0.15, full)
  }

  /** Dimming to 15 % a colour that spans 0..255 gives one that spans 0..38.25. */
  lemma DimExtremes(c: Rgb)
    requires Max3(c.r, c.g, c.b) == 255.0 && Min3(c.r, c.g, c.b) == 0.0
    ensures var d := ScaleRgb(0.15, c);
      Max3(d.r, d.g, d.b) == 38.25 && Min3(d.r, d.g, d.b) == 0.0 &&
      0.0 <= d.r <= 38.25 && 0.0 <= d.g <= 38.25 && 0.0 <= d.b <= 38.25
  {
  }
}

/** The colour mapper: named gradients from the normalised count t = iter / maxIter
    to an RGB triple, the HSL conversion, and the interior sentinel. Reals stand
    for doubles; Math.round(x) is Floor(x + 0.5). */
module Colors {
  import opened Arith
  import opened Escape

  datatype Rgb = Rgb(r: int, g: int, b: int)

  const Black: Rgb := Rgb(0, 0, 0)

  predicate InByteRange(c: Rgb) {
    0 <= c.r <= 255 && 0 <= c.g <= 255 && 0 <= c.b <= 255
  }

  /** Math.round: the nearest integer, halves rounded up. */
  function Round(x: real): int {
    (x + 0.5).Floor
  }

  /** A unit amount scaled to a channel: round(v * 255) for v in [0, 1]. */
  lemma {:induction false} RoundUnitInByteRange(v: real, k: real)
    requires 0.0 <= v <= 1.0 && 0.0 <= k <= 255.0
    ensures 0 <= Round(k * v) <= 255 && 0 <= Round(v * k) <= 255
  {
    MulUnit(k, v);
    assert v * k == k * v;
  }

  /** JavaScript's x % 1: the remainder truncated toward zero. */
  function FracPart(x: real): (r: real)
    ensures x >= 0.0 ==> 0.0 <= r < 1.0
  {
    if x >= 0.0 then x - x.Floor as real else x + (-x).Floor as real
  }

  /** The piecewise hue function of the HSL conversion. */
  function Hue2Rgb(p: real, q: real, t0: real): real {
    var t1 := if t0 < 0.0 then t0 + 1.0 else t0;
    var t := if t1 > 1.0 then t1 - 1.0 else t1;
    if t < 1.0 / 6.0 then Lerp(p, q, 6.0 * t)
    else if t < 1.0 / 2.0 then q
    else if t < 2.0 / 3.0 then Lerp(p, q, (2.0 / 3.0 - t) * 6.0)
    else p
  }

  /** For a hue within one turn of [0, 1], the hue function stays between p and q. */
  lemma {:induction false} Hue2RgbBetween(p: real, q: real, t0: real)
    requires p <= q && -1.0 <= t0 <= 2.0
    ensures p <= Hue2Rgb(p, q, t0) <= q
  {
    var t1 := if t0 < 0.0 then t0 + 1.0 else t0;
    var t := if t1 > 1.0 then t1 - 1.0 else t1;
    assert 0.0 <= t <= 1.0;
    if t < 1.0 / 6.0 {
      Interpolate(p, q, 6.0 * t);
    } else if t < 1.0 / 2.0 {
    } else if t < 2.0 / 3.0 {
      Interpolate(p, q, (2.0 / 3.0 - t) * 6.0);
    }
  }

  /** The two ends of the HSL conversion's interpolation. */
  function HslQ(s: real, l: real): real {
    if l < 0.5 then l * (1.0 + s) else l + s - l * s
  }

  function HslP(s: real, l: real): real {
    2.0 * l - HslQ(s, l)
  }

  /** For saturation and lightness in [0, 1], 0 <= p <= q <= 1. */
  lemma {:induction false} HslEndsInUnit(s: real, l: real)
    requires 0.0 <= s <= 1.0 && 0.0 <= l <= 1.0
    ensures 0.0 <= HslP(s, l) <= HslQ(s, l) <= 1.0
  {
    Interpolate(l, 1.0, s);
    if l < 0.5 {
      MulUnit(l, s);
      assert l * (1.0 + s) == l + l * s;
    } else {
      HighLightness(s, l);
    }
  }

  lemma {:induction false} HighLightness(s: real, l: real)
    requires 0.0 <= s <= 1.0 && 0.5 <= l <= 1.0
    ensures HslQ(s, l) == Lerp(l, 1.0, s) && HslP(s, l) == 2.0 * l - Lerp(l, 1.0, s)
  {
    assert (1.0 - l) * s == s - l * s;
  }

  /** HSL to RGB, each channel rounded from [0, 1] scaled to 255. */
  function HslToRgb(h: real, s: real, l: real): Rgb {
    if s == 0.0 then Rgb(Round(l * 255.0), Round(l * 255.0), Round(l * 255.0))
    else
      var q := HslQ(s, l);
      var p := HslP(s, l);
      Rgb(Round(Hue2Rgb(p, q, h + 1.0 / 3.0) * 255.0),
          Round(Hue2Rgb(p, q, h) * 255.0),
          Round(Hue2Rgb(p, q, h - 1.0 / 3.0) * 255.0))
  }

  /** For hue, saturation and lightness in [0, 1] every channel is a byte. */
  lemma {:induction false} HslToRgbInByteRange(h: real, s: real, l: real)
    requires 0.0 <= h <= 1.0 && 0.0 <= s <= 1.0 && 0.0 <= l <= 1.0
    ensures InByteRange(HslToRgb(h, s, l))
  {
    if s == 0.0 {
      RoundUnitInByteRange(l, 255.0);
    } else {
      var q, p := HslQ(s, l), HslP(s, l);
      HslEndsInUnit(s, l);
      Hue2RgbBetween(p, q, h + 1.0 / 3.0);
      Hue2RgbBetween(p, q, h);
      Hue2RgbBetween(p, q, h - 1.0 / 3.0);
      RoundUnitInByteRange(Hue2Rgb(p, q, h + 1.0 / 3.0), 255.0);
      RoundUnitInByteRange(Hue2Rgb(p, q, h), 255.0);
      RoundUnitInByteRange(Hue2Rgb(p, q, h - 1.0 / 3.0), 255.0);
    }
  }

  /** The gradient names with a case of their own. */
  const KnownGradients: set<string> :=
    {"classic", "fire", "ice", "rainbow", "forest", "sunset", "ocean", "bw", "psychedelic", "pastel"}

  /** The gradients that are channel formulas linear in t. */
  const LinearGradients: set<string> := {"fire", "ice", "forest", "sunset", "ocean", "bw"}

  /** The colour of the named gradient at normalised count t. */
  function GradientAt(gradient: string, t: real): Rgb {
    if gradient == "classic" then HslToRgb(t, 1.0, 0.5)
    else if gradient == "fire" then Rgb(Round(255.0 * t), Round(80.0 * t), 0)
    else if gradient == "ice" then Rgb(0, Round(180.0 * t), Round(255.0 * t))
    else if gradient == "rainbow" then HslToRgb(t, 1.0, 0.5)
    else if gradient == "forest" then Rgb(Round(34.0 * t), Round(139.0 * t), Round(34.0 + 100.0 * t))
    else if gradient == "sunset" then Rgb(Round(255.0 * t), Round(94.0 * (1.0 - t)), Round(77.0 * (1.0 - t)))
    else if gradient == "ocean" then Rgb(Round(0.0), Round(105.0 * t), Round(148.0 + 107.0 * t))
    else if gradient == "bw" then var v := Round(255.0 * t); Rgb(v, v, v)
    else if gradient == "psychedelic" then HslToRgb(FracPart(t * 10.0), 1.0, 0.5)
    else if gradient == "pastel" then HslToRgb(t, 0.5, 0.8)
    else HslToRgb(t, 1.0, 0.5)
  }

  /** The colour of a non-interior pixel under the named gradient. */
  function GradientColor(gradient: string, iter: int, maxIter: int): Rgb
    requires maxIter != 0
  {
    GradientAt(gradient, iter as real / maxIter as real)
  }

  /** An unknown name falls back to classic, and rainbow is classic too. */
  lemma UnknownGradientIsClassic(gradient: string, t: real)
    ensures gradient !in KnownGradients ==> GradientAt(gradient, t) == GradientAt("classic", t)
    ensures GradientAt("rainbow", t) == GradientAt("classic", t)
  {
  }

  /** The black-and-white gradient is grey: its three channels agree. */
  lemma BlackAndWhiteIsGrey(t: real)
    ensures var c := GradientAt("bw", t); c.r == c.g == c.b
  {
  }

  /** Every channel formula of the linear gradients gives a byte for t in [0, 1]. */
  lemma {:induction false} LinearChannelsInByteRange(t: real)
    requires 0.0 <= t <= 1.0
    ensures 0 <= Round(255.0 * t) <= 255 && 0 <= Round(80.0 * t) <= 255 && 0 <= Round(180.0 * t) <= 255
    ensures 0 <= Round(34.0 * t) <= 255 && 0 <= Round(139.0 * t) <= 255 && 0 <= Round(34.0 + 100.0 * t) <= 255
    ensures 0 <= Round(94.0 * (1.0 - t)) <= 255 && 0 <= Round(77.0 * (1.0 - t)) <= 255
    ensures 0 <= Round(105.0 * t) <= 255 && 0 <= Round(148.0 + 107.0 * t) <= 255
  {
    RoundUnitInByteRange(t, 255.0);
    RoundUnitInByteRange(t, 80.0);
    RoundUnitInByteRange(t, 180.0);
    RoundUnitInByteRange(t, 34.0);
    RoundUnitInByteRange(t, 139.0);
    MulUnit(100.0, t);
    RoundUnitInByteRange(1.0 - t, 94.0);
    RoundUnitInByteRange(1.0 - t, 77.0);
    RoundUnitInByteRange(t, 105.0);
    MulUnit(107.0, t);
  }

  /** For t in [0, 1] the linear gradients give bytes. */
  lemma {:induction false} LinearGradientInByteRange(gradient: string, t: real)
    requires gradient in LinearGradients && 0.0 <= t <= 1.0
    ensures InByteRange(GradientAt(gradient, t))
  {
    LinearChannelsInByteRange(t);
  }

  /** For t in [0, 1] every gradient, known or not, gives bytes. */
  lemma {:induction false} GradientInByteRange(gradient: string, t: real)
    requires 0.0 <= t <= 1.0
    ensures InByteRange(GradientAt(gradient, t))
  {
    if gradient in LinearGradients {
      LinearGradientInByteRange(gradient, t);
    } else if gradient == "psychedelic" {
      assert 0.0 <= t * 10.0 by { MulNonneg(t, 10.0); }
      HslToRgbInByteRange(FracPart(t * 10.0), 1.0, 0.5);
    } else if gradient == "pastel" {
      HslToRgbInByteRange(t, 0.5, 0.8);
    } else {
      HslToRgbInByteRange(t, 1.0, 0.5);
    }
  }

  /** The colour the renderer writes for a pixel whose escape loop returned
      iter: black for the interior (iter == maxIter), the gradient otherwise. */
  function PixelColor(gradient: string, iter: int, maxIter: int): (c: Rgb)
    requires 0 <= iter <= Budget(maxIter)
    ensures iter == maxIter ==> c == Black
    ensures InByteRange(c)
  {
    if iter == maxIter then Black
    else
      assert 0.0 <= iter as real / maxIter as real <= 1.0 by {
        if maxIter > 0 {
          assert iter as real / maxIter as real <= 1.0 by { DivAtMostOne(iter as real, maxIter as real); }
        }
      }
      GradientInByteRange(gradient, iter as real / maxIter as real);
      GradientColor(gradient, iter, maxIter)
  }

  lemma DivAtMostOne(a: real, b: real)
    requires 0.0 <= a <= b && b > 0.0
    ensures 0.0 <= a / b <= 1.0
  {
    assert (a / b) * b == a;
  }
}

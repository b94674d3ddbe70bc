// Colour helpers of the UI theme (src/ui/theme.rs): the user-overridable
// palette, approximate colour comparison, channel quantisation and the
// choice of gradient segment. The Oklch colour mixing itself is not modelled:
// a gradient sample names the two stops and the fraction it would blend.
module Theme {
  import opened Base

  const ACCENT_PRIMARY: Color := Color(0.157, 0.157, 0.157, 1.0)
  const BG_BASE: Color := Color(0.065, 0.065, 0.065, 1.0)
  /** Per-channel tolerance of colors_equal. */
  const COLOR_EPSILON: real := 0.0001

  /** with_alpha: the colour with its alpha replaced by `alpha` clamped into [0, 1]. */
  function WithAlpha(c: Color, alpha: real): (r: Color)
    ensures r.r == c.r && r.g == c.g && r.b == c.b
    ensures 0.0 <= r.a <= 1.0
    ensures 0.0 <= alpha <= 1.0 ==> r.a == alpha
  {
    c.(a := ClampR(alpha, 0.0, 1.0))
  }

  /** f32_to_u8: a unit channel quantised to a byte, out-of-range input saturating. */
  function F32ToU8(v: real): (r: nat)
    ensures r <= 255
    ensures v <= 0.0 ==> r == 0
    ensures v >= 1.0 ==> r == 255
  {
    var x := ClampR(v, 0.0, 1.0) * 255.0;
    assert 0.0 <= x + 0.5 < 256.0;
    Round(x)
  }

  /** Every byte value is hit exactly by its own unit value, so quantisation inverts `n / 255`. */
  lemma F32ToU8Inverse(n: nat)
    requires n <= 255
    ensures F32ToU8(n as real / 255.0) == n
  {
    var v := n as real / 255.0;
    assert 0.0 <= v <= 1.0;
    assert ClampR(v, 0.0, 1.0) * 255.0 == n as real;
    assert (n as real + 0.5).Floor == n;
  }

  /** Quantisation never reverses the order of two channel values. */
  lemma F32ToU8Monotone(a: real, b: real)
    requires a <= b
    ensures F32ToU8(a) <= F32ToU8(b)
  {
    var x, y := ClampR(a, 0.0, 1.0) * 255.0, ClampR(b, 0.0, 1.0) * 255.0;
    assert x <= y;
    assert (x + 0.5).Floor <= (y + 0.5).Floor;
  }

  /** colors_equal: every channel within 1e-4. */
  predicate ColorsEqual(a: Color, b: Color)
  {
    AbsR(a.r - b.r) <= COLOR_EPSILON && AbsR(a.g - b.g) <= COLOR_EPSILON
    && AbsR(a.b - b.b) <= COLOR_EPSILON && AbsR(a.a - b.a) <= COLOR_EPSILON
  }

  /** palettes_equal: same length and pairwise colors_equal. */
  predicate PalettesEqual(a: seq<Color>, b: seq<Color>)
  {
    |a| == |b| && forall i :: 0 <= i < |a| ==> ColorsEqual(a[i], b[i])
  }

  /** The approximate comparisons are reflexive and symmetric (they are not transitive). */
  lemma {:induction false} PalettesEqualReflexiveSymmetric(a: seq<Color>, b: seq<Color>)
    ensures PalettesEqual(a, a)
    ensures PalettesEqual(a, b) == PalettesEqual(b, a)
  {
    forall i | 0 <= i < |a| ensures ColorsEqual(a[i], a[i]) {
    }
    if |a| == |b| {
      forall i | 0 <= i < |a| ensures ColorsEqual(a[i], b[i]) == ColorsEqual(b[i], a[i]) {
      }
    }
  }

  /**
   * A visualisation palette: built-in defaults, the labels of its stops and
   * an override that is empty or differs from the defaults.
   */
  class Palette {
    var colors: seq<Color>
    const defaults: seq<Color>
    const labels: seq<string>

    ghost predicate Valid()
      reads this
    {
      colors == [] || (|colors| == |defaults| && !PalettesEqual(colors, defaults))
    }

    constructor (defaults: seq<Color>, labels: seq<string>)
      ensures Valid()
      ensures this.defaults == defaults && this.labels == labels && colors == []
    {
      this.defaults := defaults;
      this.labels := labels;
      colors := [];
    }

    /** The colours in effect: the override, or the defaults when there is none. */
    function Colors(): (r: seq<Color>)
      reads this
      requires Valid()
      ensures |r| == Len()
      ensures colors == [] ==> r == defaults
      ensures colors != [] ==> r == colors
    {
      if colors == [] then defaults else colors
    }

    /** The number of stops is fixed by the defaults. */
    function Len(): nat
      reads this
    {
      |defaults|
    }

    /** Stores `cs` only when it has the right length and differs from the defaults. */
    method Set(cs: seq<Color>)
      requires Valid()
      modifies this`colors
      ensures Valid()
      ensures colors == (if |cs| == |defaults| && !PalettesEqual(cs, defaults) then cs else [])
      ensures |cs| == |defaults| ==> PalettesEqual(Colors(), cs)
      ensures |cs| != |defaults| ==> Colors() == defaults
    {
      colors := [];
      if |cs| == |defaults| && !PalettesEqual(cs, defaults) {
        colors := cs;
      }
      PalettesEqualReflexiveSymmetric(cs, defaults);
    }

    method Reset()
      modifies this`colors
      ensures colors == [] && Valid()
    {
      colors := [];
    }

    predicate IsDefault()
      reads this
    {
      colors == [] || PalettesEqual(colors, defaults)
    }

    /** Under the class invariant, "default" means exactly "no override stored". */
    lemma DefaultIffEmpty()
      requires Valid()
      ensures IsDefault() <==> colors == []
    {
    }
  }

  /** What sample_gradient returns, short of the colour mixing it performs. */
  datatype GradientSample =
    | Solid(color: Color)
    | Blend(from: Color, to: Color, frac: real)

  /** The segment index: `floor(pos)` capped at `n - 2`. */
  function GradientSegment(n: nat, t: real): (i: nat)
    requires n >= 2
    ensures i <= n - 2
    ensures var pos := ClampR(t, 0.0, 1.0) * (n - 1) as real;
      i as real <= pos <= i as real + 1.0
  {
    var pos := ClampR(t, 0.0, 1.0) * (n - 1) as real;
    assert pos <= (n - 1) as real;
    Min(ToNat(pos), n - 2)
  }

  /**
   * sample_gradient: the accent colour for an empty palette, the only stop
   * of a one-stop palette, else a blend of two adjacent stops with a
   * fraction in [0, 1]; `t` outside [0, 1] is clamped to an end.
   */
  function SampleGradient(palette: seq<Color>, t: real): (r: GradientSample)
    ensures |palette| == 0 ==> r == Solid(ACCENT_PRIMARY)
    ensures |palette| == 1 ==> r == Solid(palette[0])
    ensures |palette| >= 2 ==>
      (r.Blend? && 0.0 <= r.frac <= 1.0
       && exists i :: 0 <= i < |palette| - 1 && r.from == palette[i] && r.to == palette[i + 1])
    ensures |palette| >= 2 && t <= 0.0 ==> r == Blend(palette[0], palette[1], 0.0)
    ensures |palette| >= 2 && t >= 1.0 ==>
      r == Blend(palette[|palette| - 2], palette[|palette| - 1], 1.0)
  {
    var n := |palette|;
    if n == 0 then Solid(ACCENT_PRIMARY)
    else if n == 1 then Solid(palette[0])
    else
      var pos := ClampR(t, 0.0, 1.0) * (n - 1) as real;
      var i := GradientSegment(n, t);
      Blend(palette[i], palette[i + 1], pos - i as real)
  }
}

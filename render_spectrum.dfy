// The spectrum renderer's sampling (src/ui/render/spectrum.rs): colour
// for an amplitude from the palette, the per-bar maximum and the
// interpolated overlay level, and the bar layout. Vertex building and the
// clip transform are not modelled.
module RenderSpectrum {
  import opened Base
  import opened AudioUtil

  /** A normalised curve point: position and level. */
  type Point = (real, real)

  const NO_COLOR: Color := Color(0.0, 0.0, 0.0, 0.0)
  /** Bars below this amplitude are not drawn. */
  const MIN_BAR_AMP: real := 0.0001
  const MIN_BARS: nat := 4
  const MAX_GAP: real := 0.8

  /** `x as usize` for a non-negative float: its integer part. */
  function TruncNat(x: real): (r: nat)
    requires x >= 0.0
    ensures r as real <= x < r as real + 1.0
  {
    x.Floor
  }

  /** Channel-wise blend of two colours. */
  function LerpColor(a: Color, b: Color, f: real): (r: Color)
    ensures f == 0.0 ==> r == a
    ensures f == 1.0 ==> r == b
  {
    Color(Lerp(a.r, b.r, f), Lerp(a.g, b.g, f), Lerp(a.b, b.b, f), Lerp(a.a, b.a, f))
  }

  /** Position t, clamped to [0, 1], scaled to the n - 1 gaps between n stops. */
  function PalettePos(n: nat, t: real): real
    requires n >= 2
  {
    ClampR(t, 0.0, 1.0) * (n - 1) as real
  }

  /** The stop a palette blend starts from: the integer part of the scaled position, at most n - 2. */
  function SegmentIndex(n: nat, t: real): (i: nat)
    requires n >= 2
    ensures i <= n - 2
    ensures i as real <= PalettePos(n, t)
  {
    Min(TruncNat(PalettePos(n, t)), n - 2)
  }

  /**
   * lerp_palette: fewer than two stops give the first stop (or no colour);
   * otherwise the blend of the two stops around t, clamped to [0, 1].
   */
  function LerpPalette(palette: seq<Color>, t: real): (r: Color)
    ensures palette == [] ==> r == NO_COLOR
    ensures |palette| == 1 ==> r == palette[0]
    ensures |palette| >= 2 && t <= 0.0 ==> r == palette[0]
    ensures |palette| >= 2 && t >= 1.0 ==> r == palette[|palette| - 1]
  {
    var n := |palette|;
    if n < 2 then (if n == 0 then NO_COLOR else palette[0])
    else
      var i := SegmentIndex(n, t);
      LerpColor(palette[i], palette[i + 1], PalettePos(n, t) - i as real)
  }

  /** The blend weight stays in [0, 1]: the colour always lies between two neighbouring stops. */
  lemma SegmentWeightInRange(n: nat, t: real)
    requires n >= 2
    ensures 0.0 <= PalettePos(n, t) - SegmentIndex(n, t) as real <= 1.0
  {
    var c := ClampR(t, 0.0, 1.0);
    var pos := c * (n - 1) as real;
    assert pos <= (n - 1) as real by {
      assert (1.0 - c) * (n - 1) as real >= 0.0;
    }
  }

  /** At the position of stop k the palette gives exactly that stop. */
  lemma LerpPaletteAtStop(palette: seq<Color>, k: nat)
    requires |palette| >= 2 && k < |palette|
    ensures LerpPalette(palette, k as real / (|palette| - 1) as real) == palette[k]
  {
    var n := |palette|;
    var t := k as real / (n - 1) as real;
    StepPosition(k, n - 1);
    assert PalettePos(n, t) == k as real;
    assert TruncNat(k as real) == k;
    var i := SegmentIndex(n, t);
    if k < n - 1 {
      assert i == k;
      assert LerpColor(palette[i], palette[i + 1], 0.0) == palette[k];
    } else {
      assert i + 1 == k;
      assert LerpColor(palette[i], palette[i + 1], 1.0) == palette[k];
    }
  }

  /** How far the amplitude is above the threshold, as a share of the room above it. */
  function Intensity(amp: real, threshold: real): real
  {
    (amp - threshold) / MaxR(1.0 - threshold, 0.000001)
  }

  /** Dividing by a positive number keeps sign and order against 1. */
  lemma DivBounds(x: real, d: real)
    requires d > 0.0
    ensures x <= 0.0 ==> x / d <= 0.0
    ensures x >= 0.0 ==> x / d >= 0.0
    ensures x >= d ==> x / d >= 1.0
  {
    assert (x / d) * d == x;
    if x >= d && x / d < 1.0 {
      assert false;
    }
  }

  /** Position k of n steps lies in [0, 1] and scales back to k. */
  lemma StepPosition(k: nat, n: nat)
    requires 1 <= n && k <= n
    ensures 0.0 <= k as real / n as real <= 1.0
    ensures (k as real / n as real) * n as real == k as real
  {
    var t := k as real / n as real;
    assert t * n as real == k as real;
    DivBounds(k as real, n as real);
    if t > 1.0 {
      assert false;
    }
  }

  /**
   * palette_color: the palette blend at the intensity clamped to [0, 1];
   * at or below the threshold it is the first stop, at full amplitude the
   * last one (when the threshold leaves room above it).
   */
  function PaletteColor(palette: seq<Color>, amp: real, threshold: real): (r: Color)
    ensures |palette| >= 2 && amp <= threshold ==> r == palette[0]
    ensures |palette| >= 2 && threshold <= 0.999999 && amp >= 1.0 ==> r == palette[|palette| - 1]
    ensures r == LerpPalette(palette, ClampR(Intensity(amp, threshold), 0.0, 1.0))
  {
    DivBounds(amp - threshold, MaxR(1.0 - threshold, 0.000001));
    LerpPalette(palette, ClampR(Intensity(amp, threshold), 0.0, 1.0))
  }

  /** The largest level of `pts`, folded from 0 as f32::max does. */
  function MaxLevel(pts: seq<Point>): (r: real)
    ensures r >= 0.0
    ensures forall k | 0 <= k < |pts| :: pts[k].1 <= r
    ensures r == 0.0 || exists k | 0 <= k < |pts| :: pts[k].1 == r
  {
    if pts == [] then 0.0
    else
      var rest := MaxLevel(pts[..|pts| - 1]);
      assert forall k | 0 <= k < |pts| - 1 :: pts[..|pts| - 1][k] == pts[k];
      MaxR(rest, pts[|pts| - 1].1)
  }

  /** The index range sample_max reads for [t0, t1]: its first index and one past its last. */
  function SampleRange(len: nat, t0: real, t1: real): (r: (nat, nat))
    requires len > 0
    ensures r.1 <= len
  {
    var n := Max(SaturatingSub(len, 1), 1);
    var i0 := TruncNat(ClampR(t0, 0.0, 1.0) * n as real);
    var i1 := Min(TruncNat(ClampR(t1, 0.0, 1.0) * n as real) + 1, len - 1);
    (i0, i1 + 1)
  }

  /**
   * sample_max: the largest level among the points the span [t0, t1]
   * covers, never below 0 and 0 when the range is empty. Only indices
   * below the length are read.
   */
  function SampleMax(pts: seq<Point>, t0: real, t1: real): (r: real)
    requires |pts| > 0
    ensures r >= 0.0
    ensures var (lo, hi) := SampleRange(|pts|, t0, t1);
      (forall k | lo <= k < hi :: pts[k].1 <= r) &&
      (r == 0.0 || exists k | lo <= k < hi :: pts[k].1 == r)
  {
    var (lo, hi) := SampleRange(|pts|, t0, t1);
    if lo <= hi then
      var r := MaxLevel(pts[lo..hi]);
      assert forall k | lo <= k < hi :: pts[lo..hi][k - lo] == pts[k];
      r
    else 0.0
  }

  /**
   * sample_lerp: the level at position t, blended between the two points
   * around it. No points give 0; a single point gives its level; the ends
   * give the end levels.
   */
  function SampleLerp(pts: seq<Point>, t: real): (r: real)
    ensures pts == [] ==> r == 0.0
    ensures |pts| == 1 ==> r == pts[0].1
    ensures |pts| >= 2 && t <= 0.0 ==> r == pts[0].1
    ensures |pts| >= 2 && t >= 1.0 ==> r == pts[|pts| - 1].1
  {
    var i := LerpIndex(|pts|, t);
    if i < |pts| then Blend(pts, i, LerpPos(|pts|, t) - i as real) else 0.0
  }

  /** The number of steps between the points, at least one. */
  function Steps(len: nat): nat { Max(SaturatingSub(len, 1), 1) }

  /** Position t scaled to the steps. */
  function LerpPos(len: nat, t: real): real { ClampR(t, 0.0, 1.0) * Steps(len) as real }

  /** The point sample_lerp blends from. */
  function LerpIndex(len: nat, t: real): nat
  {
    Min(TruncNat(LerpPos(len, t)), SaturatingSub(Steps(len), 1))
  }

  /** Point i's level blended with the next one's (its own when it is the last) by weight f. */
  function Blend(pts: seq<Point>, i: nat, f: real): real
    requires i < |pts|
  {
    var a := pts[i].1;
    var b := if i + 1 < |pts| then pts[i + 1].1 else a;
    a * (1.0 - f) + b * f
  }

  /** At point k's own position the interpolated level is point k's level. */
  lemma SampleLerpAtPoint(pts: seq<Point>, k: nat)
    requires |pts| >= 2 && k < |pts|
    ensures SampleLerp(pts, k as real / (|pts| - 1) as real) == pts[k].1
  {
    var n := |pts| - 1;
    var t := k as real / n as real;
    StepPosition(k, n);
    assert Steps(|pts|) == n;
    assert LerpPos(|pts|, t) == k as real;
    assert TruncNat(k as real) == k;
    var i := LerpIndex(|pts|, t);
    if k < n {
      assert i == k;
      assert Blend(pts, i, 0.0) == pts[k].1;
    } else {
      assert i + 1 == k;
      assert Blend(pts, i, 1.0) == pts[k].1;
    }
  }

  /** The bar grid: how many bars, the slot width, the bar width and the gap before each bar. */
  datatype BarLayout = BarLayout(count: nat, unit: real, barWidth: real, offset: real)

  /**
   * Bar mode: at least four bars, the width split evenly into slots, each
   * holding its bar and half a gap on either side.
   */
  function Layout(width: real, barCount: nat, gap: real): (r: BarLayout)
    ensures r.count == Max(barCount, MIN_BARS) && r.count >= MIN_BARS
    ensures r.barWidth + 2.0 * r.offset == r.unit
    ensures r.unit * r.count as real == width
  {
    var count := Max(barCount, MIN_BARS);
    var g := ClampR(gap, 0.0, MAX_GAP);
    var unit := width / count as real;
    BarLayout(count, unit, unit * (1.0 - g), unit * g * 0.5)
  }

  /** The gap is clamped to [0, 0.8]: on a non-negative width each bar fills at least a fifth of its slot and the gaps are not negative. */
  lemma LayoutGapClamped(width: real, barCount: nat, gap: real)
    requires width >= 0.0
    ensures var r := Layout(width, barCount, gap);
      r.offset >= 0.0 && r.unit / 5.0 <= r.barWidth <= r.unit
  {
    var r := Layout(width, barCount, gap);
    var g := ClampR(gap, 0.0, MAX_GAP);
    DivBounds(width, r.count as real);
    NonNegProduct(r.unit, g);
    NonNegProduct(r.unit, 0.8 - g);
    assert r.barWidth - r.unit / 5.0 == r.unit * (0.8 - g);
    NonNegProduct(r.unit, g);
  }

  lemma NonNegProduct(a: real, b: real)
    requires a >= 0.0 && b >= 0.0
    ensures a * b >= 0.0
  {
  }

  /** A drawn bar: its slot, its amplitude and its colour. */
  datatype Bar = Bar(index: nat, amp: real, color: Color)

  /** The amplitude of slot i of count: the largest level over its span. */
  function SlotAmp(pts: seq<Point>, count: nat, i: nat): real
    requires |pts| > 0 && count >= 1
  {
    SampleMax(pts, i as real / count as real, (i + 1) as real / count as real)
  }

  /** The amplitudes of all `count` slots. */
  function SlotAmps(pts: seq<Point>, count: nat): (amps: seq<real>)
    requires |pts| > 0 && count >= 1
    ensures |amps| == count
    ensures forall i | 0 <= i < count :: amps[i] == SlotAmp(pts, count, i) && amps[i] >= 0.0
  {
    seq(count, i requires 0 <= i < count => SlotAmp(pts, count, i))
  }

  /** `b` is the bar slot b.index draws: its amplitude reaches 0.0001 and its colour is the palette's. */
  predicate IsBar(b: Bar, amps: seq<real>, palette: seq<Color>, threshold: real)
  {
    b.index < |amps| && b.amp == amps[b.index] && b.amp >= MIN_BAR_AMP
    && b.color == PaletteColor(palette, b.amp, threshold)
  }

  /**
   * The bars of slots from.. that are drawn, given every slot's amplitude
   * (SlotAmps): those whose amplitude reaches 0.0001, in slot order.
   */
  function Bars(amps: seq<real>, palette: seq<Color>, threshold: real, from: nat): (r: seq<Bar>)
    ensures forall k | 0 <= k < |r| :: from <= r[k].index && IsBar(r[k], amps, palette, threshold)
    ensures forall j, k | 0 <= j < k < |r| :: r[j].index < r[k].index
    decreases |amps| - from
  {
    if from >= |amps| then []
    else
      var amp := amps[from];
      var rest := Bars(amps, palette, threshold, from + 1);
      if amp < MIN_BAR_AMP then rest else [Bar(from, amp, PaletteColor(palette, amp, threshold))] + rest
  }

  /** Some bar of `bars` draws slot i. */
  predicate HasSlot(bars: seq<Bar>, i: nat)
  {
    exists k | 0 <= k < |bars| :: bars[k].index == i
  }

  /** Prepending a bar keeps every slot and adds its own. */
  lemma HasSlotCons(b: Bar, rest: seq<Bar>, i: nat)
    requires b.index == i || HasSlot(rest, i)
    ensures HasSlot([b] + rest, i)
  {
    if b.index == i {
      assert ([b] + rest)[0].index == i;
    } else {
      var k :| 0 <= k < |rest| && rest[k].index == i;
      assert ([b] + rest)[k + 1].index == i;
    }
  }

  /** Every slot whose amplitude reaches 0.0001 gets its bar: no slot is skipped that should be drawn. */
  lemma {:induction false} BarsComplete(amps: seq<real>, palette: seq<Color>, threshold: real, from: nat, i: nat)
    requires from <= i < |amps| && amps[i] >= MIN_BAR_AMP
    ensures HasSlot(Bars(amps, palette, threshold, from), i)
    decreases |amps| - from
  {
    var rest := Bars(amps, palette, threshold, from + 1);
    var amp := amps[from];
    if i != from {
      BarsComplete(amps, palette, threshold, from + 1, i);
    }
    if amp >= MIN_BAR_AMP {
      HasSlotCons(Bar(from, amp, PaletteColor(palette, amp, threshold)), rest, i);
    }
  }
}

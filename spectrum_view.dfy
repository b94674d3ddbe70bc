// The spectrum view model (src/ui/visualization/spectrum.rs): smoothing
// and re-indexing of the normalised curve in place, interpolation of a
// magnitude between analysis bins, the fading peak label and the grid
// label format. The frequency scales (log10, powf, mel) that place the
// points are not modelled.
module SpectrumView {
  import opened Base
  import opened Theme
  import opened AudioUtil

  const EPSILON: real := 0.000001
  const PALETTE_SIZE: nat := 6

  /** A point of the curve: normalised position and normalised level. */
  type Point = (real, real)

  function Xs(pts: seq<Point>): (r: seq<real>)
    ensures |r| == |pts| && forall i | 0 <= i < |pts| :: r[i] == pts[i].0
  {
    seq(|pts|, i requires 0 <= i < |pts| => pts[i].0)
  }

  function Ys(pts: seq<Point>): (r: seq<real>)
    ensures |r| == |pts| && forall i | 0 <= i < |pts| :: r[i] == pts[i].1
  {
    seq(|pts|, i requires 0 <= i < |pts| => pts[i].1)
  }

  // ---- smooth ----

  /** The weight of sample `j` in the triangular window of radius `r` around `i`. */
  function Weight(r: nat, i: nat, j: nat): (w: real)
    requires i - r <= j <= i + r
    ensures w >= 1.0
  {
    (r - (if j >= i then j - i else i - j) + 1) as real
  }

  /** The first index of the window around `i`. */
  function WindowStart(i: nat, r: nat): nat { SaturatingSub(i, r) }

  /** One past the last index of the window around `i`. */
  function WindowEnd(i: nat, r: nat, n: nat): nat { Min(i + r + 1, n) }

  /** The weights of the window [s, e) around `i`, in index order. */
  function Weights(i: nat, r: nat, s: nat, e: nat): (ws: seq<real>)
    requires i - r <= s <= e <= i + r + 1
    ensures |ws| == e - s
    ensures forall k | 0 <= k < |ws| :: ws[k] >= 1.0
  {
    var ws := seq(e - s, k requires 0 <= k < e - s => Weight(r, i, s + k));
    assert forall k | 0 <= k < |ws| :: ws[k] == Weight(r, i, s + k);
    ws
  }

  /** The sum of the pairwise products of two equally long sequences. */
  function Dot(xs: seq<real>, ws: seq<real>): real
    requires |xs| == |ws|
  {
    if |xs| == 0 then 0.0 else Dot(xs[..|xs| - 1], ws[..|ws| - 1]) + xs[|xs| - 1] * ws[|ws| - 1]
  }

  /** The sum of a sequence. */
  function Sum(ws: seq<real>): real
  {
    if |ws| == 0 then 0.0 else Sum(ws[..|ws| - 1]) + ws[|ws| - 1]
  }

  /** The smoothed level at `i`: the triangular-weighted mean of its window. */
  function SmoothedAt(ys: seq<real>, i: nat, r: nat): real
    requires i < |ys|
  {
    var s, e := WindowStart(i, r), WindowEnd(i, r, |ys|);
    var ws := Weights(i, r, s, e);
    SumOfWeights(ws);
    Dot(ys[s..e], ws) / Sum(ws)
  }

  /** One smoothing pass over every level. */
  function SmoothPass(ys: seq<real>, r: nat): (out: seq<real>)
    ensures |out| == |ys|
  {
    seq(|ys|, i requires 0 <= i < |ys| => SmoothedAt(ys, i, r))
  }

  /** `passes` smoothing passes. */
  function SmoothN(ys: seq<real>, r: nat, passes: nat): (out: seq<real>)
    ensures |out| == |ys|
  {
    if passes == 0 then ys else SmoothPass(SmoothN(ys, r, passes - 1), r)
  }

  /** Weights of at least one sum to at least one once there is one of them. */
  lemma {:induction false} SumOfWeights(ws: seq<real>)
    requires forall k | 0 <= k < |ws| :: ws[k] >= 1.0
    ensures Sum(ws) >= 0.0
    ensures |ws| > 0 ==> Sum(ws) >= 1.0
  {
    if |ws| > 0 {
      SumOfWeights(ws[..|ws| - 1]);
    }
  }

  /** Equal levels weigh in at that level times the total weight. */
  lemma {:induction false} DotOfConstant(xs: seq<real>, ws: seq<real>, c: real)
    requires |xs| == |ws|
    requires forall k | 0 <= k < |xs| :: xs[k] == c
    ensures Dot(xs, ws) == c * Sum(ws)
  {
    if |xs| > 0 {
      var n := |xs| - 1;
      DotOfConstant(xs[..n], ws[..n], c);
      AddScaled(Dot(xs[..n], ws[..n]), Sum(ws[..n]), xs[n], ws[n], c, Dot(xs, ws), Sum(ws));
    }
  }

  /** Adding one more equally-valued term keeps a sum proportional to its weight. */
  lemma AddScaled(sum: real, t: real, y: real, w: real, c: real, sum': real, t': real)
    requires sum == c * t && y == c
    requires sum' == sum + y * w && t' == t + w
    ensures sum' == c * t'
  {
  }

  /** Extending the window by index `j` adds `ys[j]` at its weight. */
  lemma WindowStep(ys: seq<real>, i: nat, r: nat, s: nat, j: nat)
    requires i - r <= s <= j < |ys| && j < i + r + 1
    ensures Dot(ys[s..j + 1], Weights(i, r, s, j + 1)) == Dot(ys[s..j], Weights(i, r, s, j)) + ys[j] * Weight(r, i, j)
    ensures Sum(Weights(i, r, s, j + 1)) == Sum(Weights(i, r, s, j)) + Weight(r, i, j)
  {
    var xs, ws := ys[s..j + 1], Weights(i, r, s, j + 1);
    assert xs[..j - s] == ys[s..j];
    assert ws[..j - s] == Weights(i, r, s, j);
  }

  /** The window mean of equal levels is that level. */
  lemma SmoothedAtConstant(ys: seq<real>, c: real, k: nat, r: nat)
    requires k < |ys|
    requires forall j | 0 <= j < |ys| :: ys[j] == c
    ensures SmoothedAt(ys, k, r) == c
  {
    var s, e := WindowStart(k, r), WindowEnd(k, r, |ys|);
    var ws := Weights(k, r, s, e);
    DotOfConstant(ys[s..e], ws, c);
    SumOfWeights(ws);
    Cancel(c, Sum(ws));
  }

  lemma Cancel(c: real, t: real)
    requires t >= 1.0
    ensures (c * t) / t == c
  {
    var q := (c * t) / t;
    assert q * t == c * t;
    assert (q - c) * t == 0.0;
  }

  /** Smoothing leaves a flat curve flat: every pass maps a constant level to itself. */
  lemma {:induction false} SmoothKeepsFlat(ys: seq<real>, c: real, r: nat, passes: nat)
    requires forall k | 0 <= k < |ys| :: ys[k] == c
    ensures forall k | 0 <= k < |ys| :: SmoothN(ys, r, passes)[k] == c
  {
    if passes > 0 {
      SmoothKeepsFlat(ys, c, r, passes - 1);
      var prev := SmoothN(ys, r, passes - 1);
      forall k | 0 <= k < |ys| ensures SmoothN(ys, r, passes)[k] == c {
        SmoothedAtConstant(prev, c, k, r);
      }
    }
  }

  /** One step of the inner loop: index `j` joins the running sums. */
  method Accumulate(scratch: seq<real>, i: nat, r: nat, s: nat, j: nat, sum: real, wsum: real)
    returns (sum': real, wsum': real)
    requires i - r <= s <= j < |scratch| && j < i + r + 1
    requires sum == Dot(scratch[s..j], Weights(i, r, s, j))
    requires wsum == Sum(Weights(i, r, s, j))
    ensures sum' == Dot(scratch[s..j + 1], Weights(i, r, s, j + 1))
    ensures wsum' == Sum(Weights(i, r, s, j + 1))
  {
    var w := Weight(r, i, j);
    WindowStep(scratch, i, r, s, j);
    sum' := sum + scratch[j] * w;
    wsum' := wsum + w;
  }

  /** The weighted sum and the total weight of the window [s, e) around `i`: the inner loop. */
  method WindowSums(scratch: seq<real>, i: nat, r: nat, s: nat, e: nat) returns (sum: real, wsum: real)
    requires i - r <= s <= e <= |scratch| && e <= i + r + 1
    ensures sum == Dot(scratch[s..e], Weights(i, r, s, e))
    ensures wsum == Sum(Weights(i, r, s, e))
  {
    sum, wsum := 0.0, 0.0;
    for j := s to e
      invariant sum == Dot(scratch[s..j], Weights(i, r, s, j))
      invariant wsum == Sum(Weights(i, r, s, j))
    {
      sum, wsum := Accumulate(scratch, i, r, s, j, sum, wsum);
    }
  }

  /** The smoothed level of one point: its window's weighted sum over its total weight. */
  method SmoothedPoint(scratch: seq<real>, i: nat, r: nat) returns (v: real)
    requires i < |scratch|
    ensures v == SmoothedAt(scratch, i, r)
  {
    var s, e := WindowStart(i, r), WindowEnd(i, r, |scratch|);
    var sum, wsum := WindowSums(scratch, i, r, s, e);
    SumOfWeights(Weights(i, r, s, e));
    v := sum / wsum;
  }

  /** One pass: the levels are copied to the scratch buffer, then each point's level is replaced by its window mean. */
  method SmoothPassInPlace(pts: array<Point>, r: nat)
    modifies pts
    ensures Xs(pts[..]) == Xs(old(pts[..]))
    ensures Ys(pts[..]) == SmoothPass(Ys(old(pts[..])), r)
  {
    var scratch := Ys(pts[..]);
    ghost var xs := Xs(pts[..]);
    for i := 0 to pts.Length
      invariant forall k | 0 <= k < pts.Length :: pts[k].0 == xs[k]
      invariant forall k | 0 <= k < i :: pts[k].1 == SmoothedAt(scratch, k, r)
      invariant forall k | i <= k < pts.Length :: pts[k].1 == scratch[k]
    {
      var v := SmoothedPoint(scratch, i, r);
      pts[i] := (pts[i].0, v);
    }
    assert Ys(pts[..]) == SmoothPass(scratch, r);
  }

  /**
   * smooth: nothing happens for a zero radius, no passes or fewer than three
   * points; otherwise the levels go through `passes` triangular smoothing
   * passes and the positions stay.
   */
  method Smooth(pts: array<Point>, r: nat, passes: nat)
    modifies pts
    ensures r == 0 || passes == 0 || pts.Length < 3 ==> pts[..] == old(pts[..])
    ensures Xs(pts[..]) == Xs(old(pts[..]))
    ensures !(r == 0 || passes == 0 || pts.Length < 3) ==> Ys(pts[..]) == SmoothN(Ys(old(pts[..])), r, passes)
  {
    if r == 0 || passes == 0 || pts.Length < 3 {
      return;
    }
    for p := 0 to passes
      invariant Xs(pts[..]) == Xs(old(pts[..]))
      invariant Ys(pts[..]) == SmoothN(Ys(old(pts[..])), r, p)
    {
      SmoothPassInPlace(pts, r);
    }
  }

  // ---- reindex ----

  /** The position reindex gives point `i` of `n`: evenly spaced from 0 to 1. */
  function ReindexX(i: nat, n: nat): real
  {
    if n > 1 then i as real / (n - 1) as real else 0.0
  }

  /** Dividing by a positive number keeps order. */
  lemma DivKeepsOrder(a: real, b: real, d: real)
    requires a <= b && d > 0.0
    ensures a / d <= b / d
    ensures a < b ==> a / d < b / d
  {
    assert (b / d - a / d) * d == b - a;
  }

  /** Each position lies in [0, 1]. */
  lemma ReindexInUnit(i: nat, n: nat)
    requires n > 1 && i < n
    ensures 0.0 <= ReindexX(i, n) <= 1.0
  {
    var d := (n - 1) as real;
    DivKeepsOrder(0.0, i as real, d);
    DivKeepsOrder(i as real, d, d);
  }

  /** Each position is past the one before it. */
  lemma ReindexStep(i: nat, n: nat)
    requires 0 < i < n
    ensures ReindexX(i - 1, n) < ReindexX(i, n)
  {
    DivKeepsOrder((i - 1) as real, i as real, (n - 1) as real);
  }

  /** The positions run from 0 to 1 in strictly increasing steps. */
  lemma ReindexSpan(n: nat)
    requires n > 1
    ensures ReindexX(0, n) == 0.0 && ReindexX(n - 1, n) == 1.0
    ensures forall i | 0 <= i < n :: 0.0 <= ReindexX(i, n) <= 1.0
    ensures forall i | 0 < i < n :: ReindexX(i - 1, n) < ReindexX(i, n)
  {
    forall i | 0 <= i < n ensures 0.0 <= ReindexX(i, n) <= 1.0 {
      ReindexInUnit(i, n);
    }
    forall i | 0 < i < n ensures ReindexX(i - 1, n) < ReindexX(i, n) {
      ReindexStep(i, n);
    }
  }

  /** reindex: each point's position becomes its index over n - 1 (0 for a single point); levels stay. */
  method Reindex(pts: array<Point>)
    modifies pts
    ensures forall i | 0 <= i < pts.Length :: pts[i] == (ReindexX(i, pts.Length), old(pts[i]).1)
  {
    var n := pts.Length;
    for i := 0 to n
      invariant forall k | 0 <= k < i :: pts[k] == (ReindexX(k, n), old(pts[k]).1)
      invariant forall k | i <= k < n :: pts[k] == old(pts[k])
    {
      pts[i] := (if n > 1 then i as real / (n - 1) as real else 0.0, pts[i].1);
    }
  }

  // ---- interp ----

  /** What the binary search over the bins reports: an exact bin, or where `t` would go. */
  datatype SearchResult = Found(index: nat) | InsertAt(index: nat)

  /** The first bin not below `t`: exact when equal, else the insertion point. */
  function SearchBins(bins: seq<real>, t: real, from: nat): (r: SearchResult)
    requires from <= |bins|
    ensures r.index <= |bins| && from <= r.index
    ensures forall k | from <= k < r.index :: bins[k] < t
    ensures r.Found? ==> r.index < |bins| && bins[r.index] == t
    ensures r.InsertAt? && r.index < |bins| ==> bins[r.index] > t
    decreases |bins| - from
  {
    if from == |bins| then InsertAt(from)
    else if bins[from] < t then SearchBins(bins, t, from + 1)
    else if bins[from] == t then Found(from)
    else InsertAt(from)
  }

  /** `mags[i]`, or 0 past its end. */
  function MagAt(mags: seq<real>, i: nat): real
  {
    if i < |mags| then mags[i] else 0.0
  }

  /**
   * interp: the magnitude at frequency `t`. At or below the first bin it is
   * the first magnitude, at or above the last bin the last one; at a bin it
   * is that bin's magnitude, and between two bins the linear blend of their
   * magnitudes.
   */
  function Interp(bins: seq<real>, mags: seq<real>, t: real): (r: real)
    ensures (bins == [] || t <= bins[0]) ==> r == (if mags == [] then 0.0 else mags[0])
    ensures bins != [] && bins[0] < t && t >= bins[|bins| - 1] ==> r == (if mags == [] then 0.0 else mags[|mags| - 1])
  {
    if bins == [] || t <= bins[0] then (if mags == [] then 0.0 else mags[0])
    else if t >= bins[|bins| - 1] then (if mags == [] then 0.0 else mags[|mags| - 1])
    else
      match SearchBins(bins, t, 0)
      case Found(i) => MagAt(mags, i)
      case InsertAt(i) =>
        var lo, hi := SaturatingSub(i, 1), Min(i, |bins| - 1);
        Lerp(MagAt(mags, lo), MagAt(mags, hi), (t - bins[lo]) / MaxR(bins[hi] - bins[lo], EPSILON))
  }

  predicate StrictlyIncreasing(bins: seq<real>)
  {
    forall i, j | 0 <= i < j < |bins| :: bins[i] < bins[j]
  }

  /** Interpolation reproduces the analysis: at a bin's own frequency it gives that bin's magnitude. */
  lemma InterpAtBin(bins: seq<real>, mags: seq<real>, k: nat)
    requires StrictlyIncreasing(bins) && |mags| == |bins| && k < |bins|
    ensures Interp(bins, mags, bins[k]) == mags[k]
  {
    var t := bins[k];
    if k == 0 || k == |bins| - 1 {
    } else {
      var r := SearchBins(bins, t, 0);
      if r.index != k {
        assert false;
      }
    }
  }

  /** Between two bins the blend weight lies in [0, 1]: the neighbours bracket the frequency. */
  lemma InterpBracketed(bins: seq<real>, t: real)
    requires StrictlyIncreasing(bins) && bins != [] && bins[0] < t < bins[|bins| - 1]
    requires SearchBins(bins, t, 0).InsertAt?
    ensures var i := SearchBins(bins, t, 0).index;
      0 < i < |bins| && bins[i - 1] < t < bins[i]
  {
  }

  // ---- the peak label ----

  /** A peak label: its text, position, level and opacity. */
  datatype PeakLabel = PeakLabel(text: string, x: real, y: real, opacity: real)

  /** The opacity after one frame of fading in towards 1. */
  function FadeIn(o: real): real
  {
    MinR(o + (1.0 - o) * 0.35, 1.0)
  }

  /** The opacity after one frame of fading out towards 0. */
  function FadeOut(o: real): real
  {
    o + (0.0 - o) * 0.12
  }

  /** A label below this opacity is dropped. */
  const MIN_OPACITY: real := 0.01

  /** The label after `k` frames without a peak: faded out, dropped once it falls below 0.01. */
  function FadedFor(o: real, k: nat): (r: Option<real>)
    ensures r.Some? ==> r.value >= MIN_OPACITY || (k == 0 && r.value == o)
    decreases k
  {
    if k == 0 then Some(o)
    else if FadeOut(o) < MIN_OPACITY then None
    else FadedFor(FadeOut(o), k - 1)
  }

  /** Fading for `a` frames and then for `b` more is fading for a + b. */
  lemma {:induction false} FadedForCompose(o: real, a: nat, b: nat)
    ensures FadedFor(o, a + b) == (if FadedFor(o, a).None? then None else FadedFor(FadedFor(o, a).value, b))
    decreases a
  {
    if a > 0 && FadeOut(o) >= MIN_OPACITY {
      FadedForCompose(FadeOut(o), a - 1, b);
    }
  }

  /** Six frames of fading at least halve the opacity. */
  lemma SixFramesHalve(o: real)
    requires o >= 0.0
    ensures FadedFor(o, 6).Some? ==> FadedFor(o, 6).value <= o / 2.0
  {
    var o1 := FadeOut(o);
    var o2 := FadeOut(o1);
    var o3 := FadeOut(o2);
    var o4 := FadeOut(o3);
    var o5 := FadeOut(o4);
    var o6 := FadeOut(o5);
    assert o6 == o * (0.88 * 0.88 * 0.88 * 0.88 * 0.88 * 0.88);
    if FadedFor(o, 6).Some? {
      assert FadedFor(o, 6) == FadedFor(o1, 5);
      assert FadedFor(o1, 5) == FadedFor(o2, 4);
      assert FadedFor(o2, 4) == FadedFor(o3, 3);
      assert FadedFor(o3, 3) == FadedFor(o4, 2);
      assert FadedFor(o4, 2) == FadedFor(o5, 1);
      assert FadedFor(o5, 1) == FadedFor(o6, 0);
    }
  }

  /** The opacity bound after 6m frames: halved m times. */
  function Halved(o: real, m: nat): real
  {
    if m == 0 then o else Halved(o, m - 1) / 2.0
  }

  lemma {:induction false} FadedHalving(o: real, m: nat)
    requires o >= 0.0
    ensures FadedFor(o, 6 * m).Some? ==> FadedFor(o, 6 * m).value <= Halved(o, m)
  {
    if m > 0 {
      FadedHalving(o, m - 1);
      FadedForCompose(o, 6 * (m - 1), 6);
      assert 6 * m == 6 * (m - 1) + 6;
      var before := FadedFor(o, 6 * (m - 1));
      if before.Some? {
        assert before.value >= 0.0;
        SixFramesHalve(before.value);
      }
    }
  }

  /** A fully opaque label that stops being fed is gone within 42 frames. */
  lemma FadesAwayWithin42(o: real)
    requires 0.0 <= o <= 1.0
    ensures FadedFor(o, 42).None?
  {
    FadedHalving(o, 7);
    assert Halved(o, 1) == o / 2.0;
    assert Halved(o, 2) == o / 4.0;
    assert Halved(o, 3) == o / 8.0;
    assert Halved(o, 4) == o / 16.0;
    assert Halved(o, 5) == o / 32.0;
    assert Halved(o, 6) == o / 64.0;
    assert Halved(o, 7) == o / 128.0;
  }

  /** The label text of a grid frequency: the value shown, its decimals and its unit. */
  datatype FreqText = FreqText(value: real, decimals: nat, kilo: bool)

  /**
   * fmt_freq: kHz with no decimal from 10 kHz, kHz with one decimal from
   * 1 kHz, Hz with none from 100 Hz, one from 10 Hz, two below.
   */
  function FmtFreq(f: real): (r: FreqText)
    ensures r.kilo <==> f >= 1000.0
    ensures r.kilo ==> r.value * 1000.0 == f
    ensures !r.kilo ==> r.value == f
    ensures r.decimals == (if f >= 10000.0 || (100.0 <= f < 1000.0) then 0 else if f >= 10.0 then 1 else 2)
    ensures r.kilo ==> r.value >= 1.0
  {
    if f >= 10000.0 then FreqText(f / 1000.0, 0, true)
    else if f >= 1000.0 then FreqText(f / 1000.0, 1, true)
    else if f >= 100.0 then FreqText(f, 0, false)
    else if f >= 10.0 then FreqText(f, 1, false)
    else FreqText(f, 2, false)
  }

  /** A grid line: position, label and importance (0 the strongest). */
  datatype GridLine = GridLine(position: real, text: FreqText, importance: nat)

  /** SpectrumState: the display switches, the palette, the grid and the fading peak label. */
  class SpectrumState {
    var showGrid: bool
    var showPeakLabel: bool
    var palette: seq<Color>
    var grid: seq<GridLine>
    var peak: Option<PeakLabel>

    /** Six palette colours; a shown label is never more than fully opaque. */
    ghost predicate Valid()
      reads this
    {
      |palette| == PALETTE_SIZE && (peak.Some? ==> 0.0 <= peak.value.opacity <= 1.0)
    }

    constructor (defaultPalette: seq<Color>, showGrid: bool, showPeakLabel: bool)
      requires |defaultPalette| == PALETTE_SIZE
      ensures Valid() && palette == defaultPalette && grid == [] && peak.None?
      ensures this.showGrid == showGrid && this.showPeakLabel == showPeakLabel
    {
      this.showGrid, this.showPeakLabel := showGrid, showPeakLabel;
      palette, grid, peak := defaultPalette, [], None;
    }

    /** update_show_grid: hiding the grid drops its lines. */
    method UpdateShowGrid(show: bool)
      modifies this`showGrid, this`grid
      ensures showGrid == show
      ensures !show ==> grid == []
      ensures show ==> grid == old(grid)
    {
      showGrid := show;
      if !show {
        grid := [];
      }
    }

    /** update_show_peak_label: hiding the label drops it. */
    method UpdateShowPeakLabel(show: bool)
      requires Valid()
      modifies this`showPeakLabel, this`peak
      ensures Valid() && showPeakLabel == show
      ensures !show ==> peak.None?
      ensures show ==> peak == old(peak)
    {
      showPeakLabel := show;
      if !show {
        peak := None;
      }
    }

    /** set_palette: six colours that differ from the current ones replace them; anything else is ignored. */
    method SetPalette(colors: seq<Color>)
      requires Valid()
      modifies this`palette
      ensures Valid()
      ensures palette == (if |colors| == PALETTE_SIZE && !PalettesEqual(old(palette), colors) then colors else old(palette))
    {
      if |colors| == PALETTE_SIZE && !PalettesEqual(palette, colors) {
        palette := colors;
      }
    }

    /** peak: the label, only while labels are shown. */
    function Peak(): (r: Option<PeakLabel>)
      reads this
      ensures r.Some? <==> showPeakLabel && peak.Some?
      ensures r.Some? ==> r == peak
    {
      if showPeakLabel then peak else None
    }

    /**
     * fade_peak: a new peak updates the label (a shown one keeps fading in,
     * a new one starts at its own opacity); no peak fades the label out and
     * drops it below 0.01.
     */
    method FadePeak(incoming: Option<PeakLabel>)
      requires Valid()
      requires incoming.Some? ==> 0.0 <= incoming.value.opacity <= 1.0
      modifies this`peak
      ensures Valid()
      ensures incoming.Some? && old(peak).Some? ==> peak == Some(incoming.value.(opacity := FadeIn(old(peak).value.opacity)))
      ensures incoming.Some? && old(peak).None? ==> peak == incoming
      ensures incoming.None? && old(peak).Some? ==>
        peak == (if FadeOut(old(peak).value.opacity) < MIN_OPACITY then None
                 else Some(old(peak).value.(opacity := FadeOut(old(peak).value.opacity))))
      ensures incoming.None? && old(peak).None? ==> peak.None?
      ensures incoming.None? && old(peak).Some? ==> peak.Some? == FadedFor(old(peak).value.opacity, 1).Some?
      ensures incoming.None? && peak.Some? ==> peak.value.opacity == FadedFor(old(peak).value.opacity, 1).value
    {
      match (incoming, peak)
      case (Some(next), Some(p)) =>
        peak := Some(next.(opacity := FadeIn(p.opacity)));
      case (Some(next), None) =>
        peak := Some(next);
      case (None, Some(p)) =>
        var o := FadeOut(p.opacity);
        if o < MIN_OPACITY {
          peak := None;
        } else {
          peak := Some(p.(opacity := o));
        }
      case (None, None) =>
    }
  }
}

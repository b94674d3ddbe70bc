// The stereometer view state (src/ui/visualization/stereometer.rs): the
// vectorscope points blended with persistence, the correlation trails, the
// eight-colour palette and the view settings. The exponential amplitude
// scale uses hypot, exp2 and log2, which are parameters here.
module StereometerView {
  import opened Base
  import opened SettingsVisuals

  const TRAIL_LEN: nat := 32
  const CORRELATION_SMOOTHING: real := 0.85
  const MAX_PERSISTENCE: real := 0.9
  const PALETTE_LEN: nat := 8
  /** f32::EPSILON. */
  const F32_EPSILON: real := 0.00000011920929
  const MIN_ROTATION: int := -4
  const MAX_ROTATION: int := 4

  type Point = (real, real)

  /** The correlation of the low, mid and high bands. */
  datatype BandCorrelation = BandCorrelation(low: real, mid: real, high: real)

  /** What the stereometer analysis reports per frame. */
  datatype Snapshot = Snapshot(xyPoints: seq<Point>, correlation: real, band: BandCorrelation)

  /** The stereometer's view settings. */
  datatype ViewSettings = ViewSettings(
    persistence: real,
    mode: StereometerMode,
    scale: StereometerScale,
    scaleRange: real,
    rotation: int,
    flip: bool,
    correlationMeter: CorrelationMeterMode,
    correlationMeterSide: CorrelationMeterSide)

  /** What the renderer is handed. */
  datatype Params = Params(
    points: seq<Point>,
    palette: seq<Color>,
    mode: StereometerMode,
    rotation: int,
    flip: bool,
    correlationMeter: CorrelationMeterMode,
    correlationMeterSide: CorrelationMeterSide,
    corrTrail: seq<real>,
    bandTrail: seq<BandCorrelation>)

  /** The settings as update_view_settings keeps them: persistence in [0, 0.9], rotation in [-4, 4]. */
  function Sanitized(s: ViewSettings): (r: ViewSettings)
    ensures 0.0 <= r.persistence <= MAX_PERSISTENCE && MIN_ROTATION <= r.rotation <= MAX_ROTATION
    ensures 0.0 <= s.persistence <= MAX_PERSISTENCE && MIN_ROTATION <= s.rotation <= MAX_ROTATION ==> r == s
    ensures r.(persistence := s.persistence, rotation := s.rotation) == s
  {
    s.(persistence := ClampR(s.persistence, 0.0, MAX_PERSISTENCE),
       rotation := Clamp(s.rotation, MIN_ROTATION, MAX_ROTATION))
  }

  /** Sanitising twice is sanitising once. */
  lemma SanitizedIdempotent(s: ViewSettings)
    ensures Sanitized(Sanitized(s)) == Sanitized(s)
  {
  }

  /** One smoothing step of a correlation reading: 85% of the prior value, 15% of the next. */
  function SmoothCorr(prior: real, next: real): real
  {
    prior * CORRELATION_SMOOTHING + next * (1.0 - CORRELATION_SMOOTHING)
  }

  /** The smoothed reading lies between the prior and the next one. */
  lemma SmoothCorrBetween(prior: real, next: real)
    ensures MinR(prior, next) <= SmoothCorr(prior, next) <= MaxR(prior, next)
  {
  }

  function SmoothBand(prior: BandCorrelation, next: BandCorrelation): BandCorrelation
  {
    BandCorrelation(SmoothCorr(prior.low, next.low), SmoothCorr(prior.mid, next.mid), SmoothCorr(prior.high, next.high))
  }

  /** The next correlation entry: the reading smoothed against the newest entry, or the raw reading on an empty trail. */
  function NextCorr(trail: seq<real>, reading: real): real
  {
    if trail == [] then reading else SmoothCorr(trail[0], reading)
  }

  function NextBand(trail: seq<BandCorrelation>, reading: BandCorrelation): BandCorrelation
  {
    if trail == [] then reading else SmoothBand(trail[0], reading)
  }

  /** push_front then truncate to TRAIL_LEN: the newest entry first, the oldest beyond 32 dropped. */
  function PushTrail<T>(trail: seq<T>, x: T): (r: seq<T>)
    ensures |r| == Min(|trail| + 1, TRAIL_LEN)
    ensures r[0] == x
    ensures forall k | 1 <= k < |r| :: r[k] == trail[k - 1]
  {
    ([x] + trail)[..Min(|trail| + 1, TRAIL_LEN)]
  }

  predicate InUnitRange(x: real) { -1.0 <= x <= 1.0 }

  predicate AllInUnitRange(s: seq<real>)
  {
    forall k | 0 <= k < |s| :: InUnitRange(s[k])
  }

  /** Correlations stay in [-1, 1]: a trail of in-range readings fed an in-range reading stays in range. */
  lemma CorrTrailStaysInRange(trail: seq<real>, reading: real)
    requires AllInUnitRange(trail) && InUnitRange(reading)
    ensures AllInUnitRange(PushTrail(trail, NextCorr(trail, reading)))
  {
    if trail != [] {
      SmoothCorrBetween(trail[0], reading);
    }
  }

  /** `s` truncated or padded with the origin to length n (Vec::resize). */
  function Resized(s: seq<Point>, n: nat): (r: seq<Point>)
    ensures |r| == n
    ensures forall k | 0 <= k < n :: r[k] == (if k < |s| then s[k] else (0.0, 0.0))
  {
    if n <= |s| then s[..n] else s + seq(n - |s|, _ => (0.0, 0.0))
  }

  /** The exponential amplitude scale, given hypot, exp2 and log2. */
  function ExpScale(p: Point, range: real, hypot: (real, real) -> real, exp2: real -> real, log2: real -> real): Point
  {
    var len := hypot(p.0, p.1);
    if len < F32_EPSILON then (0.0, 0.0)
    else
      var denom := -range * len;
      if denom == 0.0 then (0.0, 0.0)
      else
        var k := (log2(MaxR(len, exp2(-range))) + range) / denom;
        (k * p.0, k * p.1)
  }

  /** A snapshot point mapped by the chosen scale. */
  function ScalePoint(scale: StereometerScale, range: real, p: Point,
                      hypot: (real, real) -> real, exp2: real -> real, log2: real -> real): Point
  {
    match scale
    case Linear => p
    case Exponential => ExpScale(p, range, hypot, exp2, log2)
  }

  /** A point after one frame: the next point, or with persistence its blend with the prior one. */
  function BlendPoint(prior: Point, next: Point, persistence: real): Point
  {
    if persistence <= F32_EPSILON then next
    else (prior.0 * persistence + next.0 * (1.0 - persistence), prior.1 * persistence + next.1 * (1.0 - persistence))
  }

  predicate InBox(p: Point, m: real)
  {
    -m <= p.0 <= m && -m <= p.1 <= m
  }

  /** A blend weighted in [0, 1] lies between its two ends. */
  lemma WeightedBetween(a: real, b: real, w: real, m: real)
    requires -m <= a <= m && -m <= b <= m && 0.0 <= w <= 1.0
    ensures -m <= a * w + b * (1.0 - w) <= m
  {
    if a >= b {
      var d := a - b;
      ScaleDown(d, w);
      assert a * w + b * (1.0 - w) == b + d * w;
      assert d * w <= d;
      assert b + d * w <= a;
    } else {
      var d := b - a;
      ScaleDown(d, w);
      assert a * w + b * (1.0 - w) == b - d * w;
      assert d * w <= d;
      assert b - d * w >= a;
    }
  }

  /** A share in [0, 1] of a non-negative amount lies between 0 and the amount. */
  lemma ScaleDown(x: real, w: real)
    requires x >= 0.0 && 0.0 <= w <= 1.0
    ensures 0.0 <= x * w <= x
  {
    assert x - x * w == x * (1.0 - w);
    assert x * (1.0 - w) >= 0.0;
  }

  /** Persistence never throws a point out of the box its inputs lie in. */
  lemma BlendStaysInBox(prior: Point, next: Point, persistence: real, m: real)
    requires InBox(prior, m) && InBox(next, m) && 0.0 <= persistence <= 1.0
    ensures InBox(BlendPoint(prior, next, persistence), m)
  {
    if persistence > F32_EPSILON {
      WeightedBetween(prior.0, next.0, persistence, m);
      WeightedBetween(prior.1, next.1, persistence, m);
    }
  }

  /** StereometerState: the shown points, the correlation trails, the palette and the view settings. */
  class StereometerState {
    var points: seq<Point>
    var corrTrail: seq<real>
    var bandTrail: seq<BandCorrelation>
    const palette: array<Color>
    var persistence: real
    var mode: StereometerMode
    var scale: StereometerScale
    var scaleRange: real
    var rotation: int
    var flip: bool
    var correlationMeter: CorrelationMeterMode
    var correlationMeterSide: CorrelationMeterSide

    /** Eight colours, trails of at most 32 entries pushed together, persistence and rotation in range. */
    ghost predicate Valid()
      reads this
    {
      palette.Length == PALETTE_LEN
      && |corrTrail| <= TRAIL_LEN && |bandTrail| == |corrTrail|
      && 0.0 <= persistence <= MAX_PERSISTENCE && MIN_ROTATION <= rotation <= MAX_ROTATION
    }

    /** new: no points, empty trails, the first eight default colours and the default settings. */
    constructor (defaultColors: seq<Color>, defaults: ViewSettings)
      requires |defaultColors| >= PALETTE_LEN
      requires 0.0 <= defaults.persistence <= MAX_PERSISTENCE && MIN_ROTATION <= defaults.rotation <= MAX_ROTATION
      ensures Valid() && fresh(palette)
      ensures points == [] && corrTrail == [] && bandTrail == []
      ensures palette[..] == defaultColors[..PALETTE_LEN]
      ensures Settings() == defaults
    {
      points, corrTrail, bandTrail := [], [], [];
      palette := new Color[PALETTE_LEN](i requires 0 <= i < PALETTE_LEN => defaultColors[i]);
      persistence, mode, scale, scaleRange := defaults.persistence, defaults.mode, defaults.scale, defaults.scaleRange;
      rotation, flip := defaults.rotation, defaults.flip;
      correlationMeter, correlationMeterSide := defaults.correlationMeter, defaults.correlationMeterSide;
    }

    /** export_settings: the view settings the state holds. */
    function Settings(): ViewSettings
      reads this
    {
      ViewSettings(persistence, mode, scale, scaleRange, rotation, flip, correlationMeter, correlationMeterSide)
    }

    /** update_view_settings: take the settings, persistence clamped to [0, 0.9] and rotation to [-4, 4]. */
    method UpdateViewSettings(s: ViewSettings)
      requires Valid()
      modifies this`persistence, this`mode, this`scale, this`scaleRange, this`rotation, this`flip,
               this`correlationMeter, this`correlationMeterSide
      ensures Valid()
      ensures Settings() == Sanitized(s)
    {
      persistence := ClampR(s.persistence, 0.0, MAX_PERSISTENCE);
      mode, scale, scaleRange := s.mode, s.scale, s.scaleRange;
      rotation := Clamp(s.rotation, MIN_ROTATION, MAX_ROTATION);
      flip, correlationMeter, correlationMeterSide := s.flip, s.correlationMeter, s.correlationMeterSide;
    }

    /** set_palette: the first min(8, |p|) colours are replaced, the rest stay. */
    method SetPalette(p: seq<Color>)
      requires Valid()
      modifies palette
      ensures Valid()
      ensures forall i | 0 <= i < palette.Length :: palette[i] == (if i < |p| then p[i] else old(palette[i]))
    {
      var n := Min(palette.Length, |p|);
      for i := 0 to n
        invariant forall k | 0 <= k < i :: palette[k] == p[k]
        invariant forall k | i <= k < palette.Length :: palette[k] == old(palette[k])
      {
        palette[i] := p[i];
      }
    }

    /** The blended points of one frame, in order: the loop over the resized points. */
    method BlendPoints(prev: seq<Point>, xy: seq<Point>, hypot: (real, real) -> real, exp2: real -> real, log2: real -> real)
      returns (out: seq<Point>)
      requires |prev| == |xy|
      ensures |out| == |xy|
      ensures forall i | 0 <= i < |xy| :: out[i] == BlendPoint(prev[i], ScalePoint(scale, scaleRange, xy[i], hypot, exp2, log2), persistence)
    {
      out := [];
      for i := 0 to |xy|
        invariant |out| == i
        invariant forall k | 0 <= k < i :: out[k] == BlendPoint(prev[k], ScalePoint(scale, scaleRange, xy[k], hypot, exp2, log2), persistence)
      {
        out := out + [BlendPoint(prev[i], ScalePoint(scale, scaleRange, xy[i], hypot, exp2, log2), persistence)];
      }
    }

    /**
     * apply_snapshot: an empty snapshot clears the points and leaves the
     * trails. Otherwise the points take the snapshot's length and each
     * becomes the scaled snapshot point, blended with the prior one by the
     * persistence; the smoothed correlation readings are pushed onto the
     * trails, which keep their newest 32 entries.
     */
    method ApplySnapshot(snap: Snapshot, hypot: (real, real) -> real, exp2: real -> real, log2: real -> real)
      requires Valid()
      modifies this`points, this`corrTrail, this`bandTrail
      ensures Valid()
      ensures snap.xyPoints == [] ==> points == [] && corrTrail == old(corrTrail) && bandTrail == old(bandTrail)
      ensures snap.xyPoints != [] ==>
        |points| == |snap.xyPoints|
        && (forall i | 0 <= i < |points| ::
              points[i] == BlendPoint(Resized(old(points), |snap.xyPoints|)[i],
                                      ScalePoint(scale, scaleRange, snap.xyPoints[i], hypot, exp2, log2), persistence))
        && corrTrail == PushTrail(old(corrTrail), NextCorr(old(corrTrail), snap.correlation))
        && bandTrail == PushTrail(old(bandTrail), NextBand(old(bandTrail), snap.band))
    {
      if snap.xyPoints == [] {
        points := [];
        return;
      }
      var prev := Resized(points, |snap.xyPoints|);
      points := BlendPoints(prev, snap.xyPoints, hypot, exp2, log2);
      var c := if corrTrail == [] then snap.correlation else SmoothCorr(corrTrail[0], snap.correlation);
      var b := if bandTrail == [] then snap.band else SmoothBand(bandTrail[0], snap.band);
      corrTrail := PushTrail(corrTrail, c);
      bandTrail := PushTrail(bandTrail, b);
    }

    /** visual_params: the render parameters, only once there are two points to draw. */
    function VisualParams(): (r: Option<Params>)
      reads this, palette
      ensures r.Some? <==> |points| >= 2
      ensures r.Some? ==> (r.value.points == points && r.value.palette == palette[..]
        && r.value.corrTrail == corrTrail && r.value.bandTrail == bandTrail
        && r.value.rotation == rotation && r.value.mode == mode && r.value.flip == flip)
    {
      if |points| >= 2 then
        Some(Params(points, palette[..], mode, rotation, flip, correlationMeter, correlationMeterSide, corrTrail, bandTrail))
      else None
    }
  }

  /** With no persistence the points are exactly the scaled snapshot. */
  lemma NoPersistenceShowsSnapshot(prior: Point, next: Point)
    ensures BlendPoint(prior, next, 0.0) == next
  {
  }
}

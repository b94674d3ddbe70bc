// The scrolling waveform's column ring (src/dsp/waveform.rs). Interleaved
// samples are accumulated per channel; once the first channel holds
// `samplesPerColumn` samples, each channel's minimum and maximum are written
// at the ring head, the head advances and the accumulators restart. The
// snapshot reads the ring oldest column first.
//
// The spectral-centroid colouring (an FFT per channel) is not modelled, so
// the ring holds the extrema only.
module WaveformDsp {
  import opened Base
  import AudioUtil

  const MIN_SCROLL_SPEED: real := 10.0
  const MAX_SCROLL_SPEED: real := 1000.0
  const MIN_COLUMN_CAPACITY: nat := 512
  const MAX_COLUMN_CAPACITY: nat := 16384
  const DEFAULT_COLUMN_CAPACITY: nat := 4096
  /** f32::MAX; the accumulators start at f32::MAX (minimum) and f32::MIN = -f32::MAX (maximum). */
  const F32_MAX: real := 340282346638528859811704183484516925440.0

  datatype Config = Config(sampleRate: real, scrollSpeed: real, maxColumns: nat)

  function DefaultConfig(): Config
  {
    Config(AudioUtil.DEFAULT_SAMPLE_RATE, 300.0, DEFAULT_COLUMN_CAPACITY)
  }

  predicate Normal(c: Config)
  {
    c.sampleRate >= 1.0 && MIN_SCROLL_SPEED <= c.scrollSpeed <= MAX_SCROLL_SPEED
    && MIN_COLUMN_CAPACITY <= c.maxColumns <= MAX_COLUMN_CAPACITY
  }

  /**
   * WaveformConfig::normalized: sample rate at least 1, scroll speed in
   * [10, 1000], column capacity in [512, 16384]; a configuration already in
   * range is returned unchanged.
   */
  function Normalized(c: Config): (r: Config)
    ensures Normal(r)
    ensures Normal(c) ==> r == c
    ensures c.sampleRate >= 1.0 ==> r.sampleRate == c.sampleRate
    ensures MIN_SCROLL_SPEED <= c.scrollSpeed <= MAX_SCROLL_SPEED ==> r.scrollSpeed == c.scrollSpeed
    ensures MIN_COLUMN_CAPACITY <= c.maxColumns <= MAX_COLUMN_CAPACITY ==> r.maxColumns == c.maxColumns
  {
    Config(MaxR(c.sampleRate, 1.0), ClampR(c.scrollSpeed, MIN_SCROLL_SPEED, MAX_SCROLL_SPEED),
      Clamp(c.maxColumns, MIN_COLUMN_CAPACITY, MAX_COLUMN_CAPACITY))
  }

  /** samples_per_column: the sample rate over the scroll speed, rounded to the nearest integer. */
  function SamplesPerColumn(c: Config): (r: nat)
    requires Normal(c)
    ensures c.sampleRate / c.scrollSpeed - 0.5 < r as real <= c.sampleRate / c.scrollSpeed + 0.5
  {
    var x := c.sampleRate / c.scrollSpeed;
    assert x >= 0.0;
    Round(x)
  }

  /** clamp_extrema: the untouched sentinels read as 0; every other value is kept. */
  function ClampExtrema(lo: real, hi: real): (r: (real, real))
    ensures lo == F32_MAX ==> r.0 == 0.0
    ensures lo != F32_MAX ==> r.0 == lo
    ensures hi == -F32_MAX ==> r.1 == 0.0
    ensures hi != -F32_MAX ==> r.1 == hi
  {
    (if lo == F32_MAX then 0.0 else lo, if hi == -F32_MAX then 0.0 else hi)
  }

  // -------------------------------------------------------------------
  // Accumulators

  /** Per channel: the samples of the column in progress and their running minimum and maximum. */
  datatype Accum = Accum(samples: seq<seq<real>>, lo: seq<real>, hi: seq<real>)

  predicate AccumOk(a: Accum, ch: nat)
  {
    |a.samples| == ch && |a.lo| == ch && |a.hi| == ch
  }

  /** Every channel holds `len` samples. */
  predicate Uniform(a: Accum, len: nat)
  {
    forall c :: 0 <= c < |a.samples| ==> |a.samples[c]| == len
  }

  function EmptyAccum(ch: nat): (a: Accum)
    ensures AccumOk(a, ch) && Uniform(a, 0)
  {
    Accum(seq(ch, _ => []), seq(ch, _ => F32_MAX), seq(ch, _ => -F32_MAX))
  }

  /** One interleaved frame: each channel's sample is appended and folded into its extrema. */
  function AddFrame(a: Accum, frame: seq<real>): (r: Accum)
    requires AccumOk(a, |frame|)
    ensures AccumOk(r, |frame|)
    ensures forall len: nat :: Uniform(a, len) ==> Uniform(r, len + 1)
  {
    var ch := |frame|;
    Accum(seq(ch, c requires 0 <= c < ch => a.samples[c] + [frame[c]]),
      seq(ch, c requires 0 <= c < ch => MinR(a.lo[c], frame[c])),
      seq(ch, c requires 0 <= c < ch => MaxR(a.hi[c], frame[c])))
  }

  /**
   * The running extrema bound every accumulated sample and are either one
   * of them or still the sentinel.
   */
  predicate Tracks(a: Accum)
    requires AccumOk(a, |a.samples|)
  {
    forall c :: 0 <= c < |a.samples| ==>
      (forall j :: 0 <= j < |a.samples[c]| ==> a.lo[c] <= a.samples[c][j] <= a.hi[c])
      && (a.lo[c] == F32_MAX || a.lo[c] in a.samples[c])
      && (a.hi[c] == -F32_MAX || a.hi[c] in a.samples[c])
  }

  /** Accumulating frames keeps the extrema exact. */
  lemma AddFrameTracks(a: Accum, frame: seq<real>)
    requires AccumOk(a, |frame|) && Tracks(a)
    ensures Tracks(AddFrame(a, frame))
  {
    var r := AddFrame(a, frame);
    forall c | 0 <= c < |frame|
      ensures (forall j :: 0 <= j < |r.samples[c]| ==> r.lo[c] <= r.samples[c][j] <= r.hi[c])
      ensures r.lo[c] == F32_MAX || r.lo[c] in r.samples[c]
      ensures r.hi[c] == -F32_MAX || r.hi[c] in r.samples[c]
    {
      assert r.samples[c] == a.samples[c] + [frame[c]];
      assert r.samples[c][|a.samples[c]|] == frame[c];
    }
  }

  // -------------------------------------------------------------------
  // The column ring

  /** Channel `c`'s column `k` sits at `c * maxColumns + k` in `lo` and `hi`. */
  datatype Columns = Columns(lo: seq<real>, hi: seq<real>, head: nat, count: nat, total: nat)

  predicate ColumnsOk(r: Columns, ch: nat, maxCols: nat)
  {
    maxCols > 0 && |r.lo| == ch * maxCols && |r.hi| == ch * maxCols
    && r.head < maxCols && r.count <= maxCols && (r.count < maxCols ==> r.head == r.count)
    && r.total <= U64_MAX
  }

  /**
   * Writes `vals[c]` (when present) at `c * stride + head` for every
   * channel `c`, in channel order.
   */
  function WriteSlots(values: seq<real>, stride: nat, head: nat, vals: seq<Option<real>>): (r: seq<real>)
    requires head < stride && |vals| * stride <= |values|
    ensures |r| == |values|
  {
    if vals == [] then values
    else
      var k := |vals| - 1;
      SlotInBounds(k, |vals|, stride);
      MulMonotone(k, |vals|, stride);
      var prev := WriteSlots(values, stride, head, vals[..k]);
      if vals[k].Some? then prev[k * stride + head := vals[k].value] else prev
  }

  /** WriteSlots touches only the head column of each channel and writes exactly the present values. */
  lemma {:induction false} WriteSlotsAt(values: seq<real>, stride: nat, head: nat, vals: seq<Option<real>>)
    requires head < stride && |vals| * stride <= |values|
    ensures var r := WriteSlots(values, stride, head, vals);
      (forall k :: 0 <= k < |vals| ==>
         (k * stride + head < |r|
          && r[k * stride + head] == (if vals[k].Some? then vals[k].value else values[k * stride + head])))
      && forall i :: 0 <= i < |r| && (i % stride != head || i / stride >= |vals|) ==> r[i] == values[i]
  {
    if vals != [] {
      var n := |vals| - 1;
      SlotInBounds(n, |vals|, stride);
      MulMonotone(n, |vals|, stride);
      WriteSlotsAt(values, stride, head, vals[..n]);
      var r := WriteSlots(values, stride, head, vals);
      DivModUnique(n * stride + head, n, stride, head);
      forall k | 0 <= k < |vals|
        ensures k * stride + head < |r|
        ensures r[k * stride + head] == (if vals[k].Some? then vals[k].value else values[k * stride + head])
      {
        SlotInBounds(k, |vals|, stride);
        if k < n {
          SlotInBounds(k, n, stride);
          assert vals[..n][k] == vals[k];
        }
      }
    }
  }

  /** The extrema a flush writes for each channel: nothing for an empty accumulator. */
  function FlushValues(a: Accum, wantMax: bool): (r: seq<Option<real>>)
    requires AccumOk(a, |a.samples|)
    ensures |r| == |a.samples|
    ensures forall c :: 0 <= c < |r| ==> (r[c].None? <==> a.samples[c] == [])
  {
    seq(|a.samples|, c requires 0 <= c < |a.samples| =>
      if a.samples[c] == [] then None
      else if wantMax then Some(ClampExtrema(a.lo[c], a.hi[c]).1)
      else Some(ClampExtrema(a.lo[c], a.hi[c]).0))
  }

  /**
   * flush_accumulated_samples on the ring: each non-empty channel's
   * extrema land at the head, the head advances cyclically, the count grows
   * up to the capacity and the running total saturates at u64::MAX.
   */
  function Flush(r: Columns, a: Accum, ch: nat, maxCols: nat): (s: Columns)
    requires ColumnsOk(r, ch, maxCols) && AccumOk(a, ch)
    ensures ColumnsOk(s, ch, maxCols)
    ensures s.head == (r.head + 1) % maxCols
    ensures s.count == Min(r.count + 1, maxCols)
    ensures s.total == SaturatingAdd(r.total, 1, U64_MAX)
  {
    AdvanceHead(r.head, maxCols);
    Columns(WriteSlots(r.lo, maxCols, r.head, FlushValues(a, false)),
      WriteSlots(r.hi, maxCols, r.head, FlushValues(a, true)),
      (r.head + 1) % maxCols, Min(r.count + 1, maxCols), SaturatingAdd(r.total, 1, U64_MAX))
  }

  lemma AdvanceHead(w: nat, cap: nat)
    requires w < cap
    ensures (w + 1) % cap == (if w + 1 < cap then w + 1 else 0)
  {
    if w + 1 < cap {
      ModSmall(w + 1, cap);
    } else {
      DivModUnique(w + 1, 1, cap, 0);
    }
  }

  /** Ring and accumulators together. */
  datatype Progress = Progress(cols: Columns, acc: Accum)

  predicate ProgressOk(p: Progress, ch: nat, maxCols: nat)
  {
    ColumnsOk(p.cols, ch, maxCols) && AccumOk(p.acc, ch)
  }

  /** One frame of ingest_samples: accumulate, then flush once the first channel is full. */
  function StepFrame(p: Progress, frame: seq<real>, spc: nat, maxCols: nat): (q: Progress)
    requires |frame| > 0 && ProgressOk(p, |frame|, maxCols)
    ensures ProgressOk(q, |frame|, maxCols)
  {
    var a := AddFrame(p.acc, frame);
    if |a.samples[0]| >= spc then Progress(Flush(p.cols, a, |frame|, maxCols), EmptyAccum(|frame|))
    else Progress(p.cols, a)
  }

  /** The first `k` complete frames of `samples`, applied in order. */
  function IngestFrames(p: Progress, samples: seq<real>, ch: nat, spc: nat, maxCols: nat, k: nat): (q: Progress)
    requires ch > 0 && ProgressOk(p, ch, maxCols) && k <= |samples| / ch
    ensures ProgressOk(q, ch, maxCols)
  {
    if k == 0 then p
    else
      StepFrame(IngestFrames(p, samples, ch, spc, maxCols, k - 1), AudioUtil.Frame(samples, ch, k - 1), spc, maxCols)
  }

  /** One frame: below `spc` samples it only accumulates; reaching `spc` flushes once. */
  lemma StepCounts(p: Progress, frame: seq<real>, spc: nat, maxCols: nat, len: nat)
    requires |frame| > 0 && ProgressOk(p, |frame|, maxCols) && Uniform(p.acc, len) && len < spc
    ensures var q := StepFrame(p, frame, spc, maxCols);
      if len + 1 == spc then
        Uniform(q.acc, 0) && q.cols.head == (p.cols.head + 1) % maxCols
        && q.cols.count == Min(p.cols.count + 1, maxCols)
      else
        Uniform(q.acc, len + 1) && q.cols == p.cols
  {
    var a := AddFrame(p.acc, frame);
    assert Uniform(a, len + 1);
    assert |a.samples[0]| == len + 1;
  }

  /** One more frame of `spc`-sample columns: (columns completed, samples in the open column). */
  function NextTally(t: (nat, nat), spc: nat): (nat, nat)
  {
    if t.1 + 1 == spc then (t.0 + 1, 0) else (t.0, t.1 + 1)
  }

  /** Counting `k` frames into columns of `spc` samples, starting `len` samples into a column. */
  function Tally(len: nat, spc: nat, k: nat): (t: (nat, nat))
    requires len < spc
    ensures t.1 < spc
  {
    if k == 0 then (0, len) else NextTally(Tally(len, spc, k - 1), spc)
  }

  /** One more frame: the remainder grows by one, or wraps to 0 as the quotient grows by one. */
  lemma NextQuotient(n: nat, spc: nat)
    requires spc >= 1
    ensures NextTally((n / spc, n % spc), spc) == ((n + 1) / spc, (n + 1) % spc)
  {
    var q, r := n / spc, n % spc;
    if r + 1 == spc {
      DivModUnique(n + 1, q + 1, spc, 0);
    } else {
      DivModUnique(n + 1, q, spc, r + 1);
    }
  }

  /** The tally is the quotient and remainder of `len + k` by `spc`. */
  lemma {:induction false} TallyDivMod(len: nat, spc: nat, k: nat)
    requires len < spc
    ensures Tally(len, spc, k) == ((len + k) / spc, (len + k) % spc)
  {
    if k == 0 {
      DivModUnique(len, 0, spc, len);
    } else {
      TallyDivMod(len, spc, k - 1);
      NextQuotient(len + k - 1, spc);
    }
  }

  /** `q` is `p` after `t.0` completed columns, with `t.1` samples per channel in the open one. */
  predicate AfterTally(p: Progress, q: Progress, maxCols: nat, t: (nat, nat))
    requires maxCols > 0
  {
    Uniform(q.acc, t.1) && q.cols.head == (p.cols.head + t.0) % maxCols
    && q.cols.count == Min(p.cols.count + t.0, maxCols)
  }

  /** One frame moves the tally on by one. */
  lemma StepTally(p: Progress, prev: Progress, frame: seq<real>, spc: nat, maxCols: nat, t: (nat, nat))
    requires |frame| > 0 && ProgressOk(prev, |frame|, maxCols) && t.1 < spc && AfterTally(p, prev, maxCols, t)
    ensures AfterTally(p, StepFrame(prev, frame, spc, maxCols), maxCols, NextTally(t, spc))
  {
    StepCounts(prev, frame, spc, maxCols, t.1);
    if t.1 + 1 == spc {
      ModAddLeft(p.cols.head + t.0, 1, maxCols);
    }
  }

  /** Ingesting `k` frames completes `Tally(len, spc, k).0` columns and leaves `Tally(len, spc, k).1` samples. */
  lemma {:induction false} IngestTally(p: Progress, samples: seq<real>, ch: nat, spc: nat, maxCols: nat, k: nat, len: nat)
    requires ch > 0 && ProgressOk(p, ch, maxCols) && k <= |samples| / ch
    requires len < spc && Uniform(p.acc, len)
    ensures AfterTally(p, IngestFrames(p, samples, ch, spc, maxCols, k), maxCols, Tally(len, spc, k))
  {
    if k == 0 {
      ModSmall(p.cols.head, maxCols);
    } else {
      IngestTally(p, samples, ch, spc, maxCols, k - 1, len);
      StepTally(p, IngestFrames(p, samples, ch, spc, maxCols, k - 1), AudioUtil.Frame(samples, ch, k - 1),
        spc, maxCols, Tally(len, spc, k - 1));
    }
  }

  /** `q` is `p` after the first `k` frames of `samples`. */
  predicate IngestedUpTo(p: Progress, q: Progress, samples: seq<real>, ch: nat, spc: nat, maxCols: nat, k: nat)
  {
    ch > 0 && ProgressOk(p, ch, maxCols) && k <= |samples| / ch && q == IngestFrames(p, samples, ch, spc, maxCols, k)
  }

  /** `q` is `p` after every complete frame of `samples`. */
  predicate Ingested(p: Progress, q: Progress, samples: seq<real>, ch: nat, spc: nat, maxCols: nat)
  {
    ch > 0 && IngestedUpTo(p, q, samples, ch, spc, maxCols, |samples| / ch)
  }

  /**
   * A flush happens exactly when the first channel's accumulator reaches
   * `spc`: starting from `len < spc` samples per channel, `k` frames flush
   * `(len + k) / spc` columns and leave `(len + k) % spc` samples per
   * channel; the head and count advance by the number of flushes.
   */
  lemma IngestCounts(p: Progress, samples: seq<real>, ch: nat, spc: nat, maxCols: nat, k: nat, len: nat)
    requires ch > 0 && ProgressOk(p, ch, maxCols) && k <= |samples| / ch
    requires len < spc && Uniform(p.acc, len)
    ensures var q := IngestFrames(p, samples, ch, spc, maxCols, k);
      Uniform(q.acc, (len + k) % spc)
      && q.cols.head == (p.cols.head + (len + k) / spc) % maxCols
      && q.cols.count == Min(p.cols.count + (len + k) / spc, maxCols)
  {
    IngestTally(p, samples, ch, spc, maxCols, k, len);
    TallyDivMod(len, spc, k);
  }

  /** The ring-wrap scenario: one column per block, 522 blocks into a 512-column ring, leaves it full. */
  lemma RingCapsAtCapacity(p: Progress, samples: seq<real>, spc: nat)
    requires spc >= 1 && ProgressOk(p, 1, MIN_COLUMN_CAPACITY) && p.cols.count == 0 && Uniform(p.acc, 0)
    requires |samples| == (MIN_COLUMN_CAPACITY + 10) * spc
    ensures IngestFrames(p, samples, 1, spc, MIN_COLUMN_CAPACITY, |samples|).cols.count == MIN_COLUMN_CAPACITY
  {
    IngestCounts(p, samples, 1, spc, MIN_COLUMN_CAPACITY, |samples|, 0);
    DivModUnique(|samples|, MIN_COLUMN_CAPACITY + 10, spc, 0);
  }

  // -------------------------------------------------------------------
  // The snapshot

  /** Where snapshot entry `d` (channel `d / count`, column `d % count`) is read from. */
  function SnapshotIndex(d: nat, ch: nat, count: nat, maxCols: nat, start: nat): (r: nat)
    requires d < count * ch && start < maxCols && count <= maxCols
    ensures count > 0 && d / count < ch && r < ch * maxCols
    ensures r == (d / count) * maxCols + (start + d % count) % maxCols
  {
    DivBelow(d, count, ch);
    var q := d / count;
    SlotInBounds(q, ch, maxCols);
    q * maxCols + (start + d % count) % maxCols
  }

  /** The oldest column: 0 while the ring is filling, then the head. */
  function Start(r: Columns, maxCols: nat): nat
  {
    if r.count < maxCols then 0 else r.head
  }

  /**
   * sync_ring_to_snapshot: `count` columns per channel, channel-major,
   * oldest first.
   */
  function SnapshotValues(values: seq<real>, ch: nat, maxCols: nat, start: nat, count: nat): (s: seq<real>)
    requires |values| == ch * maxCols && start < maxCols && count <= maxCols
    ensures |s| == count * ch
  {
    seq(count * ch, d requires 0 <= d < count * ch => values[SnapshotIndex(d, ch, count, maxCols, start)])
  }

  /** After a flush the newest visible column, `count - 1` past the oldest, is the slot just written. */
  lemma NewestSlot(head: nat, count: nat, maxCols: nat)
    requires head < maxCols && count <= maxCols && (count < maxCols ==> head == count)
    ensures var head', count' := (head + 1) % maxCols, Min(count + 1, maxCols);
      count' > 0 && ((if count' < maxCols then 0 else head') + count' - 1) % maxCols == head
  {
    AdvanceHead(head, maxCols);
    var n := Min(count + 1, maxCols);
    if n < maxCols {
      ModSmall(n - 1, maxCols);
    } else if head + 1 < maxCols {
      DivModUnique(head + 1 + n - 1, 1, maxCols, head);
    } else {
      ModSmall(n - 1, maxCols);
    }
  }

  /**
   * Oldest first: right after a flush, the last column of each channel's
   * snapshot is the column that flush wrote.
   */
  lemma NewestColumnLast(r: Columns, a: Accum, ch: nat, maxCols: nat, c: nat)
    requires ColumnsOk(r, ch, maxCols) && AccumOk(a, ch) && c < ch && a.samples[c] != []
    ensures var s := Flush(r, a, ch, maxCols);
      s.count > 0 && c * s.count + s.count - 1 < s.count * ch
      && SnapshotValues(s.lo, ch, maxCols, Start(s, maxCols), s.count)[c * s.count + s.count - 1]
         == ClampExtrema(a.lo[c], a.hi[c]).0
  {
    var s := Flush(r, a, ch, maxCols);
    var n := s.count;
    NewestSlot(r.head, r.count, maxCols);
    var d := c * n + n - 1;
    SlotInBounds(c, ch, n);
    DivModUnique(d, c, n, n - 1);
    var idx := SnapshotIndex(d, ch, n, maxCols, Start(s, maxCols));
    assert idx == c * maxCols + r.head;
    WriteSlotsAt(r.lo, maxCols, r.head, FlushValues(a, false));
  }

  // -------------------------------------------------------------------
  // The processor

  datatype Preview = Preview(progress: real, lo: seq<real>, hi: seq<real>)

  datatype Snapshot = Snapshot(
    channels: nat,
    columns: nat,
    lo: seq<real>,
    hi: seq<real>,
    columnSpacingSeconds: real,
    scrollPosition: real,
    preview: Preview)

  const EMPTY_SNAPSHOT: Snapshot := Snapshot(0, 0, [], [], 0.0, 0.0, Preview(0.0, [], []))

  /** Vec::resize with zero fill. */
  function Resize(s: seq<real>, n: nat): (r: seq<real>)
    ensures |r| == n
    ensures forall i :: 0 <= i < n && i < |s| ==> r[i] == s[i]
    ensures forall i :: |s| <= i < n ==> r[i] == 0.0
  {
    if n <= |s| then s[..n] else s + seq(n - |s|, _ => 0.0)
  }

  /** rebuild on the ring: storage resized to capacity x channels, empty, nothing written. */
  function Rebuilt(r: Columns, ch: nat, maxCols: nat): (s: Columns)
    requires maxCols > 0
    ensures ColumnsOk(s, ch, maxCols) && s.count == 0 && s.total == 0
  {
    Columns(Resize(r.lo, maxCols * ch), Resize(r.hi, maxCols * ch), 0, 0, 0)
  }

  /** accumulator_progress: the first channel's fill fraction, in [0, 1]. */
  function AccumulatorProgress(a: Accum, spc: nat): (r: real)
    ensures 0.0 <= r <= 1.0
    ensures |a.samples| == 0 ==> r == 0.0
    ensures |a.samples| > 0 && |a.samples[0]| <= Max(spc, 1) ==> r * Max(spc, 1) as real == |a.samples[0]| as real
  {
    if |a.samples| == 0 then 0.0
    else ClampR(|a.samples[0]| as real / Max(spc, 1) as real, 0.0, 1.0)
  }

  /** sync_preview: the column in progress, cleared while the first channel is empty. */
  function PreviewOf(a: Accum, spc: nat): (p: Preview)
    requires AccumOk(a, |a.samples|)
    ensures p.progress == AccumulatorProgress(a, spc)
    ensures |a.samples| == 0 || a.samples[0] == [] ==> p.lo == [] && p.hi == []
    ensures |a.samples| > 0 && a.samples[0] != [] ==>
      |p.lo| == |a.samples| && |p.hi| == |a.samples|
      && forall c :: 0 <= c < |a.samples| ==> (p.lo[c], p.hi[c]) == ClampExtrema(a.lo[c], a.hi[c])
  {
    var progress := AccumulatorProgress(a, spc);
    if |a.samples| == 0 || a.samples[0] == [] then Preview(progress, [], [])
    else
      var ch := |a.samples|;
      Preview(progress, seq(ch, c requires 0 <= c < ch => ClampExtrema(a.lo[c], a.hi[c]).0),
        seq(ch, c requires 0 <= c < ch => ClampExtrema(a.lo[c], a.hi[c]).1))
  }

  /**
   * The copy loop of sync_ring_to_snapshot for one of the two extrema
   * buffers: the snapshot buffer is resized to `count * ch` and entry
   * `ch * count + col` receives ring slot `ch * maxCols + (start + col) % maxCols`.
   */
  method ReadRing(values: seq<real>, buffer: seq<real>, ch: nat, maxCols: nat, start: nat, count: nat) returns (out: seq<real>)
    requires |values| == ch * maxCols && start < maxCols && count <= maxCols
    ensures out == SnapshotValues(values, ch, maxCols, start, count)
  {
    var size := count * ch;
    out := Resize(buffer, size);
    ghost var want := SnapshotValues(values, ch, maxCols, start, count);
    if count > 0 {
      var channel := 0;
      while channel < ch
        invariant 0 <= channel <= ch && |out| == size
        invariant forall d :: 0 <= d < channel * count ==> d < size && out[d] == want[d]
      {
        SlotInBounds(channel, ch, count);
        SlotInBounds(channel, ch, maxCols);
        var column := 0;
        while column < count
          invariant 0 <= column <= count && |out| == size
          invariant forall d :: 0 <= d < channel * count + column ==> d < size && out[d] == want[d]
        {
          var src := channel * maxCols + (start + column) % maxCols;
          var dst := channel * count + column;
          DivModUnique(dst, channel, count, column);
          assert SnapshotIndex(dst, ch, count, maxCols, start) == src;
          out := out[dst := values[src]];
          column := column + 1;
        }
        assert channel * count + count == (channel + 1) * count;
        channel := channel + 1;
      }
    }
    assert size == 0 || (count > 0 && ch * count == size);
  }

  /**
   * The write loop of flush_accumulated_samples for one of the two extrema
   * buffers: channel `c`'s value, when it has one, goes to slot
   * `c * stride + head`.
   */
  method WriteHeadSlots(values: seq<real>, stride: nat, head: nat, vals: seq<Option<real>>) returns (out: seq<real>)
    requires head < stride && |vals| * stride <= |values|
    ensures out == WriteSlots(values, stride, head, vals)
  {
    out := values;
    MulMonotone(0, |vals|, stride);
    var channel := 0;
    while channel < |vals|
      invariant 0 <= channel <= |vals| && channel * stride <= |values|
      invariant out == WriteSlots(values, stride, head, vals[..channel])
    {
      assert vals[..channel + 1][..channel] == vals[..channel];
      MulMonotone(channel + 1, |vals|, stride);
      if vals[channel].Some? {
        SlotInBounds(channel, |vals|, stride);
        out := out[channel * stride + head := vals[channel].value];
      }
      channel := channel + 1;
    }
    assert vals[..channel] == vals;
  }

  class WaveformProcessor {
    var config: Config
    var channelCount: nat
    var samplesPerColumn: nat
    var minValues: seq<real>
    var maxValues: seq<real>
    var ringHead: nat
    var columnCount: nat
    var totalColumnsWritten: nat
    var accumulators: seq<seq<real>>
    var accumulatorMin: seq<real>
    var accumulatorMax: seq<real>
    var hasPendingChanges: bool
    var snapshot: Snapshot

    function Ring(): Columns
      reads this
    {
      Columns(minValues, maxValues, ringHead, columnCount, totalColumnsWritten)
    }

    function Acc(): Accum
      reads this
    {
      Accum(accumulators, accumulatorMin, accumulatorMax)
    }

    ghost predicate Valid()
      reads this
    {
      Normal(config) && channelCount > 0
      && ColumnsOk(Ring(), channelCount, config.maxColumns) && AccumOk(Acc(), channelCount)
    }

    /** The snapshot shows the ring as sync_ring_to_snapshot copies it out. */
    ghost predicate SnapshotSynced()
      reads this
    {
      && Valid()
      && snapshot.channels == channelCount && snapshot.columns == columnCount
      && snapshot.lo == SnapshotValues(minValues, channelCount, config.maxColumns, Start(Ring(), config.maxColumns), columnCount)
      && snapshot.hi == SnapshotValues(maxValues, channelCount, config.maxColumns, Start(Ring(), config.maxColumns), columnCount)
      && snapshot.columnSpacingSeconds == 1.0 / config.scrollSpeed
    }

    /** allocate_buffers: ring storage resized to capacity x channels, accumulators emptied. */
    method AllocateBuffers()
      requires Normal(config) && channelCount > 0
      modifies this`minValues, this`maxValues, this`accumulators, this`accumulatorMin, this`accumulatorMax
      ensures minValues == Resize(old(minValues), config.maxColumns * channelCount)
      ensures maxValues == Resize(old(maxValues), config.maxColumns * channelCount)
      ensures Acc() == EmptyAccum(channelCount)
    {
      var capacity := config.maxColumns * channelCount;
      minValues := Resize(minValues, capacity);
      maxValues := Resize(maxValues, capacity);
      var empty := EmptyAccum(channelCount);
      accumulators, accumulatorMin, accumulatorMax := empty.samples, empty.lo, empty.hi;
    }

    constructor (cfg: Config)
      ensures Valid() && samplesPerColumn == SamplesPerColumn(config)
      ensures config == Normalized(cfg) && channelCount == 2
      ensures columnCount == 0 && ringHead == 0 && totalColumnsWritten == 0 && !hasPendingChanges
      ensures Acc() == EmptyAccum(2) && snapshot == EMPTY_SNAPSHOT
    {
      config := Normalized(cfg);
      samplesPerColumn := SamplesPerColumn(Normalized(cfg));
      channelCount := 2;
      minValues, maxValues := [], [];
      ringHead, columnCount, totalColumnsWritten := 0, 0, 0;
      hasPendingChanges := false;
      snapshot := EMPTY_SNAPSHOT;
      new;
      AllocateBuffers();
    }

    /** rebuild: an empty ring and empty accumulators for the current configuration. */
    method Rebuild()
      requires Normal(config) && channelCount > 0
      modifies this`samplesPerColumn, this`ringHead, this`columnCount, this`totalColumnsWritten, this`hasPendingChanges
      modifies this`minValues, this`maxValues, this`accumulators, this`accumulatorMin, this`accumulatorMax
      ensures Valid() && samplesPerColumn == SamplesPerColumn(config)
      ensures ringHead == 0 && columnCount == 0 && totalColumnsWritten == 0 && !hasPendingChanges
      ensures Ring() == Rebuilt(old(Ring()), channelCount, config.maxColumns)
      ensures Acc() == EmptyAccum(channelCount)
    {
      samplesPerColumn := SamplesPerColumn(config);
      ringHead, columnCount, totalColumnsWritten := 0, 0, 0;
      hasPendingChanges := false;
      AllocateBuffers();
    }

    /** flush_accumulated_samples */
    method FlushAccumulated()
      requires Valid()
      modifies this`minValues, this`maxValues, this`ringHead, this`columnCount, this`totalColumnsWritten
      modifies this`hasPendingChanges, this`accumulators, this`accumulatorMin, this`accumulatorMax
      ensures Valid() && hasPendingChanges
      ensures Ring() == Flush(old(Ring()), old(Acc()), channelCount, config.maxColumns)
      ensures Acc() == EmptyAccum(channelCount)
    {
      var maxColumns, head := config.maxColumns, ringHead;
      MulMonotone(channelCount, channelCount, maxColumns);
      var lo := WriteHeadSlots(minValues, maxColumns, head, FlushValues(Acc(), false));
      var hi := WriteHeadSlots(maxValues, maxColumns, head, FlushValues(Acc(), true));
      AdvanceHead(head, maxColumns);
      var empty := EmptyAccum(channelCount);
      minValues, maxValues, ringHead := lo, hi, (head + 1) % maxColumns;
      columnCount := Min(columnCount + 1, maxColumns);
      totalColumnsWritten := SaturatingAdd(totalColumnsWritten, 1, U64_MAX);
      hasPendingChanges := true;
      accumulators, accumulatorMin, accumulatorMax := empty.samples, empty.lo, empty.hi;
    }

    /** Folds one frame into the accumulators. */
    method AccumulateFrame(frame: seq<real>)
      requires Valid() && |frame| == channelCount
      modifies this`accumulators, this`accumulatorMin, this`accumulatorMax
      ensures Valid()
      ensures Acc() == AddFrame(old(Acc()), frame)
    {
      ghost var target := AddFrame(Acc(), frame);
      var channel := 0;
      while channel < channelCount
        invariant 0 <= channel <= channelCount && AccumOk(Acc(), channelCount)
        invariant forall c :: 0 <= c < channel ==>
          accumulators[c] == target.samples[c] && accumulatorMin[c] == target.lo[c] && accumulatorMax[c] == target.hi[c]
        invariant forall c :: channel <= c < channelCount ==>
          accumulators[c] == old(accumulators[c]) && accumulatorMin[c] == old(accumulatorMin[c])
          && accumulatorMax[c] == old(accumulatorMax[c])
      {
        var sample := frame[channel];
        accumulatorMin := accumulatorMin[channel := MinR(accumulatorMin[channel], sample)];
        accumulatorMax := accumulatorMax[channel := MaxR(accumulatorMax[channel], sample)];
        accumulators := accumulators[channel := accumulators[channel] + [sample]];
        channel := channel + 1;
      }
    }

    /** One frame of ingest_samples. */
    method IngestFrame(frame: seq<real>)
      requires Valid() && |frame| == channelCount
      modifies this`minValues, this`maxValues, this`ringHead, this`columnCount, this`totalColumnsWritten
      modifies this`hasPendingChanges, this`accumulators, this`accumulatorMin, this`accumulatorMax
      ensures Valid()
      ensures Progress(Ring(), Acc()) == StepFrame(old(Progress(Ring(), Acc())), frame, samplesPerColumn, config.maxColumns)
      ensures old(hasPendingChanges) ==> hasPendingChanges
      ensures !hasPendingChanges ==> Ring() == old(Ring())
    {
      AccumulateFrame(frame);
      if |accumulators[0]| >= samplesPerColumn {
        FlushAccumulated();
      }
    }

    /** Frame `f` of ingest_samples. */
    method IngestFrameAt(ghost p0: Progress, samples: seq<real>, f: nat)
      requires Valid() && f < |samples| / channelCount
      requires IngestedUpTo(p0, Progress(Ring(), Acc()), samples, channelCount, samplesPerColumn, config.maxColumns, f)
      modifies this`minValues, this`maxValues, this`ringHead, this`columnCount, this`totalColumnsWritten
      modifies this`hasPendingChanges, this`accumulators, this`accumulatorMin, this`accumulatorMax
      ensures Valid()
      ensures IngestedUpTo(p0, Progress(Ring(), Acc()), samples, channelCount, samplesPerColumn, config.maxColumns, f + 1)
      ensures old(hasPendingChanges) ==> hasPendingChanges
      ensures !hasPendingChanges ==> Ring() == old(Ring())
    {
      IngestFrame(AudioUtil.Frame(samples, channelCount, f));
    }

    /** ingest_samples: every complete frame, flushing whenever the first channel fills a column. */
    method IngestSamples(samples: seq<real>)
      requires Valid()
      modifies this`minValues, this`maxValues, this`ringHead, this`columnCount, this`totalColumnsWritten
      modifies this`hasPendingChanges, this`accumulators, this`accumulatorMin, this`accumulatorMax
      ensures Valid()
      ensures Ingested(Progress(old(Ring()), old(Acc())), Progress(Ring(), Acc()), samples,
        channelCount, samplesPerColumn, config.maxColumns)
      ensures old(hasPendingChanges) ==> hasPendingChanges
      ensures !hasPendingChanges ==> Ring() == old(Ring())
    {
      ghost var p0 := Progress(Ring(), Acc());
      var frames := |samples| / channelCount;
      var f := 0;
      while f < frames
        invariant 0 <= f <= frames && Valid()
        invariant IngestedUpTo(p0, Progress(Ring(), Acc()), samples, channelCount, samplesPerColumn, config.maxColumns, f)
        invariant old(hasPendingChanges) ==> hasPendingChanges
        invariant !hasPendingChanges ==> Ring() == old(Ring())
      {
        IngestFrameAt(p0, samples, f);
        f := f + 1;
      }
    }

    /** sync_ring_to_snapshot: copies the visible columns out oldest first and clears the pending flag. */
    method SyncRingToSnapshot()
      requires Valid()
      modifies this`snapshot, this`hasPendingChanges
      ensures Valid() && !hasPendingChanges && SnapshotSynced()
      ensures snapshot == old(snapshot).(
        channels := channelCount, columns := columnCount,
        lo := SnapshotValues(minValues, channelCount, config.maxColumns, Start(Ring(), config.maxColumns), columnCount),
        hi := SnapshotValues(maxValues, channelCount, config.maxColumns, Start(Ring(), config.maxColumns), columnCount),
        columnSpacingSeconds := 1.0 / config.scrollSpeed)
    {
      var start := if columnCount < config.maxColumns then 0 else ringHead;
      var lo := ReadRing(minValues, snapshot.lo, channelCount, config.maxColumns, start, columnCount);
      var hi := ReadRing(maxValues, snapshot.hi, channelCount, config.maxColumns, start, columnCount);
      snapshot := snapshot.(channels := channelCount, columns := columnCount, lo := lo, hi := hi,
        columnSpacingSeconds := 1.0 / config.scrollSpeed);
      hasPendingChanges := false;
    }

    /** The reconfiguration step of process_block: a new channel count or sample rate rebuilds the ring. */
    method Reconfigure(ch: nat, sr: real)
      requires Valid() && ch > 0 && sr >= 1.0
      modifies this`channelCount, this`config
      modifies this`samplesPerColumn, this`ringHead, this`columnCount, this`totalColumnsWritten, this`hasPendingChanges
      modifies this`minValues, this`maxValues, this`accumulators, this`accumulatorMin, this`accumulatorMax
      ensures Valid() && channelCount == ch && AbsR(config.sampleRate - sr) <= F32_EPSILON
      ensures old(channelCount) == ch && AbsR(old(config.sampleRate) - sr) <= F32_EPSILON ==>
        config == old(config) && samplesPerColumn == old(samplesPerColumn) && Ring() == old(Ring())
        && Acc() == old(Acc()) && hasPendingChanges == old(hasPendingChanges)
      ensures old(channelCount) != ch || AbsR(old(config.sampleRate) - sr) > F32_EPSILON ==>
        config == old(config).(sampleRate := sr) && samplesPerColumn == SamplesPerColumn(config)
        && Ring() == Rebuilt(old(Ring()), ch, config.maxColumns) && Acc() == EmptyAccum(ch) && !hasPendingChanges
    {
      if ch != channelCount || AbsR(config.sampleRate - sr) > F32_EPSILON {
        channelCount := ch;
        config := config.(sampleRate := sr);
        Rebuild();
      }
    }

    /** The end of process_block: the preview and the scroll position. */
    method PublishProgress()
      requires Valid()
      modifies this`snapshot
      ensures snapshot == old(snapshot).(preview := PreviewOf(Acc(), samplesPerColumn),
        scrollPosition := totalColumnsWritten as real + AccumulatorProgress(Acc(), samplesPerColumn))
    {
      snapshot := snapshot.(preview := PreviewOf(Acc(), samplesPerColumn));
      snapshot := snapshot.(scrollPosition := totalColumnsWritten as real + AccumulatorProgress(Acc(), samplesPerColumn));
    }

    /** The steps of process_block after reconfiguration: ingest, refresh the snapshot, publish progress. */
    method IngestAndPublish(samples: seq<real>)
      requires Valid()
      modifies this`minValues, this`maxValues, this`ringHead, this`columnCount, this`totalColumnsWritten
      modifies this`hasPendingChanges, this`accumulators, this`accumulatorMin, this`accumulatorMax, this`snapshot
      ensures Valid()
      ensures Ingested(Progress(old(Ring()), old(Acc())), Progress(Ring(), Acc()), samples,
        channelCount, samplesPerColumn, config.maxColumns)
      ensures snapshot.scrollPosition == totalColumnsWritten as real + AccumulatorProgress(Acc(), samplesPerColumn)
      ensures snapshot.preview == PreviewOf(Acc(), samplesPerColumn)
      ensures !hasPendingChanges
      ensures old(hasPendingChanges) || Ring() != old(Ring()) ==> SnapshotSynced()
      ensures SnapshotSynced() || snapshot == old(snapshot).(preview := snapshot.preview, scrollPosition := snapshot.scrollPosition)
    {
      IngestSamples(samples);
      if hasPendingChanges {
        SyncRingToSnapshot();
      }
      PublishProgress();
    }

    /** process_block for a block holding at least one frame. */
    method ProcessFrames(samples: seq<real>, ch: nat, sr: real)
      requires Valid() && ch > 0 && sr >= 1.0
      modifies this
      ensures Valid() && channelCount == ch && AbsR(config.sampleRate - sr) <= F32_EPSILON
      ensures (old(channelCount) == ch && AbsR(old(config.sampleRate) - sr) <= F32_EPSILON) ==>
        Ingested(Progress(old(Ring()), old(Acc())), Progress(Ring(), Acc()), samples,
          old(channelCount), old(samplesPerColumn), old(config.maxColumns))
      ensures (old(channelCount) != ch || AbsR(old(config.sampleRate) - sr) > F32_EPSILON) ==>
        config == old(config).(sampleRate := sr) && samplesPerColumn == SamplesPerColumn(config)
        && Ingested(Progress(Rebuilt(old(Ring()), ch, config.maxColumns), EmptyAccum(ch)), Progress(Ring(), Acc()), samples,
             ch, samplesPerColumn, config.maxColumns)
      ensures snapshot.scrollPosition == totalColumnsWritten as real + AccumulatorProgress(Acc(), samplesPerColumn)
      ensures snapshot.preview == PreviewOf(Acc(), samplesPerColumn)
      ensures !hasPendingChanges
      ensures ((old(channelCount) == ch && AbsR(old(config.sampleRate) - sr) <= F32_EPSILON)
               && (old(hasPendingChanges) || Ring() != old(Ring()))) ==> SnapshotSynced()
      ensures ((old(channelCount) != ch || AbsR(old(config.sampleRate) - sr) > F32_EPSILON)
               && Ring() != Rebuilt(old(Ring()), ch, config.maxColumns)) ==> SnapshotSynced()
      ensures SnapshotSynced() || snapshot == old(snapshot).(preview := snapshot.preview, scrollPosition := snapshot.scrollPosition)
    {
      Reconfigure(ch, sr);
      IngestAndPublish(samples);
    }

    /**
     * process_block: nothing for a block without a whole frame; otherwise
     * reconfigures on a change of channel count or sample rate, ingests the
     * frames, refreshes the snapshot and returns it.
     */
    method ProcessBlock(samples: seq<real>, channels: nat, sampleRate: real) returns (r: Option<Snapshot>)
      requires Valid()
      modifies this
      ensures Valid()
      ensures r.None? <==> |samples| / Max(channels, 1) == 0
      ensures r.None? ==> Ring() == old(Ring()) && Acc() == old(Acc()) && snapshot == old(snapshot)
      ensures r.Some? ==>
        (r.value == snapshot && channelCount == Max(channels, 1)
         && AbsR(config.sampleRate - MaxR(sampleRate, 1.0)) <= F32_EPSILON)
      ensures (r.Some? && old(channelCount) == Max(channels, 1)
               && AbsR(old(config.sampleRate) - MaxR(sampleRate, 1.0)) <= F32_EPSILON) ==>
        Ingested(Progress(old(Ring()), old(Acc())), Progress(Ring(), Acc()), samples,
          old(channelCount), old(samplesPerColumn), old(config.maxColumns))
      ensures (r.Some? && (old(channelCount) != Max(channels, 1)
               || AbsR(old(config.sampleRate) - MaxR(sampleRate, 1.0)) > F32_EPSILON)) ==>
        samplesPerColumn == SamplesPerColumn(config)
        && Ingested(Progress(Rebuilt(old(Ring()), Max(channels, 1), config.maxColumns), EmptyAccum(Max(channels, 1))),
             Progress(Ring(), Acc()), samples, Max(channels, 1), samplesPerColumn, config.maxColumns)
      ensures r.Some? ==>
        (snapshot.scrollPosition == totalColumnsWritten as real + AccumulatorProgress(Acc(), samplesPerColumn)
         && snapshot.preview == PreviewOf(Acc(), samplesPerColumn))
      ensures r.Some? ==> !hasPendingChanges
      ensures (r.Some? && old(channelCount) == Max(channels, 1)
               && AbsR(old(config.sampleRate) - MaxR(sampleRate, 1.0)) <= F32_EPSILON
               && (old(hasPendingChanges) || Ring() != old(Ring()))) ==> SnapshotSynced()
      ensures (r.Some? && (old(channelCount) != Max(channels, 1)
               || AbsR(old(config.sampleRate) - MaxR(sampleRate, 1.0)) > F32_EPSILON)
               && Ring() != Rebuilt(old(Ring()), Max(channels, 1), config.maxColumns)) ==> SnapshotSynced()
      ensures SnapshotSynced() || snapshot == old(snapshot).(preview := snapshot.preview, scrollPosition := snapshot.scrollPosition)
    {
      if |samples| / Max(channels, 1) == 0 {
        return None;
      }
      ProcessFrames(samples, Max(channels, 1), MaxR(sampleRate, 1.0));
      r := Some(snapshot);
    }

    /** reset: an empty snapshot and an empty ring. */
    method Reset()
      requires Valid()
      modifies this`snapshot
      modifies this`samplesPerColumn, this`ringHead, this`columnCount, this`totalColumnsWritten, this`hasPendingChanges
      modifies this`minValues, this`maxValues, this`accumulators, this`accumulatorMin, this`accumulatorMax
      ensures Valid() && snapshot == EMPTY_SNAPSHOT && columnCount == 0 && ringHead == 0
      ensures Acc() == EmptyAccum(channelCount) && config == old(config)
    {
      snapshot := EMPTY_SNAPSHOT;
      Rebuild();
    }

    /** update_config: a normalised configuration that differs in any field rebuilds the ring. */
    method UpdateConfig(cfg: Config)
      requires Valid()
      modifies this`config
      modifies this`samplesPerColumn, this`ringHead, this`columnCount, this`totalColumnsWritten, this`hasPendingChanges
      modifies this`minValues, this`maxValues, this`accumulators, this`accumulatorMin, this`accumulatorMax
      ensures Valid() && config == Normalized(cfg)
      ensures old(config) == Normalized(cfg) ==> Ring() == old(Ring()) && Acc() == old(Acc())
      ensures old(config) != Normalized(cfg) ==> columnCount == 0 && ringHead == 0 && Acc() == EmptyAccum(channelCount)
    {
      var normalized := Normalized(cfg);
      if config != normalized {
        config := normalized;
        Rebuild();
      }
    }
  }
}

// The scrolling waveform view state (src/ui/visualization/waveform.rs):
// projection of a snapshot onto the channel mode, the newest columns that
// fit the width, the per-channel frequency hint of the preview column and
// the column capacity requested from the processor.
module WaveformView {
  import opened Base
  import opened SettingsVisuals
  import opened Theme
  import Visualization
  import WaveformDsp

  /** The width of one column in pixels. */
  const COLUMN_PX: real := 2.0

  /** The column still being filled: its progress and per-channel extrema. */
  datatype Preview = Preview(progress: real, lo: seq<real>, hi: seq<real>)

  const EMPTY_PREVIEW: Preview := Preview(0.0, [], [])

  /**
   * A waveform snapshot: `columns` columns per channel, channel after
   * channel, of minimum, maximum and normalised dominant frequency.
   */
  datatype Snapshot = Snapshot(
    channels: nat,
    columns: nat,
    lo: seq<real>,
    hi: seq<real>,
    freq: seq<real>,
    columnSpacingSeconds: real,
    scrollPosition: real,
    preview: Preview)

  const EMPTY_SNAPSHOT: Snapshot := Snapshot(0, 0, [], [], [], 0.0, 0.0, EMPTY_PREVIEW)

  /** One emitted column of one channel: its lower and upper extent. */
  type Pair = (real, real)

  /** A preview column as drawn: clamped extrema and the colour of the channel's frequency hint. */
  datatype PreviewSample = PreviewSample(lo: real, hi: real, color: GradientSample)

  /** What the renderer is handed. */
  datatype Params = Params(
    channels: nat,
    columns: nat,
    samples: seq<Pair>,
    colors: seq<GradientSample>,
    preview: seq<PreviewSample>,
    previewProgress: real)

  /** The smallest integer not below x. */
  function Ceil(x: real): (r: int)
    ensures x <= r as real < x + 1.0
  {
    -((-x).Floor)
  }

  /** The columns a width asks for: one per two pixels, rounded up, within [1, 16384]. */
  function DesiredColumns(width: real): (r: nat)
    ensures 1 <= r <= WaveformDsp.MAX_COLUMN_CAPACITY
    ensures width > 0.0 && Ceil(width / COLUMN_PX) <= WaveformDsp.MAX_COLUMN_CAPACITY ==>
      r as real * COLUMN_PX >= width && (r as real - 1.0) * COLUMN_PX < width
  {
    Clamp(Ceil(width / COLUMN_PX), 1, WaveformDsp.MAX_COLUMN_CAPACITY)
  }

  /**
   * sync_capacity: the processor's column capacity becomes the desired
   * columns clamped to [512, 16384]; nothing else changes.
   */
  function SyncCapacity(desired: nat, cfg: WaveformDsp.Config): (r: WaveformDsp.Config)
    ensures WaveformDsp.MIN_COLUMN_CAPACITY <= r.maxColumns <= WaveformDsp.MAX_COLUMN_CAPACITY
    ensures WaveformDsp.MIN_COLUMN_CAPACITY <= desired <= WaveformDsp.MAX_COLUMN_CAPACITY ==> r.maxColumns == desired
    ensures r.sampleRate == cfg.sampleRate && r.scrollSpeed == cfg.scrollSpeed
  {
    var target := Clamp(desired, WaveformDsp.MIN_COLUMN_CAPACITY, WaveformDsp.MAX_COLUMN_CAPACITY);
    if cfg.maxColumns != target then cfg.(maxColumns := target) else cfg
  }

  /** Syncing twice is syncing once. */
  lemma SyncCapacityIdempotent(desired: nat, cfg: WaveformDsp.Config)
    ensures SyncCapacity(desired, SyncCapacity(desired, cfg)) == SyncCapacity(desired, cfg)
  {
  }

  /** Every column vector holds at least channels x columns values (what project demands). */
  predicate LongEnough(s: Snapshot)
  {
    var exp := Max(s.channels, 1) * s.columns;
    s.columns > 0 && |s.lo| >= exp && |s.hi| >= exp && |s.freq| >= exp
  }

  /** Every column vector holds exactly channels x columns values (what visual demands). */
  predicate Consistent(s: Snapshot)
  {
    var exp := s.columns * Max(s.channels, 1);
    s.columns > 0 && |s.lo| == exp && |s.hi| == exp && |s.freq| == exp
  }

  /**
   * project: a snapshot with no columns or a short vector becomes the
   * empty snapshot; otherwise every vector is projected onto the channel
   * mode, the preview only when it covers every channel.
   */
  function Project(src: Snapshot, mode: ChannelMode): (r: Snapshot)
    ensures !LongEnough(src) ==> r == EMPTY_SNAPSHOT
    ensures LongEnough(src) ==>
      r.channels == OutputChannels(mode, Max(src.channels, 1)) && r.columns == src.columns
      && r.lo == Visualization.ProjectChannelData(mode, src.lo, src.columns, Max(src.channels, 1))
      && r.hi == Visualization.ProjectChannelData(mode, src.hi, src.columns, Max(src.channels, 1))
      && r.freq == Visualization.ProjectChannelData(mode, src.freq, src.columns, Max(src.channels, 1))
      && r.columnSpacingSeconds == src.columnSpacingSeconds && r.scrollPosition == src.scrollPosition
    ensures LongEnough(src) && !(|src.preview.lo| >= Max(src.channels, 1) && |src.preview.hi| >= Max(src.channels, 1)) ==>
      r.preview == EMPTY_PREVIEW
  {
    var ch, cols := Max(src.channels, 1), src.columns;
    if !LongEnough(src) then EMPTY_SNAPSHOT
    else
      var p := src.preview;
      var pvOk := |p.lo| >= ch && |p.hi| >= ch;
      Snapshot(
        OutputChannels(mode, ch), cols,
        Visualization.ProjectChannelData(mode, src.lo, cols, ch),
        Visualization.ProjectChannelData(mode, src.hi, cols, ch),
        Visualization.ProjectChannelData(mode, src.freq, cols, ch),
        src.columnSpacingSeconds, src.scrollPosition,
        if pvOk then
          Preview(p.progress, Visualization.ProjectChannelData(mode, p.lo, 1, ch),
                  Visualization.ProjectChannelData(mode, p.hi, 1, ch))
        else EMPTY_PREVIEW)
  }

  /** Projecting a consistent snapshot gives a consistent snapshot, so the view can draw it. */
  lemma ProjectKeepsConsistent(src: Snapshot, mode: ChannelMode)
    requires Consistent(src)
    ensures Consistent(Project(src, mode))
  {
    var ch, cols := Max(src.channels, 1), src.columns;
    assert cols * ch == ch * cols;
    Visualization.ProjectedLength(mode, src.lo, cols, ch);
    Visualization.ProjectedLength(mode, src.hi, cols, ch);
    Visualization.ProjectedLength(mode, src.freq, cols, ch);
    var r := Project(src, mode);
    assert r.channels >= 1;
    assert Max(r.channels, 1) == r.channels;
    assert r.columns * r.channels == r.channels * cols;
  }

  /** The last positive value of `s`, or 0 when there is none. */
  function LastPositive(s: seq<real>): (r: real)
    ensures r == 0.0 <==> forall k | 0 <= k < |s| :: s[k] <= 0.0
    ensures r != 0.0 ==> r > 0.0 && exists k | 0 <= k < |s| :: s[k] == r && forall j | k < j < |s| :: s[j] <= 0.0
  {
    if s == [] then 0.0
    else if s[|s| - 1] > 0.0 then s[|s| - 1]
    else
      var r := LastPositive(s[..|s| - 1]);
      assert forall k | 0 <= k < |s| - 1 :: s[..|s| - 1][k] == s[k];
      r
  }

  /**
   * freq_hint: the newest positive frequency in channel `ch`'s columns, or
   * 0 when there are no columns, the channel lies past the data or none is
   * positive.
   */
  function FreqHint(s: Snapshot, ch: nat): (r: real)
    ensures r >= 0.0
    ensures s.columns == 0 || (ch + 1) * s.columns > |s.freq| ==> r == 0.0
    ensures s.columns > 0 && (ch + 1) * s.columns <= |s.freq| ==>
      r == LastPositive(s.freq[ch * s.columns..(ch + 1) * s.columns])
  {
    var c := s.columns;
    if c == 0 || (ch + 1) * c > |s.freq| then 0.0
    else
      assert ch * c <= (ch + 1) * c;
      LastPositive(s.freq[ch * c..(ch + 1) * c])
  }

  /**
   * The source positions of the emitted columns: for each of `ch`
   * channels in turn, its columns from `start` to the last.
   */
  function TailIndices(ch: nat, cols: nat, start: nat): (r: seq<nat>)
    requires start <= cols
    ensures |r| == ch * (cols - start)
    ensures forall k | 0 <= k < |r| :: r[k] < ch * cols
  {
    if ch == 0 then []
    else
      var prev := TailIndices(ch - 1, cols, start);
      var base := (ch - 1) * cols;
      assert ch * (cols - start) == (ch - 1) * (cols - start) + (cols - start);
      assert ch * cols == base + cols;
      prev + ChannelIndices(base, start, cols)
  }

  /** Columns start..end-1 of the channel whose data begins at `base`. */
  function ChannelIndices(base: nat, start: nat, end: nat): (r: seq<nat>)
    requires start <= end
    ensures |r| == end - start
    ensures forall j | 0 <= j < |r| :: r[j] == base + start + j
  {
    seq(end - start, j requires 0 <= j < end - start => base + start + j)
  }

  /** Column j of the visible tail of channel ci comes from column start + j of that channel. */
  lemma {:induction false} TailIndexAt(ch: nat, cols: nat, start: nat, ci: nat, j: nat)
    requires start <= cols && ci < ch && j < cols - start
    ensures ci * (cols - start) + j < |TailIndices(ch, cols, start)|
    ensures TailIndices(ch, cols, start)[ci * (cols - start) + j] == ci * cols + start + j
  {
    var w := cols - start;
    SlotInBounds(ci, ch, w);
    if ci < ch - 1 {
      TailIndexAt(ch - 1, cols, start, ci, j);
      SlotInBounds(ci, ch - 1, w);
    } else {
      assert |TailIndices(ch - 1, cols, start)| == ci * w;
    }
  }

  /** A column's extent: the smaller and the larger of its two extrema. */
  function PairAt(lo: seq<real>, hi: seq<real>, idx: nat): (p: Pair)
    requires idx < |lo| && idx < |hi|
    ensures p.0 <= p.1
    ensures {p.0, p.1} == {lo[idx], hi[idx]}
  {
    (MinR(lo[idx], hi[idx]), MaxR(lo[idx], hi[idx]))
  }

  predicate IndicesBelow(idx: seq<nat>, n: nat)
  {
    forall k | 0 <= k < |idx| :: idx[k] < n
  }

  /** The extents of the given columns, in order. */
  function Pairs(lo: seq<real>, hi: seq<real>, idx: seq<nat>): (r: seq<Pair>)
    requires IndicesBelow(idx, |lo|) && IndicesBelow(idx, |hi|)
    ensures |r| == |idx|
    ensures forall k | 0 <= k < |idx| :: r[k] == PairAt(lo, hi, idx[k])
  {
    seq(|idx|, k requires 0 <= k < |idx| => PairAt(lo, hi, idx[k]))
  }

  lemma PairsAppend(lo: seq<real>, hi: seq<real>, a: seq<nat>, b: seq<nat>)
    requires IndicesBelow(a, |lo|) && IndicesBelow(a, |hi|) && IndicesBelow(b, |lo|) && IndicesBelow(b, |hi|)
    ensures IndicesBelow(a + b, |lo|) && IndicesBelow(a + b, |hi|)
    ensures Pairs(lo, hi, a + b) == Pairs(lo, hi, a) + Pairs(lo, hi, b)
  {
  }

  /** The frequency colours of the given columns, in order. */
  function Colors(palette: seq<Color>, freq: seq<real>, idx: seq<nat>): (r: seq<GradientSample>)
    requires IndicesBelow(idx, |freq|)
    ensures |r| == |idx|
    ensures forall k | 0 <= k < |idx| :: r[k] == SampleGradient(palette, freq[idx[k]])
  {
    seq(|idx|, k requires 0 <= k < |idx| => SampleGradient(palette, freq[idx[k]]))
  }

  lemma ColorsAppend(palette: seq<Color>, freq: seq<real>, a: seq<nat>, b: seq<nat>)
    requires IndicesBelow(a, |freq|) && IndicesBelow(b, |freq|)
    ensures IndicesBelow(a + b, |freq|)
    ensures Colors(palette, freq, a + b) == Colors(palette, freq, a) + Colors(palette, freq, b)
  {
  }

  /** The extents of columns start..end-1 of one channel: the inner loop. */
  method ChannelPairs(lo: seq<real>, hi: seq<real>, base: nat, start: nat, end: nat) returns (out: seq<Pair>)
    requires start <= end && base + end <= |lo| && base + end <= |hi|
    ensures out == Pairs(lo, hi, ChannelIndices(base, start, end))
  {
    out := [];
    for i := start to end
      invariant out == Pairs(lo, hi, ChannelIndices(base, start, i))
    {
      out := out + [PairAt(lo, hi, base + i)];
    }
  }

  /** The frequency colours of columns start..end-1 of one channel: the inner loop. */
  method ChannelColors(palette: seq<Color>, freq: seq<real>, base: nat, start: nat, end: nat) returns (out: seq<GradientSample>)
    requires start <= end && base + end <= |freq|
    ensures out == Colors(palette, freq, ChannelIndices(base, start, end))
  {
    out := [];
    for i := start to end
      invariant out == Colors(palette, freq, ChannelIndices(base, start, i))
    {
      out := out + [SampleGradient(palette, freq[base + i])];
    }
  }

  /** The first ci channels' tail lies inside data of ch channels when ci <= ch. */
  lemma TailBelow(ci: nat, ch: nat, cols: nat, start: nat)
    requires ci <= ch && start <= cols
    ensures IndicesBelow(TailIndices(ci, cols, start), ch * cols)
  {
    MulMonotone(ci, ch, cols);
  }

  /** One step of the outer loop: channel `ci`'s columns from `start` on join the extents. */
  method AppendChannelPairs(lo: seq<real>, hi: seq<real>, ch: nat, cols: nat, start: nat, ci: nat, out: seq<Pair>)
    returns (out': seq<Pair>)
    requires ci < ch && start <= cols && |lo| == ch * cols && |hi| == ch * cols
    requires IndicesBelow(TailIndices(ci, cols, start), |lo|) && IndicesBelow(TailIndices(ci, cols, start), |hi|)
    requires out == Pairs(lo, hi, TailIndices(ci, cols, start))
    ensures IndicesBelow(TailIndices(ci + 1, cols, start), |lo|) && IndicesBelow(TailIndices(ci + 1, cols, start), |hi|)
    ensures out' == Pairs(lo, hi, TailIndices(ci + 1, cols, start))
  {
    SlotInBounds(ci, ch, cols);
    TailBelow(ci + 1, ch, cols, start);
    ghost var done := TailIndices(ci, cols, start);
    ghost var next := ChannelIndices(ci * cols, start, cols);
    assert IndicesBelow(next, |lo|);
    var part := ChannelPairs(lo, hi, ci * cols, start, cols);
    PairsAppend(lo, hi, done, next);
    out' := out + part;
    assert TailIndices(ci + 1, cols, start) == done + next;
  }

  /** The extents of the visible tail: channel after channel, its columns from `start` on. */
  method TailPairs(lo: seq<real>, hi: seq<real>, ch: nat, cols: nat, start: nat) returns (out: seq<Pair>)
    requires start <= cols && |lo| == ch * cols && |hi| == ch * cols
    ensures out == Pairs(lo, hi, TailIndices(ch, cols, start))
  {
    out := [];
    for ci := 0 to ch
      invariant IndicesBelow(TailIndices(ci, cols, start), |lo|) && IndicesBelow(TailIndices(ci, cols, start), |hi|)
      invariant out == Pairs(lo, hi, TailIndices(ci, cols, start))
    {
      out := AppendChannelPairs(lo, hi, ch, cols, start, ci, out);
    }
  }

  /** One step of the outer loop: channel `ci`'s columns from `start` on join the colours. */
  method AppendChannelColors(palette: seq<Color>, freq: seq<real>, ch: nat, cols: nat, start: nat, ci: nat, out: seq<GradientSample>)
    returns (out': seq<GradientSample>)
    requires ci < ch && start <= cols && |freq| == ch * cols
    requires IndicesBelow(TailIndices(ci, cols, start), |freq|)
    requires out == Colors(palette, freq, TailIndices(ci, cols, start))
    ensures IndicesBelow(TailIndices(ci + 1, cols, start), |freq|)
    ensures out' == Colors(palette, freq, TailIndices(ci + 1, cols, start))
  {
    SlotInBounds(ci, ch, cols);
    TailBelow(ci + 1, ch, cols, start);
    ghost var done := TailIndices(ci, cols, start);
    ghost var next := ChannelIndices(ci * cols, start, cols);
    assert IndicesBelow(next, |freq|);
    var part := ChannelColors(palette, freq, ci * cols, start, cols);
    ColorsAppend(palette, freq, done, next);
    out' := out + part;
    assert TailIndices(ci + 1, cols, start) == done + next;
  }

  /** The frequency colours of the visible tail, in the same order as its extents. */
  method TailColors(palette: seq<Color>, freq: seq<real>, ch: nat, cols: nat, start: nat) returns (out: seq<GradientSample>)
    requires start <= cols && |freq| == ch * cols
    ensures out == Colors(palette, freq, TailIndices(ch, cols, start))
  {
    out := [];
    for ci := 0 to ch
      invariant IndicesBelow(TailIndices(ci, cols, start), |freq|)
      invariant out == Colors(palette, freq, TailIndices(ci, cols, start))
    {
      out := AppendChannelColors(palette, freq, ch, cols, start, ci, out);
    }
  }

  /** Whether the preview column is drawn: it has progress and covers every channel. */
  predicate PreviewOk(s: Snapshot)
  {
    s.preview.progress > 0.0 && |s.preview.lo| >= Max(s.channels, 1) && |s.preview.hi| >= Max(s.channels, 1)
  }

  /** Preview column ci as drawn: extrema ordered and clamped to [-1, 1], coloured by the channel's frequency hint. */
  function PreviewAt(s: Snapshot, palette: seq<Color>, ci: nat): (p: PreviewSample)
    requires ci < |s.preview.lo| && ci < |s.preview.hi|
    ensures -1.0 <= p.lo <= p.hi <= 1.0
  {
    var v0, v1 := s.preview.lo[ci], s.preview.hi[ci];
    PreviewSample(ClampR(MinR(v0, v1), -1.0, 1.0), ClampR(MaxR(v0, v1), -1.0, 1.0),
                  SampleGradient(palette, FreqHint(s, ci)))
  }

  /** WaveformState: the projected snapshot, the palette, the channel mode and the render caches. */
  class WaveformState {
    var snapshot: Snapshot
    var palette: seq<Color>
    var chMode: ChannelMode
    var key: nat
    /** The column count the last draw asked for (shared with the processor). */
    var desiredCols: nat
    var cacheSamples: seq<Pair>
    var cacheColors: seq<GradientSample>
    var cachePreview: seq<PreviewSample>

    /** new: an empty snapshot, the default palette and channel mode, 4096 columns wanted. */
    constructor (defaultPalette: seq<Color>, key: nat)
      ensures snapshot == EMPTY_SNAPSHOT && palette == defaultPalette && chMode == DEFAULT_CHANNEL_MODE
      ensures desiredCols == WaveformDsp.DEFAULT_COLUMN_CAPACITY && this.key == key
      ensures cacheSamples == [] && cacheColors == [] && cachePreview == []
    {
      snapshot, palette, chMode, this.key := EMPTY_SNAPSHOT, defaultPalette, DEFAULT_CHANNEL_MODE, key;
      desiredCols := WaveformDsp.DEFAULT_COLUMN_CAPACITY;
      cacheSamples, cacheColors, cachePreview := [], [], [];
    }

    /** apply_snapshot: keep the snapshot projected onto the current channel mode. */
    method ApplySnapshot(s: Snapshot)
      modifies this`snapshot
      ensures snapshot == Project(s, chMode)
    {
      snapshot := Project(s, chMode);
    }

    /** set_channel_mode: a different mode re-projects the held snapshot; the same mode changes nothing. */
    method SetChannelMode(m: ChannelMode)
      modifies this`chMode, this`snapshot
      ensures chMode == m
      ensures snapshot == (if old(chMode) != m then Project(old(snapshot), m) else old(snapshot))
    {
      if chMode != m {
        chMode := m;
        snapshot := Project(snapshot, m);
      }
    }

    /** set_palette: a different palette replaces the held one; the instance key is renewed either way. */
    method SetPalette(p: seq<Color>, nextKey: nat)
      modifies this`palette, this`key
      ensures palette == (if PalettesEqual(old(palette), p) then old(palette) else p)
      ensures key == nextKey
    {
      if !PalettesEqual(palette, p) {
        palette := p;
      }
      key := nextKey;
    }

    /** The preview column of every channel, when it is drawn. */
    method EmitPreview(ch: nat) returns (out: seq<PreviewSample>)
      requires ch == Max(snapshot.channels, 1)
      ensures !PreviewOk(snapshot) ==> out == []
      ensures PreviewOk(snapshot) ==> |out| == ch && forall ci | 0 <= ci < ch :: out[ci] == PreviewAt(snapshot, palette, ci)
    {
      out := [];
      if PreviewOk(snapshot) {
        for ci := 0 to ch
          invariant |out| == ci && forall k | 0 <= k < ci :: out[k] == PreviewAt(snapshot, palette, k)
        {
          out := out + [PreviewAt(snapshot, palette, ci)];
        }
      }
    }

    /**
     * visual: nothing for a width of zero or less. Otherwise the desired
     * column count is recorded; an inconsistent snapshot draws nothing; a
     * consistent one draws the newest min(desired, columns) columns of
     * every channel, their frequency colours and the preview column.
     */
    method Visual(width: real) returns (r: Option<Params>)
      modifies this`desiredCols, this`cacheSamples, this`cacheColors, this`cachePreview
      ensures width <= 0.0 ==> r.None? && desiredCols == old(desiredCols)
      ensures width > 0.0 ==> desiredCols == DesiredColumns(width)
      ensures width > 0.0 ==> (r.Some? <==> Consistent(snapshot))
      ensures r.Some? ==>
        var ch, cols := Max(snapshot.channels, 1), snapshot.columns;
        var vis := Min(desiredCols, cols);
        var idx := TailIndices(ch, cols, cols - vis);
        r.value.channels == ch && r.value.columns == vis
        && r.value.samples == Pairs(snapshot.lo, snapshot.hi, idx) && r.value.samples == cacheSamples
        && r.value.colors == Colors(palette, snapshot.freq, idx) && r.value.colors == cacheColors
        && r.value.preview == cachePreview
        && (PreviewOk(snapshot) ==> |r.value.preview| == ch && r.value.previewProgress == ClampR(snapshot.preview.progress, 0.0, 1.0))
        && (!PreviewOk(snapshot) ==> r.value.preview == [] && r.value.previewProgress == 0.0)
    {
      var ch, cols := Max(snapshot.channels, 1), snapshot.columns;
      if width <= 0.0 {
        return None;
      }
      var need := DesiredColumns(width);
      desiredCols := need;
      if !Consistent(snapshot) {
        return None;
      }
      var vis := Min(need, cols);
      var start := cols - vis;
      assert cols * ch == ch * cols;
      var samples := TailPairs(snapshot.lo, snapshot.hi, ch, cols, start);
      var colors := TailColors(palette, snapshot.freq, ch, cols, start);
      cacheSamples, cacheColors := samples, colors;
      var prog := if PreviewOk(snapshot) then ClampR(snapshot.preview.progress, 0.0, 1.0) else 0.0;
      var preview := EmitPreview(ch);
      cachePreview := preview;
      r := Some(Params(ch, vis, samples, colors, preview, prog));
    }
  }

  /**
   * The emitted columns are exactly the newest min(desired, columns) of
   * each channel: entry ci * vis + j is column cols - vis + j of channel ci,
   * and every entry's lower extent is at most its upper one.
   */
  lemma TailWithin(ch: nat, cols: nat, start: nat, n: nat)
    requires start <= cols && n == ch * cols
    ensures IndicesBelow(TailIndices(ch, cols, start), n)
  {
  }

  lemma PairOrderedAt(lo: seq<real>, hi: seq<real>, idx: seq<nat>, k: nat)
    requires IndicesBelow(idx, |lo|) && IndicesBelow(idx, |hi|) && k < |idx|
    ensures Pairs(lo, hi, idx)[k].0 <= Pairs(lo, hi, idx)[k].1
  {
  }

  lemma VisibleTail(s: Snapshot, desired: nat, ci: nat, j: nat)
    requires Consistent(s) && ci < Max(s.channels, 1)
    requires j < Min(desired, s.columns)
    ensures var ch, cols := Max(s.channels, 1), s.columns;
      var vis := Min(desired, cols);
      var idx := TailIndices(ch, cols, cols - vis);
      ci * vis + j < |idx| && idx[ci * vis + j] == ci * cols + (cols - vis) + j
      && Pairs(s.lo, s.hi, idx)[ci * vis + j].0 <= Pairs(s.lo, s.hi, idx)[ci * vis + j].1
  {
    var ch, cols := Max(s.channels, 1), s.columns;
    var vis := Min(desired, cols);
    var start := cols - vis;
    TailIndexAt(ch, cols, start, ci, j);
    TailWithin(ch, cols, start, |s.lo|);
    TailWithin(ch, cols, start, |s.hi|);
    PairOrderedAt(s.lo, s.hi, TailIndices(ch, cols, start), ci * vis + j);
  }
}

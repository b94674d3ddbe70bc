// The spectrogram view's history (src/ui/visualization/spectrogram.rs): a
// ring of `capacity` columns of `height` normalised magnitudes, written one
// column at a time at `writeIdx`, with the uploads it owes the GPU (a full
// base image or a batch of column updates), the mapping from display rows to
// FFT bins, the vertical zoom window and the floor setting.
//
// Frequency scales (log, mel, ...) are not modelled: the caller supplies
// `rowPos(height, row)`, the unclamped FFT-bin position of a display row.
// Instant::now() is the `now` parameter, in seconds.
module SpectrogramView {
  import opened Base
  import Theme
  import AudioUtil
  import SpectrogramRender

  type ColumnUpdate = SpectrogramRender.ColumnUpdate

  const DB_CEILING: real := 0.0
  const MAX_TEXTURE_BINS: nat := 8192
  const MIN_ZOOM: real := 1.0
  const MAX_ZOOM: real := 32.0
  /** A batch of pending column updates is replaced by a base image once it reaches this size (or capacity / 2). */
  const MIN_PENDING_BATCH: nat := 16

  datatype Style = Style(background: Color, floorDb: real, ceilingDb: real, opacity: real, contrast: real)

  function DefaultStyle(): Style
  {
    Style(Theme.WithAlpha(Theme.BG_BASE, 0.0), AudioUtil.DB_FLOOR, DB_CEILING, 0.95, 1.4)
  }

  /** SpectrogramUpdate, each column reduced to its magnitudes (dB). */
  datatype Update = Update(
    fftSize: nat,
    sampleRate: real,
    historyLength: nat,
    reset: bool,
    displayBinsHz: Option<seq<real>>,
    newColumns: seq<seq<real>>)

  // -------------------------------------------------------------------
  // Row-to-bin mapping

  /** For each display row: the two FFT bins it blends and the weight of the upper one. */
  datatype BinMapping = BinMapping(lower: seq<nat>, upper: seq<nat>, weight: seq<real>)

  predicate MappingFits(m: BinMapping, h: nat)
  {
    |m.lower| == h && |m.upper| == h && |m.weight| == h
  }

  /**
   * BinMapping::new: empty for height 0; the identity for passthrough;
   * otherwise each row's position is clamped into [0, fft/2] and split into
   * a floor bin, the next bin (capped at fft/2) and the fractional weight.
   */
  function NewBinMapping(height: nat, fftSize: nat, rowPos: seq<real>, passthrough: bool): (m: BinMapping)
    requires |rowPos| == height
    ensures MappingFits(m, height)
    ensures passthrough ==> forall i :: 0 <= i < height ==>
      m.lower[i] == i && m.upper[i] == i && m.weight[i] == 0.0
    ensures !passthrough ==> forall i :: 0 <= i < height ==>
      m.lower[i] <= m.upper[i] <= fftSize / 2 && m.upper[i] <= m.lower[i] + 1
      && 0.0 <= m.weight[i] < 1.0
      && m.lower[i] as real + m.weight[i] == ClampR(rowPos[i], 0.0, (fftSize / 2) as real)
  {
    if height == 0 then BinMapping([], [], [])
    else if passthrough then BinMapping(seq(height, i => i), seq(height, i => i), seq(height, _ => 0.0))
    else
      var maxBin := (fftSize / 2) as real;
      var lower := seq(height, i requires 0 <= i < height => ToNat(ClampR(rowPos[i], 0.0, maxBin)));
      BinMapping(
        lower,
        seq(height, i requires 0 <= i < height => Min(lower[i] + 1, fftSize / 2)),
        seq(height, i requires 0 <= i < height => ClampR(rowPos[i], 0.0, maxBin) - lower[i] as real))
  }

  // -------------------------------------------------------------------
  // Column normalisation

  lemma ScaleUnit(x: real, m: real)
    requires 0.0 <= x <= m && m > 0.0
    ensures 0.0 <= x * (1.0 / m) <= 1.0
  {
    assert x * (1.0 / m) == x / m;
  }

  /**
   * A magnitude clamped into [floor, ceiling] and scaled by the inverse
   * span (at least f32::EPSILON): always in [0, 1], 0 at or below the floor,
   * and 1 at or above the ceiling when the span is not degenerate.
   */
  function Normalize(v: real, style: Style): (r: real)
    requires style.floorDb <= style.ceilingDb
    ensures 0.0 <= r <= 1.0
    ensures v <= style.floorDb ==> r == 0.0
    ensures style.ceilingDb - style.floorDb >= F32_EPSILON ==>
      r * (style.ceilingDb - style.floorDb) == ClampR(v, style.floorDb, style.ceilingDb) - style.floorDb
  {
    var span := MaxR(style.ceilingDb - style.floorDb, F32_EPSILON);
    var x := ClampR(v, style.floorDb, style.ceilingDb) - style.floorDb;
    ScaleUnit(x, span);
    x * (1.0 / span)
  }

  /** The magnitude a row reads: a blend of its two bins, each index capped at the last bin. */
  function RowMagnitude(mags: seq<real>, m: BinMapping, i: nat): real
    requires |mags| > 0 && i < |m.lower| && i < |m.upper| && i < |m.weight|
  {
    var n := |mags|;
    AudioUtil.Lerp(mags[Min(m.lower[i], n - 1)], mags[Min(m.upper[i], n - 1)], m.weight[i])
  }

  /**
   * The column push_column stores: one normalised value per row. Under a
   * passthrough mapping each row is just the normalised magnitude of its bin.
   */
  function ColumnValues(mags: seq<real>, m: BinMapping, style: Style, h: nat): (r: seq<real>)
    requires MappingFits(m, h) && |mags| >= h && style.floorDb <= style.ceilingDb
    ensures |r| == h
    ensures forall i :: 0 <= i < h ==> 0.0 <= r[i] <= 1.0
    ensures forall i :: 0 <= i < h && m.lower[i] == i && m.upper[i] == i ==>
      r[i] == Normalize(mags[i], style)
  {
    seq(h, i requires 0 <= i < h => Normalize(RowMagnitude(mags, m, i), style))
  }

  // -------------------------------------------------------------------
  // The ring

  /** The ring's contents: column `c` occupies `values[c * h .. c * h + h]`. */
  datatype Ring = Ring(values: seq<real>, writeIdx: nat, colCount: nat)

  predicate AllUnit(s: seq<real>)
  {
    forall i :: 0 <= i < |s| ==> 0.0 <= s[i] <= 1.0
  }

  predicate RingOk(r: Ring, cap: nat, h: nat)
  {
    cap > 0 && h > 0 && |r.values| == cap * h && r.writeIdx < cap && r.colCount <= cap
    && AllUnit(r.values)
  }

  function EmptyRing(cap: nat, h: nat): (r: Ring)
    requires cap > 0 && h > 0
    ensures RingOk(r, cap, h) && r.writeIdx == 0 && r.colCount == 0
  {
    Ring(seq(cap * h, _ => 0.0), 0, 0)
  }

  /**
   * latest_column: 0 for an empty ring, else the slot just before the
   * write index (cyclically), i.e. the slot that was written last.
   */
  function LatestColumn(writeIdx: nat, colCount: nat, cap: nat): (r: nat)
    requires colCount <= cap && (cap > 0 ==> writeIdx < cap)
    ensures colCount == 0 ==> r == 0
    ensures colCount > 0 ==> r < cap && (r + 1) % cap == writeIdx
    ensures colCount > 0 ==> r == (if writeIdx == 0 then cap - 1 else writeIdx - 1)
  {
    if colCount == 0 then 0
    else
      var r := (writeIdx + cap - 1) % cap;
      if writeIdx == 0 then
        ModSmall(cap - 1, cap);
        DivModUnique(cap, 1, cap, 0);
        r
      else
        ModSmall(writeIdx - 1, cap);
        ModSmall(writeIdx, cap);
        DivModUnique(writeIdx + cap - 1, 1, cap, writeIdx - 1);
        r
  }

  /** The write index wraps to 0 after the last slot. */
  lemma AdvanceIndex(w: nat, cap: nat)
    requires w < cap
    ensures (w + 1) % cap == (if w + 1 < cap then w + 1 else 0)
  {
    if w + 1 < cap {
      ModSmall(w + 1, cap);
    } else {
      DivModUnique(w + 1, 1, cap, 0);
    }
  }

  /** `values` with the `|column|` entries from `start` replaced by `column`. */
  function Splice(values: seq<real>, start: nat, column: seq<real>): (r: seq<real>)
    requires start + |column| <= |values|
    ensures |r| == |values|
    ensures r[start..start + |column|] == column
    ensures forall i :: 0 <= i < |r| && !(start <= i < start + |column|) ==> r[i] == values[i]
    ensures AllUnit(values) && AllUnit(column) ==> AllUnit(r)
  {
    var r := values[..start] + column + values[start + |column|..];
    assert r[start..start + |column|] == column;
    r
  }

  /**
   * push_column on the ring: the column lands at the write index, nothing
   * else changes, the write index advances cyclically and the count grows
   * until it reaches the capacity; the latest column is then the slot just
   * written.
   */
  function PushRing(r: Ring, column: seq<real>, cap: nat, h: nat): (s: Ring)
    requires RingOk(r, cap, h) && |column| == h && AllUnit(column)
    ensures RingOk(s, cap, h)
    ensures r.writeIdx * h + h <= |s.values|
    ensures s.values[r.writeIdx * h..r.writeIdx * h + h] == column
    ensures forall i :: 0 <= i < |s.values| && !(r.writeIdx * h <= i < r.writeIdx * h + h) ==>
      s.values[i] == r.values[i]
    ensures s.writeIdx == (r.writeIdx + 1) % cap
    ensures s.colCount == Min(r.colCount + 1, cap)
    ensures LatestColumn(s.writeIdx, s.colCount, cap) == r.writeIdx
  {
    SlotInBounds(r.writeIdx, cap, h);
    AdvanceIndex(r.writeIdx, cap);
    Ring(Splice(r.values, r.writeIdx * h, column), (r.writeIdx + 1) % cap,
      if r.colCount < cap then r.colCount + 1 else r.colCount)
  }

  /** One input column: pushed when it has at least `h` magnitudes, skipped otherwise. */
  function Step(r: Ring, mags: seq<real>, m: BinMapping, style: Style, cap: nat, h: nat): (s: Ring)
    requires RingOk(r, cap, h) && MappingFits(m, h) && style.floorDb <= style.ceilingDb
    ensures RingOk(s, cap, h)
  {
    if |mags| >= h then PushRing(r, ColumnValues(mags, m, style, h), cap, h) else r
  }

  /** The ring after pushing every long-enough column of `cols`, in order. */
  function PushAll(r: Ring, cols: seq<seq<real>>, m: BinMapping, style: Style, cap: nat, h: nat): (s: Ring)
    requires RingOk(r, cap, h) && MappingFits(m, h) && style.floorDb <= style.ceilingDb
    ensures RingOk(s, cap, h)
  {
    if cols == [] then r
    else Step(PushAll(r, cols[..|cols| - 1], m, style, cap, h), cols[|cols| - 1], m, style, cap, h)
  }

  /** How many columns of `cols` have at least `h` magnitudes. */
  function CountAccepted(cols: seq<seq<real>>, h: nat): (k: nat)
    ensures k <= |cols|
  {
    if cols == [] then 0
    else CountAccepted(cols[..|cols| - 1], h) + (if |cols[|cols| - 1]| >= h then 1 else 0)
  }

  /**
   * After any sequence of columns the write index has advanced by the
   * number accepted (mod capacity) and the count is that number added and
   * capped at the capacity.
   */
  lemma {:induction false} PushAllCounters(r: Ring, cols: seq<seq<real>>, m: BinMapping, style: Style, cap: nat, h: nat)
    requires RingOk(r, cap, h) && MappingFits(m, h) && style.floorDb <= style.ceilingDb
    ensures PushAll(r, cols, m, style, cap, h).writeIdx == (r.writeIdx + CountAccepted(cols, h)) % cap
    ensures PushAll(r, cols, m, style, cap, h).colCount == Min(r.colCount + CountAccepted(cols, h), cap)
  {
    if cols == [] {
      ModSmall(r.writeIdx, cap);
    } else {
      var front := cols[..|cols| - 1];
      PushAllCounters(r, front, m, style, cap, h);
      if |cols[|cols| - 1]| >= h {
        ModAddLeft(r.writeIdx + CountAccepted(front, h), 1, cap);
      }
    }
  }

  /**
   * The uploads append queues: for each accepted column, the slot it was
   * written to and the values stored there.
   */
  function NewUpdates(r: Ring, cols: seq<seq<real>>, m: BinMapping, style: Style, cap: nat, h: nat): (u: seq<ColumnUpdate>)
    requires RingOk(r, cap, h) && MappingFits(m, h) && style.floorDb <= style.ceilingDb
    ensures |u| == CountAccepted(cols, h)
    ensures forall k :: 0 <= k < |u| ==> u[k].columnIndex < cap && |u[k].values| == h && AllUnit(u[k].values)
  {
    if cols == [] then []
    else
      var front := cols[..|cols| - 1];
      var last := cols[|cols| - 1];
      var prev := PushAll(r, front, m, style, cap, h);
      NewUpdates(r, front, m, style, cap, h)
      + (if |last| >= h then [SpectrogramRender.ColumnUpdate(prev.writeIdx, ColumnValues(last, m, style, h))] else [])
  }

  /** Extending the input by one column extends the ring and the update list by that column's effect. */
  lemma PushAllSnoc(r: Ring, cols: seq<seq<real>>, i: nat, m: BinMapping, style: Style, cap: nat, h: nat)
    requires RingOk(r, cap, h) && MappingFits(m, h) && style.floorDb <= style.ceilingDb && i < |cols|
    ensures var prev := PushAll(r, cols[..i], m, style, cap, h);
      PushAll(r, cols[..i + 1], m, style, cap, h) == Step(prev, cols[i], m, style, cap, h)
      && NewUpdates(r, cols[..i + 1], m, style, cap, h) == NewUpdates(r, cols[..i], m, style, cap, h)
         + (if |cols[i]| >= h then [SpectrogramRender.ColumnUpdate(prev.writeIdx, ColumnValues(cols[i], m, style, h))] else [])
  {
    assert cols[..i + 1][..i] == cols[..i];
  }

  /** An update's values are exactly what the ring then holds at that slot. */
  lemma UpdateMatchesRing(r: Ring, mags: seq<real>, m: BinMapping, style: Style, cap: nat, h: nat)
    requires RingOk(r, cap, h) && MappingFits(m, h) && style.floorDb <= style.ceilingDb
    requires |mags| >= h
    ensures var s := Step(r, mags, m, style, cap, h);
      r.writeIdx * h + h <= |s.values|
      && s.values[r.writeIdx * h..r.writeIdx * h + h] == ColumnValues(mags, m, style, h)
  {
  }

  // -------------------------------------------------------------------
  // Heights and history

  /** The first column with any magnitudes. */
  function FirstNonEmpty(cols: seq<seq<real>>): (r: Option<nat>)
    ensures r.Some? ==>
      (r.value < |cols| && |cols[r.value]| > 0 && forall j :: 0 <= j < r.value ==> |cols[j]| == 0)
    ensures r.None? ==> forall j :: 0 <= j < |cols| ==> |cols[j]| == 0
  {
    if cols == [] then None
    else if |cols[0]| > 0 then Some(0)
    else
      var rest := FirstNonEmpty(cols[1..]);
      if rest.Some? then Some(rest.value + 1) else None
  }

  /** The texture height the columns call for: the first non-zero length, capped at 8192. */
  function NewHeight(cols: seq<seq<real>>): (r: Option<nat>)
    ensures r.Some? <==> exists j :: 0 <= j < |cols| && |cols[j]| > 0
    ensures r.Some? ==> 0 < r.value <= MAX_TEXTURE_BINS
  {
    var i := FirstNonEmpty(cols);
    if i.Some? then Some(Min(|cols[i.value]|, MAX_TEXTURE_BINS)) else None
  }

  /** rebuild's height: that of NewHeight, or 0. */
  function FirstHeight(cols: seq<seq<real>>): nat
  {
    var h := NewHeight(cols);
    if h.Some? then h.value else 0
  }

  /** The mapping is the identity when every column has exactly one value per display bin. */
  predicate Passthrough(history: seq<seq<real>>, displayBins: Option<seq<real>>)
  {
    displayBins.Some? && |displayBins.value| > 0
    && forall j :: 0 <= j < |history| ==> |history[j]| == |displayBins.value|
  }

  /** update_mapping: the display frequencies kept only for passthrough with enough bins. */
  function DisplayFreqs(passthrough: bool, displayBins: Option<seq<real>>, h: nat): (r: seq<real>)
    ensures r != [] ==> |r| == h && passthrough
  {
    if displayBins.Some? && passthrough && |displayBins.value| >= h then displayBins.value[..h] else []
  }

  function MappingFor(h: nat, fftSize: nat, rowPos: (nat, nat) -> real, passthrough: bool): (m: BinMapping)
    ensures MappingFits(m, h)
  {
    NewBinMapping(h, fftSize, seq(h, row requires 0 <= row < h => rowPos(h, row)), passthrough)
  }

  /**
   * The column interval estimate after `k` new columns: unchanged without
   * new columns or a previous timestamp; otherwise the elapsed time per
   * column, blended 80/20 into a positive previous estimate.
   */
  function IntervalEstimate(prev: real, last: Option<real>, now: real, k: nat): (r: real)
    ensures k == 0 || last.None? ==> r == prev
    ensures k > 0 && last.Some? ==>
      var interval := MaxR(now - last.value, 0.0) / k as real;
      (prev > 0.0 ==> MinR(prev, interval) <= r <= MaxR(prev, interval))
      && (prev <= 0.0 ==> r == interval)
    ensures r >= 0.0 || r == prev
  {
    if k == 0 || last.None? then prev
    else
      var interval := MaxR(now - last.value, 0.0) / k as real;
      if prev > 0.0 then prev * 0.8 + interval * 0.2 else interval
  }

  /**
   * scroll_phase: how far the newest column has scrolled towards the next
   * one, in [0, 1); 0 without a timestamp or an interval estimate, and 0 once
   * a whole interval has passed.
   */
  function ScrollPhase(last: Option<real>, interval: real, now: real): (r: real)
    ensures 0.0 <= r < 1.0
    ensures last.None? || interval <= 0.0 ==> r == 0.0
    ensures last.Some? && interval > 0.0 && MaxR(now - last.value, 0.0) < interval ==>
      r * interval == MaxR(now - last.value, 0.0)
  {
    if last.None? || interval <= 0.0 then 0.0
    else
      var phase := MaxR(now - last.value, 0.0) / interval;
      if phase >= 1.0 then 0.0 else phase
  }

  /** Keeps the columns with exactly `n` magnitudes (VecDeque::retain). */
  function KeepLength(cols: seq<seq<real>>, n: nat): (r: seq<seq<real>>)
    ensures |r| <= |cols|
    ensures forall j :: 0 <= j < |r| ==> |r[j]| == n
    ensures forall j :: 0 <= j < |cols| && |cols[j]| == n ==> cols[j] in r
    ensures (forall j :: 0 <= j < |cols| ==> |cols[j]| == n) ==> r == cols
  {
    if cols == [] then []
    else
      var front := KeepLength(cols[..|cols| - 1], n);
      var last := cols[|cols| - 1];
      if |last| == n then front + [last] else front
  }

  /**
   * The history apply_snapshot keeps: the new columns appended, the
   * oldest dropped beyond the history length, and (when the column height
   * changes) only the columns of the new height.
   */
  function RetainedHistory(history: seq<seq<real>>, snap: Update, bufferHeight: nat): (r: seq<seq<real>>)
    ensures |r| <= snap.historyLength
    ensures var nh := NewHeight(snap.newColumns);
      var joined := history + snap.newColumns;
      var first := |joined| - Min(|joined|, snap.historyLength);
      if nh.Some? && bufferHeight > 0 && nh.value != bufferHeight then
        && (forall j :: 0 <= j < |r| ==> |r[j]| == nh.value)
        && (forall j :: first <= j < |joined| && |joined[j]| == nh.value ==> joined[j] in r)
      else
        var joined := history + snap.newColumns;
        |r| <= |joined| && r == joined[|joined| - |r|..]
  {
    var joined := history + snap.newColumns;
    var trimmed := if |joined| > snap.historyLength then joined[|joined| - snap.historyLength..] else joined;
    var nh := NewHeight(snap.newColumns);
    if nh.Some? && bufferHeight > 0 && nh.value != bufferHeight then KeepLength(trimmed, nh.value)
    else trimmed
  }

  /** The floor set_floor_db aims for: the given value (or the default floor) at least 1 dB below the ceiling. */
  function ClippedFloor(floorDb: Option<real>, ceilingDb: real): (r: real)
    ensures r <= ceilingDb - 1.0
    ensures floorDb.Some? && floorDb.value < ceilingDb - 1.0 ==> r == floorDb.value
    ensures floorDb.None? && AudioUtil.DB_FLOOR < ceilingDb - 1.0 ==> r == AudioUtil.DB_FLOOR
  {
    var f := if floorDb.Some? then floorDb.value else AudioUtil.DB_FLOOR;
    if f >= ceilingDb - 1.0 then ceilingDb - 1.0 else f
  }

  // -------------------------------------------------------------------
  // Vertical zoom

  /**
   * uv_y_range: the visible band of the texture. It lies in [0, 1], is
   * 1/zoom tall (zoom taken as at least 1) and is centred on `pan` whenever
   * that fits.
   */
  function UvYRange(zoom: real, pan: real): (r: (real, real))
    ensures 0.0 <= r.0 <= r.1 <= 1.0
    ensures r.1 - r.0 == 1.0 / MaxR(zoom, MIN_ZOOM)
    ensures var h := 0.5 / MaxR(zoom, MIN_ZOOM);
      h <= pan <= 1.0 - h ==> r.0 == pan - h
  {
    var z := MaxR(zoom, MIN_ZOOM);
    var h := 0.5 / z;
    assert 2.0 * h == 1.0 / z;
    assert h <= 0.5;
    var lo := ClampR(pan - h, 0.0, 1.0 - 2.0 * h);
    (lo, MinR(lo + 2.0 * h, 1.0))
  }

  /** The texture coordinate under the cursor before zoom_at changes the zoom. */
  function ZoomCursor(zoom: real, pan: real, yNorm: real): real
    requires zoom > 0.0
  {
    ClampR(pan - 0.5 / zoom, 0.0, 1.0) + yNorm * 2.0 * (0.5 / zoom)
  }

  /** Within the pan bounds zoom_at maintains, its cursor is the coordinate the view shows at `yNorm`. */
  lemma CursorMatchesView(zoom: real, pan: real, yNorm: real)
    requires zoom >= MIN_ZOOM && 0.5 / zoom <= pan <= 1.0 - 0.5 / zoom
    ensures var r := UvYRange(zoom, pan);
      ZoomCursor(zoom, pan, yNorm) == r.0 + yNorm * (r.1 - r.0)
  {
    var r := UvYRange(zoom, pan);
    assert r.0 == pan - 0.5 / zoom;
    assert r.1 - r.0 == 2.0 * (0.5 / zoom);
  }

  // -------------------------------------------------------------------
  // The buffer

  class SpectrogramBuffer {
    var values: seq<real>
    var capacity: nat
    var height: nat
    var writeIdx: nat
    var colCount: nat
    var pendingBase: Option<seq<real>>
    var pendingCols: seq<ColumnUpdate>
    var mapping: BinMapping
    var displayFreqs: seq<real>
    var lastColTime: Option<real>
    var colIntervalSecs: real

    function State(): Ring
      reads this
    {
      Ring(values, writeIdx, colCount)
    }

    ghost predicate Valid()
      reads this
    {
      colCount <= capacity && capacity < U32_LIMIT && height <= MAX_TEXTURE_BINS
      && (capacity == 0 || height == 0 ==> values == [] && writeIdx == 0 && colCount == 0)
      && (capacity > 0 && height > 0 ==> RingOk(State(), capacity, height) && MappingFits(mapping, height))
      && forall k :: 0 <= k < |pendingCols| ==>
        pendingCols[k].columnIndex < capacity && |pendingCols[k].values| == height
    }

    constructor ()
      ensures Valid()
      ensures values == [] && capacity == 0 && height == 0 && writeIdx == 0 && colCount == 0
      ensures pendingBase == None && pendingCols == [] && lastColTime == None && colIntervalSecs == 0.0
    {
      values, capacity, height, writeIdx, colCount := [], 0, 0, 0, 0;
      pendingBase, pendingCols := None, [];
      mapping, displayFreqs := BinMapping([], [], []), [];
      lastColTime, colIntervalSecs := None, 0.0;
    }

    /**
     * The buffer as rebuild leaves it for `history`: nothing queued; an
     * empty size holds nothing; otherwise the ring is the history pushed into
     * an empty ring, queued as a base image when any column landed.
     */
    ghost predicate RefilledFrom(history: seq<seq<real>>, style: Style)
      reads this
    {
      && Valid() && style.floorDb <= style.ceilingDb && pendingCols == []
      && (capacity == 0 || height == 0 ==> State() == Ring([], 0, 0) && pendingBase == None)
      && (capacity > 0 && height > 0 ==>
            State() == PushAll(EmptyRing(capacity, height), history, mapping, style, capacity, height)
            && pendingBase == (if colCount > 0 then Some(values) else None))
    }

    /** latest_column on the buffer's own counters. */
    function Latest(): (r: nat)
      reads this
      requires Valid()
      ensures colCount > 0 ==> r < capacity
    {
      LatestColumn(writeIdx, colCount, if capacity > 0 then capacity else 0)
    }

    /**
     * needs_rebuild: the ring is empty, its capacity no longer matches the
     * requested history length (as u32), or the columns changed height.
     */
    function NeedsRebuild(upd: Update, newHeight: Option<nat>): (r: bool)
      reads this
      ensures !r ==> capacity > 0 && height > 0 && capacity == upd.historyLength % U32_LIMIT
      ensures newHeight.Some? && newHeight.value > 0 && newHeight.value != height ==> r
      ensures (capacity > 0 && height > 0 && capacity == upd.historyLength % U32_LIMIT
               && (newHeight.None? || newHeight.value == 0 || newHeight.value == height)) ==> !r
    {
      capacity == 0 || height == 0 || capacity != upd.historyLength % U32_LIMIT
      || (newHeight.Some? && newHeight.value > 0 && newHeight.value != height)
    }

    /** scroll_phase at time `now`. */
    function Phase(now: real): (r: real)
      reads this
      ensures 0.0 <= r < 1.0
    {
      ScrollPhase(lastColTime, colIntervalSecs, now)
    }

    /** push_column: normalises `mags` into the slot at the write index and returns that slot. */
    method PushColumn(mags: seq<real>, style: Style) returns (col: nat)
      requires Valid() && capacity > 0 && height > 0 && |mags| >= height
      requires style.floorDb <= style.ceilingDb
      modifies this`values, this`writeIdx, this`colCount
      ensures Valid()
      ensures col == old(writeIdx)
      ensures State() == PushRing(old(State()), ColumnValues(mags, mapping, style, height), capacity, height)
    {
      var h := height;
      col := writeIdx;
      var out: seq<real> := [];
      var i := 0;
      while i < h
        invariant 0 <= i <= h
        invariant out == ColumnValues(mags, mapping, style, h)[..i]
      {
        out := out + [Normalize(RowMagnitude(mags, mapping, i), style)];
        i := i + 1;
      }
      SlotInBounds(col, capacity, h);
      values := Splice(values, col * h, out);
      AdvanceIndex(col, capacity);
      if colCount < capacity {
        colCount := colCount + 1;
      }
      writeIdx := (writeIdx + 1) % capacity;
    }

    /** Pushes every long-enough column of `cols`, in order (rebuild's refill loop). */
    method PushColumns(cols: seq<seq<real>>, style: Style)
      requires Valid() && capacity > 0 && height > 0 && style.floorDb <= style.ceilingDb
      modifies this`values, this`writeIdx, this`colCount
      ensures Valid()
      ensures State() == PushAll(old(State()), cols, mapping, style, capacity, height)
    {
      ghost var r0 := State();
      var i := 0;
      while i < |cols|
        invariant 0 <= i <= |cols|
        invariant Valid()
        invariant State() == PushAll(r0, cols[..i], mapping, style, capacity, height)
      {
        assert cols[..i + 1][..i] == cols[..i];
        if |cols[i]| >= height {
          var _ := PushColumn(cols[i], style);
        }
        i := i + 1;
      }
      assert cols[..i] == cols;
    }

    /** One accepted column of append: pushed, and its slot and stored values queued. */
    method RecordColumn(mags: seq<real>, style: Style)
      requires Valid() && capacity > 0 && height > 0 && |mags| >= height
      requires style.floorDb <= style.ceilingDb
      modifies this`values, this`writeIdx, this`colCount, this`pendingCols
      ensures Valid()
      ensures State() == PushRing(old(State()), ColumnValues(mags, mapping, style, height), capacity, height)
      ensures pendingCols == old(pendingCols)
        + [SpectrogramRender.ColumnUpdate(old(writeIdx), ColumnValues(mags, mapping, style, height))]
    {
      var h := height;
      var idx := PushColumn(mags, style);
      SlotInBounds(idx, capacity, h);
      var buf := values[idx * h..idx * h + h];
      pendingCols := pendingCols + [SpectrogramRender.ColumnUpdate(idx, buf)];
    }

    /** append's loop: pushes each long-enough column and queues the slot and values it wrote. */
    method PushAndRecord(cols: seq<seq<real>>, style: Style)
      requires Valid() && capacity > 0 && height > 0 && style.floorDb <= style.ceilingDb
      modifies this`values, this`writeIdx, this`colCount, this`pendingCols
      ensures Valid()
      ensures State() == PushAll(old(State()), cols, mapping, style, capacity, height)
      ensures pendingCols == old(pendingCols) + NewUpdates(old(State()), cols, mapping, style, capacity, height)
    {
      ghost var r0 := State();
      var h := height;
      var i := 0;
      while i < |cols|
        invariant 0 <= i <= |cols|
        invariant Valid()
        invariant State() == PushAll(r0, cols[..i], mapping, style, capacity, h)
        invariant pendingCols == old(pendingCols) + NewUpdates(r0, cols[..i], mapping, style, capacity, h)
      {
        PushAllSnoc(r0, cols, i, mapping, style, capacity, h);
        if |cols[i]| >= h {
          RecordColumn(cols[i], style);
        }
        i := i + 1;
      }
      assert cols[..i] == cols;
    }

    /** rebuild's reset of a non-empty ring: all zeros, no columns, the new mapping and nothing pending. */
    method ClearRing(m: BinMapping, freqs: seq<real>)
      requires capacity > 0 && height > 0 && capacity < U32_LIMIT && height <= MAX_TEXTURE_BINS
      requires MappingFits(m, height) && pendingCols == []
      modifies this`values, this`writeIdx, this`colCount, this`mapping, this`displayFreqs, this`lastColTime
      ensures Valid()
      ensures State() == EmptyRing(capacity, height) && mapping == m && displayFreqs == freqs
      ensures lastColTime == None
    {
      mapping, displayFreqs := m, freqs;
      values := EmptyRing(capacity, height).values;
      writeIdx, colCount := 0, 0;
      lastColTime := None;
    }

    /**
     * rebuild: resizes the ring to the history length and the first
     * column's height, recomputes the mapping and refills the ring from the
     * history; a non-empty result is queued as a base image.
     */
    method Rebuild(history: seq<seq<real>>, upd: Update, style: Style, rowPos: (nat, nat) -> real, now: real)
      requires Valid() && style.floorDb <= style.ceilingDb
      modifies this`values, this`capacity, this`height, this`writeIdx, this`colCount, this`pendingBase
      modifies this`pendingCols, this`mapping, this`displayFreqs, this`lastColTime
      ensures Valid()
      ensures capacity == upd.historyLength % U32_LIMIT && height == FirstHeight(history)
      ensures pendingCols == []
      ensures capacity == 0 || height == 0 ==>
        values == [] && writeIdx == 0 && colCount == 0 && mapping == BinMapping([], [], [])
        && lastColTime == None && pendingBase == None && displayFreqs == old(displayFreqs)
      ensures capacity > 0 && height > 0 ==>
        var pass := Passthrough(history, upd.displayBinsHz);
        mapping == MappingFor(height, upd.fftSize, rowPos, pass)
        && displayFreqs == DisplayFreqs(pass, upd.displayBinsHz, height)
        && State() == PushAll(EmptyRing(capacity, height), history, mapping, style, capacity, height)
        && pendingBase == (if colCount > 0 then Some(values) else None)
        && lastColTime == (if colCount > 0 then Some(now) else None)
      ensures RefilledFrom(history, style)
    {
      pendingBase, pendingCols := None, [];
      capacity := upd.historyLength % U32_LIMIT;
      height := FirstHeight(history);
      if capacity == 0 || height == 0 {
        values, writeIdx, colCount, mapping := [], 0, 0, BinMapping([], [], []);
        lastColTime := None;
        return;
      }
      Refill(history, upd, style, rowPos, now);
    }

    /** The second half of rebuild: a fresh mapping, the history pushed into an empty ring, a base image when any column landed. */
    method Refill(history: seq<seq<real>>, upd: Update, style: Style, rowPos: (nat, nat) -> real, now: real)
      requires capacity > 0 && height > 0 && capacity < U32_LIMIT && height <= MAX_TEXTURE_BINS
      requires pendingCols == [] && pendingBase == None && style.floorDb <= style.ceilingDb
      modifies this`values, this`writeIdx, this`colCount, this`pendingBase, this`mapping, this`displayFreqs, this`lastColTime
      ensures Valid()
      ensures var pass := Passthrough(history, upd.displayBinsHz);
        mapping == MappingFor(height, upd.fftSize, rowPos, pass)
        && displayFreqs == DisplayFreqs(pass, upd.displayBinsHz, height)
        && State() == PushAll(EmptyRing(capacity, height), history, mapping, style, capacity, height)
        && pendingBase == (if colCount > 0 then Some(values) else None)
        && lastColTime == (if colCount > 0 then Some(now) else None)
      ensures RefilledFrom(history, style)
    {
      var pass := Passthrough(history, upd.displayBinsHz);
      ClearRing(MappingFor(height, upd.fftSize, rowPos, pass), DisplayFreqs(pass, upd.displayBinsHz, height));
      PushColumns(history, style);
      if colCount > 0 {
        pendingBase := Some(values);
        lastColTime := Some(now);
      }
    }

    /**
     * append: pushes each long-enough column and queues its update; a batch
     * that reaches max(capacity / 2, 16) updates is replaced by a base
     * image. Nothing happens to an empty ring.
     */
    method Append(columns: seq<seq<real>>, style: Style, now: real)
      requires Valid() && style.floorDb <= style.ceilingDb
      modifies this`values, this`writeIdx, this`colCount, this`pendingBase, this`pendingCols
      modifies this`lastColTime, this`colIntervalSecs
      ensures Valid()
      ensures capacity == 0 || height == 0 ==>
        State() == old(State()) && pendingCols == old(pendingCols) && pendingBase == old(pendingBase)
        && lastColTime == old(lastColTime) && colIntervalSecs == old(colIntervalSecs)
      ensures capacity > 0 && height > 0 ==>
        var k := CountAccepted(columns, height);
        var all := old(pendingCols) + NewUpdates(old(State()), columns, mapping, style, capacity, height);
        State() == PushAll(old(State()), columns, mapping, style, capacity, height)
        && (if |all| >= Max(capacity / 2, MIN_PENDING_BATCH)
            then pendingCols == [] && pendingBase == Some(values)
            else pendingCols == all && pendingBase == old(pendingBase))
        && |pendingCols| < Max(capacity / 2, MIN_PENDING_BATCH)
        && lastColTime == (if k > 0 then Some(now) else old(lastColTime))
        && colIntervalSecs == IntervalEstimate(old(colIntervalSecs), old(lastColTime), now, k)
    {
      if capacity == 0 || height == 0 {
        return;
      }
      var k := CountAccepted(columns, height);
      PushAndRecord(columns, style);
      UpdateTiming(k, now);
      FlushIfFull();
    }

    /** append's timing step: the interval estimate and the time of the last column, when any column landed. */
    method UpdateTiming(k: nat, now: real)
      modifies this`lastColTime, this`colIntervalSecs
      ensures lastColTime == (if k > 0 then Some(now) else old(lastColTime))
      ensures colIntervalSecs == IntervalEstimate(old(colIntervalSecs), old(lastColTime), now, k)
    {
      if k > 0 {
        if lastColTime.Some? {
          var interval := MaxR(now - lastColTime.value, 0.0) / k as real;
          colIntervalSecs := if colIntervalSecs > 0.0 then colIntervalSecs * 0.8 + interval * 0.2 else interval;
        }
        lastColTime := Some(now);
      }
    }

    /** append's batch limit: a batch of max(capacity / 2, 16) updates becomes a base image. */
    method FlushIfFull()
      requires Valid()
      modifies this`pendingCols, this`pendingBase
      ensures Valid()
      ensures if |old(pendingCols)| >= Max(capacity / 2, MIN_PENDING_BATCH)
        then pendingCols == [] && pendingBase == Some(values)
        else pendingCols == old(pendingCols) && pendingBase == old(pendingBase)
      ensures |pendingCols| < Max(capacity / 2, MIN_PENDING_BATCH)
    {
      if |pendingCols| >= Max(capacity / 2, MIN_PENDING_BATCH) {
        pendingCols := [];
        pendingBase := Some(values);
      }
    }
  }

  /** Ring addressing after a rebuild: count and write index follow from the number of columns kept. */
  lemma RebuildCounters(history: seq<seq<real>>, m: BinMapping, style: Style, cap: nat, h: nat)
    requires cap > 0 && h > 0 && MappingFits(m, h) && style.floorDb <= style.ceilingDb
    ensures var r := PushAll(EmptyRing(cap, h), history, m, style, cap, h);
      r.colCount == Min(CountAccepted(history, h), cap)
      && r.writeIdx == CountAccepted(history, h) % cap
  {
    PushAllCounters(EmptyRing(cap, h), history, m, style, cap, h);
  }

  // -------------------------------------------------------------------
  // The view state

  class SpectrogramState {
    var buffer: SpectrogramBuffer
    var style: Style
    var palette: seq<Color>
    var history: seq<seq<real>>
    var sampleRate: real
    var fftSize: nat
    var zoom: real
    var pan: real

    ghost predicate Valid()
      reads this, buffer
    {
      buffer.Valid() && style.floorDb <= style.ceilingDb - 1.0
      && MIN_ZOOM <= zoom <= MAX_ZOOM && 0.5 / zoom <= pan <= 1.0 - 0.5 / zoom
    }

    constructor (palette: seq<Color>)
      ensures Valid() && fresh(buffer)
      ensures style == DefaultStyle() && history == [] && this.palette == palette
      ensures sampleRate == AudioUtil.DEFAULT_SAMPLE_RATE && fftSize == 4096 && zoom == 1.0 && pan == 0.5
    {
      buffer := new SpectrogramBuffer();
      style := DefaultStyle();
      this.palette := palette;
      history := [];
      sampleRate := AudioUtil.DEFAULT_SAMPLE_RATE;
      fftSize := 4096;
      zoom, pan := 1.0, 0.5;
    }

    /** rebuild_buffer: refills the ring from the history at the current capacity. */
    method RebuildBuffer(rowPos: (nat, nat) -> real, now: real)
      requires Valid()
      modifies buffer
      ensures Valid()
      ensures history == [] || old(buffer.capacity) == 0 ==> unchanged(buffer)
      ensures history != [] && old(buffer.capacity) > 0 ==>
        buffer.capacity == old(buffer.capacity) && buffer.height == FirstHeight(history)
        && buffer.RefilledFrom(history, style)
    {
      var historyLength := buffer.capacity;
      var bins := if |buffer.displayFreqs| > 0 then Some(buffer.displayFreqs) else None;
      if |history| == 0 || historyLength == 0 {
        return;
      }
      var upd := Update(fftSize, sampleRate, historyLength, false, bins, []);
      ModSmall(historyLength, U32_LIMIT);
      buffer.Rebuild(history, upd, style, rowPos, now);
    }

    /**
     * set_floor_db: `None` stands for a non-finite input. The floor is kept
     * at least 1 dB below the ceiling, and the ring is rebuilt only when the
     * floor actually moves.
     */
    method SetFloorDb(floorDb: Option<real>, rowPos: (nat, nat) -> real, now: real)
      requires Valid()
      modifies this, buffer
      ensures Valid() && buffer == old(buffer) && history == old(history)
      ensures var f := ClippedFloor(floorDb, old(style.ceilingDb));
        if AbsR(old(style.floorDb) - f) > F32_EPSILON then
          && style == old(style).(floorDb := f)
          && (history == [] || old(buffer.capacity) == 0 ==> unchanged(buffer))
          && (history != [] && old(buffer.capacity) > 0 ==>
                buffer.capacity == old(buffer.capacity) && buffer.height == FirstHeight(history)
                && buffer.RefilledFrom(history, style))
        else style == old(style) && unchanged(buffer)
    {
      var floor := ClippedFloor(floorDb, style.ceilingDb);
      if AbsR(style.floorDb - floor) > F32_EPSILON {
        style := style.(floorDb := floor);
        RebuildBuffer(rowPos, now);
      }
    }

    /**
     * apply_snapshot: takes the snapshot's stream parameters, extends and
     * trims the history, then rebuilds the ring when asked to or when it no
     * longer fits, and appends the new columns otherwise.
     */
    method ApplySnapshot(snap: Update, rowPos: (nat, nat) -> real, now: real)
      requires Valid()
      modifies this`sampleRate, this`fftSize, this`history, buffer
      ensures Valid() && buffer == old(buffer)
      ensures |snap.newColumns| == 0 && !snap.reset ==>
        history == old(history) && unchanged(buffer) && sampleRate == old(sampleRate) && fftSize == old(fftSize)
      ensures |snap.newColumns| > 0 || snap.reset ==>
        history == RetainedHistory(old(history), snap, old(buffer.height))
        && sampleRate == snap.sampleRate && fftSize == snap.fftSize
      ensures ((|snap.newColumns| > 0 || snap.reset)
               && (snap.reset || old(buffer.NeedsRebuild(snap, NewHeight(snap.newColumns))))) ==>
        buffer.capacity == snap.historyLength % U32_LIMIT && buffer.height == FirstHeight(history)
        && buffer.RefilledFrom(history, style)
      ensures (|snap.newColumns| > 0 && !snap.reset && !old(buffer.NeedsRebuild(snap, NewHeight(snap.newColumns)))) ==>
        buffer.capacity == old(buffer.capacity) && buffer.height == old(buffer.height)
        && buffer.State() == PushAll(old(buffer.State()), snap.newColumns, buffer.mapping, style,
                                     buffer.capacity, buffer.height)
      ensures style == old(style) && zoom == old(zoom) && pan == old(pan)
    {
      if |snap.newColumns| == 0 && !snap.reset {
        return;
      }
      ghost var ring := buffer.State();
      ghost var rebuild := buffer.NeedsRebuild(snap, NewHeight(snap.newColumns));
      sampleRate := snap.sampleRate;
      fftSize := snap.fftSize;
      TakeColumns(snap);
      assert buffer.State() == ring && buffer.NeedsRebuild(snap, NewHeight(snap.newColumns)) == rebuild;
      UpdateBuffer(snap, rowPos, now);
    }

    /** apply_snapshot's buffer step: rebuild when asked to or when the ring no longer fits, else append. */
    method UpdateBuffer(snap: Update, rowPos: (nat, nat) -> real, now: real)
      requires Valid()
      modifies buffer
      ensures Valid()
      ensures snap.reset || old(buffer.NeedsRebuild(snap, NewHeight(snap.newColumns))) ==>
        buffer.capacity == snap.historyLength % U32_LIMIT && buffer.height == FirstHeight(history)
        && buffer.RefilledFrom(history, style)
      ensures !snap.reset && !old(buffer.NeedsRebuild(snap, NewHeight(snap.newColumns))) ==>
        buffer.capacity == old(buffer.capacity) && buffer.height == old(buffer.height)
        && buffer.State() == PushAll(old(buffer.State()), snap.newColumns, buffer.mapping, style,
                                     buffer.capacity, buffer.height)
    {
      var newH := NewHeight(snap.newColumns);
      if snap.reset || buffer.NeedsRebuild(snap, newH) {
        buffer.Rebuild(history, snap, style, rowPos, now);
      } else if |snap.newColumns| > 0 {
        buffer.Append(snap.newColumns, style, now);
      }
    }

    /** apply_snapshot's history step: extend, trim to the history length, drop columns of a stale height. */
    method TakeColumns(snap: Update)
      modifies this`history
      ensures history == RetainedHistory(old(history), snap, buffer.height)
    {
      var joined := history + snap.newColumns;
      var kept := if |joined| > snap.historyLength then joined[|joined| - snap.historyLength..] else joined;
      var newH := NewHeight(snap.newColumns);
      var bufH := buffer.height;
      if newH.Some? && bufH > 0 && newH.value != bufH {
        kept := KeepLength(kept, newH.value);
      }
      history := kept;
    }

    /**
     * zoom_at: scales the zoom by `factor` within [1, 32] and re-centres so
     * that the texture point under the cursor stays under it, as far as the
     * pan bounds allow.
     */
    method ZoomAt(yNorm: real, factor: real)
      requires Valid()
      modifies this`zoom, this`pan
      ensures Valid()
      ensures zoom == ClampR(old(zoom) * factor, MIN_ZOOM, MAX_ZOOM)
      ensures var cursor := ZoomCursor(old(zoom), old(pan), yNorm);
        var h := 0.5 / zoom;
        var target := cursor - h * (2.0 * yNorm - 1.0);
        && pan == ClampR(target, h, 1.0 - h)
        && (h <= target <= 1.0 - h ==> pan - h + yNorm * 2.0 * h == cursor)
    {
      var cursor := ZoomCursor(zoom, pan, yNorm);
      zoom := ClampR(zoom * factor, MIN_ZOOM, MAX_ZOOM);
      var h := 0.5 / zoom;
      assert h <= 0.5;
      pan := ClampR(cursor - h * (2.0 * yNorm - 1.0), h, 1.0 - h);
    }

    /**
     * visual_params: nothing to draw for an empty ring; otherwise the
     * texture size, count and latest column the shader addresses the ring
     * with, and the palette with the style's opacity applied.
     */
    function VisualParams(screenHeight: real): (r: Option<SpectrogramRender.Params>)
      reads this, buffer
      requires Valid()
      ensures r.None? <==> buffer.capacity == 0 || buffer.height == 0 || buffer.colCount == 0
      ensures r.Some? ==>
        r.value.textureWidth == buffer.capacity && r.value.textureHeight == buffer.height
        && 0 < r.value.columnCount <= r.value.textureWidth
        && r.value.latestColumn < r.value.textureWidth
        && r.value.baseData == buffer.pendingBase && r.value.columnUpdates == buffer.pendingCols
        && r.value.columnCount == buffer.colCount && r.value.latestColumn == buffer.Latest()
        && |r.value.palette| == |palette|
      ensures r.Some? ==> var op := ClampR(style.opacity, 0.0, 1.0);
        && (forall i :: 0 <= i < |palette| ==> r.value.palette[i] == palette[i].(a := palette[i].a * op))
        && r.value.background == style.background.(a := style.background.a * op)
    {
      if buffer.capacity == 0 || buffer.height == 0 || buffer.colCount == 0 then None
      else
        var op := ClampR(style.opacity, 0.0, 1.0);
        var tint := (c: Color) => c.(a := c.a * op);
        var pal := palette;
        Some(SpectrogramRender.Params(
          buffer.capacity, buffer.height, buffer.colCount, buffer.Latest(),
          buffer.pendingBase, buffer.pendingCols,
          seq(|pal|, i requires 0 <= i < |pal| => tint(pal[i])),
          tint(style.background), style.contrast, (0.0, 1.0), screenHeight))
    }
  }
}

// Loudness metering (src/dsp/loudness.rs): a rolling mean-square window per
// channel, momentary LUFS from the window mean and a per-block true peak.
// `log10` is a parameter: the model does not compute logarithms.
module LoudnessDsp {
  import opened Base
  import opened AudioUtil

  /** Means below this value are raised to it before taking the logarithm. */
  const MIN_MEAN_SQUARE: real := 0.000000000001
  const LOG10_FACTOR: real := 10.0
  const DB_FACTOR: real := 20.0

  // ---------------------------------------------------------------------
  // Level conversions

  /** mean_square_to_lufs: `10 * log10(ms)`, never below the floor. */
  function MeanSquareToLufs(meanSquare: real, floor: real, log10: real -> real): (r: real)
    ensures r >= floor
    ensures r == floor || r == LOG10_FACTOR * log10(meanSquare)
    ensures LOG10_FACTOR * log10(meanSquare) >= floor ==> r == LOG10_FACTOR * log10(meanSquare)
  {
    MaxR(LOG10_FACTOR * log10(meanSquare), floor)
  }

  /** peak_to_db: a peak at or below f32::EPSILON reads as the floor. */
  function PeakToDb(peak: real, floor: real, log10: real -> real): (r: real)
    ensures r >= floor
    ensures peak <= F32_EPSILON ==> r == floor
    ensures peak > F32_EPSILON && DB_FACTOR * log10(peak) >= floor ==> r == DB_FACTOR * log10(peak)
  {
    if peak <= F32_EPSILON then floor else MaxR(DB_FACTOR * log10(peak), floor)
  }

  /** window_length: the window spans at least one sample. */
  function WindowLength(sampleRate: real, windowSecs: real): (r: nat)
    ensures r >= 1
    ensures sampleRate * windowSecs <= 1.0 ==> r == 1
    ensures sampleRate * windowSecs >= 1.0 ==> r as real <= sampleRate * windowSecs < r as real + 1.0
  {
    ToNat(MaxR(sampleRate * windowSecs, 1.0))
  }

  // ---------------------------------------------------------------------
  // Rolling window contents

  /** The window after one push: the oldest value leaves once the window is full. */
  function PushWindow(s: seq<real>, v: real, capacity: nat): (r: seq<real>)
    requires capacity > 0
    ensures |s| <= capacity ==> |r| == Min(|s| + 1, capacity)
    ensures |r| > 0 && r[|r| - 1] == v
  {
    if |s| == capacity then s[1..] + [v] else s + [v]
  }

  /** The window after pushing `vals` in order. */
  function PushAll(s: seq<real>, vals: seq<real>, capacity: nat): (r: seq<real>)
    requires capacity > 0
    ensures |s| <= capacity ==> |r| <= capacity
  {
    if vals == [] then s
    else PushWindow(PushAll(s, vals[..|vals| - 1], capacity), vals[|vals| - 1], capacity)
  }

  lemma PushAllSnoc(s: seq<real>, vals: seq<real>, v: real, capacity: nat)
    requires capacity > 0
    ensures PushAll(s, vals + [v], capacity) == PushWindow(PushAll(s, vals, capacity), v, capacity)
  {
    assert (vals + [v])[..|vals|] == vals;
  }

  /** The window always holds exactly the most recent `capacity` values pushed. */
  lemma {:induction false} PushAllKeepsLatest(s: seq<real>, vals: seq<real>, capacity: nat)
    requires capacity > 0 && |s| <= capacity
    ensures PushAll(s, vals, capacity) == LastN(s + vals, capacity)
  {
    if vals == [] {
      assert s + vals == s;
    } else {
      var init := vals[..|vals| - 1];
      var v := vals[|vals| - 1];
      PushAllKeepsLatest(s, init, capacity);
      var w := LastN(s + init, capacity);
      assert s + vals == (s + init) + [v];
      var all := (s + init) + [v];
      if |w| == capacity {
        assert w[1..] + [v] == all[|all| - capacity..];
      } else {
        assert w + [v] == all;
      }
    }
  }

  /** The mean held by a window: zero when empty. */
  function MeanOf(s: seq<real>): real
  {
    if |s| == 0 then 0.0 else Sum(s) / |s| as real
  }

  /** A window holding one repeated value has that value as its mean. */
  lemma MeanOfConstant(s: seq<real>, v: real)
    requires |s| > 0 && forall i :: 0 <= i < |s| ==> s[i] == v
    ensures MeanOf(s) == v
  {
    SumConstant(s, v);
  }

  /** Removing the front element subtracts it from the sum. */
  lemma {:induction false} SumDropFirst(s: seq<real>)
    requires |s| > 0
    ensures Sum(s) == s[0] + Sum(s[1..])
  {
    if |s| > 1 {
      var init := s[..|s| - 1];
      SumDropFirst(init);
      assert init[1..] == s[1..][..|s| - 2];
    }
  }

  lemma SumAppend(s: seq<real>, v: real)
    ensures Sum(s + [v]) == Sum(s) + v
  {
    assert (s + [v])[..|s|] == s;
  }

  /** Capacity four: pushing 1, 9, 16, 25, 36 keeps the last four. */
  lemma RollingWindowExample()
    ensures PushAll([], [1.0, 9.0, 16.0, 25.0, 36.0], 4) == [9.0, 16.0, 25.0, 36.0]
  {
    var vals := [1.0, 9.0, 16.0, 25.0, 36.0];
    PushAllKeepsLatest([], vals, 4);
    assert [] + vals == vals;
    assert vals[1..] == [9.0, 16.0, 25.0, 36.0];
  }

  /** The last four of those values have mean 21.5. */
  lemma RollingMeanExample()
    ensures MeanOf([9.0, 16.0, 25.0, 36.0]) == 21.5
  {
    SumAppend([], 9.0);
    assert [] + [9.0] == [9.0];
    SumAppend([9.0], 16.0);
    assert [9.0] + [16.0] == [9.0, 16.0];
    SumAppend([9.0, 16.0], 25.0);
    assert [9.0, 16.0] + [25.0] == [9.0, 16.0, 25.0];
    SumAppend([9.0, 16.0, 25.0], 36.0);
    assert [9.0, 16.0, 25.0] + [36.0] == [9.0, 16.0, 25.0, 36.0];
  }

  /** Before the window fills, the mean is over the values pushed so far: 1 and 9 give 5. */
  lemma PartialWindowExample()
    ensures MeanOf(PushAll([], [1.0, 9.0], 4)) == 5.0
  {
    PushAllKeepsLatest([], [1.0, 9.0], 4);
    assert [] + [1.0, 9.0] == [1.0, 9.0];
    SumAppend([], 1.0);
    assert [] + [1.0] == [1.0];
    SumAppend([1.0], 9.0);
    assert [1.0] + [9.0] == [1.0, 9.0];
  }

  /** RollingMeanSquare: a bounded window of squared samples with a running sum. */
  class RollingMeanSquare {
    var samples: seq<real>
    var capacity: nat
    var sum: real

    ghost predicate Valid()
      reads this
    {
      capacity > 0 && |samples| <= capacity && sum == Sum(samples)
    }

    /** new: the source asserts a positive capacity. */
    constructor (capacity: nat)
      requires capacity > 0
      ensures Valid() && this.capacity == capacity && samples == []
    {
      samples := [];
      this.capacity := capacity;
      sum := 0.0;
    }

    /** push: the oldest value is evicted when full, and the sum follows the contents. */
    method Push(value: real)
      requires Valid()
      modifies this
      ensures Valid() && capacity == old(capacity)
      ensures samples == PushWindow(old(samples), value, capacity)
    {
      var s := samples;
      var total := sum;
      if |s| == capacity {
        SumDropFirst(s);
        total := total - s[0];
        s := s[1..];
      }
      SumAppend(s, value);
      samples := s + [value];
      sum := total + value;
    }

    /** mean: the running sum over the number of values held. */
    function Mean(): (r: real)
      requires Valid()
      reads this
      ensures r == MeanOf(samples)
    {
      if |samples| == 0 then 0.0 else sum / |samples| as real
    }

    method Reset()
      requires Valid()
      modifies this
      ensures Valid() && capacity == old(capacity) && samples == []
    {
      samples := [];
      sum := 0.0;
    }
  }

  // ---------------------------------------------------------------------
  // Processor values

  datatype LoudnessSnapshot = LoudnessSnapshot(momentaryLufs: seq<real>, truePeakDb: seq<real>)

  const EMPTY_SNAPSHOT: LoudnessSnapshot := LoudnessSnapshot([], [])

  /** with_channels: every channel starts at the floor. */
  function WithChannels(channels: nat, floor: real): (r: LoudnessSnapshot)
    ensures |r.momentaryLufs| == channels && |r.truePeakDb| == channels
    ensures forall c :: 0 <= c < channels ==> r.momentaryLufs[c] == floor && r.truePeakDb[c] == floor
  {
    LoudnessSnapshot(seq(channels, _ => floor), seq(channels, _ => floor))
  }

  datatype LoudnessConfig = LoudnessConfig(sampleRate: real, momentaryWindow: real, floorLufs: real)

  const DEFAULT_CONFIG: LoudnessConfig := LoudnessConfig(48000.0, 0.4, -60.0)

  /** The window capacity a configuration asks for. */
  function Capacity(config: LoudnessConfig): (r: nat)
    ensures r >= 1
  {
    WindowLength(config.sampleRate, config.momentaryWindow)
  }

  /** Sample `c` of frame `f` of an interleaved block. */
  function Sample(samples: seq<real>, ch: nat, f: nat, c: nat): real
    requires ch > 0 && f < |samples| / ch && c < ch
  {
    Frame(samples, ch, f)[c]
  }

  /** The square of one sample: what the window of its channel receives. */
  function Squared(samples: seq<real>, ch: nat, f: nat, c: nat): real
    requires ch > 0 && f < |samples| / ch && c < ch
  {
    Sample(samples, ch, f, c) * Sample(samples, ch, f, c)
  }

  /** The squared samples of channel `c` over the first `k` frames. */
  function Squares(samples: seq<real>, ch: nat, c: nat, k: nat): (r: seq<real>)
    requires ch > 0 && k <= |samples| / ch && c < ch
    ensures |r| == k
  {
    if k == 0 then []
    else Squares(samples, ch, c, k - 1) + [Squared(samples, ch, k - 1, c)]
  }

  /** The largest magnitude of channel `c` over the first `k` frames, starting from zero. */
  function PeakOf(samples: seq<real>, ch: nat, c: nat, k: nat): real
    requires ch > 0 && k <= |samples| / ch && c < ch
  {
    if k == 0 then 0.0 else MaxR(PeakOf(samples, ch, c, k - 1), AbsR(Sample(samples, ch, k - 1, c)))
  }

  /** The block peak is the largest magnitude of the channel (zero for silence). */
  lemma {:induction false} PeakOfIsMax(samples: seq<real>, ch: nat, c: nat, k: nat)
    requires ch > 0 && k <= |samples| / ch && c < ch
    ensures forall f :: 0 <= f < k ==> AbsR(Sample(samples, ch, f, c)) <= PeakOf(samples, ch, c, k)
    ensures PeakOf(samples, ch, c, k) == 0.0
      || exists f :: 0 <= f < k && PeakOf(samples, ch, c, k) == AbsR(Sample(samples, ch, f, c))
  {
    if k > 0 {
      PeakOfIsMax(samples, ch, c, k - 1);
    }
  }

  /** The per-channel peaks after the first `k` channels of `frame` raised theirs. */
  function RaisePeaks(peaks: seq<real>, frame: seq<real>, k: nat): (r: seq<real>)
    requires |peaks| == |frame| && k <= |frame|
    ensures |r| == |peaks|
  {
    seq(|peaks|, i requires 0 <= i < |peaks| => if i < k then MaxR(peaks[i], AbsR(frame[i])) else peaks[i])
  }

  lemma RaisePeaksStep(peaks: seq<real>, frame: seq<real>, k: nat)
    requires |peaks| == |frame| && k < |frame|
    ensures RaisePeaks(peaks, frame, k)[k := MaxR(peaks[k], AbsR(frame[k]))] == RaisePeaks(peaks, frame, k + 1)
  {
  }

  /** Every channel's window after frame `f`. */
  function PushedFrame(windows: seq<seq<real>>, samples: seq<real>, ch: nat, f: nat, capacity: nat): (r: seq<seq<real>>)
    requires |windows| == ch && ch > 0 && f < |samples| / ch && capacity > 0
    ensures |r| == ch
  {
    seq(ch, c requires 0 <= c < ch => PushWindow(windows[c], Squared(samples, ch, f, c), capacity))
  }

  /** The windows after the first `c` channels have taken their square of one frame. */
  function PushedPrefix(windows: seq<seq<real>>, squares: seq<real>, c: nat, capacity: nat): (r: seq<seq<real>>)
    requires |squares| == |windows| && c <= |windows| && capacity > 0
    ensures |r| == |windows|
  {
    seq(|windows|, i requires 0 <= i < |windows| => if i < c then PushWindow(windows[i], squares[i], capacity) else windows[i])
  }

  lemma PushedPrefixStep(windows: seq<seq<real>>, squares: seq<real>, c: nat, capacity: nat)
    requires |squares| == |windows| && c < |windows| && capacity > 0
    ensures PushedPrefix(windows, squares, c, capacity)[c := PushWindow(PushedPrefix(windows, squares, c, capacity)[c], squares[c], capacity)]
      == PushedPrefix(windows, squares, c + 1, capacity)
  {
  }

  /** Every channel's window after the first `k` frames. */
  function Windowed(windows: seq<seq<real>>, samples: seq<real>, ch: nat, k: nat, capacity: nat): (r: seq<seq<real>>)
    requires |windows| == ch && ch > 0 && k <= |samples| / ch && capacity > 0
    ensures |r| == ch
  {
    seq(ch, c requires 0 <= c < ch => PushAll(windows[c], Squares(samples, ch, c, k), capacity))
  }

  /** Every channel's peak after the first `k` frames. */
  function Peaks(samples: seq<real>, ch: nat, k: nat): (r: seq<real>)
    requires ch > 0 && k <= |samples| / ch
    ensures |r| == ch
  {
    seq(ch, c requires 0 <= c < ch => PeakOf(samples, ch, c, k))
  }

  lemma WindowedStep(windows: seq<seq<real>>, samples: seq<real>, ch: nat, k: nat, capacity: nat)
    requires |windows| == ch && ch > 0 && k < |samples| / ch && capacity > 0
    ensures PushedFrame(Windowed(windows, samples, ch, k, capacity), samples, ch, k, capacity)
      == Windowed(windows, samples, ch, k + 1, capacity)
  {
    forall c | 0 <= c < ch
      ensures PushedFrame(Windowed(windows, samples, ch, k, capacity), samples, ch, k, capacity)[c]
        == Windowed(windows, samples, ch, k + 1, capacity)[c]
    {
      PushAllSnoc(windows[c], Squares(samples, ch, c, k), Squared(samples, ch, k, c), capacity);
    }
  }

  lemma PeaksStep(samples: seq<real>, ch: nat, k: nat)
    requires ch > 0 && k < |samples| / ch
    ensures RaisePeaks(Peaks(samples, ch, k), Frame(samples, ch, k), ch) == Peaks(samples, ch, k + 1)
  {
  }

  /** The momentary loudness reported for a window. */
  function MomentaryLufs(window: seq<real>, floor: real, log10: real -> real): (r: real)
    ensures r >= floor
  {
    MeanSquareToLufs(MaxR(MeanOf(window), MIN_MEAN_SQUARE), floor, log10)
  }

  /** ensure_state rebuilds when the channel count or the sample rate changes. */
  predicate Rebuilds(windowCount: nat, channels: nat, configRate: real, sampleRate: real)
  {
    windowCount != Max(channels, 1) || (sampleRate > 0.0 && AbsR(configRate - sampleRate) > F32_EPSILON)
  }

  // ---------------------------------------------------------------------
  // Processor

  /** Each channel owns its own window. */
  predicate Distinct(ws: seq<RollingMeanSquare>)
  {
    forall i, j :: 0 <= i < j < |ws| ==> ws[i] != ws[j]
  }

  class LoudnessProcessor {
    var config: LoudnessConfig
    var windows: seq<RollingMeanSquare>
    var peaksLinear: seq<real>
    var snapshot: LoudnessSnapshot

    ghost predicate Valid()
      reads this, windows
    {
      && |peaksLinear| == |windows|
      && Distinct(windows)
      && (forall i :: 0 <= i < |windows| ==> windows[i].Valid() && windows[i].capacity == Capacity(config))
    }

    /** new: no channels until the first block arrives. */
    constructor (config: LoudnessConfig)
      ensures Valid() && this.config == config && windows == [] && peaksLinear == []
      ensures snapshot == EMPTY_SNAPSHOT
    {
      this.config := config;
      windows := [];
      peaksLinear := [];
      snapshot := EMPTY_SNAPSHOT;
    }

    /** rebuild_state: fresh empty windows at the configured capacity, zero peaks, floor readings. */
    method RebuildState(channels: nat)
      modifies this`windows, this`peaksLinear, this`snapshot
      ensures Valid() && |windows| == channels
      ensures forall c :: 0 <= c < channels ==> fresh(windows[c]) && windows[c].samples == []
      ensures peaksLinear == seq(channels, _ => 0.0)
      ensures snapshot == WithChannels(channels, config.floorLufs)
    {
      var capacity := Capacity(config);
      var ws: seq<RollingMeanSquare> := [];
      while |ws| < channels
        invariant |ws| <= channels
        invariant Distinct(ws)
        invariant forall i :: 0 <= i < |ws| ==>
          fresh(ws[i]) && ws[i].Valid() && ws[i].capacity == capacity && ws[i].samples == []
      {
        var w := new RollingMeanSquare(capacity);
        ws := ws + [w];
      }
      windows := ws;
      peaksLinear := seq(channels, _ => 0.0);
      snapshot := WithChannels(channels, config.floorLufs);
    }

    /** ensure_state: adopt a new positive sample rate and rebuild when anything changed. */
    method EnsureState(requestedChannels: nat, sampleRate: real)
      requires Valid()
      modifies this`config, this`windows, this`peaksLinear, this`snapshot
      ensures Valid() && |windows| == Max(requestedChannels, 1)
      ensures config.momentaryWindow == old(config.momentaryWindow) && config.floorLufs == old(config.floorLufs)
      ensures config.sampleRate ==
        (if sampleRate > 0.0 && AbsR(old(config.sampleRate) - sampleRate) > F32_EPSILON
         then sampleRate else old(config.sampleRate))
      ensures Rebuilds(old(|windows|), requestedChannels, old(config.sampleRate), sampleRate) ==>
        (&& (forall c :: 0 <= c < |windows| ==> fresh(windows[c]) && windows[c].samples == [])
         && snapshot == WithChannels(|windows|, config.floorLufs))
      ensures !Rebuilds(old(|windows|), requestedChannels, old(config.sampleRate), sampleRate) ==>
        windows == old(windows) && peaksLinear == old(peaksLinear) && snapshot == old(snapshot)
    {
      var channels := Max(requestedChannels, 1);
      var needsRebuild := |windows| != channels;
      if sampleRate > 0.0 && AbsR(config.sampleRate - sampleRate) > F32_EPSILON {
        config := config.(sampleRate := sampleRate);
        needsRebuild := true;
      }
      if needsRebuild {
        RebuildState(channels);
      }
    }

    /** The contents of every channel's window. */
    ghost function Contents(): (r: seq<seq<real>>)
      reads this, windows
      ensures |r| == |windows| && forall c :: 0 <= c < |windows| ==> r[c] == windows[c].samples
    {
      seq(|windows|, c requires 0 <= c < |windows| reads this, windows => windows[c].samples)
    }

    /** Push one value into channel `c`'s window; every other window keeps its contents. */
    method PushChannel(c: nat, v: real)
      requires Valid() && c < |windows|
      modifies windows[c]
      ensures Valid()
      ensures windows[c].samples == PushWindow(old(windows[c].samples), v, Capacity(config))
      ensures Contents() == old(Contents())[c := PushWindow(old(Contents())[c], v, Capacity(config))]
    {
      ghost var before := Contents();
      windows[c].Push(v);
      assert forall i | 0 <= i < |windows| && i != c :: windows[i].samples == before[i];
    }

    /** One channel of a frame: its square joins its window and its peak rises to the sample's magnitude. */
    method PushFrameChannel(c: nat, squares: seq<real>, frame: seq<real>, ghost before: seq<seq<real>>,
                            ghost peaks0: seq<real>, peaks: seq<real>) returns (peaks': seq<real>)
      requires Valid() && c < |windows| && |squares| == |windows| == |before| == |frame| == |peaks0|
      requires Contents() == PushedPrefix(before, squares, c, Capacity(config))
      requires peaks == RaisePeaks(peaks0, frame, c)
      modifies windows[c]
      ensures Valid()
      ensures Contents() == PushedPrefix(before, squares, c + 1, Capacity(config))
      ensures peaks' == RaisePeaks(peaks0, frame, c + 1)
    {
      PushChannel(c, squares[c]);
      PushedPrefixStep(before, squares, c, Capacity(config));
      RaisePeaksStep(peaks0, frame, c);
      peaks' := peaks[c := MaxR(peaks[c], AbsR(frame[c]))];
    }

    /** One frame: push each channel's square into its window and raise its peak. */
    method PushFrame(samples: seq<real>, ch: nat, f: nat)
      requires Valid() && |windows| == ch && ch > 0 && f < |samples| / ch
      modifies windows, this`peaksLinear
      ensures Valid() && |peaksLinear| == ch
      ensures Contents() == PushedFrame(old(Contents()), samples, ch, f, Capacity(config))
      ensures peaksLinear == RaisePeaks(old(peaksLinear), Frame(samples, ch, f), ch)
    {
      ghost var before := Contents();
      ghost var cap := Capacity(config);
      var frame := Frame(samples, ch, f);
      var squares := seq(ch, i requires 0 <= i < ch => Squared(samples, ch, f, i));
      var peaks := peaksLinear;
      var c := 0;
      while c < ch
        invariant 0 <= c <= ch && |peaks| == ch && Valid() && |windows| == ch
        invariant Contents() == PushedPrefix(before, squares, c, cap)
        invariant peaks == RaisePeaks(old(peaksLinear), frame, c)
      {
        peaks := PushFrameChannel(c, squares, frame, before, old(peaksLinear), peaks);
        c := c + 1;
      }
      assert PushedPrefix(before, squares, ch, cap) == PushedFrame(before, samples, ch, f, cap);
      peaksLinear := peaks;
    }

    /** The frame loop of process_block over every whole frame; a partial frame is ignored. */
    method PushFrames(samples: seq<real>, ch: nat)
      requires Valid() && |windows| == ch && ch > 0
      modifies windows, this`peaksLinear
      ensures Valid() && |peaksLinear| == ch
      ensures Contents() == Windowed(old(Contents()), samples, ch, |samples| / ch, Capacity(config))
      ensures peaksLinear == Peaks(samples, ch, |samples| / ch)
    {
      ghost var before := Contents();
      var cap := Capacity(config);
      peaksLinear := seq(ch, _ => 0.0);
      var f := 0;
      while f < |samples| / ch
        invariant 0 <= f <= |samples| / ch
        invariant Valid() && |windows| == ch && |peaksLinear| == ch
        invariant Contents() == Windowed(before, samples, ch, f, cap)
        invariant peaksLinear == Peaks(samples, ch, f)
      {
        PushNextFrame(samples, ch, f, before);
        f := f + 1;
      }
    }

    /** One step of the frame loop: frame `f` joins the windows and the peaks of the frames before it. */
    method PushNextFrame(samples: seq<real>, ch: nat, f: nat, ghost before: seq<seq<real>>)
      requires Valid() && |windows| == ch && ch > 0 && f < |samples| / ch && |before| == ch
      requires Contents() == Windowed(before, samples, ch, f, Capacity(config))
      requires peaksLinear == Peaks(samples, ch, f)
      modifies windows, this`peaksLinear
      ensures Valid() && |peaksLinear| == ch
      ensures Contents() == Windowed(before, samples, ch, f + 1, Capacity(config))
      ensures peaksLinear == Peaks(samples, ch, f + 1)
    {
      WindowedStep(before, samples, ch, f, Capacity(config));
      PeaksStep(samples, ch, f);
      PushFrame(samples, ch, f);
    }

    /** The readings loop of process_block: momentary loudness and true peak per channel. */
    method PublishReadings(log10: real -> real)
      requires Valid()
      modifies this`snapshot
      ensures |snapshot.momentaryLufs| == |windows| && |snapshot.truePeakDb| == |windows|
      ensures forall c :: 0 <= c < |windows| ==>
        snapshot.momentaryLufs[c] == MomentaryLufs(windows[c].samples, config.floorLufs, log10)
      ensures forall c :: 0 <= c < |windows| ==>
        snapshot.truePeakDb[c] == PeakToDb(peaksLinear[c], config.floorLufs, log10)
    {
      var lufs: seq<real> := [];
      var peaks: seq<real> := [];
      var c := 0;
      while c < |windows|
        invariant 0 <= c <= |windows| && |lufs| == c && |peaks| == c
        invariant forall i :: 0 <= i < c ==> lufs[i] == MomentaryLufs(windows[i].samples, config.floorLufs, log10)
        invariant forall i :: 0 <= i < c ==> peaks[i] == PeakToDb(peaksLinear[i], config.floorLufs, log10)
      {
        var meanSquare := MaxR(windows[c].Mean(), MIN_MEAN_SQUARE);
        lufs := lufs + [MeanSquareToLufs(meanSquare, config.floorLufs, log10)];
        peaks := peaks + [PeakToDb(peaksLinear[c], config.floorLufs, log10)];
        c := c + 1;
      }
      snapshot := LoudnessSnapshot(lufs, peaks);
    }

    /**
     * process_block: no update for an empty block; otherwise the windows take
     * every whole frame, the peaks restart from zero and the snapshot holds
     * one loudness and one peak reading per channel.
     */
    method ProcessBlock(samples: seq<real>, channels: nat, sampleRate: real, log10: real -> real)
      returns (r: Option<LoudnessSnapshot>)
      requires Valid()
      modifies this`config, this`windows, this`peaksLinear, this`snapshot, windows
      ensures Valid()
      ensures r.None? <==> channels == 0 || |samples| / Max(channels, 1) == 0
      ensures r.None? ==> windows == old(windows) && snapshot == old(snapshot) && config == old(config)
      ensures r.Some? ==> r.value == snapshot && |windows| == channels && |peaksLinear| == channels
      ensures r.Some? ==> |snapshot.momentaryLufs| == channels && |snapshot.truePeakDb| == channels
      ensures r.Some? ==> forall c :: 0 <= c < channels ==>
        windows[c].samples
          == PushAll(if Rebuilds(old(|windows|), channels, old(config.sampleRate), sampleRate)
                     then [] else old(windows[c].samples),
                     Squares(samples, channels, c, |samples| / channels), Capacity(config))
      ensures r.Some? ==> forall c :: 0 <= c < channels ==>
        && peaksLinear[c] == PeakOf(samples, channels, c, |samples| / channels)
        && snapshot.truePeakDb[c] == PeakToDb(peaksLinear[c], config.floorLufs, log10)
        && snapshot.momentaryLufs[c] == MomentaryLufs(windows[c].samples, config.floorLufs, log10)
    {
      if channels == 0 || |samples| / Max(channels, 1) == 0 {
        return None;
      }
      EnsureState(channels, sampleRate);
      if |windows| == 0 {
        return None;
      }
      FeedBlock(samples, channels, log10);
      r := Some(snapshot);
    }

    /** The windows take every whole frame of the block, then the readings are published. */
    method FeedBlock(samples: seq<real>, ch: nat, log10: real -> real)
      requires Valid() && |windows| == ch && ch > 0
      modifies windows, this`peaksLinear, this`snapshot
      ensures Valid() && |peaksLinear| == ch
      ensures |snapshot.momentaryLufs| == ch && |snapshot.truePeakDb| == ch
      ensures forall c :: 0 <= c < ch ==>
        windows[c].samples == PushAll(old(windows[c].samples), Squares(samples, ch, c, |samples| / ch), Capacity(config))
      ensures forall c :: 0 <= c < ch ==>
        && peaksLinear[c] == PeakOf(samples, ch, c, |samples| / ch)
        && snapshot.truePeakDb[c] == PeakToDb(peaksLinear[c], config.floorLufs, log10)
        && snapshot.momentaryLufs[c] == MomentaryLufs(windows[c].samples, config.floorLufs, log10)
    {
      ghost var before := Contents();
      PushFrames(samples, ch);
      PublishReadings(log10);
      forall c | 0 <= c < ch
        ensures windows[c].samples == PushAll(before[c], Squares(samples, ch, c, |samples| / ch), Capacity(config))
      {
        assert Contents()[c] == windows[c].samples;
      }
    }

    /** reset: every window emptied, peaks zeroed, readings back at the floor. */
    method Reset()
      requires Valid()
      modifies windows, this`peaksLinear, this`snapshot
      ensures Valid() && windows == old(windows)
      ensures forall c :: 0 <= c < |windows| ==> windows[c].samples == []
      ensures peaksLinear == seq(|windows|, _ => 0.0)
      ensures snapshot == (if |windows| > 0 then WithChannels(|windows|, config.floorLufs) else EMPTY_SNAPSHOT)
    {
      var c := 0;
      while c < |windows|
        invariant 0 <= c <= |windows|
        invariant forall i :: 0 <= i < |windows| ==> windows[i].Valid() && windows[i].capacity == Capacity(config)
        invariant forall i :: 0 <= i < c ==> windows[i].samples == []
      {
        windows[c].Reset();
        c := c + 1;
      }
      peaksLinear := seq(|windows|, _ => 0.0);
      snapshot := if |windows| > 0 then WithChannels(|windows|, config.floorLufs) else EMPTY_SNAPSHOT;
    }

    /** update_config: the new configuration, with the windows rebuilt at its capacity. */
    method UpdateConfig(newConfig: LoudnessConfig)
      requires Valid()
      modifies this`config, this`windows, this`peaksLinear, this`snapshot
      ensures Valid() && config == newConfig && |windows| == old(|windows|)
      ensures forall c :: 0 <= c < |windows| ==> windows[c].samples == [] && windows[c].capacity == Capacity(newConfig)
      ensures |windows| > 0 ==> snapshot == WithChannels(|windows|, newConfig.floorLufs)
      ensures |windows| == 0 ==> snapshot == old(snapshot)
    {
      config := newConfig;
      if |windows| > 0 {
        RebuildState(|windows|);
      }
    }
  }
}

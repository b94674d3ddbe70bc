// Audio helpers shared by the meters (src/util/audio.rs): decibel floors,
// channel mixdown into a queue, interleaved history trimming, copying out of
// a ring-backed queue and the FFT bin normalisation table.
module AudioUtil {
  import opened Base

  const DEFAULT_SAMPLE_RATE: real := 48000.0
  /** Magnitudes below this level (dB) are clamped to it. */
  const DB_FLOOR: real := -140.0
  /** Powers at or below this value are treated as silence. */
  const POWER_EPSILON: real := 0.00000000000000000001

  /** A `VecDeque` handed to a function by mutable reference. */
  class Deque<T> {
    var items: seq<T>

    constructor (initial: seq<T>)
      ensures items == initial
    {
      items := initial;
    }
  }

  /**
   * power_to_db: `db` stands for `power.ln() * LN_TO_DB`, which the model
   * does not compute. Silence maps to the floor and nothing maps below it.
   */
  function PowerToDb(power: real, db: real, floor: real): (r: real)
    ensures r >= floor
    ensures power <= POWER_EPSILON ==> r == floor
    ensures power > POWER_EPSILON && db >= floor ==> r == db
  {
    if power > POWER_EPSILON then MaxR(db, floor) else floor
  }

  /** Linear interpolation: `t = 0` gives `a`, `t = 1` gives `b`. */
  function Lerp(a: real, b: real, t: real): (r: real)
    ensures t == 0.0 ==> r == a
    ensures t == 1.0 ==> r == b
    ensures a == b ==> r == a
  {
    a + (b - a) * t
  }

  lemma FrameInBounds(f: nat, ch: nat, n: nat)
    requires ch > 0 && f < n / ch
    ensures f * ch + ch <= n
  {
    assert (f + 1) * ch <= (n / ch) * ch;
  }

  /** Frame `f` of an interleaved block: one sample per channel. */
  function Frame(samples: seq<real>, ch: nat, f: nat): (r: seq<real>)
    requires ch > 0 && f < |samples| / ch
    ensures |r| == ch
  {
    FrameInBounds(f, ch, |samples|);
    samples[f * ch..f * ch + ch]
  }

  /** The average of frame `f` of an interleaved block. */
  function FrameMean(samples: seq<real>, ch: nat, f: nat): real
    requires ch > 0 && f < |samples| / ch
  {
    Sum(Frame(samples, ch, f)) * (1.0 / ch as real)
  }

  /**
   * What mixdown_into_deque appends: nothing for zero channels or no input,
   * the input itself for mono, else one average per complete frame (a
   * trailing partial frame is dropped).
   */
  function MixdownFrames(samples: seq<real>, ch: nat): (r: seq<real>)
    ensures ch == 0 ==> r == []
    ensures ch == 1 ==> r == samples
    ensures ch >= 2 ==>
      (|r| == |samples| / ch && forall f :: 0 <= f < |r| ==> r[f] == FrameMean(samples, ch, f))
  {
    if ch == 0 || |samples| == 0 then []
    else if ch == 1 then samples
    else seq(|samples| / ch, f requires 0 <= f < |samples| / ch => FrameMean(samples, ch, f))
  }

  method MixdownIntoDeque(buffer: Deque<real>, samples: seq<real>, channels: nat)
    modifies buffer
    ensures buffer.items == old(buffer.items) + MixdownFrames(samples, channels)
  {
    if channels == 0 || |samples| == 0 {
      return;
    }
    if channels == 1 {
      buffer.items := buffer.items + samples;
      return;
    }
    var frames := |samples| / channels;
    var inv := 1.0 / channels as real;
    var f := 0;
    while f < frames
      invariant 0 <= f <= frames
      invariant buffer.items == old(buffer.items) + MixdownFrames(samples, channels)[..f]
    {
      FrameInBounds(f, channels, |samples|);
      var sum := Sum(samples[f * channels..f * channels + channels]);
      buffer.items := buffer.items + [sum * inv];
      ghost var m := MixdownFrames(samples, channels);
      assert m[f] == FrameMean(samples, channels, f) == sum * inv;
      assert m[..f + 1] == m[..f] + [m[f]];
      f := f + 1;
    }
  }

  lemma {:induction false} SumConstant(s: seq<real>, v: real)
    requires forall i :: 0 <= i < |s| ==> s[i] == v
    ensures Sum(s) == |s| as real * v
  {
    if s != [] {
      SumConstant(s[..|s| - 1], v);
    }
  }

  /** Mixing down frames whose channels all carry `v` yields `v` for every frame. */
  lemma MixdownUniform(samples: seq<real>, ch: nat, v: real)
    requires ch >= 1
    requires forall i :: 0 <= i < |samples| ==> samples[i] == v
    ensures forall f :: 0 <= f < |MixdownFrames(samples, ch)| ==> MixdownFrames(samples, ch)[f] == v
  {
    if ch >= 2 {
      forall f | 0 <= f < |samples| / ch
        ensures FrameMean(samples, ch, f) == v
      {
        FrameInBounds(f, ch, |samples|);
        var frame := samples[f * ch..f * ch + ch];
        SumConstant(frame, v);
        calc {
          FrameMean(samples, ch, f);
          Sum(frame) * (1.0 / ch as real);
          (ch as real * v) * (1.0 / ch as real);
          v;
        }
      }
    }
  }

  /**
   * copy_from_deque: `headLen` is where the queue's storage wraps
   * (`as_slices`). The first min(dst, src) elements are copied in queue
   * order and the rest of `dst` is left alone.
   */
  method CopyFromDeque(dst: array<real>, src: seq<real>, headLen: nat)
    requires headLen <= |src|
    modifies dst
    ensures dst[..Min(dst.Length, |src|)] == src[..Min(dst.Length, |src|)]
    ensures dst[Min(dst.Length, |src|)..] == old(dst[Min(dst.Length, |src|)..])
  {
    var len := Min(dst.Length, |src|);
    var head, tail := src[..headLen], src[headLen..];
    if |head| >= len {
      var i := 0;
      while i < len
        invariant 0 <= i <= len
        invariant dst[..i] == src[..i]
        invariant dst[len..] == old(dst[len..])
      {
        dst[i] := head[i];
        i := i + 1;
      }
    } else {
      var split := |head|;
      var i := 0;
      while i < split
        invariant 0 <= i <= split
        invariant dst[..i] == src[..i]
        invariant dst[len..] == old(dst[len..])
      {
        dst[i] := head[i];
        i := i + 1;
      }
      while i < len
        invariant split <= i <= len
        invariant dst[..i] == src[..i]
        invariant dst[len..] == old(dst[len..])
      {
        dst[i] := tail[i - split];
        i := i + 1;
      }
    }
  }

  /** `usize::div_ceil` */
  function DivCeil(a: nat, b: nat): nat
    requires b > 0
  {
    (a + b - 1) / b
  }

  lemma DivCeilBounds(a: nat, b: nat)
    requires b > 0
    ensures DivCeil(a, b) * b >= a
    ensures DivCeil(a, b) * b < a + b
  {
    var q := DivCeil(a, b);
    var r := (a + b - 1) % b;
    assert q * b + r == a + b - 1;
  }

  /** `excess.div_ceil(channels) * channels`: the fewest whole frames covering `excess` samples. */
  function WholeFrames(excess: nat, channels: nat): (d: nat)
    requires channels > 0
    ensures d % channels == 0
    ensures excess <= d < excess + channels
  {
    var q := DivCeil(excess, channels);
    DivCeilBounds(excess, channels);
    DivModUnique(q * channels, q, channels, 0);
    q * channels
  }

  /** How many samples extend_interleaved_history drops from the front of the history. */
  function HistoryDrain(histLen: nat, sampleLen: nat, capacity: nat, channels: nat): (d: nat)
    requires channels > 0
    ensures d <= histLen
    ensures histLen + sampleLen <= capacity ==> d == 0
    ensures histLen + sampleLen > capacity && d < histLen ==>
      d % channels == 0 && histLen + sampleLen - d <= capacity
      && histLen + sampleLen - d + channels > capacity
  {
    if histLen + sampleLen > capacity then
      Min(WholeFrames(histLen + sampleLen - capacity, channels), histLen)
    else 0
  }

  /**
   * The history after extend_interleaved_history: empty for zero capacity or
   * channels; the newest `capacity` samples when the input alone fills it;
   * otherwise whole frames are dropped from the front, oldest first, until
   * the input fits.
   */
  function ExtendedHistory(history: seq<real>, samples: seq<real>, capacity: nat, channels: nat): (r: seq<real>)
    ensures capacity == 0 || channels == 0 ==> r == []
    ensures capacity > 0 && channels > 0 ==> |r| <= capacity
    ensures capacity > 0 && channels > 0 && |samples| >= capacity ==>
      r == samples[|samples| - capacity..]
    ensures capacity > 0 && channels > 0 && |samples| < capacity ==>
      |samples| <= |r| <= |history| + |samples| && r == history[|history| + |samples| - |r|..] + samples
      && ((|history| + |samples| - |r|) % channels == 0 || |r| == |samples|)
    ensures capacity > 0 && channels > 0 && |history| + |samples| <= capacity ==>
      r == history + samples
  {
    if capacity == 0 || channels == 0 then []
    else if |samples| >= capacity then samples[|samples| - capacity..]
    else
      var d := HistoryDrain(|history|, |samples|, capacity, channels);
      history[d..] + samples
  }

  method ExtendInterleavedHistory(history: Deque<real>, samples: seq<real>, capacity: nat, channels: nat)
    modifies history
    ensures history.items == ExtendedHistory(old(history.items), samples, capacity, channels)
  {
    if capacity == 0 || channels == 0 {
      history.items := [];
      return;
    }
    if |samples| >= capacity {
      history.items := samples[|samples| - capacity..];
      return;
    }
    var overflow := |history.items| + |samples|;
    if overflow > capacity {
      var drain := WholeFrames(overflow - capacity, channels);
      history.items := history.items[Min(drain, |history.items|)..];
    }
    history.items := history.items + samples;
  }

  /** The reciprocal of the window's coherent gain, with the source's fallbacks. */
  function InverseWindowSum(window: seq<real>, fftSize: nat): (r: real)
    ensures AbsR(Sum(window)) > F32_EPSILON ==> r * Sum(window) == 1.0
    ensures AbsR(Sum(window)) <= F32_EPSILON && fftSize > 0 ==> r * fftSize as real == 1.0
    ensures AbsR(Sum(window)) <= F32_EPSILON && fftSize == 0 ==> r == 0.0
  {
    var s := Sum(window);
    if AbsR(s) > F32_EPSILON then 1.0 / s
    else if fftSize > 0 then 1.0 / fftSize as real
    else 0.0
  }

  /**
   * compute_fft_bin_normalization: one factor per bin of a real FFT; the DC
   * and Nyquist bins get the squared inverse window sum, the others four
   * times that (one-sided spectrum).
   */
  function FftBinNormalization(window: seq<real>, fftSize: nat): (r: seq<real>)
    ensures |r| == fftSize / 2 + 1
    ensures r[0] == InverseWindowSum(window, fftSize) * InverseWindowSum(window, fftSize)
    ensures r[|r| - 1] == r[0]
    ensures forall i :: 0 < i < |r| - 1 ==> r[i] == 4.0 * r[0]
    ensures forall i :: 0 <= i < |r| ==> r[i] >= 0.0
  {
    var bins := fftSize / 2 + 1;
    var inv := InverseWindowSum(window, fftSize);
    var dc := inv * inv;
    seq(bins, i => if i == 0 || i == bins - 1 then dc else 4.0 * dc)
  }
}

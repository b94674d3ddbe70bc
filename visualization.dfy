// Channel projection for the visuals (src/ui/visualization.rs): the data
// holds `stride` samples per channel, channel after channel.
module Visualization {
  import opened Base
  import opened SettingsVisuals

  /** The sample of channel `k` at index `i`, or nothing when the data does not reach it. */
  function Sample(data: seq<real>, stride: nat, k: nat, i: nat): real
  {
    if k * stride + i < |data| then data[k * stride + i] else 0.0
  }

  /**
   * The sum over the first `channels` chunks of their sample at `i` (a
   * short last chunk, or a chunk past the end, contributes nothing).
   */
  function ChannelSum(data: seq<real>, stride: nat, channels: nat, i: nat): real
  {
    if channels == 0 then 0.0 else ChannelSum(data, stride, channels - 1, i) + Sample(data, stride, channels - 1, i)
  }

  /** The mono blend: at each index, the sum of the channels scaled by one over the channel count. */
  function MonoBlend(data: seq<real>, stride: nat, channels: nat): (r: seq<real>)
    ensures |r| == stride
    ensures forall i | 0 <= i < stride :: r[i] == ChannelSum(data, stride, channels, i) * (1.0 / Max(channels, 1) as real)
  {
    seq(stride, i requires 0 <= i < stride => ChannelSum(data, stride, channels, i) * (1.0 / Max(channels, 1) as real))
  }

  /**
   * project_channel_data: Both keeps the data; Left takes the first
   * channel; Right the second, or the first of mono data; Mono blends
   * the channels. A slice past the end of the data gives nothing.
   */
  function ProjectChannelData(mode: ChannelMode, data: seq<real>, stride: nat, channels: nat): (r: seq<real>)
    ensures mode == Both ==> r == data
    ensures mode == Left ==> r == (if stride <= |data| then data[..stride] else [])
    ensures mode == Right ==>
      var offset := if channels > 1 then stride else 0;
      r == (if offset + stride <= |data| then data[offset..offset + stride] else [])
    ensures mode == Mono ==> r == MonoBlend(data, stride, channels)
  {
    match mode
    case Both => data
    case Left => if stride <= |data| then data[..stride] else []
    case Right =>
      var offset := if channels > 1 then stride else 0;
      if offset + stride <= |data| then data[offset..offset + stride] else []
    case Mono => MonoBlend(data, stride, channels)
  }

  /**
   * For data holding every channel in full, the projection holds as many
   * channels as output_channels says, each of `stride` samples.
   */
  lemma ProjectedLength(mode: ChannelMode, data: seq<real>, stride: nat, channels: nat)
    requires channels >= 1 && |data| == channels * stride
    ensures |ProjectChannelData(mode, data, stride, channels)| == OutputChannels(mode, channels) * stride
  {
    if mode == Right && channels > 1 {
      MulAtLeast(channels, stride);
      assert 2 * stride <= channels * stride;
    }
  }

  /** Summing `n` channels that all hold `x` at index `i` gives n * x. */
  lemma {:induction false} ChannelSumOfEqual(data: seq<real>, stride: nat, n: nat, i: nat, x: real)
    requires forall k | 0 <= k < n :: Sample(data, stride, k, i) == x
    ensures ChannelSum(data, stride, n, i) == n as real * x
  {
    if n > 0 {
      ChannelSumOfEqual(data, stride, n - 1, i, x);
    }
  }

  /** The mono blend of channels that agree sample for sample is the first channel. */
  lemma MonoOfIdenticalChannels(data: seq<real>, stride: nat, channels: nat)
    requires channels >= 1 && |data| == channels * stride
    requires forall k, i | 0 <= k < channels && 0 <= i < stride :: Sample(data, stride, k, i) == Sample(data, stride, 0, i)
    ensures ProjectChannelData(Mono, data, stride, channels) == data[..stride]
  {
    MulAtLeast(channels, stride);
    var r := ProjectChannelData(Mono, data, stride, channels);
    forall i | 0 <= i < stride ensures r[i] == data[i] {
      ChannelSumOfEqual(data, stride, channels, i, Sample(data, stride, 0, i));
      assert Sample(data, stride, 0, i) == data[i];
      var c := channels as real;
      assert c * data[i] * (1.0 / c) == data[i];
    }
  }
}

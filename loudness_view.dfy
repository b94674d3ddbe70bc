// The view model of the loudness meter (src/ui/visualization/loudness.rs):
// the latest per-channel levels, the two meter modes, and the bars, fills
// and guide lines handed to the renderer. Surround channels are folded
// into a left and a right value by taking the loudest of each side.
module LoudnessView {
  import opened Base
  import opened SettingsVisuals

  /** The number of channel slots in a snapshot (the width of its level arrays). */
  const MAX_CHANNELS: nat := 8
  const PALETTE_SIZE: nat := 5
  const DEFAULT_MIN_DB: real := -60.0
  const DEFAULT_MAX_DB: real := 4.0
  const GUIDE_LEVELS: seq<real> := [0.0, -6.0, -12.0, -18.0, -24.0, -36.0]
  /** Front left, back left and side left of the standard channel map. */
  const LEFT_CHANNELS: seq<nat> := [0, 4, 6]
  /** Front right, back right and side right. */
  const RIGHT_CHANNELS: seq<nat> := [1, 5, 7]
  const CENTER_CHANNEL: nat := 2

  /** The levels the loudness processor reports, one slot per channel. */
  datatype LevelSnapshot = LevelSnapshot(shortTerm: real, momentary: real, rmsFast: seq<real>, rmsSlow: seq<real>,
                                         truePeak: seq<real>, channelCount: nat)

  predicate WellFormed(s: LevelSnapshot)
  {
    |s.rmsFast| == MAX_CHANNELS && |s.rmsSlow| == MAX_CHANNELS && |s.truePeak| == MAX_CHANNELS
  }

  /** A meter bar: its background and the (level, colour) fills drawn over it. */
  datatype MeterBar = MeterBar(background: Color, fills: seq<(real, Color)>)

  datatype LoudnessParams = LoudnessParams(key: nat, minDb: real, maxDb: real, bars: seq<MeterBar>,
                                           guides: seq<real>, guideColor: Color, thresholdDb: Option<real>)

  /** The guide levels that fall inside the displayed range, in their order. */
  function Guides(levels: seq<real>, min: real, max: real): (r: seq<real>)
    ensures forall x :: x in r <==> x in levels && min <= x <= max
    ensures |r| <= |levels|
  {
    if levels == [] then []
    else (if min <= levels[0] <= max then [levels[0]] else []) + Guides(levels[1..], min, max)
  }

  /** With the default range every guide level is drawn. */
  lemma {:induction false} DefaultRangeKeepsAllGuides()
    ensures Guides(GUIDE_LEVELS, DEFAULT_MIN_DB, DEFAULT_MAX_DB) == GUIDE_LEVELS
  {
    var g := GUIDE_LEVELS;
    assert g[1..][1..][1..][1..][1..][1..] == [];
  }

  /** The largest of `floor` and the values. */
  function MaxFrom(floor: real, values: seq<real>): (r: real)
    ensures r >= floor && forall i | 0 <= i < |values| :: r >= values[i]
    ensures r == floor || r in values
  {
    if values == [] then floor else MaxR(MaxFrom(floor, values[..|values| - 1]), values[|values| - 1])
  }

  lemma MaxFromSnoc(floor: real, values: seq<real>, x: real)
    ensures MaxFrom(floor, values + [x]) == MaxR(MaxFrom(floor, values), x)
  {
    assert (values + [x])[..|values|] == values;
  }

  /** LoudnessState: the levels of the last snapshot and how they are shown. */
  class LoudnessState {
    var shortTerm: real
    var momentary: real
    const rmsFast: array<real>
    const rmsSlow: array<real>
    const truePeak: array<real>
    var channelCount: nat
    var minDb: real
    var maxDb: real
    var leftMode: MeterMode
    var rightMode: MeterMode
    var palette: seq<Color>
    var key: nat

    ghost predicate Valid()
      reads this
    {
      rmsFast.Length == MAX_CHANNELS && rmsSlow.Length == MAX_CHANNELS && truePeak.Length == MAX_CHANNELS
      && rmsFast != rmsSlow && rmsFast != truePeak && rmsSlow != truePeak
      && |palette| == PALETTE_SIZE
    }

    /** new: every level at the bottom of the range, two channels, true peak on the left and short-term LUFS on the right. */
    constructor (defaultPalette: seq<Color>, key: nat)
      requires |defaultPalette| == PALETTE_SIZE
      ensures Valid() && fresh(rmsFast) && fresh(rmsSlow) && fresh(truePeak)
      ensures shortTerm == DEFAULT_MIN_DB && momentary == DEFAULT_MIN_DB && channelCount == 2
      ensures forall i | 0 <= i < MAX_CHANNELS :: rmsFast[i] == DEFAULT_MIN_DB && rmsSlow[i] == DEFAULT_MIN_DB && truePeak[i] == DEFAULT_MIN_DB
      ensures minDb == DEFAULT_MIN_DB && maxDb == DEFAULT_MAX_DB
      ensures leftMode == TruePeak && rightMode == LufsShortTerm && palette == defaultPalette && this.key == key
    {
      shortTerm, momentary := DEFAULT_MIN_DB, DEFAULT_MIN_DB;
      rmsFast := new real[MAX_CHANNELS](_ => DEFAULT_MIN_DB);
      rmsSlow := new real[MAX_CHANNELS](_ => DEFAULT_MIN_DB);
      truePeak := new real[MAX_CHANNELS](_ => DEFAULT_MIN_DB);
      channelCount := 2;
      minDb, maxDb := DEFAULT_MIN_DB, DEFAULT_MAX_DB;
      leftMode, rightMode := TruePeak, LufsShortTerm;
      palette := defaultPalette;
      this.key := key;
    }

    /**
     * apply_snapshot: the LUFS values are taken, the channel count becomes
     * at least 1, and the levels of the first min(count, 8) channels are
     * copied; the other slots keep their old levels.
     */
    method ApplySnapshot(snapshot: LevelSnapshot)
      requires Valid() && WellFormed(snapshot)
      modifies this`shortTerm, this`momentary, this`channelCount, rmsFast, rmsSlow, truePeak
      ensures Valid()
      ensures shortTerm == snapshot.shortTerm && momentary == snapshot.momentary
      ensures channelCount == Max(snapshot.channelCount, 1) && channelCount >= 1
      ensures forall i | 0 <= i < MAX_CHANNELS ::
        rmsFast[i] == (if i < channelCount then snapshot.rmsFast[i] else old(rmsFast[i]))
        && rmsSlow[i] == (if i < channelCount then snapshot.rmsSlow[i] else old(rmsSlow[i]))
        && truePeak[i] == (if i < channelCount then snapshot.truePeak[i] else old(truePeak[i]))
    {
      var count := Max(snapshot.channelCount, 1);
      for i := 0 to Min(count, MAX_CHANNELS)
        invariant forall k | 0 <= k < i :: rmsFast[k] == snapshot.rmsFast[k] && rmsSlow[k] == snapshot.rmsSlow[k] && truePeak[k] == snapshot.truePeak[k]
        invariant forall k | i <= k < MAX_CHANNELS :: rmsFast[k] == old(rmsFast[k]) && rmsSlow[k] == old(rmsSlow[k]) && truePeak[k] == old(truePeak[k])
      {
        rmsFast[i] := snapshot.rmsFast[i];
        rmsSlow[i] := snapshot.rmsSlow[i];
        truePeak[i] := snapshot.truePeak[i];
      }
      shortTerm, momentary, channelCount := snapshot.shortTerm, snapshot.momentary, count;
    }

    method SetModes(left: MeterMode, right: MeterMode)
      modifies this`leftMode, this`rightMode
      ensures leftMode == left && rightMode == right
    {
      leftMode, rightMode := left, right;
    }

    method SetPalette(colors: seq<Color>)
      requires Valid() && |colors| == PALETTE_SIZE
      modifies this`palette
      ensures Valid() && palette == colors
    {
      palette := colors;
    }

    /** get_value: the LUFS modes read the single loudness value; the others the channel's slot, or the range floor past the last slot. */
    function GetValue(mode: MeterMode, channel: nat): (r: real)
      requires Valid()
      reads this, rmsFast, rmsSlow, truePeak
      ensures mode == LufsShortTerm ==> r == shortTerm
      ensures mode == LufsMomentary ==> r == momentary
      ensures !IsLufs(mode) && channel >= MAX_CHANNELS ==> r == minDb
      ensures mode == RmsFast && channel < MAX_CHANNELS ==> r == rmsFast[channel]
      ensures mode == RmsSlow && channel < MAX_CHANNELS ==> r == rmsSlow[channel]
      ensures mode == TruePeak && channel < MAX_CHANNELS ==> r == truePeak[channel]
    {
      match mode
      case LufsShortTerm => shortTerm
      case LufsMomentary => momentary
      case RmsFast => if channel < MAX_CHANNELS then rmsFast[channel] else minDb
      case RmsSlow => if channel < MAX_CHANNELS then rmsSlow[channel] else minDb
      case TruePeak => if channel < MAX_CHANNELS then truePeak[channel] else minDb
    }

    /** The values of the listed channels that are present, then the centre channel's when present. */
    function SideValues(mode: MeterMode, channels: seq<nat>): (r: seq<real>)
      requires Valid()
      reads this, rmsFast, rmsSlow, truePeak
    {
      PresentValues(mode, channels) + (if channelCount > CENTER_CHANNEL then [GetValue(mode, CENTER_CHANNEL)] else [])
    }

    function PresentValues(mode: MeterMode, channels: seq<nat>): (r: seq<real>)
      requires Valid()
      reads this, rmsFast, rmsSlow, truePeak
      ensures forall ch | ch in channels && ch < channelCount :: GetValue(mode, ch) in r
    {
      if channels == [] then []
      else
        var last := channels[|channels| - 1];
        PresentValues(mode, channels[..|channels| - 1]) + (if last < channelCount then [GetValue(mode, last)] else [])
    }

    /**
     * aggregate_left_channels / aggregate_right_channels: a LUFS mode shows
     * the single loudness value; otherwise the loudest of the side's present
     * channels and the centre, never below the range floor.
     */
    method AggregateChannels(mode: MeterMode, channels: seq<nat>) returns (v: real)
      requires Valid()
      ensures IsLufs(mode) ==> v == GetValue(mode, 0)
      ensures !IsLufs(mode) ==> v == MaxFrom(minDb, SideValues(mode, channels))
      ensures !IsLufs(mode) ==> v >= minDb && forall ch | ch in channels && ch < channelCount :: v >= GetValue(mode, ch)
    {
      if IsLufs(mode) {
        return GetValue(mode, 0);
      }
      v := FoldPresent(mode, channels);
      if channelCount > CENTER_CHANNEL {
        v := MaxR(v, GetValue(mode, CENTER_CHANNEL));
      }
      var present := PresentValues(mode, channels);
      var side := SideValues(mode, channels);
      assert side == present + side[|present|..];
      MaxFromAppend(minDb, present, side[|present|..]);
      forall ch | ch in channels && ch < channelCount ensures v >= GetValue(mode, ch) {
        var i :| 0 <= i < |present| && present[i] == GetValue(mode, ch);
        assert side[i] == GetValue(mode, ch);
      }
    }

    /** The present values of channels[..k+1]: those of channels[..k], then channel k's when present. */
    lemma PresentValuesSnoc(mode: MeterMode, channels: seq<nat>, k: nat)
      requires Valid() && k < |channels|
      ensures PresentValues(mode, channels[..k + 1])
        == PresentValues(mode, channels[..k]) + (if channels[k] < channelCount then [GetValue(mode, channels[k])] else [])
    {
      assert channels[..k + 1][..k] == channels[..k];
    }

    /** The running maximum over the present channels of the list, from the range floor. */
    method FoldPresent(mode: MeterMode, channels: seq<nat>) returns (v: real)
      requires Valid()
      ensures v == MaxFrom(minDb, PresentValues(mode, channels))
    {
      v := minDb;
      for k := 0 to |channels|
        invariant v == MaxFrom(minDb, PresentValues(mode, channels[..k]))
      {
        PresentValuesSnoc(mode, channels, k);
        ghost var before := PresentValues(mode, channels[..k]);
        if channels[k] < channelCount {
          var x := GetValue(mode, channels[k]);
          MaxFromSnoc(minDb, before, x);
          assert PresentValues(mode, channels[..k + 1]) == before + [x];
          v := MaxR(v, x);
        } else {
          assert before + [] == before;
        }
      }
      assert channels[..|channels|] == channels;
    }

    /**
     * visual_params: two bars, the first with the left and right values of
     * the left meter's mode, the second with channel 0 of the right meter's
     * mode; the guides inside the range; a threshold at 0 dB.
     */
    method VisualParams() returns (params: Option<LoudnessParams>)
      requires Valid()
      ensures params.Some?
      ensures var p := params.value;
        |p.bars| == 2 && |p.bars[0].fills| == 2 && |p.bars[1].fills| == 1
        && p.minDb == minDb && p.maxDb == maxDb && p.key == key
        && p.guides == Guides(GUIDE_LEVELS, minDb, maxDb) && p.thresholdDb == Some(0.0)
        && p.bars[0].background == p.bars[1].background == palette[0].(a := 1.0)
        && p.bars[0].fills[0] == (AggregateSpec(leftMode, LEFT_CHANNELS), palette[1])
        && p.bars[0].fills[1] == (AggregateSpec(leftMode, RIGHT_CHANNELS), palette[2])
        && p.bars[1].fills[0] == (GetValue(rightMode, 0), palette[3])
        && p.guideColor == palette[4]
    {
      var left := AggregateChannels(leftMode, LEFT_CHANNELS);
      var right := AggregateChannels(leftMode, RIGHT_CHANNELS);
      var bg := palette[0].(a := 1.0);
      params := Some(LoudnessParams(key, minDb, maxDb,
        [MeterBar(bg, [(left, palette[1]), (right, palette[2])]), MeterBar(bg, [(GetValue(rightMode, 0), palette[3])])],
        Guides(GUIDE_LEVELS, minDb, maxDb), palette[4], Some(0.0)));
    }

    /** The value AggregateChannels computes. */
    function AggregateSpec(mode: MeterMode, channels: seq<nat>): real
      requires Valid()
      reads this, rmsFast, rmsSlow, truePeak
    {
      if IsLufs(mode) then GetValue(mode, 0) else MaxFrom(minDb, SideValues(mode, channels))
    }
  }

  /** Folding the values of a suffix continues from the maximum of the prefix. */
  lemma {:induction false} MaxFromAppend(floor: real, prefix: seq<real>, suffix: seq<real>)
    ensures MaxFrom(floor, prefix + suffix) == MaxFrom(MaxFrom(floor, prefix), suffix)
    decreases |suffix|
  {
    if suffix != [] {
      var s' := suffix[..|suffix| - 1];
      assert (prefix + suffix)[..|prefix + suffix| - 1] == prefix + s';
      MaxFromAppend(floor, prefix, s');
    } else {
      assert prefix + suffix == prefix;
    }
  }
}

// Choices shared by the visual settings (src/ui/settings/visuals.rs): how
// channels are projected and which loudness measure a meter shows.
module SettingsVisuals {
  /** ChannelMode: both channels, one of them, or a mono blend (the default). */
  datatype ChannelMode = Both | Left | Right | Mono

  const DEFAULT_CHANNEL_MODE: ChannelMode := Mono

  /** output_channels: Both passes every input channel through; every other mode yields one. */
  function OutputChannels(mode: ChannelMode, inputChannels: nat): (r: nat)
    ensures mode == Both ==> r == inputChannels
    ensures mode != Both ==> r == 1
  {
    match mode
    case Both => inputChannels
    case _ => 1
  }

  /** The stereometer's drawing style, amplitude scale and correlation meter (defaults: DotCloud, Exponential, MultiBand, Right). */
  datatype StereometerMode = Lissajous | DotCloud
  datatype StereometerScale = Linear | Exponential
  datatype CorrelationMeterMode = Off | SingleBand | MultiBand
  datatype CorrelationMeterSide = MeterLeft | MeterRight

  /** MeterMode: the loudness measure a meter shows; short-term LUFS by default. */
  datatype MeterMode = LufsShortTerm | LufsMomentary | RmsFast | RmsSlow | TruePeak

  const DEFAULT_METER_MODE: MeterMode := LufsShortTerm

  /** MeterMode::ALL: every meter mode, each once. */
  const ALL_METER_MODES: seq<MeterMode> := [LufsShortTerm, LufsMomentary, RmsFast, RmsSlow, TruePeak]

  lemma AllMeterModesListed(m: MeterMode)
    ensures m in ALL_METER_MODES
    ensures |ALL_METER_MODES| == 5
    ensures forall i, j | 0 <= i < j < |ALL_METER_MODES| :: ALL_METER_MODES[i] != ALL_METER_MODES[j]
  {
  }

  predicate IsLufs(m: MeterMode)
  {
    m == LufsShortTerm || m == LufsMomentary
  }

  /** unit_label: "LUFS" for the LUFS modes, "dB" for the RMS and peak modes. */
  function UnitLabel(m: MeterMode): (r: string)
    ensures IsLufs(m) <==> r == "LUFS"
    ensures !IsLufs(m) <==> r == "dB"
  {
    match m
    case LufsShortTerm | LufsMomentary => "LUFS"
    case RmsFast | RmsSlow | TruePeak => "dB"
  }
}

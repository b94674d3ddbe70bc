// The status bar settings (src/ui/settings/bar.rs): its height is kept
// within fixed bounds.
module SettingsBar {
  const BAR_MIN_HEIGHT: nat := 24
  const BAR_MAX_HEIGHT: nat := 800
  const BAR_DEFAULT_HEIGHT: nat := 180

  /**
   * clamp_bar_height: the height forced into [24, 800]; a height already
   * inside is kept, so clamping twice is clamping once.
   */
  function ClampBarHeight(height: nat): (r: nat)
    ensures BAR_MIN_HEIGHT <= r <= BAR_MAX_HEIGHT
    ensures BAR_MIN_HEIGHT <= height <= BAR_MAX_HEIGHT ==> r == height
    ensures height < BAR_MIN_HEIGHT ==> r == BAR_MIN_HEIGHT
    ensures height > BAR_MAX_HEIGHT ==> r == BAR_MAX_HEIGHT
  {
    if height < BAR_MIN_HEIGHT then BAR_MIN_HEIGHT
    else if height > BAR_MAX_HEIGHT then BAR_MAX_HEIGHT
    else height
  }

  lemma ClampBarHeightIdempotent(height: nat)
    ensures ClampBarHeight(ClampBarHeight(height)) == ClampBarHeight(height)
  {
  }

  datatype BarAlignment = Top | Bottom

  datatype BarSettings = BarSettings(enabled: bool, alignment: BarAlignment, height: nat)

  /** BarSettings::default: disabled, at the top, at the default height, which the clamp keeps. */
  function DefaultBarSettings(): (r: BarSettings)
    ensures !r.enabled && r.alignment == Top && r.height == BAR_DEFAULT_HEIGHT
    ensures ClampBarHeight(r.height) == r.height
  {
    BarSettings(false, Top, BAR_DEFAULT_HEIGHT)
  }
}

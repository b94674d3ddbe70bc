// Persisted palette overrides (src/ui/settings/palette.rs): a palette is
// stored only where it differs from the defaults, so that unchanged
// palettes are not written out.
module SettingsPalette {
  import opened Base
  import opened Theme

  /** Tolerance of the position and spread comparisons. */
  const STOP_EPSILON: real := 0.0001

  /** PaletteSettings: the stored colours, and the inner stop positions and spreads when they were changed. */
  datatype PaletteSettings = PaletteSettings(stops: seq<Color>, stopPositions: Option<seq<real>>, stopSpreads: Option<seq<real>>)

  /** to_array: the stored colours when there are exactly `n` of them. */
  function ToArray(p: PaletteSettings, n: nat): (r: Option<seq<Color>>)
    ensures r.Some? <==> |p.stops| == n
    ensures r.Some? ==> r.value == p.stops
  {
    if |p.stops| == n then Some(p.stops) else None
  }

  /** colors_differ: same length and some pair of colours not approximately equal. */
  predicate ColorsDiffer(colors: seq<Color>, defaults: seq<Color>)
  {
    |colors| == |defaults| && exists i | 0 <= i < |colors| :: !ColorsEqual(colors[i], defaults[i])
  }

  /** Colours differ exactly when the lengths agree and the palettes are not equal; a length mismatch never counts. */
  lemma ColorsDifferIsNotEqual(colors: seq<Color>, defaults: seq<Color>)
    ensures ColorsDiffer(colors, defaults) <==> |colors| == |defaults| && !PalettesEqual(colors, defaults)
    ensures |colors| != |defaults| ==> !ColorsDiffer(colors, defaults)
  {
  }

  /** if_differs_from: the colours as settings exactly when they differ from the defaults. */
  function IfDiffersFrom(colors: seq<Color>, defaults: seq<Color>): (r: Option<PaletteSettings>)
    ensures r.Some? <==> ColorsDiffer(colors, defaults)
    ensures r.Some? ==> r.value == PaletteSettings(colors, None, None)
  {
    if ColorsDiffer(colors, defaults) then Some(PaletteSettings(colors, None, None)) else None
  }

  /** Stored differing colours come back from to_array for the palette's size. */
  lemma StoredColorsRoundTrip(colors: seq<Color>, defaults: seq<Color>)
    requires ColorsDiffer(colors, defaults)
    ensures ToArray(IfDiffersFrom(colors, defaults).value, |defaults|) == Some(colors)
  {
  }

  /** Two values further apart than the tolerance. */
  predicate Apart(x: real, y: real)
  {
    AbsR(x - y) > STOP_EPSILON
  }

  /** Some pair of the zipped sequences is further apart than the tolerance. */
  predicate AnyApart(a: seq<real>, b: seq<real>)
  {
    exists i | 0 <= i < |a| && i < |b| :: Apart(a[i], b[i])
  }

  /** Some spread is further from 1 than the tolerance. */
  predicate AnyNonUnit(spreads: seq<real>)
  {
    exists i | 0 <= i < |spreads| :: Apart(spreads[i], 1.0)
  }

  /**
   * from_state: settings holding the colours if they differ, the inner
   * positions if they differ from uniform and there are more than two
   * stops, the spreads if any is not 1; nothing when none of the three
   * differs. The sanitised positions and spreads and the uniform positions
   * are inputs: the theme's sanitising functions are not part of this
   * model; they give one entry per stop.
   */
  function FromState(colors: seq<Color>, defaults: seq<Color>, positions: seq<real>, uniform: seq<real>, spreads: seq<real>)
    : (r: Option<PaletteSettings>)
    requires |positions| == |defaults|
    ensures r.None? <==> !ColorsDiffer(colors, defaults) && !AnyApart(positions, uniform) && !AnyNonUnit(spreads)
    ensures r.Some? ==> r.value.stops == (if ColorsDiffer(colors, defaults) then colors else [])
    ensures r.Some? ==> (r.value.stopPositions.Some? <==> AnyApart(positions, uniform) && |defaults| > 2)
    ensures r.Some? && r.value.stopPositions.Some? ==>
      |r.value.stopPositions.value| == |defaults| - 2 && r.value.stopPositions.value == positions[1..|defaults| - 1]
    ensures r.Some? ==> (r.value.stopSpreads.Some? <==> AnyNonUnit(spreads))
    ensures r.Some? && r.value.stopSpreads.Some? ==> r.value.stopSpreads.value == spreads
  {
    var count := |defaults|;
    var colorsDiffer := ColorsDiffer(colors, defaults);
    var positionsDiffer := AnyApart(positions, uniform);
    var spreadsDiffer := AnyNonUnit(spreads);
    var stops := if colorsDiffer then colors else [];
    var stopPositions := if positionsDiffer && count > 2 then Some(positions[1..count - 1]) else None;
    var stopSpreads := if spreadsDiffer then Some(spreads) else None;
    if colorsDiffer || positionsDiffer || spreadsDiffer then Some(PaletteSettings(stops, stopPositions, stopSpreads)) else None
  }

  /** A palette left at its defaults, uniform positions and unit spreads is not stored. */
  lemma DefaultStateNotStored(defaults: seq<Color>, uniform: seq<real>, spreads: seq<real>)
    requires |uniform| == |defaults|
    requires forall i | 0 <= i < |spreads| :: spreads[i] == 1.0
    ensures FromState(defaults, defaults, uniform, uniform, spreads).None?
  {
    assert !ColorsDiffer(defaults, defaults) by {
      forall i | 0 <= i < |defaults| ensures ColorsEqual(defaults[i], defaults[i]) {
      }
    }
    forall i | 0 <= i < |uniform| && i < |uniform| ensures !Apart(uniform[i], uniform[i]) {
      assert uniform[i] - uniform[i] == 0.0;
    }
    assert !AnyNonUnit(spreads) by {
      forall i | 0 <= i < |spreads| ensures !Apart(spreads[i], 1.0) {
      }
    }
  }
}

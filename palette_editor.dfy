// The palette editor of the visual settings panes
// (src/ui/app/visuals/settings/palette.rs): which colour is open for
// editing, the gradient stop positions and spreads, and the events that
// change them. Drawing and layout are not modelled; the geometry the
// gradient bar's hit test needs is passed in.
module PaletteEditor {
  import opened Base
  import opened Theme

  /** Stops may come no closer than this to each other or to the ends of the bar. */
  const MIN_STOP_GAP: real := 0.01
  /** Changes to a position or spread smaller than this are ignored. */
  const CHANGE_EPSILON: real := 0.0001
  const MIN_SPREAD: real := 0.2
  const MAX_SPREAD: real := 5.0
  /** Half of the handle width (10) plus its hit slop (6). */
  const HANDLE_HIT_RADIUS: real := 8.0

  datatype PaletteEvent =
    | Open(index: nat)
    | Close
    | Adjust(index: nat, color: Color)
    | AdjustPosition(index: nat, position: real)
    | AdjustSpread(index: nat, spread: real)
    | Reset

  /** Opening the colour already open closes it; opening another switches to it. */
  function Toggle(active: Option<nat>, i: nat): (r: Option<nat>)
    ensures r == Some(i) <==> active != Some(i)
    ensures r != Some(i) ==> r.None?
  {
    if active != Some(i) then Some(i) else None
  }

  /** Opening the same colour twice leaves the editor as it was. */
  lemma ToggleTwice(active: Option<nat>, i: nat)
    requires active.None? || active == Some(i)
    ensures Toggle(Toggle(active, i), i) == active
  {
  }

  /**
   * The new position of interior stop `index`, or None when the event is
   * refused: an end stop, fewer than three stops, no room between the
   * neighbours, or a change below the epsilon. The requested position is
   * clamped to keep the gap from both neighbours and from both ends.
   */
  function PositionUpdate(positions: seq<real>, index: nat, position: real): (r: Option<real>)
    ensures r.Some? ==> 0 < index < |positions| - 1 && |positions| >= 3
    ensures r.Some? ==> positions[index - 1] + MIN_STOP_GAP <= r.value <= positions[index + 1] - MIN_STOP_GAP
    ensures r.Some? ==> MIN_STOP_GAP <= r.value <= 1.0 - MIN_STOP_GAP
    ensures r.Some? ==> AbsR(positions[index] - r.value) >= CHANGE_EPSILON
    ensures index == 0 || index >= |positions| - 1 ==> r.None?
  {
    var n := |positions|;
    if index == 0 || index >= n - 1 || n < 3 then None
    else
      var lo := MaxR(positions[index - 1] + MIN_STOP_GAP, MIN_STOP_GAP);
      var hi := MinR(positions[index + 1] - MIN_STOP_GAP, 1.0 - MIN_STOP_GAP);
      if lo > hi then None
      else
        var next := ClampR(position, lo, hi);
        if AbsR(positions[index] - next) < CHANGE_EPSILON then None else Some(next)
  }

  /** A request that already lies in the allowed band and moves the stop far enough is taken as is. */
  lemma PositionUpdateExact(positions: seq<real>, index: nat, position: real)
    requires 0 < index < |positions| - 1
    requires positions[index - 1] + MIN_STOP_GAP <= position <= positions[index + 1] - MIN_STOP_GAP
    requires MIN_STOP_GAP <= position <= 1.0 - MIN_STOP_GAP
    requires AbsR(positions[index] - position) >= CHANGE_EPSILON
    ensures PositionUpdate(positions, index, position) == Some(position)
  {
  }

  /** The stops strictly increase from left to right. */
  predicate Increasing(positions: seq<real>)
  {
    forall i | 0 < i < |positions| :: positions[i - 1] < positions[i]
  }

  /** Moving a stop never lets it pass or touch a neighbour. */
  lemma PositionUpdateKeepsOrder(positions: seq<real>, index: nat, position: real)
    requires Increasing(positions)
    requires PositionUpdate(positions, index, position).Some?
    ensures Increasing(positions[index := PositionUpdate(positions, index, position).value])
  {
    var v := PositionUpdate(positions, index, position).value;
    var p := positions[index := v];
    forall i | 0 < i < |p| ensures p[i - 1] < p[i] {
      if i == index {
        assert p[i - 1] == positions[index - 1];
      } else if i - 1 == index {
        assert p[i] == positions[index + 1];
      } else {
        assert p[i - 1] == positions[i - 1] && p[i] == positions[i];
      }
    }
  }

  /** The new spread of stop `index`, clamped to [0.2, 5], or None when refused. */
  function SpreadUpdate(spreads: seq<real>, index: nat, spread: real): (r: Option<real>)
    ensures r.Some? ==> index < |spreads|
    ensures r.Some? ==> MIN_SPREAD <= r.value <= MAX_SPREAD
    ensures r.Some? ==> AbsR(spreads[index] - r.value) >= CHANGE_EPSILON
    ensures r.Some? && MIN_SPREAD <= spread <= MAX_SPREAD ==> r.value == spread
    ensures index >= |spreads| ==> r.None?
  {
    if index >= |spreads| then None
    else
      var next := ClampR(spread, MIN_SPREAD, MAX_SPREAD);
      if AbsR(spreads[index] - next) < CHANGE_EPSILON then None else Some(next)
  }

  /** Asking for the spread a stop already has is refused. */
  lemma SpreadUpdateIdempotent(spreads: seq<real>, index: nat)
    requires index < |spreads| && MIN_SPREAD <= spreads[index] <= MAX_SPREAD
    ensures SpreadUpdate(spreads, index, spreads[index]).None?
  {
  }

  /** The first label override for `index`, if any. */
  function FindOverride(overrides: seq<(nat, string)>, index: nat): (r: Option<nat>)
    ensures r.Some? ==> r.value < |overrides| && overrides[r.value].0 == index
    ensures r.Some? ==> forall k | 0 <= k < r.value :: overrides[k].0 != index
    ensures r.None? ==> forall k | 0 <= k < |overrides| :: overrides[k].0 != index
  {
    if overrides == [] then None
    else if overrides[0].0 == index then Some(0)
    else
      var rest := FindOverride(overrides[1..], index);
      if rest.Some? then Some(rest.value + 1) else None
  }

  const HEX_DIGITS: string := "0123456789ABCDEF"

  /** Two upper-case hexadecimal digits of a byte. */
  function Hex2(n: nat): (r: string)
    requires n < 256
    ensures |r| == 2
  {
    [HEX_DIGITS[n / 16], HEX_DIGITS[n % 16]]
  }

  /** The value of an upper-case hexadecimal digit. */
  function HexValue(ch: char): (r: Option<nat>)
    ensures r.Some? ==> r.value < 16 && HEX_DIGITS[r.value] == ch
  {
    if '0' <= ch <= '9' then Some(ch as nat - '0' as nat)
    else if 'A' <= ch <= 'F' then Some(ch as nat - 'A' as nat + 10)
    else None
  }

  lemma HexValueOfDigit(d: nat)
    requires d < 16
    ensures HexValue(HEX_DIGITS[d]) == Some(d)
  {
  }

  /** Reads two hexadecimal digits back into a byte. */
  function ParseHex2(s: string): (r: Option<nat>)
    requires |s| == 2
    ensures r.Some? ==> r.value < 256
  {
    var hi := HexValue(s[0]);
    var lo := HexValue(s[1]);
    if hi.Some? && lo.Some? then Some(hi.value * 16 + lo.value) else None
  }

  lemma {:induction false} ParseHex2RoundTrip(n: nat)
    requires n < 256
    ensures ParseHex2(Hex2(n)) == Some(n)
  {
    HexValueOfDigit(n / 16);
    HexValueOfDigit(n % 16);
  }

  /** The colour's channels as bytes. */
  function Bytes(c: Color): (r: seq<nat>)
    ensures |r| == 4 && forall i | 0 <= i < 4 :: r[i] < 256
  {
    [F32ToU8(c.r), F32ToU8(c.g), F32ToU8(c.b), F32ToU8(c.a)]
  }

  /** to_hex: "#RRGGBB" for an opaque colour, "#RRGGBBAA" otherwise. */
  function ToHex(c: Color): (r: string)
    ensures |r| == (if F32ToU8(c.a) == 255 then 7 else 9)
    ensures r[0] == '#'
  {
    var b := Bytes(c);
    var rgb := "#" + Hex2(b[0]) + Hex2(b[1]) + Hex2(b[2]);
    if b[3] == 255 then rgb else rgb + Hex2(b[3])
  }

  /** Reads a "#RRGGBB" or "#RRGGBBAA" string back into bytes; a missing alpha is 255. */
  function ParseHex(s: string): (r: Option<seq<nat>>)
  {
    if (|s| != 7 && |s| != 9) || s[0] != '#' then None
    else
      var r := ParseHex2(s[1..3]);
      var g := ParseHex2(s[3..5]);
      var b := ParseHex2(s[5..7]);
      var a := if |s| == 9 then ParseHex2(s[7..9]) else Some(255);
      if r.Some? && g.Some? && b.Some? && a.Some? then Some([r.value, g.value, b.value, a.value]) else None
  }

  /** The hex text determines the quantised colour: it reads back to exactly its bytes. */
  lemma {:induction false} ToHexRoundTrip(c: Color)
    ensures ParseHex(ToHex(c)) == Some(Bytes(c))
  {
    var b := Bytes(c);
    var s := ToHex(c);
    assert s[1..3] == Hex2(b[0]) && s[3..5] == Hex2(b[1]) && s[5..7] == Hex2(b[2]);
    ParseHex2RoundTrip(b[0]);
    ParseHex2RoundTrip(b[1]);
    ParseHex2RoundTrip(b[2]);
    if b[3] != 255 {
      assert s[7..9] == Hex2(b[3]);
      ParseHex2RoundTrip(b[3]);
    }
  }

  /** The distance from the cursor to handle `i` of a bar at `x` of width `width`. */
  function HandleDistance(positions: seq<real>, i: nat, x: real, width: real, cursorX: real): real
    requires i < |positions|
  {
    AbsR(cursorX - (x + positions[i] * width))
  }

  /**
   * nearest_handle: among the handles in [lo, hi) within the hit radius of
   * the cursor, the nearest; of equally near ones the first.
   */
  method NearestHandle(lo: nat, hi: nat, positions: seq<real>, x: real, width: real, cursorX: real) returns (r: Option<nat>)
    requires hi <= |positions|
    ensures r.None? <==> forall i | lo <= i < hi :: HandleDistance(positions, i, x, width, cursorX) > HANDLE_HIT_RADIUS
    ensures r.Some? ==> lo <= r.value < hi && HandleDistance(positions, r.value, x, width, cursorX) <= HANDLE_HIT_RADIUS
    ensures r.Some? ==> forall i | lo <= i < hi && HandleDistance(positions, i, x, width, cursorX) <= HANDLE_HIT_RADIUS ::
      HandleDistance(positions, r.value, x, width, cursorX) <= HandleDistance(positions, i, x, width, cursorX)
    ensures r.Some? ==> forall i | lo <= i < r.value && HandleDistance(positions, i, x, width, cursorX) <= HANDLE_HIT_RADIUS ::
      HandleDistance(positions, r.value, x, width, cursorX) < HandleDistance(positions, i, x, width, cursorX)
  {
    r := None;
    var best := 0.0;
    var i := lo;
    while i < hi
      invariant lo <= i <= Max(lo, hi)
      invariant r.None? <==> forall k | lo <= k < i :: HandleDistance(positions, k, x, width, cursorX) > HANDLE_HIT_RADIUS
      invariant r.Some? ==> lo <= r.value < i && best == HandleDistance(positions, r.value, x, width, cursorX) && best <= HANDLE_HIT_RADIUS
      invariant r.Some? ==> forall k | lo <= k < i && HandleDistance(positions, k, x, width, cursorX) <= HANDLE_HIT_RADIUS ::
        best <= HandleDistance(positions, k, x, width, cursorX)
      invariant r.Some? ==> forall k | lo <= k < r.value && HandleDistance(positions, k, x, width, cursorX) <= HANDLE_HIT_RADIUS ::
        best < HandleDistance(positions, k, x, width, cursorX)
    {
      var d := HandleDistance(positions, i, x, width, cursorX);
      if d <= HANDLE_HIT_RADIUS && (r.None? || d < best) {
        r := Some(i);
        best := d;
      }
      i := i + 1;
    }
  }

  /** PaletteEditor: the palette under edit, its stop layout and the editing state. */
  class Editor {
    const palette: Palette
    var positions: seq<real>
    var spreads: seq<real>
    const defaultPositions: seq<real>
    const defaultSpreads: seq<real>
    var active: Option<nat>
    var visibleIndices: Option<seq<nat>>
    var labelOverrides: seq<(nat, string)>
    var showRamp: bool

    /** One position and one spread per stop; an open colour is one of the stops. */
    ghost predicate Valid()
      reads this, palette
    {
      palette.Valid()
      && |positions| == |spreads| == |defaultPositions| == |defaultSpreads| == palette.Len()
      && (active.Some? ==> active.value < palette.Len())
    }

    /**
     * new: nothing open, no ramp, positions and spreads at their defaults.
     * The uniform positions and default spreads of the theme are passed in,
     * one per stop.
     */
    constructor (palette: Palette, uniformPositions: seq<real>, defaultSpreads: seq<real>)
      requires palette.Valid()
      requires |uniformPositions| == |defaultSpreads| == palette.Len()
      ensures Valid()
      ensures this.palette == palette && positions == uniformPositions && spreads == defaultSpreads
      ensures defaultPositions == uniformPositions && this.defaultSpreads == defaultSpreads
      ensures active.None? && visibleIndices.None? && labelOverrides == [] && !showRamp
    {
      this.palette := palette;
      positions, spreads := uniformPositions, defaultSpreads;
      defaultPositions, this.defaultSpreads := uniformPositions, defaultSpreads;
      active, visibleIndices, labelOverrides, showRamp := None, None, [], false;
    }

    method SetShowRamp(show: bool)
      modifies this`showRamp
      ensures showRamp == show
    {
      showRamp := show;
    }

    /** set_visible_indices: an open colour that is no longer shown is closed. */
    method SetVisibleIndices(indices: Option<seq<nat>>)
      requires Valid()
      modifies this`visibleIndices, this`active
      ensures Valid()
      ensures visibleIndices == indices
      ensures active.Some? ==> active == old(active) && (indices.Some? ==> active.value in indices.value)
      ensures old(active).Some? && (indices.None? || old(active).value in indices.value) ==> active == old(active)
    {
      visibleIndices := indices;
      if active.Some? && indices.Some? && active.value !in indices.value {
        active := None;
      }
    }

    method SetLabelOverrides(overrides: seq<(nat, string)>)
      modifies this`labelOverrides
      ensures labelOverrides == overrides
    {
      labelOverrides := overrides;
    }

    /** set_positions: the sanitised positions (one per stop) are stored. */
    method SetPositions(sanitized: seq<real>)
      requires Valid() && |sanitized| == palette.Len()
      modifies this`positions
      ensures Valid() && positions == sanitized
    {
      positions := sanitized;
    }

    /** set_spreads: the sanitised spreads (one per stop) are stored. */
    method SetSpreads(sanitized: seq<real>)
      requires Valid() && |sanitized| == palette.Len()
      modifies this`spreads
      ensures Valid() && spreads == sanitized
    {
      spreads := sanitized;
    }

    /** set_colors: the colours go to the palette, which keeps them only when they differ from its defaults. */
    method SetColors(cs: seq<Color>)
      requires Valid()
      modifies palette
      ensures Valid() && palette.colors == (if |cs| == |palette.defaults| && !PalettesEqual(cs, palette.defaults) then cs else [])
      ensures |cs| == palette.Len() ==> PalettesEqual(palette.Colors(), cs)
      ensures |cs| != palette.Len() ==> palette.Colors() == palette.defaults
    {
      palette.Set(cs);
    }

    /** label_for: an override first, then the palette's own label, else "Color <index + 1>". */
    function LabelFor(index: nat): (r: string)
      reads this, palette
      ensures FindOverride(labelOverrides, index).Some? ==> r == labelOverrides[FindOverride(labelOverrides, index).value].1
      ensures FindOverride(labelOverrides, index).None? && index < |palette.labels| ==> r == palette.labels[index]
      ensures FindOverride(labelOverrides, index).None? && index >= |palette.labels| ==> r == "Color " + NatToString(index + 1)
    {
      var o := FindOverride(labelOverrides, index);
      if o.Some? then labelOverrides[o.value].1
      else if index < |palette.labels| then palette.labels[index]
      else "Color " + NatToString(index + 1)
    }

    /** is_default: default colours and the stop layout the editor started with. */
    predicate IsDefault()
      reads this, palette
    {
      palette.IsDefault() && positions == defaultPositions && spreads == defaultSpreads
    }

    /** The indices the view shows: the visible ones that name a stop, else every stop. */
    function ShownIndices(): (r: seq<nat>)
      requires Valid()
      reads this, palette
      ensures forall k | 0 <= k < |r| :: r[k] < palette.Len()
      ensures visibleIndices.None? ==> |r| == palette.Len() && forall k | 0 <= k < |r| :: r[k] == k
      ensures visibleIndices.Some? ==> forall i :: i in r <==> i in visibleIndices.value && i < palette.Len()
    {
      if visibleIndices.None? then Indices(palette.Len()) else Below(visibleIndices.value, palette.Len())
    }

    /** update: one event handled; true when the palette or its layout changed. */
    method Update(event: PaletteEvent) returns (changed: bool)
      requires Valid()
      modifies this`active, this`positions, this`spreads, palette`colors
      ensures Valid()
      ensures event.Open? && event.index < palette.Len() ==> active == Toggle(old(active), event.index) && !changed
      ensures event.Open? && event.index >= palette.Len() ==> active == old(active) && !changed
      ensures event.Close? ==> active.None? && !changed
      ensures event.Adjust? ==> active == old(active) && positions == old(positions) && spreads == old(spreads)
      ensures event.Adjust? ==> (changed <==> event.index < palette.Len() && !ColorsEqual(old(palette.Colors())[event.index], event.color))
      ensures event.Adjust? && changed ==> PalettesEqual(palette.Colors(), old(palette.Colors())[event.index := event.color])
      ensures event.AdjustPosition? ==> active == old(active) && spreads == old(spreads) && palette.colors == old(palette.colors)
      ensures event.AdjustPosition? ==> var u := PositionUpdate(old(positions), event.index, event.position);
        (changed <==> u.Some?) && positions == (if u.Some? then old(positions)[event.index := u.value] else old(positions))
      ensures event.AdjustSpread? ==> active == old(active) && positions == old(positions) && palette.colors == old(palette.colors)
      ensures event.AdjustSpread? ==> var u := SpreadUpdate(old(spreads), event.index, event.spread);
        (changed <==> u.Some?) && spreads == (if u.Some? then old(spreads)[event.index := u.value] else old(spreads))
      ensures event.Reset? ==> active.None? && IsDefault() && (changed <==> !old(IsDefault()))
      ensures event.Reset? && !changed ==> positions == old(positions) && spreads == old(spreads) && palette.colors == old(palette.colors)
    {
      match event {
        case Open(i) =>
          if i < palette.Len() {
            active := Toggle(active, i);
          }
          changed := false;
        case Close =>
          active := None;
          changed := false;
        case Adjust(index, color) =>
          changed := AdjustColor(index, color);
        case AdjustPosition(index, position) =>
          var u := PositionUpdate(positions, index, position);
          if u.Some? {
            positions := positions[index := u.value];
          }
          changed := u.Some?;
        case AdjustSpread(index, spread) =>
          var u := SpreadUpdate(spreads, index, spread);
          if u.Some? {
            spreads := spreads[index := u.value];
          }
          changed := u.Some?;
        case Reset =>
          changed := ResetAll();
      }
    }

    /** Adjust: a colour that differs from the stop's current one is stored through the palette. */
    method AdjustColor(index: nat, color: Color) returns (changed: bool)
      requires Valid()
      modifies palette`colors
      ensures Valid()
      ensures changed <==> index < palette.Len() && !ColorsEqual(old(palette.Colors())[index], color)
      ensures changed ==> PalettesEqual(palette.Colors(), old(palette.Colors())[index := color])
      ensures !changed ==> palette.colors == old(palette.colors)
    {
      var colors := palette.Colors();
      if index < |colors| && !ColorsEqual(colors[index], color) {
        palette.Set(colors[index := color]);
        changed := true;
      } else {
        changed := false;
      }
    }

    /** Reset: closes the open colour; a non-default editor goes back to its defaults. */
    method ResetAll() returns (changed: bool)
      requires Valid()
      modifies this`active, this`positions, this`spreads, palette`colors
      ensures Valid() && active.None? && IsDefault()
      ensures changed <==> !old(IsDefault())
      ensures !changed ==> positions == old(positions) && spreads == old(spreads) && palette.colors == old(palette.colors)
    {
      active := None;
      if IsDefault() {
        changed := false;
      } else {
        palette.Reset();
        positions := defaultPositions;
        spreads := defaultSpreads;
        changed := true;
      }
    }
  }

  /** 0, 1, …, n - 1. */
  function Indices(n: nat): (r: seq<nat>)
    ensures |r| == n && forall k | 0 <= k < n :: r[k] == k
  {
    if n == 0 then [] else Indices(n - 1) + [n - 1]
  }

  /** The elements of `s` below `n`, in order. */
  function Below(s: seq<nat>, n: nat): (r: seq<nat>)
    ensures forall k | 0 <= k < |r| :: r[k] < n
    ensures forall i :: i in r <==> i in s && i < n
  {
    if s == [] then []
    else (if s[0] < n then [s[0]] else []) + Below(s[1..], n)
  }
}

// Helpers shared by the settings panes (src/ui/app/visuals/settings/widgets.rs):
// slider snapping and change-reporting assignment.
module SettingsWidgets {
  import opened Base

  /** SliderRange: bounds and step of a slider; the source never builds one with min > max. */
  datatype SliderRange = SliderRange(min: real, max: real, step: real)

  /**
   * snap: the value clamped into the range after rounding it to the step
   * grid counted from the minimum; a non-positive step only clamps.
   */
  function Snap(range: SliderRange, value: real): (r: real)
    requires range.min <= range.max
    ensures range.min <= r <= range.max
    ensures range.step <= 0.0 ==> r == ClampR(value, range.min, range.max)
  {
    if range.step <= 0.0 then ClampR(value, range.min, range.max)
    else ClampR(range.min + Round((value - range.min) / range.step) as real * range.step, range.min, range.max)
  }

  /** Rounding a whole number gives it back. */
  lemma RoundWhole(k: int)
    ensures Round(k as real) == k
  {
    if k >= 0 {
      assert (k as real + 0.5).Floor == k;
    } else {
      assert (-(k as real) + 0.5).Floor == -k;
    }
  }

  /** A value on the step grid and inside the range is left where it is. */
  lemma SnapKeepsGridValues(range: SliderRange, k: int)
    requires range.min <= range.max && range.step > 0.0
    requires range.min <= range.min + k as real * range.step <= range.max
    ensures Snap(range, range.min + k as real * range.step) == range.min + k as real * range.step
  {
    var v := range.min + k as real * range.step;
    assert (v - range.min) / range.step == k as real;
    RoundWhole(k);
  }

  /** f32::round lands within half a unit of its argument. */
  lemma RoundNear(x: real)
    ensures AbsR(Round(x) as real - x) <= 0.5
  {
    if x >= 0.0 {
      assert (x + 0.5).Floor as real <= x + 0.5 < (x + 0.5).Floor as real + 1.0;
    } else {
      assert (-x + 0.5).Floor as real <= -x + 0.5 < (-x + 0.5).Floor as real + 1.0;
    }
  }

  /** Scaling by a positive factor scales the magnitude. */
  lemma AbsScaled(d: real, c: real)
    requires c > 0.0
    ensures AbsR(d * c) == AbsR(d) * c
  {
    if d < 0.0 {
      assert (-d) * c > 0.0;
      assert d * c == -((-d) * c);
    } else {
      assert d * c >= 0.0;
    }
  }

  /** Scaling by a non-negative factor keeps an order. */
  lemma ScaleLe(a: real, b: real, c: real)
    requires a <= b && c >= 0.0
    ensures a * c <= b * c
  {
    assert (b - a) * c >= 0.0;
  }

  /**
   * With a positive step the snapped value is a point of the step grid
   * counted from the minimum, or the maximum; a value inside the range
   * moves by at most half a step.
   */
  lemma SnapOnGrid(range: SliderRange, value: real) returns (k: int)
    requires range.min <= range.max && range.step > 0.0
    ensures k >= 0
    ensures Snap(range, value) == range.min + k as real * range.step || Snap(range, value) == range.max
    ensures range.min <= value <= range.max ==> AbsR(Snap(range, value) - value) <= range.step / 2.0
  {
    var q := (value - range.min) / range.step;
    var grid := range.min + Round(q) as real * range.step;
    RoundNear(q);
    NearGrid(Round(q) as real, q, range.step, range.min, value);
    if Round(q) < 0 {
      ScaleLe(Round(q) as real, -1.0, range.step);
      assert grid < range.min;
      k := 0;
    } else {
      k := Round(q);
    }
  }

  /** A grid point within half a unit of `q` lies within half a step of `base + q * step`. */
  lemma NearGrid(r: real, q: real, step: real, base: real, value: real)
    requires step > 0.0 && AbsR(r - q) <= 0.5 && q == (value - base) / step
    ensures AbsR(base + r * step - value) <= step / 2.0
  {
    assert q * step == value - base;
    var off := (r - q) * step;
    assert base + r * step - value == off;
    var d := r - q;
    var e := AbsR(d);
    AbsScaled(d, step);
    assert AbsR(off) == e * step;
    ScaleLe(e, 0.5, step);
    assert e * step <= 0.5 * step;
  }

  /** A settings field the panes assign through these helpers. */
  class Setting<T(==)> {
    var value: T

    constructor (initial: T)
      ensures value == initial
    {
      value := initial;
    }

    /** set_if_changed: assigns the value and reports whether it differed. */
    method SetIfChanged(v: T) returns (changed: bool)
      modifies this
      ensures value == v
      ensures changed <==> old(value) != v
    {
      if value != v {
        value := v;
        changed := true;
      } else {
        changed := false;
      }
    }
  }

  /**
   * set_f32: the same for a float, compared by bit pattern; on reals
   * (no NaN and no negative zero) that is equality.
   */
  method SetF32(target: Setting<real>, v: real) returns (changed: bool)
    modifies target
    ensures target.value == v
    ensures changed <==> old(target.value) != v
  {
    changed := target.SetIfChanged(v);
  }

  /** update_f32_range: the snapped value assigned with set_f32. */
  method UpdateF32Range(target: Setting<real>, v: real, range: SliderRange) returns (changed: bool)
    requires range.min <= range.max
    modifies target
    ensures target.value == Snap(range, v)
    ensures changed <==> old(target.value) != Snap(range, v)
  {
    changed := SetF32(target, Snap(range, v));
  }

  /** `x.round() as usize`: rounded, negative results saturating at zero. */
  function RoundToUsize(x: real): (r: nat)
    ensures x >= 0.0 ==> r == Round(x)
    ensures x <= -0.5 ==> r == 0
  {
    var n := Round(x);
    if n < 0 then 0 else n
  }

  /** update_usize_from_f32: the snapped value, rounded, assigned with set_if_changed. */
  method UpdateUsizeFromF32(target: Setting<nat>, v: real, range: SliderRange) returns (changed: bool)
    requires range.min <= range.max
    modifies target
    ensures target.value == RoundToUsize(Snap(range, v))
    ensures changed <==> old(target.value) != RoundToUsize(Snap(range, v))
  {
    changed := target.SetIfChanged(RoundToUsize(Snap(range, v)));
  }

  /** With whole, non-negative bounds the stored count lies within them. */
  lemma UsizeWithinWholeBounds(range: SliderRange, v: real, lo: nat, hi: nat)
    requires range.min == lo as real && range.max == hi as real && lo <= hi
    ensures lo <= RoundToUsize(Snap(range, v)) <= hi
  {
    var s := Snap(range, v);
    assert lo as real <= s <= hi as real;
    assert (lo as real + 0.5).Floor == lo && (hi as real + 0.5).Floor == hi;
    assert (lo as real + 0.5).Floor <= (s + 0.5).Floor <= (hi as real + 0.5).Floor;
  }
}

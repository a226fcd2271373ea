/** The horizontal ruler: a scrollable strip of ticks, 0.1 apart and 10 pixels
    apart, whose centre line marks the current value. Scrolling reads the value
    under the centre back, snaps it to the 0.1 grid, clamps it to the bounds,
    rounds it to one decimal and reports it when it differs from the current
    value. Numbers are exact reals here. */
module HorizontalRuler {
  import opened JsValues

  const TickWidth: real := 10.0
  const MajorTickEvery: int := 10

  /** `unit === 'inch' ? 0.1 : 0.1`: the step is 0.1 whatever the unit; the
      `step` property is never read. */
  function EffectiveStep(unit: string): real
  {
    if unit == "inch" then 0.1 else 0.1
  }

  /** `Math.round`: halves round up. */
  function JsRound(x: real): (n: int)
    ensures x - 0.5 < n as real <= x + 0.5
  {
    (x + 0.5).Floor
  }

  /** `parseFloat(x.toFixed(1))`: the nearest multiple of 0.1, halves away from zero. */
  function ToFixed1(x: real): real
  {
    if x < 0.0 then -(JsRound(-x * 10.0) as real / 10.0) else JsRound(x * 10.0) as real / 10.0
  }

  /** A multiple of 0.1. */
  predicate IsTenth(x: real)
  {
    (x * 10.0).Floor as real == x * 10.0
  }

  function Max(a: real, b: real): real { if a >= b then a else b }
  function Min(a: real, b: real): real { if a <= b then a else b }

  /** `totalTicks` */
  function TotalTicks(min: real, max: real, unit: string): int
  {
    JsRound((max - min) / EffectiveStep(unit))
  }

  /** `rulerWidth` */
  function RulerWidth(min: real, max: real, unit: string): real
  {
    TotalTicks(min, max, unit) as real * TickWidth
  }

  /** The scroll position that puts `value` under the centre line, for a ruler
      `2 * center` pixels wide. */
  function InitialScroll(value: real, min: real, center: real, unit: string): real
  {
    ((value - min) / EffectiveStep(unit)) * TickWidth - center
  }

  /** The value `handleScroll` computes for a scroll position. */
  function ScrollValue(scrollLeft: real, center: real, min: real, max: real, unit: string): real
  {
    var rawValue := ((scrollLeft + center) / TickWidth) * EffectiveStep(unit) + min;
    var snappedValue := JsRound(rawValue / EffectiveStep(unit)) as real * EffectiveStep(unit);
    var clampedValue := Max(min, Min(max, snappedValue));
    ToFixed1(clampedValue)
  }

  /** The step is 0.1 for every unit, so there are ten ticks per unit of value
      and the ruler is 100 pixels per unit wide. */
  lemma StepIsOneTenth(min: real, max: real, unit: string)
    ensures EffectiveStep(unit) == 0.1
    ensures TotalTicks(min, max, unit) == JsRound((max - min) * 10.0)
    ensures RulerWidth(min, max, unit) == JsRound((max - min) * 10.0) as real * 10.0
  {
  }

  lemma RoundOfInteger(k: int)
    ensures JsRound(k as real) == k
  {
  }

  lemma ToFixedKeepsTenths(x: real)
    requires IsTenth(x)
    ensures ToFixed1(x) == x
  {
    var k := (x * 10.0).Floor;
    if x < 0.0 {
      assert -x * 10.0 == (-k) as real;
      RoundOfInteger(-k);
    } else {
      assert x * 10.0 == k as real;
      RoundOfInteger(k);
    }
  }

  lemma ToFixedIsTenth(x: real)
    ensures IsTenth(ToFixed1(x))
  {
    if x < 0.0 {
      IntTenthIsTenth(-JsRound(-x * 10.0));
    } else {
      IntTenthIsTenth(JsRound(x * 10.0));
    }
  }

  /** A whole number of tenths is on the 0.1 grid. */
  lemma IntTenthIsTenth(n: int)
    ensures IsTenth(n as real / 10.0)
    ensures -(n as real / 10.0) == (-n) as real / 10.0
  {
    var t := n as real / 10.0;
    assert t * 10.0 == n as real;
  }

  /** The value read back is always a multiple of 0.1, counted from 0 and not
      from `min`. */
  lemma ScrollValueIsTenth(scrollLeft: real, center: real, min: real, max: real, unit: string)
    ensures IsTenth(ScrollValue(scrollLeft, center, min, max, unit))
  {
    var rawValue := ((scrollLeft + center) / TickWidth) * EffectiveStep(unit) + min;
    var snappedValue := JsRound(rawValue / EffectiveStep(unit)) as real * EffectiveStep(unit);
    ToFixedIsTenth(Max(min, Min(max, snappedValue)));
  }

  /** With bounds on the 0.1 grid, the value read back lies within them. */
  lemma ScrollValueInBounds(scrollLeft: real, center: real, min: real, max: real, unit: string)
    requires IsTenth(min) && IsTenth(max) && min <= max
    ensures min <= ScrollValue(scrollLeft, center, min, max, unit) <= max
  {
    var rawValue := ((scrollLeft + center) / TickWidth) * EffectiveStep(unit) + min;
    var n := JsRound(rawValue / EffectiveStep(unit));
    var snappedValue := n as real * EffectiveStep(unit);
    assert IsTenth(snappedValue) by {
      assert snappedValue * 10.0 == n as real;
    }
    var clampedValue := Max(min, Min(max, snappedValue));
    ToFixedKeepsTenths(clampedValue);
  }

  /** The final rounding runs after the clamp, so a bound off the 0.1 grid can
      be overshot: with bounds [0, 0.06] a far scroll reads back 0.1. */
  lemma OffGridBoundOvershoot()
    ensures ScrollValue(1000.0, 0.0, 0.0, 0.06, "cm") == 0.1
    ensures ScrollValue(1000.0, 0.0, 0.0, 0.06, "cm") > 0.06
  {
    assert JsRound(0.06 * 10.0) == 1;
  }

  /** Round trip: scrolling to the position computed for a value on the 0.1
      grid within the bounds reads that same value back, whatever the ruler's
      width. */
  lemma ScrollRoundTrip(value: real, min: real, max: real, center: real, unit: string)
    requires IsTenth(value) && min <= value <= max
    ensures ScrollValue(InitialScroll(value, min, center, unit), center, min, max, unit) == value
  {
    var scrollLeft := InitialScroll(value, min, center, unit);
    var rawValue := ((scrollLeft + center) / TickWidth) * EffectiveStep(unit) + min;
    assert rawValue == value;
    var k := (value * 10.0).Floor;
    assert rawValue / EffectiveStep(unit) == k as real;
    RoundOfInteger(k);
    ToFixedKeepsTenths(value);
  }

  // ---------------------------------------------------------------------------
  // Ticks.

  datatype TickKind = Major | Half | Minor

  /** A rendered tick: its height class and, on a major tick, its label. */
  datatype Tick = Tick(kind: TickKind, tickValue: Option<real>)

  /** Tick `i` as `renderTicks` draws it. */
  function TickAt(min: real, i: int, unit: string): Tick
  {
    var isMajorTick := i % MajorTickEvery == 0;
    var isHalfTick := i % (MajorTickEvery / 2) == 0;
    var tickValue := ToFixed1(min + i as real * EffectiveStep(unit));
    Tick(if isMajorTick then Major else if isHalfTick then Half else Minor,
         if isMajorTick then Some(tickValue) else None)
  }

  /** Every tenth tick is major and labelled; every fifth is at least a half
      tick; the others are minor and unlabelled. A label is `min + i * 0.1`
      when `min` is on the 0.1 grid. */
  lemma TickClasses(min: real, i: int, unit: string)
    ensures TickAt(min, i, unit).kind == Major <==> i % 10 == 0
    ensures TickAt(min, i, unit).kind == Half <==> i % 5 == 0 && i % 10 != 0
    ensures i % 10 == 0 ==> i % 5 == 0
    ensures TickAt(min, i, unit).tickValue.Some? <==> TickAt(min, i, unit).kind == Major
    ensures IsTenth(min) && i % 10 == 0 ==> TickAt(min, i, unit).tickValue == Some(min + i as real / 10.0)
  {
    if IsTenth(min) {
      var x := min + i as real * 0.1;
      assert (x * 10.0).Floor == (min * 10.0).Floor + i;
      ToFixedKeepsTenths(x);
    }
  }

  // ---------------------------------------------------------------------------
  // The component.

  /** A mounted ruler. The bounds, the value and the unit are its properties;
      `isDragging` and the scroll position are its mutable refs; `center` is
      half the visible width. */
  class Ruler {
    const min: real
    const max: real
    const value: real
    const unit: string
    const center: real
    var isDragging: bool
    var scrollLeft: real

    /** Nothing ever sets `isDragging`. */
    ghost predicate Valid()
      reads this
    {
      !isDragging
    }

    constructor (min: real, max: real, value: real, unit: string, center: real)
      ensures Valid()
      ensures this.min == min && this.max == max && this.value == value && this.unit == unit && this.center == center
      ensures scrollLeft == 0.0
    {
      this.min, this.max, this.value, this.unit, this.center := min, max, value, unit, center;
      isDragging := false;
      scrollLeft := 0.0;
    }

    /** The effect that centres the current value. */
    method CenterValue()
      requires Valid()
      modifies this`scrollLeft
      ensures Valid() && scrollLeft == InitialScroll(value, min, center, unit)
    {
      scrollLeft := ((value - min) / EffectiveStep(unit)) * TickWidth - center;
    }

    /** The user scrolls to `position`, then `handleScroll` runs: it reports
        the value under the centre line iff that differs from the current one. */
    method Scroll(position: real) returns (changed: Option<real>)
      requires Valid()
      modifies this`scrollLeft
      ensures Valid() && scrollLeft == position
      ensures changed.Some? <==> ScrollValue(position, center, min, max, unit) != value
      ensures changed.Some? ==> changed.value == ScrollValue(position, center, min, max, unit)
    {
      scrollLeft := position;
      changed := None;
      if isDragging {
        return;
      }
      var rawValue := ((scrollLeft + center) / TickWidth) * EffectiveStep(unit) + min;
      var snappedValue := JsRound(rawValue / EffectiveStep(unit)) as real * EffectiveStep(unit);
      var clampedValue := Max(min, Min(max, snappedValue));
      var finalValue := ToFixed1(clampedValue);
      if finalValue != value {
        changed := Some(finalValue);
      }
    }

    /** `renderTicks`: ticks 0 to `totalTicks`, inclusive. */
    method RenderTicks() returns (ticks: seq<Tick>)
      ensures TotalTicks(min, max, unit) >= 0 ==> |ticks| == TotalTicks(min, max, unit) + 1
      ensures TotalTicks(min, max, unit) < 0 ==> ticks == []
      ensures forall i :: 0 <= i < |ticks| ==> ticks[i] == TickAt(min, i, unit)
    {
      var totalTicks := TotalTicks(min, max, unit);
      ticks := [];
      var i := 0;
      while i <= totalTicks
        invariant 0 <= i && (totalTicks >= 0 ==> i <= totalTicks + 1) && (totalTicks < 0 ==> i == 0)
        invariant |ticks| == i
        invariant forall j :: 0 <= j < i ==> ticks[j] == TickAt(min, j, unit)
        decreases totalTicks + 1 - i
      {
        var isMajorTick := i % MajorTickEvery == 0;
        var isHalfTick := i % (MajorTickEvery / 2) == 0;
        var tickValue := ToFixed1(min + i as real * EffectiveStep(unit));
        ticks := ticks + [Tick(if isMajorTick then Major else if isHalfTick then Half else Minor,
                                if isMajorTick then Some(tickValue) else None)];
        i := i + 1;
      }
    }
  }

  /** Centring a value on the grid and within the bounds, then scrolling to
      exactly that position, reports no change. */
  method CenteredValueIsStable(min: real, max: real, value: real, unit: string, center: real)
    returns (changed: Option<real>)
    requires IsTenth(value) && min <= value <= max
    ensures changed.None?
  {
    var ruler := new Ruler(min, max, value, unit, center);
    ruler.CenterValue();
    ScrollRoundTrip(value, min, max, center, unit);
    changed := ruler.Scroll(ruler.scrollLeft);
  }
}

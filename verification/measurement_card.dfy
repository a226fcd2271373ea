/** The measurement card: six measurement points around a picture, three on
    each side. Tapping a point opens its sheet with a slider and selects the
    point; closing a sheet clears the selection; the slider reports changes
    only for the selected point. */
module MeasurementCard {
  import opened JsValues

  datatype Measurement = Shoulder | Chest | Waist | Hips | Inseam | Sleeve

  function Name(m: Measurement): string
  {
    match m
    case Shoulder => "Shoulder"
    case Chest => "Chest"
    case Waist => "Waist"
    case Hips => "Hips"
    case Inseam => "Inseam"
    case Sleeve => "Sleeve"
  }

  /** `'cm' | 'inch'` */
  datatype CardUnit = Cm | Inch

  datatype Point = Point(name: Measurement, imageUrl: string)

  const Points: seq<Point> := [
    Point(Shoulder, "https://cdn.shopify.com/s/files/1/1540/9157/files/size_picture_large.png?v=1534362322"),
    Point(Chest, "https://i.imgur.com/aGv43aP.png"),
    Point(Waist, "https://i.imgur.com/JbocJ7d.png"),
    Point(Hips, "https://i.imgur.com/Am15c0a.png"),
    Point(Inseam, "https://i.imgur.com/kS9o2d1.png"),
    Point(Sleeve, "https://i.imgur.com/YwDX6kL.png")]

  const LeftPoints: seq<Measurement> := [Shoulder, Waist, Inseam]
  const RightPoints: seq<Measurement> := [Chest, Hips, Sleeve]

  const DefaultImageUrl: string := "https://i.pinimg.com/736x/2d/07/2f/2d072f7858370dbb0ff1703d8e3c75f7.jpg"

  /** `getSliderMinMax()`: the slider runs over [20, 200] for centimetres and
      over [8, 80] for inches. */
  function SliderBounds(unit: CardUnit): (b: (real, real))
    ensures unit == Cm ==> b == (20.0, 200.0)
    ensures unit == Inch ==> b == (8.0, 80.0)
    ensures b.0 < b.1
  {
    var isCm := unit == Cm;
    (if isCm then 20.0 else 8.0, if isCm then 200.0 else 80.0)
  }

  /** Whole centimetres, or tenths of an inch. */
  function SliderStep(unit: CardUnit): (step: real)
    ensures unit == Cm ==> step == 1.0
    ensures unit == Inch ==> step == 0.1
  {
    if unit == Cm then 1.0 else 0.1
  }

  /** `points.find(p => p.name === m)`: the first point with that name. */
  function Find(points: seq<Point>, m: Measurement): (r: Option<Point>)
    ensures r.Some? ==> r.value in points && r.value.name == m
    ensures r.None? ==> forall p :: p in points ==> p.name != m
    ensures r.Some? && points != [] && points[0].name == m ==> r.value == points[0]
  {
    if points == [] then None
    else if points[0].name == m then Some(points[0])
    else Find(points[1..], m)
  }

  /** The picture: the selected point's image, or the default one. */
  function SelectedImageUrl(selected: Option<Measurement>): string
  {
    var found := if selected.Some? then Find(Points, selected.value) else None;
    if found.Some? && found.value.imageUrl != "" then found.value.imageUrl else DefaultImageUrl
  }

  /** Each point's name appears once; the two columns are disjoint and
      together show all six measurements. */
  lemma PointsLayout(m: Measurement)
    ensures forall i, j :: 0 <= i < j < |Points| ==> Points[i].name != Points[j].name
    ensures m in LeftPoints <==> m !in RightPoints
    ensures exists i :: 0 <= i < |Points| && Points[i].name == m
  {
    match m
    case Shoulder => assert Points[0].name == m;
    case Chest => assert Points[1].name == m;
    case Waist => assert Points[2].name == m;
    case Hips => assert Points[3].name == m;
    case Inseam => assert Points[4].name == m;
    case Sleeve => assert Points[5].name == m;
  }

  /** Finding the point at index `i` by its name yields that point. */
  lemma FindPointAt(i: nat)
    requires i < |Points|
    ensures Find(Points, Points[i].name) == Some(Points[i])
  {
    PointsLayout(Points[i].name);
    var r := Find(Points, Points[i].name);
    assert Points[i] in Points;
    var k :| 0 <= k < |Points| && Points[k] == r.value;
    assert k == i;
  }

  /** With a point selected the picture is that point's image; with none, the
      default picture. */
  lemma ImageFollowsSelection(i: nat)
    requires i < |Points|
    ensures SelectedImageUrl(Some(Points[i].name)) == Points[i].imageUrl
    ensures SelectedImageUrl(None) == DefaultImageUrl
  {
    FindPointAt(i);
    assert |Points[i].imageUrl| > 0;
  }

  /** The card's selection state. */
  class Card {
    var selected: Option<Measurement>

    constructor ()
      ensures selected.None?
    {
      selected := None;
    }

    /** Tapping point `m` opens its sheet and selects it. */
    method Open(m: Measurement)
      modifies this
      ensures selected == Some(m)
    {
      selected := Some(m);
    }

    /** A sheet's open state changes: closing any sheet clears the selection;
        opening leaves it as the tap set it. */
    method OpenChange(isOpen: bool)
      modifies this
      ensures !isOpen ==> selected.None?
      ensures isOpen ==> selected == old(selected)
    {
      if !isOpen {
        selected := None;
      }
    }

    /** The slider moves: its first thumb's value is reported for the selected
        point, and nothing is reported without a selection. */
    method SliderChange(values: seq<real>) returns (reported: Option<(Measurement, real)>)
      requires |values| >= 1
      ensures reported.Some? <==> selected.Some?
      ensures reported.Some? ==> reported.value == (selected.value, values[0])
    {
      if selected.Some? {
        reported := Some((selected.value, values[0]));
      } else {
        reported := None;
      }
    }
  }
}

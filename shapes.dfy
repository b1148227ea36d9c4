/** The polygon templates of the hands and the ticks, in the display's local
    coordinates about the watch centre (x to the right, y downwards). Only
    the way each template points matters to the model: rotating a template
    by an angle turns it clockwise on the display, so the direction it then
    points in is its heading plus that angle. */
module Shapes {
  import opened Angles

  datatype Point = Point(x: int, y: int)

  const HOUR_POINTS := [Point(-8, -10), Point(-10, -40), Point(0, -60), Point(10, -40), Point(8, -10)]
  const MINUTE_POINTS := [Point(-4, -10), Point(-6, -60), Point(0, -76), Point(6, -60), Point(4, -10)]
  const SECOND_POINTS := [Point(-2, -10), Point(-4, -60), Point(0, -76), Point(4, -60), Point(2, -10)]
  const HOUR_TICK_POINTS := [Point(-3, 70), Point(3, 70), Point(3, 84), Point(-3, 84)]
  const MAJOR_TICK_POINTS := [Point(-3, 60), Point(3, 60), Point(3, 84), Point(-3, 84)]
  const MINOR_TICK_POINTS := [Point(0, 76), Point(0, 84)]

  /** Every point lies above the centre. */
  predicate Above(pts: seq<Point>) {
    forall i :: 0 <= i < |pts| ==> pts[i].y < 0
  }

  /** Every point lies below the centre. */
  predicate Below(pts: seq<Point>) {
    forall i :: 0 <= i < |pts| ==> pts[i].y > 0
  }

  /** The mirror image of a point in the vertical axis. */
  function Mirror(p: Point): Point {
    Point(-p.x, p.y)
  }

  /** The outline with every point mirrored. */
  function Mirrored(pts: seq<Point>): seq<Point> {
    seq(|pts|, i requires 0 <= i < |pts| => Mirror(pts[i]))
  }

  /** The template is its own mirror image in the vertical axis: mirroring
      every point only reorders the outline. */
  predicate Symmetric(pts: seq<Point>) {
    multiset(Mirrored(pts)) == multiset(pts)
  }

  /** The direction a template points in before any rotation, clockwise
      from the top of the display: up when it lies above the centre, down
      (half a turn) when it lies below. This is the template's axis because
      every template of the face is symmetric about the vertical axis
      (`HandTemplatesPointUp`, `TickTemplatesPointDown`). */
  function Heading(pts: seq<Point>): (r: int)
    requires pts != [] && (Above(pts) || Below(pts))
    ensures r == 0 <==> Above(pts)
    ensures r == TRIG_MAX_ANGLE / 2 <==> Below(pts)
  {
    if pts[0].y < 0 then 0 else TRIG_MAX_ANGLE / 2
  }

  /** Where a template points, clockwise from the top and within one turn,
      once it is rotated by `angle`. */
  function Direction(pts: seq<Point>, angle: int): (r: int)
    requires pts != [] && (Above(pts) || Below(pts))
    ensures 0 <= r < TRIG_MAX_ANGLE
    ensures (r - Heading(pts) - angle) % TRIG_MAX_ANGLE == 0
  {
    (Heading(pts) + angle) % TRIG_MAX_ANGLE
  }

  /** A template that points up, rotated by an angle within one turn, points
      in the direction of that angle. */
  lemma UpwardTemplateKeepsAngle(pts: seq<Point>, angle: int)
    requires pts != [] && Above(pts) && 0 <= angle < TRIG_MAX_ANGLE
    ensures Direction(pts, angle) == angle
  {
  }

  /** The three hands of the face. */
  datatype HandKind = HourHand | MinuteHand | SecondHand

  /** The template each hand rotates; all three lie above the centre, so
      unrotated they point up. */
  function HandTemplate(hand: HandKind): (pts: seq<Point>)
    ensures pts != [] && Above(pts)
  {
    TemplateSides();
    match hand
    case HourHand => HOUR_POINTS
    case MinuteHand => MINUTE_POINTS
    case SecondHand => SECOND_POINTS
  }

  /** The three hands point up before rotation; each has five points. */
  lemma HandTemplatesPointUp()
    ensures Symmetric(HOUR_POINTS) && Above(HOUR_POINTS) && |HOUR_POINTS| == 5
    ensures Symmetric(MINUTE_POINTS) && Above(MINUTE_POINTS) && |MINUTE_POINTS| == 5
    ensures Symmetric(SECOND_POINTS) && Above(SECOND_POINTS) && |SECOND_POINTS| == 5
  {
    TemplateSides();
    HourHandSymmetric();
    MinuteHandSymmetric();
    SecondHandSymmetric();
  }

  /** The three tick templates point down before rotation; the two wide
      ticks have four points, the thin line two. */
  lemma TickTemplatesPointDown()
    ensures Symmetric(HOUR_TICK_POINTS) && Below(HOUR_TICK_POINTS) && |HOUR_TICK_POINTS| == 4
    ensures Symmetric(MAJOR_TICK_POINTS) && Below(MAJOR_TICK_POINTS) && |MAJOR_TICK_POINTS| == 4
    ensures Symmetric(MINOR_TICK_POINTS) && Below(MINOR_TICK_POINTS) && |MINOR_TICK_POINTS| == 2
  {
    TemplateSides();
    HourTickSymmetric();
    MajorTickSymmetric();
    MinorTickSymmetric();
  }

  lemma TemplateSides()
    ensures Above(HOUR_POINTS) && Above(MINUTE_POINTS) && Above(SECOND_POINTS)
    ensures Below(HOUR_TICK_POINTS) && Below(MAJOR_TICK_POINTS) && Below(MINOR_TICK_POINTS)
  {
  }

  // Each outline below mirrors onto itself read backwards (the hands) or
  // with its two pairs of corners swapped (the wide ticks).

  lemma HourHandSymmetric()
    ensures Symmetric(HOUR_POINTS)
  {
    var h := HOUR_POINTS;
    assert Mirrored(h) == [h[4], h[3], h[2], h[1], h[0]];
  }

  lemma MinuteHandSymmetric()
    ensures Symmetric(MINUTE_POINTS)
  {
    var h := MINUTE_POINTS;
    assert Mirrored(h) == [h[4], h[3], h[2], h[1], h[0]];
  }

  lemma SecondHandSymmetric()
    ensures Symmetric(SECOND_POINTS)
  {
    var h := SECOND_POINTS;
    assert Mirrored(h) == [h[4], h[3], h[2], h[1], h[0]];
  }

  lemma HourTickSymmetric()
    ensures Symmetric(HOUR_TICK_POINTS)
  {
    var h := HOUR_TICK_POINTS;
    assert Mirrored(h) == [h[1], h[0], h[3], h[2]];
  }

  lemma MajorTickSymmetric()
    ensures Symmetric(MAJOR_TICK_POINTS)
  {
    var h := MAJOR_TICK_POINTS;
    assert Mirrored(h) == [h[1], h[0], h[3], h[2]];
  }

  lemma MinorTickSymmetric()
    ensures Symmetric(MINOR_TICK_POINTS)
  {
    var h := MINOR_TICK_POINTS;
    assert Mirrored(h) == h;
  }
}

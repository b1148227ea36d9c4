/** The static background layer: sixty tick marks round the dial in three
    styles, and four large hour labels at the cardinal points of a 24-hour
    dial. */
module Background {
  import opened Angles
  import opened Shapes

  /** The three tick templates: a short wide tick at each quarter, a longer
      wide tick at the other five-minute positions, a thin line elsewhere. */
  datatype TickStyle = HourTick | MajorTick | MinorLine

  /** One rotate-and-draw of a tick template: its style and its angle. */
  datatype Mark = Mark(style: TickStyle, angle: int)

  /** The style of the tick at minute position `min`. C's `%` and Dafny's
      differ for negative operands but agree on whether the remainder is
      zero, so the tests read the same in both. On the dial the hour ticks
      sit exactly at the quarters, the major ticks exactly at the other
      multiples of five, and every other position gets a minor line. */
  function Classify(min: int): (s: TickStyle)
    ensures 0 <= min < 60 ==> (s == HourTick <==> min in {0, 15, 30, 45})
    ensures 0 <= min < 60 ==> (s == MajorTick <==> min in {5, 10, 20, 25, 35, 40, 50, 55})
    ensures s == MinorLine <==> min % 5 != 0
  {
    if min % 15 == 0 then HourTick
    else if min % 5 == 0 then MajorTick
    else MinorLine
  }

  /** The template each style rotates; all three lie below the centre, so
      unrotated they point down. */
  function TemplateOf(style: TickStyle): (pts: seq<Point>)
    ensures pts != [] && Below(pts)
  {
    TemplateSides();
    match style
    case HourTick => HOUR_TICK_POINTS
    case MajorTick => MAJOR_TICK_POINTS
    case MinorLine => MINOR_TICK_POINTS
  }

  /** The angle the tick loop rotates the template to at step `min`. */
  function TickAngle(min: int): (r: int)
    ensures 0 <= min < 60 ==> 0 <= r < TRIG_MAX_ANGLE
  {
    CDiv(min * TRIG_MAX_ANGLE, 60)
  }

  /** The number of marks of the given style. */
  function Count(marks: seq<Mark>, style: TickStyle): nat {
    if marks == [] then 0
    else Count(marks[..|marks| - 1], style) + (if marks[|marks| - 1].style == style then 1 else 0)
  }

  lemma CountAppend(marks: seq<Mark>, m: Mark, style: TickStyle)
    ensures Count(marks + [m], style) == Count(marks, style) + (if m.style == style then 1 else 0)
  {
    assert (marks + [m])[..|marks|] == marks;
  }

  /** How the number of multiples of `d` below `min`, (min + d - 1) / d,
      grows when position `min` is added: by one exactly when `d` divides
      `min`. */
  lemma MultiplesStep(min: int, d: int)
    requires 0 <= min && (d == 5 || d == 15)
    ensures (min + d) / d == (min + d - 1) / d + (if min % d == 0 then 1 else 0)
  {
    var q, r := min / d, min % d;
    assert min == q * d + r && 0 <= r < d;
    assert min + d == (q + 1) * d + r;
    assert (min + d) / d == q + 1;
    if r == 0 {
      assert min + d - 1 == q * d + (d - 1);
      assert (min + d - 1) / d == q;
    } else {
      assert min + d - 1 == (q + 1) * d + (r - 1);
      assert (min + d - 1) / d == q + 1;
    }
  }

  /** Every mark has exactly one style, so the three counts add up to the
      number of marks. */
  lemma {:induction false} CountsPartition(marks: seq<Mark>)
    ensures Count(marks, HourTick) + Count(marks, MajorTick) + Count(marks, MinorLine) == |marks|
  {
    if marks != [] {
      CountsPartition(marks[..|marks| - 1]);
    }
  }

  /** The loop rotates the template at step `min` by exactly the angle of
      the minute hand at minute `min`. */
  lemma TickAlignsWithMinuteHand(min: int)
    ensures TickAngle(min) == MinuteAngle(min)
  {
  }

  /** Half a turn is exactly thirty steps of the tick loop. */
  lemma HalfTurnIsThirtySteps(min: int)
    requires 0 <= min < 30
    ensures TickAngle(min + 30) == TickAngle(min) + TRIG_MAX_ANGLE / 2
  {
    assert (min + 30) * TRIG_MAX_ANGLE == min * TRIG_MAX_ANGLE + 60 * (TRIG_MAX_ANGLE / 2);
  }

  /** A template that points down, rotated to the angle of step `min`,
      ends up pointing at the dial position half a turn round. */
  lemma DownwardTemplateLandsAt(pts: seq<Point>, min: int)
    requires pts != [] && Below(pts) && 0 <= min < 60
    ensures Direction(pts, TickAngle(min)) == TickAngle((min + 30) % 60)
  {
    var a, d := TickAngle(min), TickAngle((min + 30) % 60);
    if min < 30 {
      HalfTurnIsThirtySteps(min);
    } else {
      HalfTurnIsThirtySteps(min - 30);
    }
    HalfTurnRoundTheDial(a, d);
  }

  /** Half a turn on from `a`, wrapped into one turn, is `d`. */
  lemma HalfTurnRoundTheDial(a: int, d: int)
    requires 0 <= a < TRIG_MAX_ANGLE && 0 <= d < TRIG_MAX_ANGLE
    requires a + TRIG_MAX_ANGLE / 2 == d || a == d + TRIG_MAX_ANGLE / 2
    ensures (TRIG_MAX_ANGLE / 2 + a) % TRIG_MAX_ANGLE == d
  {
  }

  /** The tick templates point down, so whatever its style, the mark drawn
      at step `min` ends up pointing half a turn round from that step's
      angle: at the dial position `(min + 30) % 60`, where the minute hand
      points at that minute. */
  lemma TickLandsAt(min: int, style: TickStyle)
    requires 0 <= min < 60
    ensures Direction(TemplateOf(style), TickAngle(min)) == TickAngle((min + 30) % 60)
  {
    DownwardTemplateLandsAt(TemplateOf(style), min);
  }

  /** Positions half a turn apart have the same style, so the half-turn
      offset of the templates does not change which style appears where. */
  lemma StylesRepeatEveryHalfTurn(min: int)
    requires 0 <= min < 60
    ensures Classify((min + 30) % 60) == Classify(min)
  {
  }

  /** At every minute the minute hand points exactly at one drawn mark: the
      one drawn at step `(min + 30) % 60`, which has the style of dial
      position `min`. */
  lemma MinuteHandPointsAtTick(min: int)
    requires 0 <= min < 60
    ensures Direction(HandTemplate(MinuteHand), MinuteAngle(min)) ==
      Direction(TemplateOf(Classify((min + 30) % 60)), TickAngle((min + 30) % 60))
    ensures Classify((min + 30) % 60) == Classify(min)
  {
    var k := (min + 30) % 60;
    UpwardTemplateKeepsAngle(HandTemplate(MinuteHand), MinuteAngle(min));
    TickLandsAt(k, Classify(k));
    assert (k + 30) % 60 == min;
    StylesRepeatEveryHalfTurn(min);
  }

  /** Going round the dial, the tick angles strictly increase. */
  lemma TickAnglesIncrease()
    ensures forall i, j :: 0 <= i < j < 60 ==> TickAngle(i) < TickAngle(j)
  {
    forall i, j | 0 <= i < j < 60
      ensures TickAngle(i) < TickAngle(j)
    {
      MinuteAngleStrictlyIncreasing(i, j);
    }
  }

  /** The first `n` marks of the tick loop: the style and angle of each
      position below `n`, and how many of each style those are. */
  ghost predicate DrawnUpTo(marks: seq<Mark>, n: int) {
    |marks| == n &&
    (forall k :: 0 <= k < n ==> marks[k] == Mark(Classify(k), TickAngle(k))) &&
    Count(marks, HourTick) == (n + 14) / 15 &&
    Count(marks, MajorTick) == (n + 4) / 5 - (n + 14) / 15
  }

  /** Adding position `n` adds one hour tick exactly when 15 divides `n`. */
  lemma HourTickStep(marks: seq<Mark>, n: int)
    requires 0 <= n && Count(marks, HourTick) == (n + 14) / 15
    ensures Count(marks + [Mark(Classify(n), TickAngle(n))], HourTick) == (n + 15) / 15
  {
    MultiplesStep(n, 15);
    CountAppend(marks, Mark(Classify(n), TickAngle(n)), HourTick);
  }

  /** Adding position `n` adds one major tick exactly when 5 but not 15
      divides `n`. */
  lemma MajorTickStep(marks: seq<Mark>, n: int)
    requires 0 <= n && Count(marks, MajorTick) == (n + 4) / 5 - (n + 14) / 15
    ensures Count(marks + [Mark(Classify(n), TickAngle(n))], MajorTick) == (n + 5) / 5 - (n + 15) / 15
  {
    MultiplesStep(n, 15);
    MultiplesStep(n, 5);
    assert n % 15 == 0 ==> n % 5 == 0;
    CountAppend(marks, Mark(Classify(n), TickAngle(n)), MajorTick);
  }

  /** Drawing the mark of position `n` extends the first `n` marks by one. */
  lemma DrawnStep(marks: seq<Mark>, n: int)
    requires 0 <= n && DrawnUpTo(marks, n)
    ensures DrawnUpTo(marks + [Mark(Classify(n), TickAngle(n))], n + 1)
  {
    HourTickStep(marks, n);
    MajorTickStep(marks, n);
  }

  /** What the whole loop has drawn once all sixty positions are done. */
  lemma DrawnAll(marks: seq<Mark>)
    requires DrawnUpTo(marks, 60)
    ensures |marks| == 60
    ensures forall min :: 0 <= min < 60 ==> marks[min] == Mark(Classify(min), TickAngle(min))
    ensures Count(marks, HourTick) == 4 && Count(marks, MajorTick) == 8 && Count(marks, MinorLine) == 48
    ensures forall min :: 0 <= min < 60 ==> 0 <= marks[min].angle < TRIG_MAX_ANGLE
    ensures forall i, j :: 0 <= i < j < 60 ==> marks[i].angle < marks[j].angle
  {
    CountsPartition(marks);
    TickAnglesIncrease();
  }

  /** The background's tick loop: for each of the sixty minute positions,
      rotate the template of that position's style to the position's angle
      and draw it. The result is the sequence of marks drawn, in order. */
  method DrawTicks() returns (marks: seq<Mark>)
    ensures |marks| == 60
    ensures forall min :: 0 <= min < 60 ==> marks[min] == Mark(Classify(min), TickAngle(min))
    ensures Count(marks, HourTick) == 4
    ensures Count(marks, MajorTick) == 8
    ensures Count(marks, MinorLine) == 48
    ensures forall min :: 0 <= min < 60 ==> 0 <= marks[min].angle < TRIG_MAX_ANGLE
    ensures forall i, j :: 0 <= i < j < 60 ==> marks[i].angle < marks[j].angle
  {
    marks := [];
    var min := 0;
    while min < 60
      invariant 0 <= min <= 60
      invariant DrawnUpTo(marks, min)
    {
      var angle := CDiv(min * TRIG_MAX_ANGLE, 60);
      var style;
      if min % 15 == 0 {
        style := HourTick;
      } else if min % 5 == 0 {
        style := MajorTick;
      } else {
        style := MinorLine;
      }
      assert Mark(style, angle) == Mark(Classify(min), TickAngle(min));
      DrawnStep(marks, min);
      marks := marks + [Mark(style, angle)];
      min := min + 1;
    }
    DrawnAll(marks);
  }

  /** Where a label sits on the dial. */
  datatype Side = Top | Right | Bottom | Left

  /** A large label: its text and the side of the dial it is drawn on. */
  datatype Label = Label(text: string, side: Side)

  /** The four labels of the 24-hour dial, in drawing order. */
  const LABELS := [Label("24", Top), Label("06", Right), Label("12", Bottom), Label("18", Left)]

  /** The dial position (in sixtieths of a turn, clockwise from the top)
      at the centre of each side: the top is where an unrotated hand points. */
  function SidePosition(side: Side): (min: int)
    ensures 0 <= min < 60 && min % 15 == 0
  {
    match side
    case Top => 0
    case Right => 15
    case Bottom => 30
    case Left => 45
  }

  /** The number a two-digit label reads as. */
  function LabelValue(text: string): int
    requires |text| == 2
  {
    10 * (text[0] as int - '0' as int) + (text[1] as int - '0' as int)
  }

  /** The whole background layer: the ticks, then the four labels. */
  method BgLayerUpdate() returns (marks: seq<Mark>, labels: seq<Label>)
    ensures |marks| == 60
    ensures forall min :: 0 <= min < 60 ==> marks[min] == Mark(Classify(min), TickAngle(min))
    ensures Count(marks, HourTick) == 4 && Count(marks, MajorTick) == 8 && Count(marks, MinorLine) == 48
    ensures forall min :: 0 <= min < 60 ==> 0 <= marks[min].angle < TRIG_MAX_ANGLE
    ensures forall i, j :: 0 <= i < j < 60 ==> marks[i].angle < marks[j].angle
    ensures labels == LABELS
  {
    marks := DrawTicks();
    labels := LABELS;
  }

  /** The four labels sit on four different sides, and each reads the hour
      of a 24-hour dial (read modulo 24, so "24" is midnight) whose place
      is the centre of its side. */
  lemma LabelsReadTheirSide()
    ensures |LABELS| == 4
    ensures forall i, j :: 0 <= i < j < |LABELS| ==> LABELS[i].side != LABELS[j].side
    ensures forall i :: 0 <= i < |LABELS| ==>
      |LABELS[i].text| == 2 && LabelValue(LABELS[i].text) % 24 == SidePosition(LABELS[i].side) * 24 / 60
  {
  }

  /** Each label faces a mark drawn with the hour-tick template, and the hour
      hand at the label's hour points exactly at that label and that mark. */
  lemma LabelsMarkHourHand()
    ensures forall i :: 0 <= i < |LABELS| ==>
      |LABELS[i].text| == 2 &&
      var pos := SidePosition(LABELS[i].side);
      Classify((pos + 30) % 60) == HourTick &&
      Direction(TemplateOf(HourTick), TickAngle((pos + 30) % 60)) == TickAngle(pos) &&
      Direction(HandTemplate(HourHand), HourAngle(LabelValue(LABELS[i].text) % 24, 0)) == TickAngle(pos)
  {
    LabelsReadTheirSide();
    forall i | 0 <= i < |LABELS|
      ensures Direction(TemplateOf(HourTick), TickAngle((SidePosition(LABELS[i].side) + 30) % 60)) ==
        TickAngle(SidePosition(LABELS[i].side))
      ensures Direction(HandTemplate(HourHand), HourAngle(LabelValue(LABELS[i].text) % 24, 0)) ==
        TickAngle(SidePosition(LABELS[i].side))
    {
      SideFacesHourTick(LABELS[i].side);
      HourHandAtSide(LABELS[i].side);
    }
  }

  /** The mark facing the centre of a side is drawn half a turn earlier in
      the loop, with the hour-tick template. */
  lemma SideFacesHourTick(side: Side)
    ensures Classify((SidePosition(side) + 30) % 60) == HourTick
    ensures Direction(TemplateOf(HourTick), TickAngle((SidePosition(side) + 30) % 60)) == TickAngle(SidePosition(side))
  {
    var pos := SidePosition(side);
    TickLandsAt((pos + 30) % 60, HourTick);
    assert ((pos + 30) % 60 + 30) % 60 == pos;
  }

  /** The hour hand at the hour of a side's place on a 24-hour dial points
      at the centre of that side. */
  lemma HourHandAtSide(side: Side)
    ensures Direction(HandTemplate(HourHand), HourAngle(SidePosition(side) * 24 / 60, 0)) == TickAngle(SidePosition(side))
  {
    UpwardTemplateKeepsAngle(HandTemplate(HourHand), HourAngle(SidePosition(side) * 24 / 60, 0));
  }
}

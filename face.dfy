/** The watch face's shared state and its event handlers: the current time,
    read by the hand layer, and the two layers' redraw requests. */
module Face {
  import opened Angles

  /** The two drawable layers: the static background and the hands. */
  datatype Layer = BgLayer | HandLayer

  /** The three hand angles that one redraw of the hand layer rotates to. */
  datatype Hands = Hands(hour: int, minute: int, second: int)

  /** The shared state: the current time and whether each layer has a
      redraw request pending. */
  datatype FaceState = FaceState(now: Time, handDirty: bool, bgDirty: bool)

  /** What can happen after start-up: the once-per-second tick carrying the
      new time, or a drawing pass of the host compositor, which redraws the
      layers that requested it and so clears their requests. */
  datatype Event = TickEvent(time: Time) | Composed

  /** The layers marked dirty at start-up, in order. */
  const INIT_MARKS := [BgLayer, HandLayer]

  /** The state right after start-up, with `t` the time read at start-up:
      the clock's time is stored and both layers have a request pending. */
  function Start(t: Time): (s: FaceState)
    ensures s.now == t && s.handDirty && s.bgDirty
  {
    FaceState(t, true, true)
  }

  /** The effect of one event on the shared state. A tick stores its time
      and raises the hand layer's request but leaves the background's as it
      was; a drawing pass serves both requests and keeps the time. */
  function Step(s: FaceState, e: Event): (r: FaceState)
    ensures e.TickEvent? ==> r.now == e.time && r.handDirty && r.bgDirty == s.bgDirty
    ensures e.Composed? ==> r.now == s.now && !r.handDirty && !r.bgDirty
  {
    match e
    case TickEvent(t) => s.(now := t, handDirty := true)
    case Composed => s.(handDirty := false, bgDirty := false)
  }

  /** The state after a sequence of events. */
  function Run(s: FaceState, events: seq<Event>): FaceState {
    if events == [] then s
    else Step(Run(s, events[..|events| - 1]), events[|events| - 1])
  }

  /** The layers an event's handler marks dirty, in order: at most one, never
      the background, and the hand layer exactly on a tick. */
  function MarksOf(e: Event): (r: seq<Layer>)
    ensures |r| <= 1 && BgLayer !in r
    ensures HandLayer in r <==> e.TickEvent?
  {
    match e
    case TickEvent(_) => [HandLayer]
    case Composed => []
  }

  /** Every layer marked dirty while handling a sequence of events, in order. */
  function Marks(events: seq<Event>): seq<Layer> {
    if events == [] then []
    else Marks(events[..|events| - 1]) + MarksOf(events[|events| - 1])
  }

  /** How many times `layer` occurs in `layers`. */
  function Occurrences(layers: seq<Layer>, layer: Layer): nat {
    if layers == [] then 0
    else Occurrences(layers[..|layers| - 1], layer) + (if layers[|layers| - 1] == layer then 1 else 0)
  }

  /** The number of ticks in a sequence of events. */
  function TickCount(events: seq<Event>): nat {
    if events == [] then 0
    else TickCount(events[..|events| - 1]) + (if events[|events| - 1].TickEvent? then 1 else 0)
  }

  lemma OccurrencesConcat(a: seq<Layer>, b: seq<Layer>, layer: Layer)
    ensures Occurrences(a + b, layer) == Occurrences(a, layer) + Occurrences(b, layer)
    decreases |b|
  {
    if b != [] {
      assert (a + b)[..|a + b| - 1] == a + b[..|b| - 1];
      OccurrencesConcat(a, b[..|b| - 1], layer);
    } else {
      assert a + b == a;
    }
  }

  /** Over start-up followed by any events, the background layer is marked
      dirty exactly once: at start-up. */
  lemma {:induction false} BackgroundMarkedOnce(events: seq<Event>)
    ensures Occurrences(INIT_MARKS + Marks(events), BgLayer) == 1
  {
    OccurrencesConcat(INIT_MARKS, Marks(events), BgLayer);
    BackgroundNeverMarkedAfterStart(events);
    assert INIT_MARKS[..1] == [BgLayer];
    assert [BgLayer][..0] == [];
  }

  lemma {:induction false} BackgroundNeverMarkedAfterStart(events: seq<Event>)
    ensures Occurrences(Marks(events), BgLayer) == 0
  {
    if events != [] {
      var init, e := events[..|events| - 1], events[|events| - 1];
      BackgroundNeverMarkedAfterStart(init);
      OccurrencesConcat(Marks(init), MarksOf(e), BgLayer);
      assert [HandLayer][..0] == [];
    }
  }

  /** Over start-up followed by any events, the hand layer is marked dirty
      once at start-up and once per tick. */
  lemma {:induction false} HandMarkedOncePerTick(events: seq<Event>)
    ensures Occurrences(INIT_MARKS + Marks(events), HandLayer) == 1 + TickCount(events)
  {
    OccurrencesConcat(INIT_MARKS, Marks(events), HandLayer);
    HandMarksAfterStart(events);
    assert INIT_MARKS[..1] == [BgLayer];
    assert [BgLayer][..0] == [];
  }

  lemma {:induction false} HandMarksAfterStart(events: seq<Event>)
    ensures Occurrences(Marks(events), HandLayer) == TickCount(events)
  {
    if events != [] {
      var init, e := events[..|events| - 1], events[|events| - 1];
      HandMarksAfterStart(init);
      OccurrencesConcat(Marks(init), MarksOf(e), HandLayer);
      assert [HandLayer][..0] == [];
    }
  }

  /** The background's redraw request stays pending from start-up until the
      first drawing pass, and no tick raises it again. */
  lemma {:induction false} BackgroundDirtyUntilComposed(t: Time, events: seq<Event>)
    ensures Run(Start(t), events).bgDirty <==> forall i :: 0 <= i < |events| ==> events[i].TickEvent?
  {
    if events != [] {
      var init := events[..|events| - 1];
      BackgroundDirtyUntilComposed(t, init);
      assert forall i :: 0 <= i < |init| ==> init[i] == events[i];
    }
  }

  /** The hand layer has a redraw request pending exactly when no drawing
      pass has happened since the last tick, or since start-up. */
  lemma {:induction false} HandDirtyUntilComposed(t: Time, events: seq<Event>)
    ensures Run(Start(t), events).handDirty <==>
      forall j :: 0 <= j < |events| && events[j].Composed? ==>
        exists i :: j < i < |events| && events[i].TickEvent?
  {
    if events != [] {
      var init, e := events[..|events| - 1], events[|events| - 1];
      HandDirtyUntilComposed(t, init);
      assert forall i :: 0 <= i < |init| ==> init[i] == events[i];
    }
  }

  /** Without ticks, the current time stays the one read at start-up. */
  lemma {:induction false} NowWithoutTicks(t: Time, events: seq<Event>)
    requires forall i :: 0 <= i < |events| ==> !events[i].TickEvent?
    ensures Run(Start(t), events).now == t
  {
    if events != [] {
      var init := events[..|events| - 1];
      assert forall i :: 0 <= i < |init| ==> init[i] == events[i];
      NowWithoutTicks(t, init);
    }
  }

  /** The current time is the time carried by the latest tick. */
  lemma {:induction false} NowIsLatestTick(t: Time, events: seq<Event>, i: int)
    requires 0 <= i < |events| && events[i].TickEvent?
    requires forall j :: i < j < |events| ==> !events[j].TickEvent?
    ensures Run(Start(t), events).now == events[i].time
  {
    if i < |events| - 1 {
      var init := events[..|events| - 1];
      assert forall j :: 0 <= j < |init| ==> init[j] == events[j];
      NowIsLatestTick(t, init, i);
    }
  }

  /** The watch face: the global `now` and the two layers' dirty flags. The
      ghost log records every layer_mark_dirty call, in order. */
  class WatchFace {
    var now: Time
    var handDirty: bool
    var bgDirty: bool
    ghost var marks: seq<Layer>

    /** The abstract value of the object. */
    ghost function State(): FaceState
      reads this
    {
      FaceState(now, handDirty, bgDirty)
    }

    /** Start-up: read the clock (`t` stands for the time it returns), then
        mark the background and the hand layer dirty, in that order. */
    constructor Init(t: Time)
      ensures now == t && handDirty && bgDirty
      ensures State() == Start(t)
      ensures marks == INIT_MARKS
    {
      now := t;
      bgDirty := true;
      marks := [BgLayer];
      handDirty := true;
      marks := marks + [HandLayer];
    }

    /** The once-per-second tick: mark the hand layer dirty, then store the
        new time. The background's request is left as it is. */
    method Tick(t: Time)
      modifies this
      ensures now == t && handDirty && bgDirty == old(bgDirty)
      ensures State() == Step(old(State()), TickEvent(t))
      ensures marks == old(marks) + MarksOf(TickEvent(t))
    {
      handDirty := true;
      marks := marks + [HandLayer];
      now := t;
    }

    /** The host compositor's drawing pass: both requests are served. */
    method Compose()
      modifies this
      ensures now == old(now) && !handDirty && !bgDirty
      ensures State() == Step(old(State()), Composed)
      ensures marks == old(marks) + MarksOf(Composed)
    {
      handDirty := false;
      bgDirty := false;
    }

    /** The hand layer's redraw: the angles the three hands are rotated to,
        computed from `now` and leaving it unchanged. */
    method HandLayerUpdate() returns (h: Hands)
      ensures h == Hands(HourAngle(now.hour, now.min), MinuteAngle(now.min), SecondAngle(now.sec))
      ensures ValidTime(now) ==>
        0 <= h.hour < TRIG_MAX_ANGLE && 0 <= h.minute < TRIG_MAX_ANGLE && 0 <= h.second < TRIG_MAX_ANGLE
    {
      var hourAngle := CDiv((now.hour * 60 + now.min) * TRIG_MAX_ANGLE, 60 * 24);
      var minuteAngle := CDiv(now.min * TRIG_MAX_ANGLE, 60);
      var secondAngle := CDiv(now.sec * TRIG_MAX_ANGLE, 60);
      h := Hands(hourAngle, minuteAngle, secondAngle);
    }
  }

  /** Start-up followed by the handlers for `events`, in order, as the host's
      event loop delivers them: the object's state and its log of redraw
      requests are those of the trace model, so the lemmas above apply. */
  method RunEvents(t: Time, events: seq<Event>) returns (face: WatchFace)
    ensures fresh(face)
    ensures face.State() == Run(Start(t), events)
    ensures face.marks == INIT_MARKS + Marks(events)
  {
    face := new WatchFace.Init(t);
    var k := 0;
    while k < |events|
      invariant 0 <= k <= |events|
      invariant fresh(face)
      invariant face.State() == Run(Start(t), events[..k])
      invariant face.marks == INIT_MARKS + Marks(events[..k])
    {
      assert events[..k + 1][..k] == events[..k];
      match events[k] {
        case TickEvent(time) => face.Tick(time);
        case Composed => face.Compose();
      }
      k := k + 1;
    }
    assert events[..|events|] == events;
  }
}

# T10 watch face — a Dafny model

This project models the core of the "Torgoen T10" style Pebble watch face
(`src/T10_SW.c`): the integer arithmetic that turns the time of day into hand
angles, the 60-step loop that lays out the dial's tick marks in three styles,
and the redraw-request state kept by the start-up and tick handlers.

- `angles.dfy` (module `Angles`): the time record, C's truncating division
  (`CDiv`), and the hour (24-hour dial), minute and second angle expressions.
  `TRIG_MAX_ANGLE`, the Pebble SDK's full turn, is the constant `0x10000`.
  Integers are unbounded. Lemmas show that every intermediate product fits a
  32-bit `int` for every valid time, so the C expressions never overflow.
- `shapes.dfy` (module `Shapes`): the six polygon templates (three hands,
  three tick styles) with the source's points, and the direction a template
  points in once rotated. Screen y grows downwards and `gpath_rotate_to`
  turns a template clockwise. The hands lie above the centre, so unrotated
  they point up. The ticks lie below it, so unrotated they point down. Every
  template is symmetric about the vertical axis.
- `background.dfy` (module `Background`): tick classification, the tick loop
  as the method `DrawTicks`, and the four hour labels. The loop returns the
  sequence of marks it draws: one style and one rotation per loop step.
  Because the tick templates point down, the mark of step `min` lands at dial
  position `(min + 30) % 60` (`TickLandsAt`). Styles repeat every half turn,
  so the minute hand still points at a mark of its minute's style, and each
  label still faces an hour tick.
- `face.dfy` (module `Face`): the shared state (`now` and the two layers'
  dirty flags) as the class `WatchFace`. The class has a ghost log of every
  `layer_mark_dirty` call. Beside it is a pure trace model (`Start`, `Step`,
  `Run`, `Marks`) that the class is proved to follow (`RunEvents`). The lemmas
  about traces are stated over that model.

The host compositor's drawing pass clears the dirty flags of the layers it
redraws. It is modelled as the event `Composed` and the method
`WatchFace.Compose`, so that "pending request" is meaningful. The time that
`get_time` reads at start-up and the time each tick event carries are
parameters.

`handle_tick` marks the hand layer dirty (line 153) before it stores the time
(line 154). `WatchFace.Tick` keeps that order. No observer can tell the
difference, because the redraw runs only on a later drawing pass.

## Model

| member | source | states |
|---|---|---|
| Angles.CDiv | src/T10_SW.c:95 | C's `/` with a positive divisor: the remainder lies in [0, b) for a non-negative dividend and in (-b, 0] for a negative one (truncation toward zero) |
| Angles.CDivOfNatural | src/T10_SW.c:95 | for non-negative operands C's division equals Dafny's |
| Angles.HourAngle | src/T10_SW.c:95 | for hour in [0,24) and minute in [0,60) the hour angle lies in [0, TRIG_MAX_ANGLE) |
| Angles.MinuteAngle | src/T10_SW.c:104 | for minute in [0,60) the minute angle lies in [0, TRIG_MAX_ANGLE) |
| Angles.SecondAngle | src/T10_SW.c:113 | for second in [0,60) the second angle lies in [0, TRIG_MAX_ANGLE) |
| Angles.HourAngleStrictlyIncreasing | src/T10_SW.c:95 | a later minute of the day always gives a strictly larger hour angle, so no angle repeats within a day |
| Angles.MinuteAngleStrictlyIncreasing | src/T10_SW.c:104 | a later minute of the hour always gives a strictly larger minute angle |
| Angles.HourHandOneRevolutionPerDay | src/T10_SW.c:95 | the hour angle is 0 at 00:00, below a full turn at 23:59, and exactly one full turn at 24:00 |
| Angles.MinuteHandOneRevolutionPerHour | src/T10_SW.c:104 | the minute angle is 0 at minute 0, one step short of a full turn at minute 59, and a full turn at minute 60 |
| Angles.SecondAngleIsMinuteAngle | src/T10_SW.c:113 | the second hand's expression is the minute hand's expression applied to the seconds field |
| Angles.HourHandQuarterDays | src/T10_SW.c:95 | at 00:00, 06:00, 12:00 and 18:00 the hour hand is at 0, a quarter, a half and three quarters of a turn |
| Angles.HalfPastNoon | src/T10_SW.c:95-104 | at 12:30 the hour hand is at half a turn plus a 48th, and the minute hand at half a turn |
| Angles.ScaledMinutesFitInt32 | src/T10_SW.c:95 | a minute count times TRIG_MAX_ANGLE fits a 32-bit int if and only if the count lies in [-32768, 32768) |
| Angles.AngleArithmeticFitsInt32 | src/T10_SW.c:95-113 | for every valid time every intermediate value of the three angle expressions fits a 32-bit int |
| Shapes.Heading | src/T10_SW.c:37-88 | a template lying above the centre points up (0), and one lying below it points down (half a turn) |
| Shapes.Direction | src/T10_SW.c:97 | a template rotated by an angle points, within one turn, at its heading plus that angle (clockwise) |
| Shapes.UpwardTemplateKeepsAngle | src/T10_SW.c:97 | an upward template rotated by an angle within one turn points exactly at that angle |
| Shapes.HandTemplatesPointUp | src/T10_SW.c:37-63 | the hour, minute and second hands have five points each, lie above the centre and are symmetric about the vertical axis |
| Shapes.TickTemplatesPointDown | src/T10_SW.c:67-88 | the hour and major ticks have four points and the minor line two; all lie below the centre and are symmetric about the vertical axis |
| Shapes.HandTemplate | src/T10_SW.c:37-63 | each hand's template is non-empty and lies above the centre |
| Background.TemplateOf | src/T10_SW.c:172-183 | each style's template is non-empty and lies below the centre |
| Background.Classify | src/T10_SW.c:170-184 | on the dial, hour ticks are exactly at 0, 15, 30 and 45; major ticks are exactly at the other eight multiples of five; a minor line goes exactly where 5 does not divide the position |
| Background.TickAngle | src/T10_SW.c:169 | the rotation of each of the sixty loop steps lies in [0, TRIG_MAX_ANGLE) |
| Background.TickAlignsWithMinuteHand | src/T10_SW.c:169 | the loop rotates its template at step `min` by exactly the minute hand's rotation at minute `min` |
| Background.TickAnglesIncrease | src/T10_SW.c:169 | over the sixty loop steps the rotations strictly increase |
| Background.HalfTurnIsThirtySteps | src/T10_SW.c:169 | thirty loop steps later the rotation is exactly half a turn larger |
| Background.DownwardTemplateLandsAt | src/T10_SW.c:169-183 | a downward template rotated by the angle of step `min` points at dial position `(min + 30) % 60` |
| Background.TickLandsAt | src/T10_SW.c:169-183 | whatever its style, the mark drawn at step `min` points at dial position `(min + 30) % 60` |
| Background.StylesRepeatEveryHalfTurn | src/T10_SW.c:170-184 | positions half a turn apart have the same style |
| Background.MinuteHandPointsAtTick | src/T10_SW.c:104-106 | at every minute the minute hand points exactly where the mark of step `(min + 30) % 60` points, and that mark has the style of the minute's own position |
| Background.CountsPartition | src/T10_SW.c:170-184 | each mark has exactly one style, so the three style counts add up to the number of marks |
| Background.DrawTicks | src/T10_SW.c:167-185 | the loop draws sixty marks, the one at position `min` having that position's style and angle; 4 are hour ticks, 8 major ticks and 48 minor lines; the angles lie in one turn and strictly increase |
| Background.BgLayerUpdate | src/T10_SW.c:159-224 | the background draws those sixty marks, with rotations within one turn and strictly increasing, and then the four labels |
| Background.SidePosition | src/T10_SW.c:188-223 | the centre of each side is a quarter position on the dial, clockwise from the top |
| Background.LabelsReadTheirSide | src/T10_SW.c:188-223 | the four labels `LABELS` sit on four different sides, and each reads (modulo 24) the hour whose place on a 24-hour dial is the centre of its side |
| Background.SideFacesHourTick | src/T10_SW.c:170-183 | the mark pointing at the centre of a side is drawn with the hour-tick template, half a turn earlier in the loop |
| Background.HourHandAtSide | src/T10_SW.c:95-97 | the hour hand at the hour of a side's place on the 24-hour dial points at the centre of that side |
| Background.LabelsMarkHourHand | src/T10_SW.c:170-223 | each of "24", "06", "12", "18" faces a mark drawn with the hour-tick template, and the hour hand at that hour points exactly at the label and that mark |
| Face.Start | src/T10_SW.c:253-272 | after start-up `now` is the time read from the clock and both layers have a redraw request pending |
| Face.Step | src/T10_SW.c:149-155 | a tick stores its time, raises the hand layer's request and leaves the background's as it was; a drawing pass keeps the time and serves both requests |
| Face.MarksOf | src/T10_SW.c:149-155 | each event's handler marks at most one layer, never the background, and the hand layer exactly on a tick |
| Face.BackgroundMarkedOnce | src/T10_SW.c:267 | over start-up and any events after it, the background layer is marked dirty exactly once |
| Face.HandMarkedOncePerTick | src/T10_SW.c:153 | over start-up and any events after it, the hand layer is marked dirty once at start-up plus once per tick |
| Face.BackgroundDirtyUntilComposed | src/T10_SW.c:149-155 | the background's request is pending if and only if no drawing pass has happened since start-up; ticks never raise it |
| Face.HandDirtyUntilComposed | src/T10_SW.c:153 | the hand layer's request is pending if and only if every drawing pass has been followed by a tick |
| Face.NowIsLatestTick | src/T10_SW.c:154 | `now` is the time carried by the latest tick, whatever drawing passes followed it |
| Face.NowWithoutTicks | src/T10_SW.c:253 | until the first tick, `now` is the time read at start-up |
| Face.WatchFace.Init | src/T10_SW.c:231-273 | start-up stores the clock's time and marks the background and then the hand layer dirty |
| Face.WatchFace.Tick | src/T10_SW.c:149-155 | a tick marks the hand layer dirty and stores the event's time; the background's flag is unchanged |
| Face.WatchFace.HandLayerUpdate | src/T10_SW.c:90-119 | the hand layer rotates its three hands to the hour, minute and second angles of `now`, each within one turn for a valid time; `now` is not changed |
| Face.RunEvents | src/T10_SW.c:284-296 | delivering start-up and then events to the object yields exactly the trace model's state and mark log |

## Left out

- Drawing (path rotation and filling, outlines, the centre disc, colours, text drawing) is left out. These are foreign SDK calls, and the real rotation uses the SDK's trigonometry tables. The model records only which template is drawn at which angle.
- The date text (`string_format_time` into a 6-byte buffer, lines 127 and 137) is left out. It is a foreign strftime-like call. The calendar fields of `Time` are carried but not interpreted.
- Font loading and unloading, resource initialisation, window and layer creation and parenting, and `handle_deinit` are left out. They are platform resources with no behaviour to verify.
- The app metadata, `pbl_main` and the handler table are left out. `RunEvents` stands in for the event loop that delivers the handlers in order.
- `GPATH_INIT`, `gpath_move_to` and the pixel layout (`W`, `H`, `R`, the text rectangles) are left out. The point lists are kept only for their orientation and symmetry. The label rectangles are abstracted to the side of the dial each label sits on (`Side`).
- Shapes.Direction: it assumes that `gpath_rotate_to` turns a template clockwise on the display, which is how the SDK's rotation works with y growing downwards. The SDK is not part of this model.
- The host compositor is modelled only as a drawing pass that clears both dirty flags (`Composed`). Whether the platform repaints a clean layer together with a dirty one is the host's business and is not modelled.
- Angles.SecondAngle: its range ensures are stated for seconds in [0,60). A C `struct tm` allows a leap second 60, for which the expression gives exactly one full turn; the period proof for the minute expression (`MinuteHandOneRevolutionPerHour`) covers that value.
- Angles.HourAngle: the model uses unbounded integers. C overflow (undefined behaviour) is not modelled beyond `ScaledMinutesFitInt32` and `AngleArithmeticFitsInt32`, which show that it cannot happen for valid times.

# ngx-material-timepicker: the picker component as a verified state machine

This project models `NgxMaterialTimepickerComponent` of ngx-material-timepicker, an Angular time
picker. A host binds one text input to the picker. The picker takes that input's constraints and
lets the user choose an hour, a minute and an AM/PM period. It reports the chosen time back.

The component's own source is not part of this model. Its behaviour is taken from the
component's test file, `src/app/material-timepicker/ngx-material-timepicker.component.spec.ts`.
The model follows every assertion there. Where the tests are silent, the choice made is listed
under "## Left out".

Files and modules:

- `time_values.dfy` (`TimeValues`): the value types: `Option`, `Period` (AM/PM), `TimeUnit`
  (hour or minute dial), `ClockTime` (a 24-hour bound time), `ClockFaceTime` (a dial value:
  number and angle). It also holds the 24-hour/12-hour hour conversions.
- `time_text.dfy` (`TimeText`): the text side. `Render12` writes a bound time as 12-hour text
  (23:15 becomes `"11:15 PM"`). `ParseTime12` reads `"hh:mm am"` in any letter case.
  `DefaultSelection` turns a default-time text into the selection it seeds. `ComposeTime` writes
  the text that `timeSet` carries. The round-trip lemmas connect these functions.
- `constraints.dfy` (`Constraints`): the permissive `format` and `minutesGap` setters.
- `timepicker.dfy` (`Timepicker`): the class `TimepickerComponent`. Its fields are the ones the
  component updates in place:
  - the bound input and its copied constraints;
  - `isOpened`, `animationState`, `activeTimeUnit`;
  - the selected hour, minute and period;
  - the selection-event source (`source*`) and the `subscribed` flag.

  What the component emits (`opened`, `closed`, `hourSelected`, `timeSet`) is kept in the ghost
  log `notifications`. Calls into the DOM service are kept in the ghost log `domCalls`. Calls of
  `close` are counted in `closeCalls`. The texts passed to `setDefaultTime` are kept in
  `defaultTimeCalls`. The invariant `Valid()` holds after every method. It says:
  - the format is 12 or 24;
  - a minutes gap lies in 1..60;
  - an unbound picker has no min and no max;
  - the bounds are times of day;
  - while subscribed, the selection equals the source's values.
- `scenarios.dfy` (`TimepickerScenarios`): each of the test file's cases, replayed on the model
  with the test's expectations as assertions.

## Model

| member | source | states |
|---|---|---|
| TimeValues.Hour12Of | src/app/material-timepicker/ngx-material-timepicker.component.spec.ts:83-89 | a 24-hour hour reads as 1..12 on the 12-hour face, agreeing with it modulo 12 (23 reads as 11) |
| TimeValues.Hour24Of | src/app/material-timepicker/ngx-material-timepicker.component.spec.ts:83-89 | the 24-hour hour a 12-hour hour and period denote is the one hour that reads back as that hour and period |
| TimeValues.Hour12RoundTrip | src/app/material-timepicker/ngx-material-timepicker.component.spec.ts:83-89 | converting an hour to 12-hour reading and period and back gives the hour |
| TimeText.ParseTime12 | src/app/material-timepicker/ngx-material-timepicker.component.spec.ts:124-142 | an accepted default-time text has the shape `h:mm xm` or `hh:mm xm`; the result's hour, minute and period are the digits and period letters written in it, with hour 1..12 and minute 0..59 |
| TimeText.ParseSpelled | src/app/material-timepicker/ngx-material-timepicker.component.spec.ts:124-142 | a text spelled `h:mm xm` or `hh:mm xm`, period in any letter case, is accepted exactly when its hour is 1..12 and its minute 0..59, and then gives the hour, minute and period written |
| TimeText.DefaultSelection | src/app/material-timepicker/ngx-material-timepicker.component.spec.ts:124-142 | a default-time text seeds a selection exactly when it parses; the seeded minute and period are the parsed ones; the seeded hour is the parsed hour (1..12) in 12-hour format, and in 24-hour format the hour in 0..23 that reads back as the parsed hour and period |
| TimeText.Compose12RoundTrip | src/app/material-timepicker/ngx-material-timepicker.component.spec.ts:124-142 | parsing the `hh:mm AM` text of any valid 12-hour time gives that time back |
| TimeText.Render12 | src/app/material-timepicker/ngx-material-timepicker.component.spec.ts:83-90 | the 12-hour text a bound time is written as (23:15 as `"11:15 PM"`) parses to that time's 12-hour reading |
| TimeText.SeedFromBound | src/app/material-timepicker/ngx-material-timepicker.component.spec.ts:83-90 | seeding from a bound time's text gives its minute, its period and its hour as the format shows it |
| TimeText.ParsePrintsBack | src/app/material-timepicker/ngx-material-timepicker.component.spec.ts:134-142 | an accepted text is the `hh:mm` spelling of the time it parses to, up to the period's letter case and a dropped leading zero of the hour ("01:11 am" and "1:11 AM" both spell 1:11 AM) |
| TimeText.ComposeTime | src/app/material-timepicker/ngx-material-timepicker.component.spec.ts:116-122 | the text emitted on `timeSet`: in 24-hour format its two digit pairs are the hour and the minute; in 12-hour format, for an hour in 1..12 and a minute in 0..59, it reads back as the selection it was made from |
| TimeText.KeptTwentyFourHourRejected | src/app/material-timepicker/ngx-material-timepicker.component.spec.ts:116-122 | a 12-hour `timeSet` text built from an hour kept from 24-hour format (23:15 PM) does not read back |
| TimeText.RenderLateEvening | src/app/material-timepicker/ngx-material-timepicker.component.spec.ts:83-90 | 23:15 renders as `"11:15 PM"` |
| TimeText.ParseDefaultTimes | src/app/material-timepicker/ngx-material-timepicker.component.spec.ts:124-142 | `"11:12 am"` seeds 11, 12, AM and `"01:11 am"` seeds 1, 11, AM |
| Constraints.NormalizeFormat | src/app/material-timepicker/ngx-material-timepicker.component.spec.ts:102-108 | the stored format is 12 or 24, and it is 24 exactly when 24 was assigned |
| Constraints.FormatIdempotent | src/app/material-timepicker/ngx-material-timepicker.component.spec.ts:102-108 | re-assigning a normalised format changes nothing |
| Constraints.AssignMinutesGap | src/app/material-timepicker/ngx-material-timepicker.component.spec.ts:226-252 | null or undefined keep the current gap; a number gives a gap in 1..60, its integer part when that is in range and 1 otherwise |
| Constraints.FloorAgreesWithTruncation | src/app/material-timepicker/ngx-material-timepicker.component.spec.ts:240-244 | cutting the gap by floor or by truncation toward zero gives the same setter result |
| Constraints.MinutesGapStable | src/app/material-timepicker/ngx-material-timepicker.component.spec.ts:226-244 | assigning the gap the setter produced leaves it unchanged |
| Constraints.MinutesGapExamples | src/app/material-timepicker/ngx-material-timepicker.component.spec.ts:226-252 | 5 gives 5, 65 gives 1, 6.5 gives 6, null leaves an unset gap unset |
| Timepicker.TimepickerComponent.constructor | src/app/material-timepicker/ngx-material-timepicker.component.spec.ts:110-114 | a new picker is closed, not animating, on the hour dial, format 12, no gap, Escape enabled, unbound, unsubscribed, nothing emitted |
| Timepicker.TimepickerComponent.RegisterInputAndDefineTime | src/app/material-timepicker/ngx-material-timepicker.component.spec.ts:47-99 | a second registration fails with the single-input message and changes nothing; the first binds the input, copies min, max, disabled and the normalised format, and calls `setDefaultTime` with the 12-hour text of min exactly when the input holds no time and min is set |
| Timepicker.TimepickerComponent.SeedFromMinTime | src/app/material-timepicker/ngx-material-timepicker.component.spec.ts:83-90 | seeding requests `setDefaultTime(Render12(min))` and leaves the source holding min's minute, period and hour in the current format |
| Timepicker.TimepickerComponent.SetFormat | src/app/material-timepicker/ngx-material-timepicker.component.spec.ts:102-108 | the format becomes the normalised value |
| Timepicker.TimepickerComponent.SetMinutesGap | src/app/material-timepicker/ngx-material-timepicker.component.spec.ts:226-252 | the gap becomes `AssignMinutesGap` of the old gap and the assigned value |
| Timepicker.TimepickerComponent.SetDefaultTime | src/app/material-timepicker/ngx-material-timepicker.component.spec.ts:124-132 | the text is recorded as a request; a readable text sets the source's minute and period to the parsed ones and its hour to the parsed hour in 12-hour format or its 0..23 equivalent in 24-hour format (and the selection follows while subscribed); an unreadable one changes nothing |
| Timepicker.TimepickerComponent.AssignDefaultTime | src/app/material-timepicker/ngx-material-timepicker.component.spec.ts:134-142 | the `defaultTime` setter has the same effect as `setDefaultTime`: the parsed minute and period, and the parsed hour in 12-hour format or its 0..23 equivalent in 24-hour format |
| Timepicker.TimepickerComponent.Open | src/app/material-timepicker/ngx-material-timepicker.component.spec.ts:144-154 | the picker is opened, mounted once with its own component type, `opened` is emitted once, and the animation is ENTER, or UNSET when animation is disabled |
| Timepicker.TimepickerComponent.Close | src/app/material-timepicker/ngx-material-timepicker.component.spec.ts:156-159 | with animation, only the animation becomes LEAVE; with animation disabled, the picker closes at once: not opened, hour dial, unmounted once, `closed` emitted once, animation untouched |
| Timepicker.TimepickerComponent.CloseTimepicker | src/app/material-timepicker/ngx-material-timepicker.component.spec.ts:161-176 | the closing sequence: not opened, hour dial, one unmount, one `closed` emission |
| Timepicker.TimepickerComponent.AnimationDone | src/app/material-timepicker/ngx-material-timepicker.component.spec.ts:161-187 | a "done" event to "leave" runs the closing sequence; any other event changes nothing |
| Timepicker.TimepickerComponent.OnKeydown | src/app/material-timepicker/ngx-material-timepicker.component.spec.ts:189-224 | `close` is called exactly when the key code is 27 and `isEsc` holds; otherwise nothing changes |
| Timepicker.TimepickerComponent.SetTime | src/app/material-timepicker/ngx-material-timepicker.component.spec.ts:116-122 | the composed time is emitted on `timeSet` before `close` runs, and `close` is called once |
| Timepicker.TimepickerComponent.ChangeTimeUnit | src/app/material-timepicker/ngx-material-timepicker.component.spec.ts:110-114 | the active dial becomes the given one |
| Timepicker.TimepickerComponent.OnHourSelected | src/app/material-timepicker/ngx-material-timepicker.component.spec.ts:254-263 | the hour is emitted on `hourSelected` and the minute dial becomes active |
| Timepicker.TimepickerComponent.NgOnInit | src/app/material-timepicker/ngx-material-timepicker.component.spec.ts:283-289 | the picker subscribes and its selection takes the source's current values |
| Timepicker.TimepickerComponent.NgOnDestroy | src/app/material-timepicker/ngx-material-timepicker.component.spec.ts:311-321 | the picker unsubscribes; later selection events leave its selection alone |
| Timepicker.TimepickerComponent.OnHourChange | src/app/material-timepicker/ngx-material-timepicker.component.spec.ts:295-298 | the source's hour becomes the given value verbatim; the selected hour follows only while subscribed |
| Timepicker.TimepickerComponent.OnMinuteChange | src/app/material-timepicker/ngx-material-timepicker.component.spec.ts:300-304 | the source's minute becomes the given value verbatim; the selected minute follows only while subscribed |
| Timepicker.TimepickerComponent.ChangePeriod | src/app/material-timepicker/ngx-material-timepicker.component.spec.ts:306-309 | the source's period becomes the given one; the selected period follows only while subscribed |

## Left out

- The component's implementation file is not part of this model. Each choice below fills a gap
  that the tests leave open.
- Angular's TestBed, dependency injection and the `spyOnFunction` helper are test plumbing.
- Luxon's `DateTime` is a foreign library. A bound time is a `ClockTime` (hour 0-23,
  minute 0-59), and its 12-hour rendering is written out in `Render12`.
- Angular animations and `EventEmitter` delivery are asynchronous framework machinery.
  `animationDone` is an ordinary method call. Emissions are appended to a ghost log.
- `stopPropagation` on the key event is a DOM side effect and is not modelled.
- The selection-event source is one per picker. Sharing one source among several pickers, each
  seeing the others' events, is not modelled.
- Constraint checks on a default time against min, max and the minutes gap are not modelled. A
  readable default time is always applied. An unreadable one changes nothing.
- Timepicker.TimepickerComponent.Open: `disabled` is copied but does not block opening. No
  test asserts a refusal.
- Constraints.AssignMinutesGap: the valid range 1..60 is an assumption. The tests pin only 5,
  65 and 6.5. NaN and infinite numbers are not modelled.
- Timepicker.HourFace and Timepicker.MinuteFace: the dial angle of a seeded hour
  (30 degrees per hour) and minute (6 degrees per minute) is an assumption. `onHourChange` and
  `onMinuteChange` copy the angle verbatim.
- Timepicker.TimepickerComponent.CloseTimepicker: `closed` carries no payload, as the test
  with animation disabled observes. The last time value is not attached.
- Timepicker.TimepickerComponent.Close: with animation disabled, the immediate close runs the
  whole closing sequence, so it also unmounts the picker (`destroyTimepicker`). The test of that
  path does not observe the unmount call, so this is a choice no test pins.
- Timepicker.TimepickerComponent.Close: a close while the enter animation runs starts the
  leave animation at once.
- Timepicker.TimepickerComponent.CloseTimepicker: the closing sequence does not reset the
  animation state. After an animated close the picker is not opened but the animation state stays
  LEAVE until the next `open`. No test asserts a reset.
- Timepicker.TimepickerComponent.SetFormat: a later format change does not convert the stored
  hour. Dial values are kept as given, so the selected hour is not always 1..12 in 12-hour format
  or 0..23 in 24-hour format. An hour seeded in 24-hour format and then emitted in 12-hour
  format gives a text such as "23:15 PM" that the parser rejects.
- TimeText.ComposeTime: the 12-hour round trip is promised only for hours 1..12, because the
  picker's state does not keep the hour in that range (see the line above).
- Timepicker.TimepickerComponent.SetDefaultTime: in 24-hour format the parsed 12-hour hour and
  period are stored as the 0..23 hour they denote. The tests parse default times only in 12-hour
  format, so this conversion is a choice they do not pin.
- Timepicker.TimepickerComponent.RegisterInputAndDefineTime: seeding needs a set `min`. An input
  with neither value nor min is bound without seeding, as registering `{}` and `{min: null}` must
  succeed. An empty value text counts as no value.
- Timepicker.TimepickerComponent.SeedFromMinTime: the bound time is always rendered as 12-hour
  text. In 24-hour format the parsed hour is converted to 0-23.
- Timepicker.TimepickerComponent.OnHourSelected: the selected hour is only emitted, not stored.
  No test shows it being stored.
- TimeText.ComposeTime: the exact text on `timeSet` is an assumption (`hh:mm AM` in 12-hour
  format, `HH:mm` in 24-hour format). The test asserts only that a value is emitted.
- Dial values are natural numbers. Negative dial numbers are not modelled.

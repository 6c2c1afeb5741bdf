/** The picker component: binding to a single input, the normalising setters,
    the default-time seeding, the open/close animation lifecycle and the
    subscription-gated selection. */
module Timepicker {
  import opened TimeValues
  import opened TimeText
  import opened Constraints

  const DuplicateBindingMessage := "A Timepicker can only be associated with a single input."
  const EscapeKeyCode := 27

  /** The animation in flight; `Unset` when none is, or when animation is disabled. */
  datatype AnimationState = Unset | Enter | Leave

  /** The completion signal of an animation: its phase and the state it went to. */
  datatype AnimationEvent = AnimationEvent(phaseName: string, toState: string)

  /** Only the end of the "leave" animation closes the picker. */
  predicate IsLeaveDone(e: AnimationEvent) {
    e.phaseName == "done" && e.toState == "leave"
  }

  /** What the bound input exposes: its bounds, its disabled flag, its format
      and its current text (`None` for undefined). */
  datatype BoundInput = BoundInput(min: Option<ClockTime>, max: Option<ClockTime>,
                                   disabled: bool, format: int, value: Option<string>)

  /** Bounds are times of day. */
  predicate ValidBoundInput(input: BoundInput) {
    (input.min.Some? ==> ValidClockTime(input.min.value)) &&
    (input.max.Some? ==> ValidClockTime(input.max.value))
  }

  /** The input already holds a time (an empty text counts as none). */
  predicate HasTimeText(value: Option<string>) {
    value.Some? && value.value != ""
  }

  /** The outcome of registering an input. */
  datatype Outcome = Pass | Fail(message: string)

  /** What the picker emits: `opened`, `closed` (no payload), `hourSelected`
      with the hour and `timeSet` with the time text. */
  datatype Notification = Opened | Closed | HourSelected(hour: int) | TimeSet(time: string)

  /** Component types the DOM service can mount; the picker mounts its own. */
  datatype ComponentType = TimepickerComponentType

  /** Calls into the DOM service, with the component type the append mounts. */
  datatype DomCall = AppendTimepickerToBody(component: ComponentType) | DestroyTimepicker

  /** The dial position of a seeded hour and minute. */
  function HourFace(hour: nat): (face: ClockFaceTime)
    ensures face.time == hour && 0 <= face.angle < 360
  {
    ClockFaceTime(hour, 30 * (hour % 12))
  }

  function MinuteFace(minute: nat): (face: ClockFaceTime)
    ensures face.time == minute && 0 <= face.angle < 360
  {
    ClockFaceTime(minute, 6 * (minute % 60))
  }

  class TimepickerComponent {
    // binding and constraints
    var boundInput: Option<BoundInput>
    var minTime: Option<ClockTime>
    var maxTime: Option<ClockTime>
    var disabled: bool
    var format: int
    var minutesGap: Option<int>
    var isEsc: bool
    var disableAnimation: bool

    // lifecycle
    var isOpened: bool
    var animationState: AnimationState
    var activeTimeUnit: TimeUnit

    // the selection the dials show (undefined until the first subscription delivers it)
    var selectedHour: Option<ClockFaceTime>
    var selectedMinute: Option<ClockFaceTime>
    var selectedPeriod: Option<Period>

    // the shared selection-event source and the picker's subscription to it
    var sourceHour: ClockFaceTime
    var sourceMinute: ClockFaceTime
    var sourcePeriod: Period
    var subscribed: bool

    // what the picker emitted and called, in order
    ghost var notifications: seq<Notification>
    ghost var domCalls: seq<DomCall>
    ghost var closeCalls: nat
    ghost var defaultTimeCalls: seq<string>

    ghost predicate Valid()
      reads this
    {
      (format == 12 || format == 24) &&
      (minutesGap.Some? ==> MinMinutesGap <= minutesGap.value <= MaxMinutesGap) &&
      (boundInput.None? ==> minTime.None? && maxTime.None?) &&
      (minTime.Some? ==> ValidClockTime(minTime.value)) &&
      (maxTime.Some? ==> ValidClockTime(maxTime.value)) &&
      (subscribed ==> selectedHour == Some(sourceHour) && selectedMinute == Some(sourceMinute)
                      && selectedPeriod == Some(sourcePeriod))
    }

    /** A fresh picker over a selection source currently holding the given values. */
    constructor (hour: ClockFaceTime, minute: ClockFaceTime, period: Period)
      ensures Valid()
      ensures boundInput == None && minTime == None && maxTime == None && !disabled
      ensures format == 12 && minutesGap == None && isEsc && !disableAnimation
      ensures !isOpened && animationState == Unset && activeTimeUnit == Hour
      ensures selectedHour == None && selectedMinute == None && selectedPeriod == None && !subscribed
      ensures sourceHour == hour && sourceMinute == minute && sourcePeriod == period
      ensures notifications == [] && domCalls == [] && closeCalls == 0 && defaultTimeCalls == []
    {
      boundInput, minTime, maxTime, disabled := None, None, None, false;
      format, minutesGap, isEsc, disableAnimation := 12, None, true, false;
      isOpened, animationState, activeTimeUnit := false, Unset, Hour;
      selectedHour, selectedMinute, selectedPeriod := None, None, None;
      sourceHour, sourceMinute, sourcePeriod, subscribed := hour, minute, period, false;
      notifications, domCalls, closeCalls, defaultTimeCalls := [], [], 0, [];
    }

    // ------------------------------------------------------------ setters

    /** The `format` setter. */
    method SetFormat(value: int)
      requires Valid()
      modifies this`format
      ensures Valid()
      ensures format == NormalizeFormat(value)
    {
      format := NormalizeFormat(value);
    }

    /** The `minutesGap` setter; `None` stands for null or undefined. */
    method SetMinutesGap(value: Option<real>)
      requires Valid()
      modifies this`minutesGap
      ensures Valid()
      ensures minutesGap == AssignMinutesGap(old(minutesGap), value)
    {
      minutesGap := AssignMinutesGap(minutesGap, value);
    }

    // ------------------------------------------------------------ selection source

    /** `ngOnInit`: subscribes to the source, which delivers its current values at once. */
    method NgOnInit()
      requires Valid()
      modifies this`subscribed, this`selectedHour, this`selectedMinute, this`selectedPeriod
      ensures Valid()
      ensures subscribed
      ensures selectedHour == Some(sourceHour) && selectedMinute == Some(sourceMinute)
      ensures selectedPeriod == Some(sourcePeriod)
    {
      subscribed := true;
      selectedHour, selectedMinute, selectedPeriod := Some(sourceHour), Some(sourceMinute), Some(sourcePeriod);
    }

    /** `ngOnDestroy`: releases every subscription. */
    method NgOnDestroy()
      requires Valid()
      modifies this`subscribed
      ensures Valid()
      ensures !subscribed
    {
      subscribed := false;
    }

    /** `onHourChange`: sets the hour on the source; the dial follows while subscribed. */
    method OnHourChange(hour: ClockFaceTime)
      requires Valid()
      modifies this`sourceHour, this`selectedHour
      ensures Valid()
      ensures sourceHour == hour
      ensures selectedHour == if subscribed then Some(hour) else old(selectedHour)
    {
      sourceHour := hour;
      if subscribed {
        selectedHour := Some(hour);
      }
    }

    /** `onMinuteChange`: sets the minute on the source; the dial follows while subscribed. */
    method OnMinuteChange(minute: ClockFaceTime)
      requires Valid()
      modifies this`sourceMinute, this`selectedMinute
      ensures Valid()
      ensures sourceMinute == minute
      ensures selectedMinute == if subscribed then Some(minute) else old(selectedMinute)
    {
      sourceMinute := minute;
      if subscribed {
        selectedMinute := Some(minute);
      }
    }

    /** `changePeriod`: sets the period on the source; the selection follows while subscribed. */
    method ChangePeriod(period: Period)
      requires Valid()
      modifies this`sourcePeriod, this`selectedPeriod
      ensures Valid()
      ensures sourcePeriod == period
      ensures selectedPeriod == if subscribed then Some(period) else old(selectedPeriod)
    {
      sourcePeriod := period;
      if subscribed {
        selectedPeriod := Some(period);
      }
    }

    // ------------------------------------------------------------ default time

    /** `setDefaultTime`: parses the text and publishes the hour, minute and
        period it names in the current format; an unreadable text changes nothing. */
    method SetDefaultTime(text: string)
      requires Valid()
      modifies this`sourceHour, this`sourceMinute, this`sourcePeriod,
               this`selectedHour, this`selectedMinute, this`selectedPeriod, this`defaultTimeCalls
      ensures Valid()
      ensures defaultTimeCalls == old(defaultTimeCalls) + [text]
      ensures DefaultSelection(text, format).None? ==>
                sourceHour == old(sourceHour) && sourceMinute == old(sourceMinute)
                && sourcePeriod == old(sourcePeriod) && selectedHour == old(selectedHour)
                && selectedMinute == old(selectedMinute) && selectedPeriod == old(selectedPeriod)
      ensures DefaultSelection(text, format).Some? ==>
                var s := DefaultSelection(text, format).value;
                sourceHour == HourFace(s.hour) && sourceMinute == MinuteFace(s.minute) && sourcePeriod == s.period
      ensures !subscribed ==> selectedHour == old(selectedHour) && selectedMinute == old(selectedMinute)
                              && selectedPeriod == old(selectedPeriod)
    {
      defaultTimeCalls := defaultTimeCalls + [text];
      var selection := DefaultSelection(text, format);
      if selection.Some? {
        OnHourChange(HourFace(selection.value.hour));
        OnMinuteChange(MinuteFace(selection.value.minute));
        ChangePeriod(selection.value.period);
      }
    }

    /** The `defaultTime` setter: the same parse-and-publish as `setDefaultTime`. */
    method AssignDefaultTime(text: string)
      requires Valid()
      modifies this`sourceHour, this`sourceMinute, this`sourcePeriod,
               this`selectedHour, this`selectedMinute, this`selectedPeriod, this`defaultTimeCalls
      ensures Valid()
      ensures defaultTimeCalls == old(defaultTimeCalls) + [text]
      ensures DefaultSelection(text, format).Some? ==>
                var s := DefaultSelection(text, format).value;
                sourceHour == HourFace(s.hour) && sourceMinute == MinuteFace(s.minute) && sourcePeriod == s.period
      ensures DefaultSelection(text, format).None? ==>
                sourceHour == old(sourceHour) && sourceMinute == old(sourceMinute) && sourcePeriod == old(sourcePeriod)
      ensures !subscribed ==> selectedHour == old(selectedHour) && selectedMinute == old(selectedMinute)
                              && selectedPeriod == old(selectedPeriod)
    {
      SetDefaultTime(text);
    }

    // ------------------------------------------------------------ binding

    /** Seeds the selection from a bound time, through `setDefaultTime` with
        the time's 12-hour text. */
    method SeedFromMinTime(m: ClockTime)
      requires Valid() && ValidClockTime(m)
      modifies this`sourceHour, this`sourceMinute, this`sourcePeriod,
               this`selectedHour, this`selectedMinute, this`selectedPeriod, this`defaultTimeCalls
      ensures Valid()
      ensures defaultTimeCalls == old(defaultTimeCalls) + [Render12(m)]
      ensures sourceHour == HourFace(if format == 24 then m.hour else Hour12Of(m.hour))
      ensures sourceMinute == MinuteFace(m.minute) && sourcePeriod == PeriodOf(m.hour)
      ensures !subscribed ==> selectedHour == old(selectedHour) && selectedMinute == old(selectedMinute)
                              && selectedPeriod == old(selectedPeriod)
    {
      SeedFromBound(m, format);
      SetDefaultTime(Render12(m));
    }

    /** `registerInputAndDefineTime`: binds the picker to its one input, copies
        the input's constraints and, when the input holds no time, seeds the
        selection from its minimum. A second registration fails and changes nothing. */
    method RegisterInputAndDefineTime(input: BoundInput) returns (outcome: Outcome)
      requires Valid() && ValidBoundInput(input)
      modifies this`boundInput, this`minTime, this`maxTime, this`disabled, this`format,
               this`sourceHour, this`sourceMinute, this`sourcePeriod,
               this`selectedHour, this`selectedMinute, this`selectedPeriod, this`defaultTimeCalls
      ensures Valid()
      ensures old(boundInput).Some? ==> outcome == Fail(DuplicateBindingMessage) && unchanged(this)
      ensures old(boundInput).None? ==>
                outcome == Pass && boundInput == Some(input)
                && minTime == input.min && maxTime == input.max && disabled == input.disabled
                && format == NormalizeFormat(input.format)
      ensures old(boundInput).None? && !HasTimeText(input.value) && input.min.Some? ==>
                var m := input.min.value;
                defaultTimeCalls == old(defaultTimeCalls) + [Render12(m)]
                && sourceHour == HourFace(if format == 24 then m.hour else Hour12Of(m.hour))
                && sourceMinute == MinuteFace(m.minute) && sourcePeriod == PeriodOf(m.hour)
      ensures old(boundInput).None? && (HasTimeText(input.value) || input.min.None?) ==>
                defaultTimeCalls == old(defaultTimeCalls)
                && sourceHour == old(sourceHour) && sourceMinute == old(sourceMinute)
                && sourcePeriod == old(sourcePeriod)
      ensures !subscribed ==> selectedHour == old(selectedHour) && selectedMinute == old(selectedMinute)
                              && selectedPeriod == old(selectedPeriod)
    {
      if boundInput.Some? {
        return Fail(DuplicateBindingMessage);
      }
      boundInput := Some(input);
      minTime, maxTime, disabled := input.min, input.max, input.disabled;
      SetFormat(input.format);
      if !HasTimeText(input.value) && input.min.Some? {
        SeedFromMinTime(input.min.value);
      }
      outcome := Pass;
    }

    // ------------------------------------------------------------ lifecycle

    /** What `close()` does: with animation it only starts the leave animation;
        without, it closes at once. `emitted` is what was emitted just before. */
    twostate predicate Closing(emitted: seq<Notification>)
      reads this
    {
      closeCalls == old(closeCalls) + 1 &&
      if disableAnimation then
        !isOpened && activeTimeUnit == Hour && animationState == old(animationState)
        && domCalls == old(domCalls) + [DestroyTimepicker]
        && notifications == old(notifications) + emitted + [Closed]
      else
        animationState == Leave && isOpened == old(isOpened) && activeTimeUnit == old(activeTimeUnit)
        && domCalls == old(domCalls) && notifications == old(notifications) + emitted
    }

    /** `open()`: mounts the picker, marks it opened, starts the enter animation
        (or leaves no animation in flight when animation is disabled), and emits
        `opened` once. */
    method Open()
      requires Valid()
      modifies this`isOpened, this`animationState, this`domCalls, this`notifications
      ensures Valid()
      ensures isOpened
      ensures animationState == if disableAnimation then Unset else Enter
      ensures domCalls == old(domCalls) + [AppendTimepickerToBody(TimepickerComponentType)]
      ensures notifications == old(notifications) + [Opened]
    {
      domCalls := domCalls + [AppendTimepickerToBody(TimepickerComponentType)];
      isOpened := true;
      animationState := if disableAnimation then Unset else Enter;
      notifications := notifications + [Opened];
    }

    /** The closing sequence: not opened, back to the hour dial, unmounted, `closed` emitted. */
    method CloseTimepicker()
      requires Valid()
      modifies this`isOpened, this`activeTimeUnit, this`domCalls, this`notifications
      ensures Valid()
      ensures !isOpened && activeTimeUnit == Hour
      ensures domCalls == old(domCalls) + [DestroyTimepicker]
      ensures notifications == old(notifications) + [Closed]
    {
      isOpened := false;
      activeTimeUnit := Hour;
      domCalls := domCalls + [DestroyTimepicker];
      notifications := notifications + [Closed];
    }

    /** `close()`. */
    method Close()
      requires Valid()
      modifies this`isOpened, this`animationState, this`activeTimeUnit, this`domCalls,
               this`notifications, this`closeCalls
      ensures Valid()
      ensures Closing([])
    {
      closeCalls := closeCalls + 1;
      if disableAnimation {
        CloseTimepicker();
      } else {
        animationState := Leave;
      }
    }

    /** `animationDone`: the end of the leave animation runs the closing sequence;
        any other animation event changes nothing. */
    method AnimationDone(event: AnimationEvent)
      requires Valid()
      modifies this`isOpened, this`activeTimeUnit, this`domCalls, this`notifications
      ensures Valid()
      ensures IsLeaveDone(event) ==>
                !isOpened && activeTimeUnit == Hour
                && domCalls == old(domCalls) + [DestroyTimepicker]
                && notifications == old(notifications) + [Closed]
      ensures !IsLeaveDone(event) ==> unchanged(this)
    {
      if IsLeaveDone(event) {
        CloseTimepicker();
      }
    }

    /** `onKeydown`: Escape closes the picker when `isEsc` allows it; any other key does nothing. */
    method OnKeydown(keyCode: int)
      requires Valid()
      modifies this`isOpened, this`animationState, this`activeTimeUnit, this`domCalls,
               this`notifications, this`closeCalls
      ensures Valid()
      ensures keyCode == EscapeKeyCode && isEsc ==> Closing([])
      ensures !(keyCode == EscapeKeyCode && isEsc) ==> unchanged(this)
    {
      if keyCode == EscapeKeyCode && isEsc {
        Close();
      }
    }

    /** `setTime`: emits the selected time on `timeSet`, then closes. */
    method SetTime()
      requires Valid()
      modifies this`isOpened, this`animationState, this`activeTimeUnit, this`domCalls,
               this`notifications, this`closeCalls
      ensures Valid()
      ensures Closing([TimeSet(ComposeTime(format, sourceHour.time, sourceMinute.time, sourcePeriod))])
    {
      notifications := notifications + [TimeSet(ComposeTime(format, sourceHour.time, sourceMinute.time, sourcePeriod))];
      Close();
    }

    /** `changeTimeUnit`. */
    method ChangeTimeUnit(unit: TimeUnit)
      requires Valid()
      modifies this`activeTimeUnit
      ensures Valid()
      ensures activeTimeUnit == unit
    {
      activeTimeUnit := unit;
    }

    /** `onHourSelected`: emits the hour on `hourSelected` and moves on to the minute dial. */
    method OnHourSelected(hour: int)
      requires Valid()
      modifies this`activeTimeUnit, this`notifications
      ensures Valid()
      ensures activeTimeUnit == Minute
      ensures notifications == old(notifications) + [HourSelected(hour)]
    {
      ChangeTimeUnit(Minute);
      notifications := notifications + [HourSelected(hour)];
    }
  }
}

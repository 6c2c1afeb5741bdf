/** The component's own test cases, replayed against the model: each method
    builds a picker, drives it as the test does and asserts what the test expects. */
module TimepickerScenarios {
  import opened TimeValues
  import opened TimeText
  import opened Constraints
  import opened Timepicker

  method NewPicker() returns (picker: TimepickerComponent)
    ensures fresh(picker) && picker.Valid()
    ensures picker.boundInput == None && picker.format == 12 && picker.minutesGap == None
    ensures picker.isEsc && !picker.disableAnimation && !picker.subscribed
    ensures !picker.isOpened && picker.animationState == Unset && picker.activeTimeUnit == Hour
    ensures picker.notifications == [] && picker.domCalls == [] && picker.closeCalls == 0
    ensures picker.defaultTimeCalls == [] && picker.selectedHour == None
    ensures picker.sourceHour == ClockFaceTime(12, 0) && picker.sourceMinute == ClockFaceTime(0, 0)
    ensures picker.sourcePeriod == AM
  {
    picker := new TimepickerComponent(HourFace(12), MinuteFace(0), AM);
  }

  /** A second registration throws; the first copies the input's constraints. */
  method RegistrationIsOneShot() {
    var picker := NewPicker();
    var input := BoundInput(None, None, true, 24, None);
    var first := picker.RegisterInputAndDefineTime(input);
    assert first == Pass;
    assert picker.minTime == None && picker.maxTime == None;
    assert picker.disabled && picker.format == 24;
    var second := picker.RegisterInputAndDefineTime(input);
    assert second == Fail("A Timepicker can only be associated with a single input.");
    assert picker.format == 24;
  }

  /** With no value, the input's minimum 23:15 seeds "11:15 PM"; with a value, nothing is seeded. */
  method SeedingFromMin() {
    var picker := NewPicker();
    var min := ClockTime(23, 15);
    var outcome := picker.RegisterInputAndDefineTime(BoundInput(Some(min), None, false, 12, None));
    RenderLateEvening();
    assert picker.defaultTimeCalls == ["11:15 PM"];
    picker.NgOnInit();
    assert picker.selectedHour.value.time == 11 && picker.selectedPeriod == Some(PM);

    var other := NewPicker();
    outcome := other.RegisterInputAndDefineTime(BoundInput(Some(min), None, false, 12, Some("11:11 am")));
    assert other.defaultTimeCalls == [];
  }

  /** 24 reads back as 24, 10 as 12. */
  method FormatSetter() {
    var picker := NewPicker();
    picker.SetFormat(24);
    assert picker.format == 24;
    picker.SetFormat(10);
    assert picker.format == 12;
  }

  /** The gap starts undefined; 5 stays 5, 65 becomes 1, 6.5 becomes 6, null and undefined change nothing. */
  method MinutesGapSetter() {
    MinutesGapExamples();
    var picker := NewPicker();
    picker.SetMinutesGap(None);
    assert picker.minutesGap == None;
    picker.SetMinutesGap(Some(5.0));
    assert picker.minutesGap == Some(5);
    picker.SetMinutesGap(Some(65.0));
    assert picker.minutesGap == Some(1);
    picker.SetMinutesGap(Some(6.5));
    assert picker.minutesGap == Some(6);
  }

  /** "11:12 am" through `setDefaultTime` and "01:11 am" through `defaultTime`. */
  method DefaultTimeParsing() {
    ParseDefaultTimes();
    var picker := NewPicker();
    picker.NgOnInit();
    picker.SetDefaultTime("11:12 am");
    assert picker.selectedHour.value.time == 11 && picker.selectedMinute.value.time == 12;
    assert picker.selectedPeriod == Some(AM);
    picker.AssignDefaultTime("01:11 am");
    assert picker.selectedHour.value.time == 1 && picker.selectedMinute.value.time == 11;
    assert picker.selectedPeriod == Some(AM);
  }

  /** Opening with animation: opened, entering, mounted once, `opened` emitted once. */
  method OpenAndClose() {
    var picker := NewPicker();
    picker.Open();
    assert picker.isOpened && picker.animationState == Enter;
    assert picker.domCalls == [AppendTimepickerToBody(TimepickerComponentType)] && picker.notifications == [Opened];

    picker.Close();
    assert picker.animationState == Leave && picker.isOpened;

    picker.AnimationDone(AnimationEvent("done", "enter"));
    assert picker.isOpened;

    picker.ChangeTimeUnit(Minute);
    picker.AnimationDone(AnimationEvent("done", "leave"));
    assert !picker.isOpened && picker.activeTimeUnit == Hour;
    assert picker.domCalls == [AppendTimepickerToBody(TimepickerComponentType), DestroyTimepicker];
    assert picker.animationState == Leave;
    assert picker.notifications == [Opened, Closed];
  }

  /** With animation disabled, open leaves the animation unset and close closes at once. */
  method DisabledAnimation() {
    var picker := NewPicker();
    picker.disableAnimation := true;
    picker.Open();
    assert picker.animationState == Unset;
    picker.Close();
    assert !picker.isOpened && picker.animationState == Unset && picker.activeTimeUnit == Hour;
    assert picker.notifications == [Opened, Closed];
  }

  /** Escape closes only while `isEsc` holds; other keys never do. */
  method EscapeKey() {
    var picker := NewPicker();
    picker.OnKeydown(27);
    assert picker.closeCalls == 1;
    picker.OnKeydown(28);
    assert picker.closeCalls == 1;
    picker.isEsc := false;
    picker.OnKeydown(27);
    assert picker.closeCalls == 1;
  }

  /** Changing the time unit from the hour dial to the minute dial. */
  method TimeUnitChange() {
    var picker := NewPicker();
    assert picker.activeTimeUnit == Hour;
    picker.ChangeTimeUnit(Minute);
    assert picker.activeTimeUnit == Minute;
  }

  /** Hour selection emits the hour and moves to the minute dial; setting the time emits and closes. */
  method HourSelectionAndSetTime() {
    var picker := NewPicker();
    assert picker.activeTimeUnit == Hour;
    picker.OnHourSelected(10);
    assert picker.activeTimeUnit == Minute && picker.notifications == [HourSelected(10)];
    picker.SetTime();
    assert picker.closeCalls == 1 && |picker.notifications| == 2 && picker.notifications[1].TimeSet?;
  }

  /** While subscribed the selection follows; after `ngOnDestroy` it does not. */
  method SubscriptionGating() {
    var hour, minute := ClockFaceTime(11, 360), ClockFaceTime(44, 36);
    var picker := NewPicker();
    picker.NgOnInit();
    picker.OnHourChange(hour);
    picker.OnMinuteChange(minute);
    picker.ChangePeriod(PM);
    assert picker.selectedHour == Some(hour) && picker.selectedMinute == Some(minute);
    assert picker.selectedPeriod == Some(PM);

    var other := NewPicker();
    other.NgOnInit();
    other.NgOnDestroy();
    other.OnHourChange(hour);
    other.OnMinuteChange(minute);
    other.ChangePeriod(PM);
    assert other.selectedHour != Some(hour) && other.selectedMinute != Some(minute);
    assert other.selectedPeriod != Some(PM);
  }
}

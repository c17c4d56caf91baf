/** The stand-alone booking form (pages/schedule/BookingCreate.tsx): the
    half-hour time options, the form's field updates and its reset. */
module BookingCreate {
  import opened Seqs
  import opened Text
  import opened Slots
  import opened TodaySchedule

  /** The form's initial contents; `utcToday` is the UTC date `new Date()`
      gives as `YYYY-MM-DD`. */
  function InitialForm(utcToday: string): (f: BookingForm)
    ensures f.scheduleDate == utcToday && f.scheduleTime == "10:00"
    ensures forall field :: field != ScheduleDate && field != ScheduleTime ==> GetField(f, field) == ""
  {
    BlankForm(utcToday, "10:00")
  }

  /** The n-th time option: 09:00 plus n half hours. */
  function TimeOption(n: nat): string
  {
    MinutesToTime(TimeOptionMinutes(n))
  }

  /** The minute of day the n-th option stands for. */
  function TimeOptionMinutes(n: nat): nat
  {
    DayStart + 30 * n
  }

  lemma HourArithmetic(hour: nat)
    requires hour >= 9
    ensures TimeOptionMinutes(2 * (hour - 9)) == 60 * hour
    ensures TimeOptionMinutes(2 * (hour - 9) + 1) == 60 * hour + 30
    ensures (60 * hour) / 60 == hour && (60 * hour) % 60 == 0
    ensures (60 * hour + 30) / 60 == hour && (60 * hour + 30) % 60 == 30
  {
  }

  /** The two labels the loop pushes for an hour are the options at
      positions 2(hour - 9) and 2(hour - 9) + 1. */
  lemma HourLabels(hour: nat, k: nat)
    requires hour >= 9 && k == 2 * (hour - 9)
    ensures Pad2(hour) + ":00" == TimeOption(k)
    ensures Pad2(hour) + ":30" == TimeOption(k + 1)
  {
    HourArithmetic(hour);
    assert Pad2(0) == "00";
    assert NatToString(30) == "30";
  }

  /** The `timeOptions` loop: for each hour from 9 to 18 push `HH:00`, and
      `HH:30` below 18. */
  method TimeOptions() returns (options: seq<string>)
    ensures |options| == 19
    ensures forall i :: 0 <= i < |options| ==> options[i] == TimeOption(i)
  {
    options := [];
    var hour := 9;
    while hour <= 18
      invariant 9 <= hour <= 19
      invariant |options| == if hour <= 18 then 2 * (hour - 9) else 19
      invariant Tabulates(options, TimeOption)
    {
      var onTheHour := OnTheHour(hour);
      TabulatesPush(options, TimeOption, onTheHour);
      options := options + [onTheHour];
      if hour < 18 {
        var halfPast := HalfPast(hour);
        TabulatesPush(options, TimeOption, halfPast);
        options := options + [halfPast];
      }
      hour := hour + 1;
    }
    TabulatesAt(options, TimeOption);
  }

  /** The label `HH:00` the loop pushes for an hour. */
  method OnTheHour(hour: nat) returns (s: string)
    requires hour >= 9
    ensures s == TimeOption(2 * (hour - 9))
  {
    s := Pad2(hour) + ":00";
    HourLabels(hour, 2 * (hour - 9));
  }

  /** The label `HH:30` the loop pushes for an hour. */
  method HalfPast(hour: nat) returns (s: string)
    requires hour >= 9
    ensures s == TimeOption(2 * (hour - 9) + 1)
  {
    s := Pad2(hour) + ":30";
    HourLabels(hour, 2 * (hour - 9));
  }

  /** Every option is a zero-padded `HH:MM` time that reads back as its minute. */
  lemma TimeOptionFormat(n: nat)
    requires n < 19
    ensures IsHHMM(TimeOption(n)) && TimeToMinutes(TimeOption(n)) == Some(TimeOptionMinutes(n))
  {
    TimeRoundTrip(TimeOptionMinutes(n));
  }

  /** The options are strictly increasing and run from 09:00 to 18:00. */
  lemma TimeOptionsRange()
    ensures forall n: nat, k: nat :: n < k < 19 ==> TimeOptionMinutes(n) < TimeOptionMinutes(k)
    ensures TimeOption(0) == "09:00" && TimeOption(18) == "18:00"
  {
    HourLabels(9, 0);
    HourLabels(18, 18);
    assert Pad2(9) == "09" && Pad2(18) == "18";
  }

  /** 18:30 is not an option: every option reads back as a minute up to 18:00. */
  lemma NoHalfPastSix(n: nat)
    requires n < 19
    ensures TimeOption(n) != "18:30"
  {
    TimeOptionFormat(n);
    TimeRoundTrip(18 * 60 + 30);
    assert TimeToMinutes("18:30") != Some(TimeOptionMinutes(n)) by {
      assert MinutesToTime(18 * 60 + 30) == "18:30" by {
        assert Pad2(18) == "18" && NatToString(30) == "30";
      }
    }
  }

  /** The first eighteen options are exactly the slot starts of a 30-minute interval. */
  lemma TimeOptionsAreSlots()
    ensures |SlotStarts(30)| == 18 && forall n :: 0 <= n < 18 ==> TimeOptionMinutes(n) == SlotStarts(30)[n]
  {
    SlotStartsShape(30);
  }

  class BookingCreatePage {
    var formData: BookingForm

    constructor (utcToday: string)
      ensures formData == InitialForm(utcToday)
    {
      formData := InitialForm(utcToday);
    }

    /** `handleInputChange`: only the named field changes. */
    method HandleInputChange(field: FormField, value: string)
      modifies this
      ensures formData == SetField(old(formData), field, value)
      ensures GetField(formData, field) == value
      ensures forall other :: other != field ==> GetField(formData, other) == GetField(old(formData), other)
    {
      SetFieldSpec(formData, field, value);
      formData := SetField(formData, field, value);
    }

    /** `handleSubmit`: the booking is not stored anywhere; the form resets. */
    method HandleSubmit(utcToday: string)
      modifies this
      ensures formData == InitialForm(utcToday)
    {
      formData := InitialForm(utcToday);
    }

    /** The cancel button: the form resets only when the prompt is confirmed. */
    method HandleCancel(confirmed: bool, utcToday: string)
      modifies this
      ensures formData == if confirmed then InitialForm(utcToday) else old(formData)
    {
      if confirmed {
        formData := InitialForm(utcToday);
      }
    }
  }
}

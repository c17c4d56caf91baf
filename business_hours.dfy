/** The booking settings page (pages/settings/BusinessHours.tsx): per-day
    opening hours, the booking interval and the per-slot capacity, saved to
    the store the today-board reads. */
module BusinessHours {
  import opened Seqs
  import opened Text
  import opened Types
  import opened Storage

  /** The two time inputs of a day row. */
  datatype TimeField = OpenTime | CloseTime

  /** `prev.map(config => config.day === day ? f(config) : config)`. */
  function ForDay(configs: seq<HoursConfig>, day: string, f: HoursConfig -> HoursConfig): (r: seq<HoursConfig>)
    ensures |r| == |configs|
    ensures forall i :: 0 <= i < |r| ==> r[i] == if configs[i].day == day then f(configs[i]) else configs[i]
  {
    seq(|configs|, i requires 0 <= i < |configs| => if configs[i].day == day then f(configs[i]) else configs[i])
  }

  function FlipOpen(c: HoursConfig): HoursConfig { c.(isOpen := !c.isOpen) }

  function SetTime(field: TimeField, value: string): HoursConfig -> HoursConfig
  {
    (c: HoursConfig) => if field == OpenTime then c.(openTime := value) else c.(closeTime := value)
  }

  /** `handleToggleOpen`. */
  function ToggleOpen(configs: seq<HoursConfig>, day: string): seq<HoursConfig>
  {
    ForDay(configs, day, FlipOpen)
  }

  /** `handleTimeChange`. */
  function TimeChange(configs: seq<HoursConfig>, day: string, field: TimeField, value: string): seq<HoursConfig>
  {
    ForDay(configs, day, SetTime(field, value))
  }

  /** A toggle flips `isOpen` of the rows for that day and of no other row,
      touching no other field, and toggling twice restores the list. */
  lemma ToggleOpenSpec(configs: seq<HoursConfig>, day: string)
    ensures var r := ToggleOpen(configs, day);
      |r| == |configs|
      && (forall i :: 0 <= i < |r| ==>
            r[i].day == configs[i].day && r[i].dayKo == configs[i].dayKo
            && r[i].openTime == configs[i].openTime && r[i].closeTime == configs[i].closeTime
            && (r[i].isOpen <==> (if configs[i].day == day then !configs[i].isOpen else configs[i].isOpen)))
    ensures ToggleOpen(ToggleOpen(configs, day), day) == configs
  {
  }

  /** A time change sets the chosen time of the rows for that day; every other
      field of those rows, and every other row, is left as it was. */
  lemma TimeChangeSpec(configs: seq<HoursConfig>, day: string, field: TimeField, value: string)
    ensures var r := TimeChange(configs, day, field, value);
      |r| == |configs|
      && (forall i :: 0 <= i < |r| && configs[i].day != day ==> r[i] == configs[i])
      && (forall i :: 0 <= i < |r| && configs[i].day == day ==>
            (field == OpenTime ==> r[i] == configs[i].(openTime := value))
            && (field == CloseTime ==> r[i] == configs[i].(closeTime := value)))
  {
  }

  const MinCapacity: int := 1
  const MaxCapacity: int := 10

  predicate CapacityInRange(c: int) { MinCapacity <= c <= MaxCapacity }

  /** `handleCapacityChange`: accept only values in 1..10. */
  function CapacityChange(current: int, value: int): int
  {
    if value >= 1 && value <= 10 then value else current
  }

  /** The capacity guard: the new capacity is the requested one exactly when
      that is in range, and is otherwise the old one; so a capacity in range
      stays in range through any sequence of changes. */
  lemma CapacityChangeSpec(current: int, value: int)
    ensures CapacityChange(current, value) == value <==> CapacityInRange(value) || value == current
    ensures CapacityInRange(current) ==> CapacityInRange(CapacityChange(current, value))
    ensures !CapacityInRange(value) ==> CapacityChange(current, value) == current
  {
  }

  /** The − button (disabled at ≤ 1) and the + button (disabled at ≥ 10). */
  predicate MinusDisabled(capacity: int) { capacity <= 1 }
  predicate PlusDisabled(capacity: int) { capacity >= 10 }

  /** From a capacity in range, an enabled − or + button moves the capacity
      by one, and a disabled one would not have moved it anyway. */
  lemma StepButtons(c: int)
    requires CapacityInRange(c)
    ensures !MinusDisabled(c) ==> CapacityChange(c, c - 1) == c - 1
    ensures MinusDisabled(c) ==> CapacityChange(c, c - 1) == c
    ensures !PlusDisabled(c) ==> CapacityChange(c, c + 1) == c + 1
    ensures PlusDisabled(c) ==> CapacityChange(c, c + 1) == c
  {
  }

  /** The capacity text input: `handleCapacityChange(Number(text))`; a text
      that is not a numeral is NaN, which fails both comparisons. */
  function CapacityInput(current: int, text: string): int
  {
    match JsNumber(text)
    case Some(v) => CapacityChange(current, v)
    case None => current
  }

  /** One entry of `intervalOptions`. */
  datatype IntervalOption = IntervalOption(value: int, caption: string)

  const IntervalOptions: seq<IntervalOption> := [
    IntervalOption(15, "15분"),
    IntervalOption(30, "30분"),
    IntervalOption(45, "45분"),
    IntervalOption(60, "1시간"),
    IntervalOption(90, "1시간 30분"),
    IntervalOption(120, "2시간"),
    IntervalOption(180, "3시간")
  ]

  /** `getIntervalDisplay`: minutes below an hour as `{m}분`, whole hours as
      `{h}시간`, otherwise `{h}시간 {m}분`. */
  function IntervalDisplay(minutes: int): string
  {
    if minutes < 60 then IntToString(minutes) + "분"
    else
      var hours := minutes / 60;
      var mins := minutes % 60;
      if mins > 0 then NatToString(hours) + "시간 " + NatToString(mins) + "분"
      else NatToString(hours) + "시간"
  }

  /** Every option's label is what `getIntervalDisplay` shows for its value,
      the options are the seven listed, all positive and strictly increasing. */
  lemma IntervalOptionsSpec()
    ensures |IntervalOptions| == 7
    ensures forall i :: 0 <= i < 7 ==> IntervalOptions[i].caption == IntervalDisplay(IntervalOptions[i].value)
    ensures forall i :: 0 <= i < 7 ==> IntervalOptions[i].value > 0
    ensures forall i, j :: 0 <= i < j < 7 ==> IntervalOptions[i].value < IntervalOptions[j].value
  {
    forall i | 0 <= i < 7 ensures IntervalOptions[i].caption == IntervalDisplay(IntervalOptions[i].value) {
      OptionLabel(i);
    }
  }

  lemma OptionLabel(i: int)
    requires 0 <= i < 7
    ensures IntervalOptions[i].caption == IntervalDisplay(IntervalOptions[i].value)
  {
    if i == 0 { MinuteLabel(15); }
    else if i == 1 { MinuteLabel(30); }
    else if i == 2 { MinuteLabel(45); }
    else if i == 3 { assert NatToString(1) == "1"; }
    else if i == 4 { assert NatToString(1) == "1"; MinuteLabel(30); }
    else if i == 5 { assert NatToString(2) == "2"; }
    else { assert NatToString(3) == "3"; }
  }

  lemma MinuteLabel(m: nat)
    requires 10 <= m < 60
    ensures NatToString(m) == [DigitChar(m / 10), DigitChar(m % 10)]
  {
  }

  /** `getIntervalDisplay` never shows two different non-negative intervals
      the same way: the display names the interval. */
  lemma IntervalDisplayInjective(m: nat, n: nat)
    requires IntervalDisplay(m) == IntervalDisplay(n)
    ensures m == n
  {
    var dm, dn := IntervalDisplay(m), IntervalDisplay(n);
    if m < 60 && n < 60 {
      NumeralPrefix(NatToString(m), "분", NatToString(n), "분");
      NatToStringInjective(m, n);
    } else if m < 60 {
      HourDisplayShape(n);
    } else if n < 60 {
      HourDisplayShape(m);
    } else {
      HourDisplayShape(m);
      HourDisplayShape(n);
      var hm, hn := NatToString(m / 60), NatToString(n / 60);
      assert dm == hm + dm[|hm|..] && dm[|hm|..][0] == '시';
      assert dn == hn + dn[|hn|..] && dn[|hn|..][0] == '시';
      NumeralPrefix(hm, dm[|hm|..], hn, dn[|hn|..]);
      NatToStringInjective(m / 60, n / 60);
      var rm, rn := m % 60, n % 60;
      if rm > 0 && rn > 0 {
        var tail := "시간 ";
        assert dm == (hm + tail) + (NatToString(rm) + "분");
        assert dn == (hm + tail) + (NatToString(rn) + "분");
        assert NatToString(rm) + "분" == dm[|hm + tail|..];
        assert NatToString(rn) + "분" == dn[|hm + tail|..];
        NumeralPrefix(NatToString(rm), "분", NatToString(rn), "분");
        NatToStringInjective(rm, rn);
      }
    }
  }

  /** The display of an interval of an hour or more starts with the hour
      numeral and continues with `시간`. */
  lemma HourDisplayShape(m: nat)
    requires m >= 60
    ensures var h := NatToString(m / 60);
      |IntervalDisplay(m)| > |h| && IntervalDisplay(m)[..|h|] == h
      && IntervalDisplay(m)[|h|] == '시'
  {
    var h := NatToString(m / 60);
    if m % 60 > 0 {
      assert IntervalDisplay(m) == h + ("시간 " + NatToString(m % 60) + "분");
    } else {
      assert IntervalDisplay(m) == h + "시간";
    }
  }

  class BusinessHoursPage {
    var businessHours: seq<HoursConfig>
    var bookingInterval: int
    var bookingCapacity: int

    constructor ()
      ensures businessHours == [] && bookingInterval == 60 && bookingCapacity == 1
    {
      businessHours := [];
      bookingInterval := 60;
      bookingCapacity := 1;
    }

    /** `loadBusinessHours` with the fetched list. */
    method LoadBusinessHours(fetched: seq<HoursConfig>)
      modifies this`businessHours
      ensures businessHours == fetched
    {
      businessHours := fetched;
    }

    /** `loadBookingSettings`: the stored values replace the held ones
        unchecked; a stored capacity outside 1..10 is taken as it is. */
    method LoadBookingSettings(store: Store)
      modifies this`bookingInterval, this`bookingCapacity
      ensures bookingInterval == LoadedNumber(store, IntervalKey, old(bookingInterval))
      ensures bookingCapacity == LoadedNumber(store, CapacityKey, old(bookingCapacity))
    {
      bookingInterval := LoadedNumber(store, IntervalKey, bookingInterval);
      bookingCapacity := LoadedNumber(store, CapacityKey, bookingCapacity);
    }

    method HandleToggleOpen(day: string)
      modifies this`businessHours
      ensures businessHours == ToggleOpen(old(businessHours), day)
    {
      businessHours := ToggleOpen(businessHours, day);
    }

    method HandleTimeChange(day: string, field: TimeField, value: string)
      modifies this`businessHours
      ensures businessHours == TimeChange(old(businessHours), day, field, value)
    {
      businessHours := TimeChange(businessHours, day, field, value);
    }

    /** An interval option button sets the interval to its value. */
    method SelectInterval(option: IntervalOption)
      modifies this`bookingInterval
      ensures bookingInterval == option.value
    {
      bookingInterval := option.value;
    }

    method HandleCapacityChange(value: int)
      modifies this`bookingCapacity
      ensures bookingCapacity == CapacityChange(old(bookingCapacity), value)
      ensures CapacityInRange(old(bookingCapacity)) ==> CapacityInRange(bookingCapacity)
    {
      if value >= 1 && value <= 10 {
        bookingCapacity := value;
      }
    }

    method HandleCapacityInput(text: string)
      modifies this`bookingCapacity
      ensures bookingCapacity == CapacityInput(old(bookingCapacity), text)
    {
      match JsNumber(text) {
        case Some(v) => HandleCapacityChange(v);
        case None =>
      }
    }

    /** `handleBookingIntervalSave`: the store with both settings written. */
    method HandleBookingIntervalSave(store: Store) returns (saved: Store)
      ensures saved == SaveBookingSettings(store, bookingInterval, bookingCapacity)
      ensures LoadedNumber(saved, IntervalKey, 0) == bookingInterval
      ensures LoadedNumber(saved, CapacityKey, 0) == bookingCapacity
    {
      saved := store[IntervalKey := IntToString(bookingInterval)][CapacityKey := IntToString(bookingCapacity)];
      SaveThenLoad(store, bookingInterval, bookingCapacity, 0, 0);
    }
  }

  /** The loaded capacity bypasses the 1..10 guard: a stored 25 is loaded as 25. */
  lemma LoadBypassesGuard()
    ensures var store := map[CapacityKey := IntToString(25)];
      LoadedNumber(store, CapacityKey, 1) == 25 && !CapacityInRange(25)
  {
    JsNumberOfIntToString(25);
  }
}

/** The booking slot engine of the today-board (pages/schedule/TodaySchedule.tsx):
    "HH:MM" times and minutes of the day, the fixed 09:00-18:00 slot grid, the
    alignment test that places an appointment in a slot, and the bucketing of
    the day's appointments into slots and the "other times" list. */
module Slots {
  import opened Seqs
  import opened Text
  import opened Types
  import opened Arith

  /** 09:00 and 18:00 in minutes of the day; the code hard-codes both. */
  const DayStart: nat := 540
  const DayEnd: nat := 1080

  /** `timeToMinutes`: split at ':' and read both parts with `Number`. A part
      that is not a numeral, or a missing minutes part, makes the sum NaN (None). */
  function TimeToMinutes(time: string): Option<int>
  {
    var parts := Split(time, ':');
    if |parts| < 2 then None
    else match (JsNumber(parts[0]), JsNumber(parts[1]))
      case (Some(h), Some(m)) => Some(h * 60 + m)
      case _ => None
  }

  /** `minutesToTime`: zero-padded hours, a colon, zero-padded minutes. */
  function MinutesToTime(minutes: nat): string
  {
    Pad2(minutes / 60) + ":" + Pad2(minutes % 60)
  }

  /** ISO 8601 extended local time at reduced accuracy: `hh:mm`. */
  predicate IsHHMM(s: string)
  {
    |s| == 5 && s[2] == ':' && IsDigit(s[0]) && IsDigit(s[1]) && IsDigit(s[3]) && IsDigit(s[4])
  }

  /** A string without the separator, followed by the separator and another
      such string, splits into exactly those two parts. */
  lemma SplitAtOnlySeparator(a: string, b: string, sep: char)
    requires sep !in a && sep !in b
    ensures Split(a + [sep] + b, sep) == [a, b]
  {
    var s := a + [sep] + b;
    assert s[|a|] == sep;
    var i := IndexOf(s, sep);
    assert i == |a|;
    assert s[..i] == a;
    assert s[i + 1..] == b;
  }

  lemma DigitsHaveNoColon(s: string)
    requires AllDigits(s)
    ensures ':' !in s
  {
  }

  /** `timeToMinutes(minutesToTime(m)) == m` for every non-negative m, and
      below 24:00 the text is a zero-padded `hh:mm`. */
  lemma TimeRoundTrip(m: nat)
    ensures TimeToMinutes(MinutesToTime(m)) == Some(m)
    ensures m < 24 * 60 ==> IsHHMM(MinutesToTime(m))
  {
    var h, mm := Pad2(m / 60), Pad2(m % 60);
    Pad2Numeral(m / 60);
    Pad2Numeral(m % 60);
    DigitsHaveNoColon(h);
    DigitsHaveNoColon(mm);
    SplitAtOnlySeparator(h, mm, ':');
    assert MinutesToTime(m) == h + [':'] + mm;
  }

  /** The slot starts the `for` loop of `generateTimeSlots` visits from `t` on. */
  function StartsFrom(t: nat, interval: int): seq<nat>
    requires interval > 0
    decreases DayEnd - t
  {
    if t < DayEnd then [t] + StartsFrom(t + interval, interval) else []
  }

  /** The slot starts of a day: 09:00, then every `interval` minutes before 18:00. */
  function SlotStarts(interval: int): seq<nat>
    requires interval > 0
  {
    StartsFrom(DayStart, interval)
  }

  /** The number of slots: 540 / interval rounded up. */
  function SlotCount(interval: int): (n: nat)
    requires interval > 0
    ensures n * interval >= DayEnd - DayStart
    ensures (n - 1) * interval < DayEnd - DayStart
  {
    var q := (DayEnd - DayStart + interval - 1) / interval;
    DivBounds(DayEnd - DayStart + interval - 1, interval);
    q
  }

  lemma DivBounds(a: nat, b: int)
    requires b > 0
    ensures (a / b) * b <= a < (a / b + 1) * b
  {
  }

  /** If `n` steps of `interval` reach 540 and `n - 1` do not, `n` is the slot count. */
  lemma {:induction false} CeilingUnique(n: int, interval: int)
    requires interval > 0 && n >= 0
    requires n * interval >= DayEnd - DayStart && (n - 1) * interval < DayEnd - DayStart
    ensures n == SlotCount(interval)
  {
    var c := SlotCount(interval);
    if n < c {
      MulMonotone(n, c - 1, interval);
      assert false;
    } else if n > c {
      MulMonotone(c, n - 1, interval);
      assert false;
    }
  }

  /** The starts from `t` are `t`, `t + interval`, ..., all before 18:00, and
      one more step would leave the window. */
  lemma {:induction false} StartsFromAt(t: nat, interval: int, i: nat)
    requires interval > 0 && i < |StartsFrom(t, interval)|
    ensures StartsFrom(t, interval)[i] == t + i * interval < DayEnd
    decreases i
  {
    if i > 0 {
      StartsFromAt(t + interval, interval, i - 1);
      assert (i - 1) * interval + interval == i * interval;
    }
  }

  lemma {:induction false} StartsFromLength(t: nat, interval: int)
    requires interval > 0
    ensures t + |StartsFrom(t, interval)| * interval >= DayEnd
    decreases DayEnd - t
  {
    if t < DayEnd {
      var n := |StartsFrom(t + interval, interval)|;
      StartsFromLength(t + interval, interval);
      assert (n + 1) * interval == n * interval + interval;
    }
  }

  /** The starts from `t` are `t`, `t + interval`, ..., all before 18:00, and
      one more step would leave the window. */
  lemma StartsFromShape(t: nat, interval: int)
    requires interval > 0
    ensures var r := StartsFrom(t, interval);
      (forall i :: 0 <= i < |r| ==> r[i] == t + i * interval && r[i] < DayEnd)
      && t + |r| * interval >= DayEnd
  {
    forall i | 0 <= i < |StartsFrom(t, interval)|
      ensures StartsFrom(t, interval)[i] == t + i * interval < DayEnd
    {
      StartsFromAt(t, interval, i);
    }
    StartsFromLength(t, interval);
  }

  /** For a positive interval the slots start at 09:00, step by the interval,
      stay before 18:00, and number 540 / interval rounded up (9 for an hour,
      6 for an hour and a half). */
  lemma SlotStartsShape(interval: int)
    requires interval > 0
    ensures var r := SlotStarts(interval);
      |r| == SlotCount(interval)
      && (forall i :: 0 <= i < |r| ==> r[i] == DayStart + i * interval && r[i] < DayEnd)
      && (forall i, j :: 0 <= i < j < |r| ==> r[i] < r[j])
  {
    var r := SlotStarts(interval);
    StartsFromShape(DayStart, interval);
    assert (|r| - 1) * interval < DayEnd - DayStart by {
      assert r[|r| - 1] == DayStart + (|r| - 1) * interval;
    }
    CeilingUnique(|r|, interval);
    StepsIncrease(r, DayStart, interval);
  }

  /** A sequence stepping by a positive interval is strictly increasing. */
  lemma StepsIncrease(r: seq<nat>, t: nat, interval: int)
    requires interval > 0
    requires forall i :: 0 <= i < |r| ==> r[i] == t + i * interval
    ensures forall i, j :: 0 <= i < j < |r| ==> r[i] < r[j]
  {
    forall i, j | 0 <= i < j < |r| ensures r[i] < r[j] {
      MulMonotone(i + 1, j, interval);
    }
  }

  /** The slot starts lie in the 09:00-18:00 window and strictly increase. */
  lemma SlotStartsOrdered(interval: int)
    requires interval > 0
    ensures var r := SlotStarts(interval);
      (forall i :: 0 <= i < |r| ==> DayStart <= r[i] < DayEnd)
      && (forall i, j :: 0 <= i < j < |r| ==> r[i] < r[j])
  {
    SlotStartsShape(interval);
  }

  lemma SlotCountExamples()
    ensures SlotCount(60) == 9 && SlotCount(90) == 6 && SlotCount(15) == 36 && SlotCount(180) == 3
  {
  }

  /** One generated slot: its label and its start in minutes. */
  datatype TimeSlot = TimeSlot(time: string, minutes: nat)

  /** `generateTimeSlots`: the loop from 09:00 while before 18:00. The code
      loops forever for an interval that is not positive, so one is required. */
  method GenerateTimeSlots(interval: int) returns (slots: seq<TimeSlot>)
    requires interval > 0
    ensures |slots| == |SlotStarts(interval)|
    ensures forall i :: 0 <= i < |slots| ==>
      slots[i].minutes == SlotStarts(interval)[i] && slots[i].time == MinutesToTime(slots[i].minutes)
  {
    slots := [];
    var time: nat := DayStart;
    while time < DayEnd
      invariant forall i :: 0 <= i < |slots| ==> slots[i].time == MinutesToTime(slots[i].minutes)
      invariant Minutes(slots) + StartsFrom(time, interval) == SlotStarts(interval)
      decreases DayEnd - time
    {
      assert StartsFrom(time, interval) == [time] + StartsFrom(time + interval, interval);
      slots := PushSlot(slots, time);
      time := time + interval;
    }
    forall i | 0 <= i < |slots| ensures slots[i].minutes == SlotStarts(interval)[i] {
      assert Minutes(slots)[i] == slots[i].minutes;
    }
  }

  /** One round of the loop: `slots.push({ time: minutesToTime(time), minutes: time })`. */
  method PushSlot(slots: seq<TimeSlot>, time: nat) returns (r: seq<TimeSlot>)
    requires forall i :: 0 <= i < |slots| ==> slots[i].time == MinutesToTime(slots[i].minutes)
    ensures forall i :: 0 <= i < |r| ==> r[i].time == MinutesToTime(r[i].minutes)
    ensures Minutes(r) == Minutes(slots) + [time]
  {
    r := slots + [TimeSlot(MinutesToTime(time), time)];
    assert Minutes(r) == Minutes(slots) + [time];
  }

  function Minutes(slots: seq<TimeSlot>): (r: seq<nat>)
    ensures |r| == |slots|
  {
    seq(|slots|, i requires 0 <= i < |slots| => slots[i].minutes)
  }

  /** JavaScript's `%`: the remainder takes the sign of the dividend. */
  function JsRem(a: int, b: int): (r: int)
    requires b != 0
    ensures (r == 0) == (a % Abs(b) == 0)
    ensures -Abs(b) < r < Abs(b)
    ensures a >= 0 ==> r >= 0
    ensures a <= 0 ==> r <= 0
  {
    if a >= 0 then a % Abs(b)
    else
      NegModZero(a, Abs(b));
      -((-a) % Abs(b))
  }

  function Abs(x: int): (r: int)
    ensures r >= 0 && (r == x || r == -x)
  {
    if x < 0 then -x else x
  }

  /** `findMatchingSlot`: the appointment's minutes when they are a whole
      number of intervals away from 09:00, otherwise null (None). A time that
      is NaN, or an interval of 0, gives a NaN remainder and so null. */
  function FindMatchingSlot(time: string, interval: int): Option<int>
  {
    match TimeToMinutes(time)
    case None => None
    case Some(m) =>
      if interval != 0 && JsRem(m - DayStart, interval) == 0 then Some(m) else None
  }

  /** `m` is a whole number of intervals away from 09:00. */
  predicate Aligned(m: int, interval: int)
  {
    interval != 0 && (m - DayStart) % Abs(interval) == 0
  }

  /** `findMatchingSlot` returns the time itself exactly when it is aligned,
      and never checks that it lies inside 09:00-18:00. */
  lemma FindMatchingSlotSpec(time: string, interval: int)
    ensures FindMatchingSlot(time, interval).Some?
        <==> TimeToMinutes(time).Some? && Aligned(TimeToMinutes(time).value, interval)
    ensures FindMatchingSlot(time, interval).Some? ==> FindMatchingSlot(time, interval) == TimeToMinutes(time)
  {
  }

  /** An aligned time inside the window is the start of a slot. */
  lemma {:induction false} AlignedInWindowIsSlot(m: int, interval: int)
    requires interval > 0 && Aligned(m, interval) && DayStart <= m < DayEnd
    ensures m in SlotStarts(interval)
  {
    SlotStartsShape(interval);
    var r := SlotStarts(interval);
    var k := (m - DayStart) / interval;
    assert m == DayStart + k * interval;
    if k >= |r| {
      MulMonotone(|r|, k, interval);
      assert false;
    }
    assert r[k] == m;
  }

  /** One slot of `getSlotsWithSchedules`: the slot and the appointments matched to it. */
  datatype SlotView = SlotView(time: string, minutes: nat, schedules: seq<Schedule>)

  /** The test of a slot's filter: the appointment matches the slot at `minutes`. */
  function MatchesSlot(minutes: int, interval: int): Schedule -> bool
  {
    (s: Schedule) => FindMatchingSlot(s.scheduleTime, interval) == Some(minutes)
  }

  /** The test of the "other times" filter: the appointment matches no slot. */
  function MatchesNoSlot(interval: int): Schedule -> bool
  {
    (s: Schedule) => FindMatchingSlot(s.scheduleTime, interval) == None
  }

  /** The appointments whose matching slot is `minutes`, in input order. */
  function SlotSchedules(schedules: seq<Schedule>, minutes: int, interval: int): seq<Schedule>
  {
    Filter(MatchesSlot(minutes, interval), schedules)
  }

  /** `nonStandardSchedules`: the appointments with no matching slot, in input order. */
  function NonStandard(schedules: seq<Schedule>, interval: int): seq<Schedule>
  {
    Filter(MatchesNoSlot(interval), schedules)
  }

  /** `getSlotsWithSchedules`: every generated slot with its matched appointments. */
  function SlotsWithSchedules(schedules: seq<Schedule>, interval: int): (views: seq<SlotView>)
    requires interval > 0
    ensures |views| == |SlotStarts(interval)|
  {
    var starts := SlotStarts(interval);
    seq(|starts|, i requires 0 <= i < |starts| =>
      SlotView(MinutesToTime(starts[i]), starts[i], SlotSchedules(schedules, starts[i], interval)))
  }

  /** Every appointment is in the "other times" list exactly when it has no
      matching slot, and in a slot's list exactly when it matches that slot.
      An appointment whose time is within 09:00-18:00 therefore lands in
      exactly one of the buckets. */
  lemma {:induction false} BucketsPartition(schedules: seq<Schedule>, interval: int, x: Schedule)
    requires interval > 0 && x in schedules
    ensures x in NonStandard(schedules, interval) <==> FindMatchingSlot(x.scheduleTime, interval).None?
    ensures var views := SlotsWithSchedules(schedules, interval);
      forall k :: 0 <= k < |views| ==>
        (x in views[k].schedules <==> FindMatchingSlot(x.scheduleTime, interval) == Some(views[k].minutes))
    ensures var views := SlotsWithSchedules(schedules, interval);
      forall k, j :: 0 <= k < |views| && 0 <= j < |views| && x in views[k].schedules && x in views[j].schedules ==> k == j
    ensures var views := SlotsWithSchedules(schedules, interval);
      (exists m :: TimeToMinutes(x.scheduleTime) == Some(m) && DayStart <= m < DayEnd) ==>
        (x in NonStandard(schedules, interval) || exists k :: 0 <= k < |views| && x in views[k].schedules)
  {
    var views := SlotsWithSchedules(schedules, interval);
    var starts := SlotStarts(interval);
    SlotStartsOrdered(interval);
    var i :| 0 <= i < |schedules| && schedules[i] == x;
    forall k | 0 <= k < |views|
      ensures x in views[k].schedules <==> FindMatchingSlot(x.scheduleTime, interval) == Some(views[k].minutes)
    {
      assert views[k].schedules == SlotSchedules(schedules, starts[k], interval);
    }
    forall k, j | 0 <= k < |views| && 0 <= j < |views| && x in views[k].schedules && x in views[j].schedules
      ensures k == j
    {
      assert views[k].minutes == views[j].minutes;
    }
    var fm := FindMatchingSlot(x.scheduleTime, interval);
    if fm.Some? && DayStart <= fm.value < DayEnd {
      FindMatchingSlotSpec(x.scheduleTime, interval);
      AlignedInWindowIsSlot(fm.value, interval);
      var k :| 0 <= k < |starts| && starts[k] == fm.value;
      assert x in views[k].schedules;
    }
  }

  lemma NotInOtherBucket(schedules: seq<Schedule>, interval: int, x: Schedule, minutes: int)
    requires FindMatchingSlot(x.scheduleTime, interval) != Some(minutes)
    ensures x !in SlotSchedules(schedules, minutes, interval)
  {
    if x in SlotSchedules(schedules, minutes, interval) {
      InFilterSatisfies(MatchesSlot(minutes, interval), schedules, x);
    }
  }

  /** The code as written: an aligned appointment outside 09:00-18:00 is in
      neither a slot nor the "other times" list, so the board never shows it. */
  lemma {:induction false} AlignedOutsideWindowIsHidden(schedules: seq<Schedule>, interval: int, x: Schedule)
    requires interval > 0 && x in schedules
    requires FindMatchingSlot(x.scheduleTime, interval).Some?
    requires !(DayStart <= FindMatchingSlot(x.scheduleTime, interval).value < DayEnd)
    ensures x !in NonStandard(schedules, interval)
    ensures var views := SlotsWithSchedules(schedules, interval);
      forall k :: 0 <= k < |views| ==> x !in views[k].schedules
  {
    var views := SlotsWithSchedules(schedules, interval);
    var starts := SlotStarts(interval);
    SlotStartsOrdered(interval);
    if x in NonStandard(schedules, interval) {
      InFilterSatisfies(MatchesNoSlot(interval), schedules, x);
    }
    forall k | 0 <= k < |views| ensures x !in views[k].schedules {
      assert DayStart <= starts[k] < DayEnd;
      NotInOtherBucket(schedules, interval, x, starts[k]);
      assert views[k].schedules == SlotSchedules(schedules, starts[k], interval);
    }
  }

  /** 08:00 and 18:00 are aligned for an hourly grid but lie outside it; 09:30 is not aligned. */
  lemma HiddenTimesExample()
    ensures FindMatchingSlot(MinutesToTime(480), 60) == Some(480)
    ensures FindMatchingSlot(MinutesToTime(1080), 60) == Some(1080)
    ensures FindMatchingSlot(MinutesToTime(570), 60) == None
  {
    TimeRoundTrip(480);
    TimeRoundTrip(1080);
    TimeRoundTrip(570);
  }

  /** The team cards of an expanded slot: `capacity` cards, card `i` holding
      the slot's `i`-th appointment when there is one. */
  function TeamCards(bucket: seq<Schedule>, capacity: int): (cards: seq<Option<Schedule>>)
  {
    var n := if capacity < 0 then 0 else capacity;
    seq(n, i requires 0 <= i < n => if i < |bucket| then Some(bucket[i]) else None)
  }

  /** The appointments the cards show, in card order. */
  function Occupants(cards: seq<Option<Schedule>>): seq<Schedule>
    decreases |cards|
  {
    if cards == [] then []
    else (match cards[0] case Some(s) => [s] case None => []) + Occupants(cards[1..])
  }

  /** The cards show exactly the first `capacity` appointments of the slot;
      appointments beyond index `capacity - 1` are counted in the header but
      shown on no card. */
  lemma {:induction false} TeamCardsShowPrefix(bucket: seq<Schedule>, capacity: int)
    ensures var n := if capacity < 0 then 0 else capacity;
      |TeamCards(bucket, capacity)| == n
      && Occupants(TeamCards(bucket, capacity)) == bucket[..if |bucket| < n then |bucket| else n]
  {
    var n := if capacity < 0 then 0 else capacity;
    OccupantsOfCards(bucket, n, 0);
  }

  lemma {:induction false} OccupantsOfCards(bucket: seq<Schedule>, n: nat, from: nat)
    requires from <= n
    ensures var cards := TeamCards(bucket, n);
      Occupants(cards[from..]) == (if from < |bucket| then bucket[from..if |bucket| < n then |bucket| else n] else [])
    decreases n - from
  {
    var cards := TeamCards(bucket, n);
    if from < n {
      OccupantsOfCards(bucket, n, from + 1);
      assert cards[from..][1..] == cards[from + 1..];
    } else {
      assert cards[from..] == [];
    }
  }
}

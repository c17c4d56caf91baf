/** The work-status page (pages/schedule/WorkStatus.tsx): the appointments of
    a selected date, their per-status counts and the completion percentage.
    The home dashboard computes the same figures for today. */
module WorkStatus {
  import opened Seqs
  import opened Types
  import opened Calendar

  /** `stats`: the four per-status counts and the total. */
  datatype Stats = Stats(pending: nat, inProgress: nat, completed: nat, cancelled: nat, total: nat)

  function HasStatus(status: Status): Schedule -> bool
  {
    (s: Schedule) => s.status == status
  }

  /** The counts `loadSchedules` publishes for a list. */
  function StatsOf(schedules: seq<Schedule>): Stats
  {
    Stats(Count(HasStatus(Pending), schedules), Count(HasStatus(InProgress), schedules),
      Count(HasStatus(Completed), schedules), Count(HasStatus(Cancelled), schedules), |schedules|)
  }

  /** Appending one appointment raises exactly its own status's count by one. */
  lemma CountAppend(s: seq<Schedule>, x: Schedule, status: Status)
    ensures Count(HasStatus(status), s + [x]) == Count(HasStatus(status), s) + (if x.status == status then 1 else 0)
  {
    assert (s + [x])[..|s + [x]| - 1] == s;
  }

  /** Status is a closed four-value type, so the four counts add up to the total. */
  lemma {:induction false} StatsAddUp(schedules: seq<Schedule>)
    ensures var st := StatsOf(schedules);
      st.pending + st.inProgress + st.completed + st.cancelled == st.total
    decreases |schedules|
  {
    if schedules != [] {
      var init := schedules[..|schedules| - 1];
      var last := schedules[|schedules| - 1];
      StatsAddUp(init);
      assert init + [last] == schedules;
      CountAppend(init, last, Pending);
      CountAppend(init, last, InProgress);
      CountAppend(init, last, Completed);
      CountAppend(init, last, Cancelled);
    }
  }

  /** What `loadSchedules` publishes for a date: the appointments dated
      `date` in input order, and their counts. */
  datatype DayView = DayView(schedules: seq<Schedule>, stats: Stats)

  function LoadSchedules(fetched: seq<Schedule>, date: string): DayView
  {
    var day := Filter(DatedOn(date), fetched);
    DayView(day, StatsOf(day))
  }

  /** The page lists exactly the appointments carrying the selected date, in
      input order, `total` counts them, and the status counts add up to it. */
  lemma LoadSchedulesSpec(fetched: seq<Schedule>, date: string)
    ensures var v := LoadSchedules(fetched, date);
      (forall i :: 0 <= i < |v.schedules| ==> v.schedules[i].scheduleDate == date && v.schedules[i] in fetched)
      && (forall i :: 0 <= i < |fetched| && fetched[i].scheduleDate == date ==> fetched[i] in v.schedules)
      && IsSubsequence(v.schedules, fetched)
      && v.stats.total == |v.schedules| == Count(DatedOn(date), fetched)
      && v.stats.pending + v.stats.inProgress + v.stats.completed + v.stats.cancelled == v.stats.total
  {
    var day := Filter(DatedOn(date), fetched);
    FilterIsSubsequence(DatedOn(date), fetched);
    StatsAddUp(day);
  }

  /** The completion rate, 0 for an empty day. The model takes the exact
      percentage 100·completed/total rounded half up; the page's double
      `Math.round(completed / total * 100)` can land one point lower where the
      product falls just below a half (23 of 40 shows 57, the model 58). */
  function CompletionRate(stats: Stats): int
  {
    if stats.total > 0 then (200 * stats.completed + stats.total) / (2 * stats.total) else 0
  }

  /** The model's rate is the exact percentage rounded half up: it lies within
      half a point of 100·completed/total, a tie going up. */
  lemma CompletionRateRounds(stats: Stats)
    requires stats.total > 0
    ensures var r := CompletionRate(stats);
      0 - stats.total <= 2 * (100 * stats.completed - stats.total * r) < stats.total
  {
    var t, c := stats.total, stats.completed;
    var r := CompletionRate(stats);
    var rem := (200 * c + t) % (2 * t);
    assert 200 * c + t == 2 * t * r + rem;
    assert 2 * (100 * c - t * r) == rem - t;
  }

  /** For counts that come from a list: 0 for an empty day, and otherwise a
      percentage in 0..100 that is 100 when every appointment is completed and
      0 when none is. */
  lemma CompletionRateBounds(schedules: seq<Schedule>)
    ensures var st := StatsOf(schedules);
      0 <= CompletionRate(st) <= 100
      && (st.total == 0 ==> CompletionRate(st) == 0)
      && (st.total > 0 && st.completed == st.total ==> CompletionRate(st) == 100)
      && (st.completed == 0 ==> CompletionRate(st) == 0)
  {
    var st := StatsOf(schedules);
    StatsAddUp(schedules);
    if st.total > 0 {
      RateBounds(st.completed, st.total);
    }
  }

  lemma RateBounds(c: nat, t: nat)
    requires 0 < t && c <= t
    ensures 0 <= (200 * c + t) / (2 * t) <= 100
    ensures c == t ==> (200 * c + t) / (2 * t) == 100
    ensures c == 0 ==> (200 * c + t) / (2 * t) == 0
  {
    assert 200 * c + t < 2 * t * 101;
    if c == t {
      assert 200 * c + t == 2 * t * 100 + t;
    }
  }
}

/** The home dashboard (pages/home/Dashboard.tsx): the settings still to be
    confirmed, and today's appointments with their counts and completion rate. */
module Dashboard {
  import opened Seqs
  import opened Types
  import opened Storage
  import opened Calendar
  import opened WorkStatus

  /** One entry of the settings checklist: its storage flag, name and page. */
  datatype Setting = Setting(key: string, name: string, path: string)

  const SettingsChecklist: seq<Setting> := [
    Setting("settings_basic_confirmed", "기초 설정", "/settings"),
    Setting("settings_business_hours_confirmed", "영업시간/휴무일", "/settings/business-hours"),
    Setting("settings_maintenance_items_confirmed", "정비 항목 관리", "/settings/maintenance-items"),
    Setting("settings_plan_billing_confirmed", "플랜/결제 정보", "/settings/plan-billing")
  ]

  /** The flag is anything but the string 'true' (missing included). */
  function NotConfirmed(store: Store): Setting -> bool
  {
    (s: Setting) => GetItem(store, s.key) != Some("true")
  }

  /** `checkUnconfirmedSettings`. */
  function UnconfirmedSettings(store: Store): seq<Setting>
  {
    Filter(NotConfirmed(store), SettingsChecklist)
  }

  /** The banner lists exactly the checklist entries whose flag is not
      'true', in checklist order; with nothing stored it lists all four, and
      with every flag 'true' none. */
  lemma UnconfirmedSettingsSpec(store: Store)
    ensures var r := UnconfirmedSettings(store);
      (forall s :: s in r <==> s in SettingsChecklist && GetItem(store, s.key) != Some("true"))
      && IsSubsequence(r, SettingsChecklist)
    ensures (forall i :: 0 <= i < |SettingsChecklist| ==> SettingsChecklist[i].key !in store)
      ==> UnconfirmedSettings(store) == SettingsChecklist
    ensures (forall i :: 0 <= i < |SettingsChecklist| ==> GetItem(store, SettingsChecklist[i].key) == Some("true"))
      ==> UnconfirmedSettings(store) == []
  {
    var r := UnconfirmedSettings(store);
    FilterIsSubsequence(NotConfirmed(store), SettingsChecklist);
    forall s ensures s in r <==> s in SettingsChecklist && GetItem(store, s.key) != Some("true") {
      if s in r {
        InFilterSatisfies(NotConfirmed(store), SettingsChecklist, s);
      }
    }
    if forall i :: 0 <= i < |SettingsChecklist| ==> SettingsChecklist[i].key !in store {
      FilterAll(NotConfirmed(store), SettingsChecklist);
    }
  }

  /** `loadData` publishes what the work-status page does for the UTC date
      `today`: the dashboard lists exactly today's appointments in input order, its
      counts add up to its total, and its completion rate is 0 for an empty
      day and a percentage in 0..100 otherwise. */
  lemma TodayViewSpec(fetched: seq<Schedule>, today: string)
    ensures var v := LoadSchedules(fetched, today);
      (forall i :: 0 <= i < |v.schedules| ==> v.schedules[i].scheduleDate == today && v.schedules[i] in fetched)
      && (forall i :: 0 <= i < |fetched| && fetched[i].scheduleDate == today ==> fetched[i] in v.schedules)
      && IsSubsequence(v.schedules, fetched)
      && v.stats.pending + v.stats.inProgress + v.stats.completed + v.stats.cancelled == v.stats.total == |v.schedules|
      && (v.stats.total == 0 ==> CompletionRate(v.stats) == 0)
      && 0 <= CompletionRate(v.stats) <= 100
  {
    LoadSchedulesSpec(fetched, today);
    CompletionRateBounds(LoadSchedules(fetched, today).schedules);
  }
}

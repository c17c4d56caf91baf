/** Plans and the feature table (src/types/index.ts): which plans grant
    which feature, and the order of the plans. */
module Plans {

  /** `PlanType`. */
  datatype PlanType = Free | Basic | Pro

  /** `FeatureKey`: the keys of `PLAN_FEATURES`. */
  datatype FeatureKey =
    | CustomerManagement | VehicleManagement | TodaySchedule | BookingLimited | WorkStatus | MaintenanceHistory
    | BookingUnlimited | ScheduleCalendar | SalesManagement | ReceivablesManagement | ExpenseManagement
    | PayrollManagement | MonthlyReport | ExcelExport | BusinessHoursSettings | MaintenanceItemsSettings
    | SalesStatistics | ProfitAnalysis | AutoBackup | BookingNotification

  /** `PLAN_FEATURES[k]`: the plans granting `k`, as the table lists them. */
  function PlanFeatures(k: FeatureKey): seq<PlanType>
  {
    match k
    case CustomerManagement => [Free, Basic, Pro]
    case VehicleManagement => [Free, Basic, Pro]
    case TodaySchedule => [Free, Basic, Pro]
    case BookingLimited => [Free]
    case WorkStatus => [Free, Basic, Pro]
    case MaintenanceHistory => [Free, Basic, Pro]
    case BookingUnlimited => [Basic, Pro]
    case ScheduleCalendar => [Basic, Pro]
    case SalesManagement => [Basic, Pro]
    case ReceivablesManagement => [Basic, Pro]
    case ExpenseManagement => [Basic, Pro]
    case PayrollManagement => [Basic, Pro]
    case MonthlyReport => [Basic, Pro]
    case ExcelExport => [Basic, Pro]
    case BusinessHoursSettings => [Basic, Pro]
    case MaintenanceItemsSettings => [Basic, Pro]
    case SalesStatistics => [Pro]
    case ProfitAnalysis => [Pro]
    case AutoBackup => [Pro]
    case BookingNotification => [Pro]
  }

  /** `getPlanLevel` (pages/settings/PlanBilling.tsx). */
  function PlanLevel(p: PlanType): nat
  {
    match p
    case Free => 0
    case Basic => 1
    case Pro => 2
  }

  /** The levels tell the plans apart and follow FREE < BASIC < PRO. */
  lemma PlanLevelOrder(p: PlanType, q: PlanType)
    ensures PlanLevel(p) == PlanLevel(q) <==> p == q
    ensures PlanLevel(Free) < PlanLevel(Basic) < PlanLevel(Pro)
    ensures PlanLevel(p) <= 2
  {
  }

  /** Every list of the table is non-empty and written in FREE < BASIC < PRO
      order without repeats; a list granting BASIC also grants PRO. */
  lemma PlanFeaturesOrdered(k: FeatureKey)
    ensures |PlanFeatures(k)| >= 1
    ensures forall i, j :: 0 <= i < j < |PlanFeatures(k)| ==> PlanLevel(PlanFeatures(k)[i]) < PlanLevel(PlanFeatures(k)[j])
    ensures Basic in PlanFeatures(k) ==> Pro in PlanFeatures(k)
  {
  }

  /** BOOKING_LIMITED is FREE only, and it is the one feature PRO lacks:
      access is not monotone in the plan level. */
  lemma BookingLimitedIsTheException(k: FeatureKey)
    ensures PlanFeatures(BookingLimited) == [Free]
    ensures Pro !in PlanFeatures(k) <==> k == BookingLimited
  {
  }

  /** The six features FREE is granted. */
  const FreeFeatures: set<FeatureKey> :=
    {CustomerManagement, VehicleManagement, TodaySchedule, BookingLimited, WorkStatus, MaintenanceHistory}

  /** FREE is granted exactly the six FREE-listed features. */
  lemma FreeGrants(k: FeatureKey)
    ensures Free in PlanFeatures(k) <==> k in FreeFeatures
  {
  }
}

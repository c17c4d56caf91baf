# Shop dashboard, modelled in Dafny

A model of the core of a React dashboard for a small car-repair shop. The
shop uses it to run its bookings, sales, receivables, expenses, payroll,
customers, vehicles, maintenance history and plan subscription. A page
whose handlers edit lists, forms or modals becomes a Dafny `class`. Its
fields are the component's state, and each `onChange`, `onClick` and
`onSubmit` that changes that state is a method, except the ones listed under
"## Left out". Each handler's `ensures` ties the new state to a pure function
of the old one, and lemmas prove what the page promises about those
functions. The read-only pages (the calendar, work status, vehicles, sales
statistics, profit analysis and the dashboard) hold only a chosen date,
month, year or search term, and they are functions of that choice. Pure
helpers (formatting, filters, the slot arithmetic, the calendar) are
functions with lemmas.

One module per source file:

- `Slots` and `TodaySchedule`: the today-board (pages/schedule/TodaySchedule.tsx).
  - The 09:00-18:00 slot grid for a booking interval.
  - `HH:MM` parsing and printing.
  - The JavaScript-remainder alignment test and the slot buckets.
  - The capacity team cards.
  - Status changes, the booking modal and its service selection.
- `Calendar`: the month calendar (pages/schedule/ScheduleCalendar.tsx).
  - The Sunday-to-Saturday padded grid over the proleptic Gregorian calendar.
  - The per-day lookup, month navigation and the three-item cell preview.
- `WorkStatus` and `Dashboard`: the work-status page and the home dashboard.
  - Per-status counts and the completion rate.
  - The settings still to be confirmed.
- `Storage`: the `localStorage` keys the booking settings go through.
- `BusinessHours`: the booking settings page.
- `BookingCreate`: the stand-alone booking form.
- Plans and features:
  - `Plans`: the feature table and plan levels (src/types/index.ts).
  - `UseFeature`: the feature gate.
  - `PlanContext`: the plan provider.
  - `PlanBilling`: the plan page.
- Record lists:
  - `Records`: what all record pages share (id-keyed update, delete and `Math.max(0, ...ids) + 1`).
  - `Months`: the `YYYY-MM` month views.
  - `Receivables`, `Sales`, `Expenses`, `Payrolls`, `Customers`, `Vehicles`,
    `MaintenanceHistory` and `MaintenanceItems`: one list page each.
- Reports:
  - `Grouping`: the group-by reduces.
  - `SalesStatistics`, `ProfitAnalysis` and `ExcelExport`: the report pages.
  - `MockApi`: the computations inside `fetchDashboardSummary` and `fetchMonthlyTrends`.
- `Types`, `Seqs`, `Text` and `Arith`: records and enums, sequence helpers,
  JavaScript string and number behaviour, and arithmetic facts.

Conventions:

- Every numeric field is an integer (KRW amounts, minutes, ids, mileage).
- `Number(s)` is `Text.JsNumber`. It reads `''` as 0 and a decimal integer numeral, with an optional leading `-`, as its value. Every other string is `None`. In the source some of those other strings are numbers: surrounding white space, a leading `+`, `0x`/`0b`/`0o` numerals, `Infinity`, decimals and exponents. The rest are `NaN`.
- Today's date, the current year and month, and fetched lists are parameters.
- A confirmed `window.confirm` is modelled as the action it guards.
- The profit page's `getCategoryLabel` (pages/reports/ProfitAnalysis.tsx:65-73) is the same table as the expense page's. It is defined once, as `Expenses.CategoryLabel`.

## Model

| member | source | states |
|---|---|---|
| Slots.TimeRoundTrip | pages/schedule/TodaySchedule.tsx:226-236 | `timeToMinutes(minutesToTime(m)) == m` for every m ≥ 0, and below 24:00 the text is zero-padded `hh:mm` (ISO 8601 extended local time at reduced accuracy) |
| Slots.SlotCount | pages/schedule/TodaySchedule.tsx:241-244 | the number of slots n is the least n with 540 + n·interval ≥ 1080 |
| Slots.SlotStartsShape | pages/schedule/TodaySchedule.tsx:239-252 | for a positive interval the slots start at 540, step by the interval, stay below 1080, strictly increase, and number ⌈540 / interval⌉ |
| Slots.StartsFromShape | pages/schedule/TodaySchedule.tsx:244 | the loop's starts from t are t + i·interval, all below 1080, and one more step leaves the window |
| Slots.SlotCountExamples | pages/schedule/TodaySchedule.tsx:239-252 | 9 slots for 60 minutes, 6 for 90, 36 for 15, 3 for 180 |
| Slots.GenerateTimeSlots | pages/schedule/TodaySchedule.tsx:239-252 | the loop pushes exactly the slot starts, in order, each labelled with `minutesToTime` of its start |
| Slots.JsRem | pages/schedule/TodaySchedule.tsx:258 | JavaScript's `%`: zero exactly when the divisor divides the dividend, magnitude below the divisor's, sign of the dividend |
| Slots.FindMatchingSlotSpec | pages/schedule/TodaySchedule.tsx:255-260 | `findMatchingSlot` returns the time's minutes exactly when they are a whole number of intervals from 09:00, null otherwise, and never checks the 09:00-18:00 window |
| Slots.AlignedInWindowIsSlot | pages/schedule/TodaySchedule.tsx:244-260 | an aligned time in [540, 1080) is the start of a generated slot |
| Slots.SlotsWithSchedules | pages/schedule/TodaySchedule.tsx:268-278 | one view per generated slot |
| Slots.BucketsPartition | pages/schedule/TodaySchedule.tsx:265-278 | an appointment is in the "other times" list iff it matches no slot, in a slot's list iff it matches that slot, in at most one slot, and in some bucket when its time is in [540, 1080) |
| Slots.AlignedOutsideWindowIsHidden | pages/schedule/TodaySchedule.tsx:255-278 | as written, an aligned appointment outside [540, 1080) is in no slot and not in the "other times" list |
| Slots.HiddenTimesExample | pages/schedule/TodaySchedule.tsx:255-260 | with an hourly grid 08:00 and 18:00 match (so are hidden) and 09:30 does not |
| Slots.TeamCardsShowPrefix | pages/schedule/TodaySchedule.tsx:350-375 | the expanded slot shows exactly `capacity` cards holding the first `capacity` appointments; later ones are counted in the header only |
| TodaySchedule.SetFieldSpec | pages/schedule/TodaySchedule.tsx:198-201 | an input change sets the named field and no other |
| TodaySchedule.StatusChangeSpec | pages/schedule/TodaySchedule.tsx:86-91 | a status change rewrites only the status of records with that id, from any status to any status; ids stay, an unknown id changes nothing, a later change overrides |
| TodaySchedule.EditRoundTrip | pages/schedule/TodaySchedule.tsx:162-177 | an edit stores the form's seven fields and keeps id, status, customer id and `created_at` |
| TodaySchedule.EditUnchanged | pages/schedule/TodaySchedule.tsx:116-127 | reopening and submitting unchanged restores the appointment, except that a missing memo becomes '' (also lines 162-177) |
| TodaySchedule.ToggleSpec | pages/schedule/TodaySchedule.tsx:74-84 | `toggleSlot` flips membership of its time only; toggling twice restores the set |
| TodaySchedule.SelectService | pages/schedule/TodaySchedule.tsx:140-144 | an empty or already-selected name changes nothing, otherwise it is appended; the selection stays free of empties and duplicates |
| TodaySchedule.RemoveServiceSpec | pages/schedule/TodaySchedule.tsx:146-148 | removal drops the name, keeps every other name in order, and keeps the selection well formed |
| TodaySchedule.ServicesOf | pages/schedule/TodaySchedule.tsx:129 | splitting the stored service text always yields at least one name |
| TodaySchedule.ServicesRoundTrip | pages/schedule/TodaySchedule.tsx:129-155 | `join(', ')` then `split(',')` and `trim` gives back a list of comma-free names without outer spaces |
| TodaySchedule.CreateSpec | pages/schedule/TodaySchedule.tsx:181-192 | a created appointment is PENDING with id max(0, ids)+1, above every held id, and held ids stay distinct |
| TodaySchedule.TodayBoard.constructor | pages/schedule/TodaySchedule.tsx:10-31 | the initial board: no appointments, interval 60, capacity 1, nothing expanded, blank form at 10:00 on today's UTC date, select mode |
| TodaySchedule.TodayBoard.LoadSchedules | pages/schedule/TodaySchedule.tsx:39-53 | the board holds exactly the fetched appointments dated today, in order |
| TodaySchedule.TodayBoard.LoadBookingInterval | pages/schedule/TodaySchedule.tsx:55-65 | interval and capacity become the stored values when present, unchecked |
| TodaySchedule.TodayBoard.ToggleSlot | pages/schedule/TodaySchedule.tsx:74-84 | the expanded set becomes the toggled set |
| TodaySchedule.TodayBoard.HandleStatusChange | pages/schedule/TodaySchedule.tsx:86-91 | the appointments become the status-updated list |
| TodaySchedule.TodayBoard.HandleBookingClick | pages/schedule/TodaySchedule.tsx:93-114 | opens a blank booking for today at the clicked time with no services selected |
| TodaySchedule.TodayBoard.HandleEditClick | pages/schedule/TodaySchedule.tsx:116-132 | opens the appointment's form with its services split back out |
| TodaySchedule.TodayBoard.CloseModal | pages/schedule/TodaySchedule.tsx:134-138 | closes the modal and clears the edited appointment and time |
| TodaySchedule.TodayBoard.HandleServiceSelect | pages/schedule/TodaySchedule.tsx:140-144 | the selection becomes `SelectService` of the old one |
| TodaySchedule.TodayBoard.HandleRemoveService | pages/schedule/TodaySchedule.tsx:146-148 | the selection becomes `RemoveService` of the old one |
| TodaySchedule.TodayBoard.HandleSubmit | pages/schedule/TodaySchedule.tsx:150-196 | an empty service text changes nothing; otherwise an edit rewrites the edited id, a create appends a PENDING appointment with a fresh id, and the modal closes |
| TodaySchedule.TodayBoard.HandleInputChange | pages/schedule/TodaySchedule.tsx:198-201 | the form becomes `SetField` of the old form |
| TodaySchedule.TodayBoard.SetInputMode | pages/schedule/TodaySchedule.tsx:766-794 | either radio sets the input mode to its own value, empties the typed service text and the selected services, and changes nothing else |
| TodaySchedule.InputModeSwitch | pages/schedule/TodaySchedule.tsx:150-160 | right after a mode switch the service text is empty, so a submit saves nothing; in manual mode the typed text is what a submit stores, whatever is selected |
| Calendar.DaysInMonth | pages/schedule/ScheduleCalendar.tsx:26 | `lastDay` is 28 to 31 days, February having 29 exactly in Gregorian leap years |
| Calendar.Weekday | pages/schedule/ScheduleCalendar.tsx:30-34 | `getDay()` lies in 0..6 |
| Calendar.WeekdayExample | pages/schedule/ScheduleCalendar.tsx:30 | 1 January 2025 is a Wednesday (3), anchoring the weekday count |
| Calendar.NextDaySpec | pages/schedule/ScheduleCalendar.tsx:41 | `setDate(getDate() + 1)` gives a valid date one day later, whose previous day is the original |
| Calendar.PrevDaySpec | pages/schedule/ScheduleCalendar.tsx:30 | stepping back a day gives a valid date one day earlier, whose next day is the original |
| Calendar.WeekdayAfter | pages/schedule/ScheduleCalendar.tsx:39-42 | each day forward moves the weekday on by one modulo 7 |
| Calendar.WeekdayBefore | pages/schedule/ScheduleCalendar.tsx:29-30 | each day back moves the weekday back by one modulo 7 |
| Calendar.MonthBefore | pages/schedule/ScheduleCalendar.tsx:55-57 | the previous month is the 1st of month − 1, or of December of year − 1 from January |
| Calendar.MonthAfter | pages/schedule/ScheduleCalendar.tsx:60-62 | the next month is the 1st of month + 1, or of January of year + 1 from December |
| Calendar.MonthNavigation | pages/schedule/ScheduleCalendar.tsx:55-62 | each step moves the month count by exactly one, and back-then-forward (or forward-then-back) returns to the 1st of the month |
| Calendar.MonthGrid | pages/schedule/ScheduleCalendar.tsx:25-42 | the `while` loop builds the grid from the Sunday on or before the 1st to the Saturday on or after the last day, one day per cell: a multiple of 7 between 28 and 42 cells, the month's days once each in order after weekday(1st) leading cells and before 6 − weekday(last) trailing ones, and `isCurrentMonth` false exactly on the padding |
| Calendar.GridLength | pages/schedule/ScheduleCalendar.tsx:29-42 | the grid has weekday(1st) + days + 6 − weekday(last) cells, a multiple of 7 between 28 and 42 |
| Calendar.GridWeekdays | pages/schedule/ScheduleCalendar.tsx:29-42 | cell i falls on weekday i mod 7 |
| Calendar.GridMonthDays | pages/schedule/ScheduleCalendar.tsx:29-42 | cell weekday(1st) + k is day k + 1 of the month |
| Calendar.GridPadding | pages/schedule/ScheduleCalendar.tsx:29-76 | `isCurrentMonth` holds exactly on the cells of the month's own days |
| Calendar.CellBeforeMonth | pages/schedule/ScheduleCalendar.tsx:29-30 | the leading cells lie in the previous month |
| Calendar.CellAfterMonth | pages/schedule/ScheduleCalendar.tsx:33-34 | the trailing cells lie in the next month |
| Calendar.SchedulesForDateSpec | pages/schedule/ScheduleCalendar.tsx:45-52 | a cell lists exactly the appointments dated its zero-padded `YYYY-MM-DD`, in input order |
| Calendar.PreviewSpec | pages/schedule/ScheduleCalendar.tsx:220-244 | a cell shows the first three appointments at most, and `+k` with k = count − 3 exactly when there are more than three |
| WorkStatus.CountAppend | pages/schedule/WorkStatus.tsx:30-33 | one more appointment raises exactly its own status's count by one |
| WorkStatus.StatsAddUp | pages/schedule/WorkStatus.tsx:29-35 | the four status counts add up to `total`, since status is a closed four-value type |
| WorkStatus.LoadSchedulesSpec | pages/schedule/WorkStatus.tsx:23-36 | the page lists exactly the appointments dated the selected day in input order, `total` counts them, and the four counts add up to it |
| WorkStatus.CompletionRateRounds | pages/schedule/WorkStatus.tsx:59-61 | with appointments, the model's rate is the exact 100·completed/total rounded half up (within half a point, a tie going up); the page's double arithmetic can show one point less (see Left out) |
| WorkStatus.CompletionRateBounds | pages/schedule/WorkStatus.tsx:59-61 | the rate is 0 for an empty day, lies in 0..100, is 100 when all are completed and 0 when none is |
| WorkStatus.RateBounds | pages/schedule/WorkStatus.tsx:60 | the integer form of `Math.round(c / t * 100)` lies in 0..100 for c ≤ t |
| Dashboard.UnconfirmedSettingsSpec | pages/home/Dashboard.tsx:36-69 | the banner lists exactly the checklist entries whose flag is not the string 'true', in declared order; all four with nothing stored, none with every flag 'true' |
| Dashboard.TodayViewSpec | pages/home/Dashboard.tsx:81-122 | the dashboard lists exactly today's appointments in input order, the counts add up to `total`, and the completion rate is 0 for an empty day and within 0..100 |
| Storage.SaveBookingSettings | pages/settings/BusinessHours.tsx:61-65 | saving writes both booking keys and leaves every other key as stored |
| Storage.SaveThenLoad | pages/settings/BusinessHours.tsx:28-65 | what the settings page saves under `bookingInterval`/`bookingCapacity`, its loader reads back, whatever was held before |
| Storage.LoadMissingKeeps | pages/schedule/TodaySchedule.tsx:55-65 | with nothing stored under a key the loader keeps the value it held |
| BusinessHours.ForDay | pages/settings/BusinessHours.tsx:42-54 | the per-day `map` changes only the rows of that day, keeping the length |
| BusinessHours.ToggleOpenSpec | pages/settings/BusinessHours.tsx:41-47 | a toggle flips `isOpen` of that day's rows only, touching no other field; toggling twice restores the list |
| BusinessHours.TimeChangeSpec | pages/settings/BusinessHours.tsx:49-55 | a time change sets exactly the chosen time of that day's rows; everything else stays |
| BusinessHours.CapacityChangeSpec | pages/settings/BusinessHours.tsx:67-71 | a capacity is taken iff it lies in 1..10 (otherwise the old one stays), so a capacity in range stays in range |
| BusinessHours.StepButtons | pages/settings/BusinessHours.tsx:318-335 | from a capacity in range an enabled −/+ button moves it by one, and a disabled one would not have moved it (also lines 378-395) |
| BusinessHours.IntervalOptionsSpec | pages/settings/BusinessHours.tsx:73-90 | the options are 15, 30, 45, 60, 90, 120 and 180 minutes, strictly increasing, each labelled as `getIntervalDisplay` shows its value |
| BusinessHours.IntervalDisplayInjective | pages/settings/BusinessHours.tsx:83-90 | `getIntervalDisplay` never shows two different non-negative intervals the same way |
| BusinessHours.HourDisplayShape | pages/settings/BusinessHours.tsx:87-89 | from an hour on, the display starts with the hour numeral followed by `시` |
| BusinessHours.LoadBypassesGuard | pages/settings/BusinessHours.tsx:35-71 | a stored capacity of 25 is loaded as 25, outside the 1..10 the guard keeps |
| BusinessHours.BusinessHoursPage.constructor | pages/settings/BusinessHours.tsx:9-12 | the page starts with no rows, interval 60 and capacity 1 |
| BusinessHours.BusinessHoursPage.LoadBusinessHours | pages/settings/BusinessHours.tsx:19-26 | the rows become the fetched list |
| BusinessHours.BusinessHoursPage.LoadBookingSettings | pages/settings/BusinessHours.tsx:28-39 | interval and capacity become the stored values when present, unchecked |
| BusinessHours.BusinessHoursPage.HandleToggleOpen | pages/settings/BusinessHours.tsx:41-47 | the rows become the toggled rows |
| BusinessHours.BusinessHoursPage.HandleTimeChange | pages/settings/BusinessHours.tsx:49-55 | the rows become the time-changed rows |
| BusinessHours.BusinessHoursPage.SelectInterval | pages/settings/BusinessHours.tsx:232 | an option button sets the interval to its value |
| BusinessHours.BusinessHoursPage.HandleCapacityChange | pages/settings/BusinessHours.tsx:67-71 | the capacity becomes the guarded change and stays in 1..10 if it was |
| BusinessHours.BusinessHoursPage.HandleCapacityInput | pages/settings/BusinessHours.tsx:358 | typed text is read with `Number` and passed through the guard; a non-numeral changes nothing |
| BusinessHours.BusinessHoursPage.HandleBookingIntervalSave | pages/settings/BusinessHours.tsx:61-65 | the store gains both settings, and reading them back gives the held interval and capacity |
| BookingCreate.InitialForm | pages/schedule/BookingCreate.tsx:8-16 | the form starts blank except today's UTC date and the time 10:00 |
| BookingCreate.TimeOptions | pages/schedule/BookingCreate.tsx:38-45 | the loop pushes 19 options, option n being 09:00 plus n half hours |
| BookingCreate.HourLabels | pages/schedule/BookingCreate.tsx:40-44 | the two labels pushed for an hour are the options at 2(hour − 9) and 2(hour − 9) + 1 |
| BookingCreate.TimeOptionFormat | pages/schedule/BookingCreate.tsx:41-43 | every option is a zero-padded `HH:MM` that reads back as its minute of day |
| BookingCreate.TimeOptionsRange | pages/schedule/BookingCreate.tsx:38-45 | the options strictly increase from 09:00 to 18:00 |
| BookingCreate.NoHalfPastSix | pages/schedule/BookingCreate.tsx:42 | 18:30 is not an option |
| BookingCreate.TimeOptionsAreSlots | pages/schedule/BookingCreate.tsx:38-45 | the first eighteen options are exactly the today-board's slot starts for a 30-minute interval |
| BookingCreate.BookingCreatePage.constructor | pages/schedule/BookingCreate.tsx:8-16 | the page opens on the initial form |
| BookingCreate.BookingCreatePage.HandleInputChange | pages/schedule/BookingCreate.tsx:33-36 | only the named field changes, to the typed value |
| BookingCreate.BookingCreatePage.HandleSubmit | pages/schedule/BookingCreate.tsx:18-31 | submitting resets the form to its initial contents |
| BookingCreate.BookingCreatePage.HandleCancel | pages/schedule/BookingCreate.tsx:155-167 | a confirmed cancel resets the form; a declined one leaves it |
| Plans.PlanLevelOrder | pages/settings/PlanBilling.tsx:13-16 | `getPlanLevel` is injective and follows FREE < BASIC < PRO |
| Plans.PlanFeaturesOrdered | src/types/index.ts:160-186 | every `PLAN_FEATURES` list is non-empty, in strictly rising plan order, and grants PRO whenever it grants BASIC |
| Plans.BookingLimitedIsTheException | src/types/index.ts:165 | BOOKING_LIMITED is FREE-only and the only feature PRO lacks |
| Plans.FreeGrants | src/types/index.ts:161-167 | FREE is granted exactly the six FREE-listed features |
| UseFeature.UseFeatureSpec | src/hooks/useFeature.ts:4-8 | access is granted iff the current plan is in the key's `PLAN_FEATURES` list |
| UseFeature.RequiredPlanIsLowest | src/hooks/useFeature.ts:10-19 | `requiredPlan` grants the key and is the lowest plan that does |
| UseFeature.RefusalMeansUpgrade | src/hooks/useFeature.ts:10-19 | outside BOOKING_LIMITED a refused plan is below the required one; BASIC and PRO users are refused BOOKING_LIMITED and told FREE |
| UseFeature.ProAndFreeAccess | src/hooks/useFeature.ts:4-8 | a PRO user has every feature but BOOKING_LIMITED; a FREE user exactly the six FREE ones |
| PlanContext.PlanInfoOf | src/contexts/PlanContext.tsx:13-56 | each `PLAN_INFO` entry describes its own plan |
| PlanContext.PricesRise | src/contexts/PlanContext.tsx:13-56 | prices are 0, 19000 and 39000, strictly rising with the plan level |
| PlanContext.PlanProvider.constructor | src/contexts/PlanContext.tsx:60-70 | the saved plan when there is one, otherwise FREE from now without auto-renewal |
| PlanContext.PlanProvider.CurrentPlanInfo | src/contexts/PlanContext.tsx:76 | `planInfo` describes the current plan |
| PlanContext.PlanProvider.ChangePlan | src/contexts/PlanContext.tsx:78-84 | the plan becomes the new one, restarted now, auto-renewing |
| PlanBilling.ChangePromptSpec | pages/settings/PlanBilling.tsx:184-199 | a prompt shows iff the plans differ; it says upgrade iff the selected level is higher, downgrade iff lower, and swapping the plans swaps the prompts |
| PlanBilling.PlanBillingPage.constructor | pages/settings/PlanBilling.tsx:10 | the selection starts at the current plan |
| PlanBilling.PlanBillingPage.SelectPlan | pages/settings/PlanBilling.tsx:33 | clicking a card selects its plan |
| PlanBilling.PlanBillingPage.HandleChangePlan | pages/settings/PlanBilling.tsx:18-23 | the plan changes only when the selection differs from the current plan; afterwards the current plan is the selection |
| Records.Keys | pages/sales/ReceivablesPage.tsx:88 | `list.map(x => x.id)` lists each record's id in order |
| Records.UpdateWhereSpec | pages/sales/ReceivablesPage.tsx:73-83 | an update by id rewrites exactly the records carrying the id, keeping the length and every other record |
| Records.UpdateUnknownKey | pages/sales/ReceivablesPage.tsx:109-113 | an id no record carries leaves the list unchanged |
| Records.UpdateKeepsKeys | pages/sales/ReceivablesPage.tsx:73-83 | an update that keeps the id keeps every id of the list |
| Records.UpdateOverwrites | pages/sales/ReceivablesPage.tsx:108-124 | a second update of the same id that overwrites what the first wrote is the second alone |
| Records.RemoveKeySpec | pages/sales/ReceivablesPage.tsx:101-106 | a delete removes exactly the records with the id; the others stay, in order |
| Records.RemoveUnknownKey | pages/sales/ReceivablesPage.tsx:103 | deleting an id no record carries changes nothing |
| Records.FreshKeyIsNew | pages/sales/ReceivablesPage.tsx:88 | `Math.max(0, ...ids) + 1` is positive, above every held id, and picks out the appended record alone |
| Records.AppendFreshKeepsDistinct | pages/sales/ReceivablesPage.tsx:87-95 | appending a record under the fresh id keeps ids distinct |
| Records.RemoveKeepsDistinct | pages/sales/ReceivablesPage.tsx:101-106 | a delete keeps ids distinct |
| Records.UpdateKeepsDistinct | pages/sales/ReceivablesPage.tsx:73-83 | an id-keeping update keeps ids distinct |
| Records.SumOfUpdate | pages/sales/ReceivablesPage.tsx:108-133 | with distinct ids, an update changes a sum over the list by what it changes in the one matching record |
| Records.SumOfAgree | pages/sales/ReceivablesPage.tsx:131-133 | two amount functions that agree everywhere give the same `reduce` sum |
| Months.MonthViewSpec | pages/sales/SalesPage.tsx:115-118 | a month view keeps exactly the records whose date starts with `YYYY-MM`, in order |
| Months.MonthKeyShape | pages/sales/SalesPage.tsx:115 | `selectedMonthStr` is the year numeral, '-', and the month padded to two digits that read back as the month |
| Months.DateKeySplit | pages/schedule/ScheduleCalendar.tsx:47-50 | an ISO calendar date is its month key followed by `-DD` |
| Months.MonthKeyPrefix | pages/sales/SalesPage.tsx:115-118 | a month key that starts another one followed by more text names the same year and month |
| Months.MonthKeySelectsMonth | pages/sales/SalesPage.tsx:115-118 | for years from 0 on, a date's ISO string starts with the selected month key iff the date lies in that year and month |
| Receivables.EditReceivableSpec | pages/sales/ReceivablesPage.tsx:40-83 | an edit keeps id, `paid` and `paid_date` and writes back exactly the four form fields; an unchanged form restores the record |
| Receivables.CreateReceivableSpec | pages/sales/ReceivablesPage.tsx:87-95 | a new receivable is unpaid with no paid date, carries the form under an id above every held one, and ids stay distinct |
| Receivables.CollectThenCancel | pages/sales/ReceivablesPage.tsx:108-124 | collecting marks that id's records paid today and nothing else; cancelling afterwards equals cancelling alone, leaving every other field as before |
| Receivables.UnpaidTotalIsSum | pages/sales/ReceivablesPage.tsx:126-133 | `unpaidTotal` is the sum over the whole list of the amounts due in the month and unpaid |
| Receivables.CollectLowersUnpaidTotal | pages/sales/ReceivablesPage.tsx:108-133 | with distinct ids, collecting a receivable lowers the month's unpaid total by its amount if it was due that month and unpaid, and otherwise leaves it |
| Receivables.ReceivablesPage.constructor | pages/sales/ReceivablesPage.tsx:11-24 | the page starts empty with a blank form dated today and the current month selected |
| Receivables.ReceivablesPage.Load | pages/sales/ReceivablesPage.tsx:26-34 | the list becomes the fetched one |
| Receivables.ReceivablesPage.OpenModal | pages/sales/ReceivablesPage.tsx:40-61 | edit mode with the record's form, or create mode with a blank form |
| Receivables.ReceivablesPage.CloseModal | pages/sales/ReceivablesPage.tsx:63-66 | closes the modal and clears the edited record |
| Receivables.ReceivablesPage.HandleSubmit | pages/sales/ReceivablesPage.tsx:68-99 | an edit rewrites the edited id with the form; a create appends an unpaid record with id max(0, ids)+1; the modal closes |
| Receivables.ReceivablesPage.HandleDelete | pages/sales/ReceivablesPage.tsx:101-106 | the list loses exactly the records with that id |
| Receivables.ReceivablesPage.HandleCollect | pages/sales/ReceivablesPage.tsx:108-115 | that id's records become paid today |
| Receivables.ReceivablesPage.HandleCancel | pages/sales/ReceivablesPage.tsx:117-124 | that id's records become unpaid with no paid date |
| Receivables.EnterReceivable | pages/sales/ReceivablesPage.tsx:308-338 | a modal input makes its control show the entered value and leaves what every other control shows |
| Receivables.ReceivablesPage.HandleInput | pages/sales/ReceivablesPage.tsx:308-338 | the form becomes `EnterReceivable` of the old form |
| Receivables.ReceivablesPage.SelectMonth | pages/sales/ReceivablesPage.tsx:153-158 | picking a year and month makes the list show the receivables due that month and the unpaid total that month's |
| Sales.EditSaleSpec | pages/sales/SalesPage.tsx:40-89 | an edit keeps `sale_id` and writes back exactly the six form fields; an unchanged form restores a sale whose optional texts are present |
| Sales.CreateSaleSpec | pages/sales/SalesPage.tsx:93-102 | a new sale carries the form under an id above every held one, and ids stay distinct |
| Sales.SalesPage.constructor | pages/sales/SalesPage.tsx:11-24 | the page starts empty with a blank cash form dated today and the current month selected |
| Sales.SalesPage.Load | pages/sales/SalesPage.tsx:26-34 | the list becomes the fetched one |
| Sales.SalesPage.OpenModal | pages/sales/SalesPage.tsx:40-65 | edit mode with the sale's form (missing texts as ''), or create mode with a blank form |
| Sales.SalesPage.CloseModal | pages/sales/SalesPage.tsx:67-70 | closes the modal and clears the edited sale |
| Sales.SalesPage.HandleSubmit | pages/sales/SalesPage.tsx:72-106 | an edit rewrites the edited id with the form; a create appends a sale with id max(0, ids)+1; the modal closes |
| Sales.SalesPage.HandleDelete | pages/sales/SalesPage.tsx:108-113 | the list loses exactly the sales with that id |
| Sales.EnterSale | pages/sales/SalesPage.tsx:256-308 | a modal input makes its control show the entered value and leaves what every other control shows |
| Sales.SalesPage.HandleInput | pages/sales/SalesPage.tsx:256-308 | the form becomes `EnterSale` of the old form |
| Sales.SalesPage.SelectMonth | pages/sales/SalesPage.tsx:131-136 | picking a year and month makes the list show that month's sales |
| Expenses.EditExpenseSpec | pages/expense-payroll/ExpensesPage.tsx:50-99 | an edit keeps `expense_id` and the receipt and writes back exactly the six form fields |
| Expenses.CreateExpenseSpec | pages/expense-payroll/ExpensesPage.tsx:103-113 | a new expense carries the form under an id above every held one, and ids stay distinct |
| Expenses.CategoryLabelSpec | pages/expense-payroll/ExpensesPage.tsx:40-48 | the four categories get four different labels, none equal to a code; any other code that is not an `Object.prototype` property name is shown as it is |
| Expenses.ExpensesPage.constructor | pages/expense-payroll/ExpensesPage.tsx:11-24 | the page starts empty with a blank form (today, PART, CASH) and the current month selected |
| Expenses.ExpensesPage.Load | pages/expense-payroll/ExpensesPage.tsx:26-34 | the list becomes the fetched one |
| Expenses.ExpensesPage.OpenModal | pages/expense-payroll/ExpensesPage.tsx:50-75 | edit mode with the expense's form, or create mode with a blank form |
| Expenses.ExpensesPage.CloseModal | pages/expense-payroll/ExpensesPage.tsx:77-80 | closes the modal and clears the edited expense |
| Expenses.ExpensesPage.HandleSubmit | pages/expense-payroll/ExpensesPage.tsx:82-116 | an edit rewrites the edited id with the form; a create appends an expense with id max(0, ids)+1; the modal closes |
| Expenses.ExpensesPage.HandleDelete | pages/expense-payroll/ExpensesPage.tsx:118-123 | the list loses exactly the expenses with that id |
| Expenses.EnterExpense | pages/expense-payroll/ExpensesPage.tsx:261-331 | a modal input makes its control show the entered value and leaves what every other control shows |
| Expenses.ExpensesPage.HandleInput | pages/expense-payroll/ExpensesPage.tsx:261-331 | the form becomes `EnterExpense` of the old form |
| Expenses.ExpensesPage.SelectMonth | pages/expense-payroll/ExpensesPage.tsx:141-146 | picking a year and month makes the list show that month's expenses |
| Payrolls.EditSpec | pages/expense-payroll/PayrollPage.tsx:59-67 | an employee or payment edit keeps the id and reads back as the submitted form; submitting the form opened on a record gives the record back (also lines 90-94, 119-127, 150-160) |
| Payrolls.CreateSpec | pages/expense-payroll/PayrollPage.tsx:98-105 | a new employee or payment carries the form, an id above every id in its list, and keeps that list's ids distinct (also lines 164-171) |
| Payrolls.FindEmployee | pages/expense-payroll/PayrollPage.tsx:54 | `find` gives nothing exactly when no employee has the id, and otherwise the first employee with it |
| Payrolls.DeleteEmployeeOrphansPayrolls | pages/expense-payroll/PayrollPage.tsx:53-56 | after an employee is deleted their payments still show, with the name '알 수 없음' (also lines 111-116) |
| Payrolls.PayrollsOfMonthSpec | pages/expense-payroll/PayrollPage.tsx:184-187 | the month view holds exactly the payments whose `pay_month` equals the selected month key, in list order |
| Payrolls.PayrollPage.constructor | pages/expense-payroll/PayrollPage.tsx:10-35 | empty lists, the current year and month selected, both modals closed with blank forms |
| Payrolls.PayrollPage.Load | pages/expense-payroll/PayrollPage.tsx:37-47 | the fetched employees and payments replace the lists |
| Payrolls.PayrollPage.OpenEmployeeModal | pages/expense-payroll/PayrollPage.tsx:59-78 | the employee modal opens on the employee's values, or on a blank form dated today |
| Payrolls.PayrollPage.CloseEmployeeModal | pages/expense-payroll/PayrollPage.tsx:80-83 | the employee modal closes and nothing is being edited |
| Payrolls.PayrollPage.HandleEmployeeSubmit | pages/expense-payroll/PayrollPage.tsx:85-109 | an edit rewrites the employee with the edited id, a create appends a new employee with a fresh id; the modal closes |
| Payrolls.EnterEmployee | pages/expense-payroll/PayrollPage.tsx:364-393 | an employee-modal input makes its control show the entered value and leaves what every other control shows |
| Payrolls.PayrollPage.HandleEmployeeInput | pages/expense-payroll/PayrollPage.tsx:364-393 | the employee form becomes `EnterEmployee` of the old form |
| Payrolls.PayrollPage.HandleDeleteEmployee | pages/expense-payroll/PayrollPage.tsx:111-116 | the employees with the id are removed and the payments are untouched |
| Payrolls.PayrollPage.OpenPayrollModal | pages/expense-payroll/PayrollPage.tsx:119-138 | the payment modal opens on the payment's values, or on a blank form for the current month |
| Payrolls.PayrollPage.ClosePayrollModal | pages/expense-payroll/PayrollPage.tsx:140-143 | the payment modal closes and nothing is being edited |
| Payrolls.PayrollPage.HandlePayrollSubmit | pages/expense-payroll/PayrollPage.tsx:145-175 | an edit rewrites the payment with the edited id, a create appends one with a fresh id; the modal closes |
| Payrolls.EnterPayroll | pages/expense-payroll/PayrollPage.tsx:493-536 | a payment-modal input makes its control show the entered value and leaves what every other control shows |
| Payrolls.PayrollPage.HandlePayrollInput | pages/expense-payroll/PayrollPage.tsx:493-536 | the payment form becomes `EnterPayroll` of the old form |
| Payrolls.PayrollPage.HandleDeletePayroll | pages/expense-payroll/PayrollPage.tsx:177-182 | the payments with the id are removed |
| Payrolls.PayrollPage.SelectMonth | pages/expense-payroll/PayrollPage.tsx:184-187 | picking a year and month makes the list show that month's payments (also lines 245-246) |
| Customers.SetFilter | pages/customer-vehicle/CustomersPage.tsx:77-80 | one filter field takes the typed value and the other four are unchanged |
| Customers.ApplyFilters | pages/customer-vehicle/CustomersPage.tsx:45-75 | narrowing the list field by field gives the customers that pass all five tests |
| Customers.PassesSpec | pages/customer-vehicle/CustomersPage.tsx:48-72 | a customer passes exactly when each non-empty field matches: case-insensitive substring for name, car number, e-mail and memo, case-sensitive for the phone |
| Customers.MatchingSpec | pages/customer-vehicle/CustomersPage.tsx:45-75 | the filtered list keeps input order and holds exactly the passing customers; with no filters it is the whole list |
| Customers.MissingFieldExcluded | pages/customer-vehicle/CustomersPage.tsx:63-72 | a customer without an e-mail (memo) never passes a non-empty e-mail (memo) filter |
| Customers.SetFormField | pages/customer-vehicle/CustomersPage.tsx:154-157 | one form input takes the typed value and the other four are unchanged |
| Customers.EditCustomerSpec | pages/customer-vehicle/CustomersPage.tsx:82-128 | an edit keeps the id and creation date and reads back as the form; an untouched form gives the customer back exactly when it had an e-mail and a memo |
| Customers.CreateCustomerSpec | pages/customer-vehicle/CustomersPage.tsx:132-141 | a new customer carries the form, today's date and an id above every id, and the ids stay distinct |
| Customers.CustomersPage.constructor | pages/customer-vehicle/CustomersPage.tsx:10-27 | no customers, no filters, modal closed with a blank form |
| Customers.CustomersPage.Refresh | pages/customer-vehicle/CustomersPage.tsx:33-36 | the shown list is recomputed as the filtered customers |
| Customers.CustomersPage.Load | pages/customer-vehicle/CustomersPage.tsx:38-43 | the fetched customers replace the list and the shown list follows |
| Customers.CustomersPage.HandleFilterChange | pages/customer-vehicle/CustomersPage.tsx:77-80 | the filter changes and the shown list follows |
| Customers.CustomersPage.OpenModal | pages/customer-vehicle/CustomersPage.tsx:82-105 | the modal opens on the customer's values (missing e-mail or memo as '') or on a blank form |
| Customers.CustomersPage.CloseModal | pages/customer-vehicle/CustomersPage.tsx:107-110 | the modal closes and nothing is being edited |
| Customers.CustomersPage.HandleSubmit | pages/customer-vehicle/CustomersPage.tsx:112-145 | an edit rewrites the customer with the edited id, a create appends a new one with a fresh id; the shown list follows and the modal closes |
| Customers.CustomersPage.HandleInputChange | pages/customer-vehicle/CustomersPage.tsx:154-157 | one form input takes the typed value |
| Customers.CustomersPage.HandleDelete | pages/customer-vehicle/CustomersPage.tsx:147-152 | the customers with the id are removed and the shown list follows |
| Vehicles.SearchVehiclesSpec | pages/customer-vehicle/VehiclesPage.tsx:17-28 | an empty term shows every vehicle; otherwise the list keeps order and holds exactly the vehicles whose owner name, car number or model contains the term ignoring case |
| Vehicles.FormatMileageSpec | pages/customer-vehicle/VehiclesPage.tsx:37-40 | '-' exactly for a missing or zero mileage; otherwise a numeral that reads back as the mileage, followed by ' km' |
| MaintenanceHistory.NotOlderTransitive | pages/customer-vehicle/MaintenanceHistory.tsx:34-36 | the newest-first comparison of ISO service dates is transitive |
| MaintenanceHistory.OlderIsNotNewer | pages/customer-vehicle/MaintenanceHistory.tsx:34-36 | an earlier service date is never ordered before a later one |
| MaintenanceHistory.InsertNewestFirst | pages/customer-vehicle/MaintenanceHistory.tsx:34-36 | one insertion step grows the sorted prefix by one record and keeps the same records |
| MaintenanceHistory.SortNewestFirst | pages/customer-vehicle/MaintenanceHistory.tsx:33-37 | the fetched array is sorted in place, newest service date first, and holds the same records as before |
| MaintenanceHistory.SearchRecordsSpec | pages/customer-vehicle/MaintenanceHistory.tsx:17-28 | an empty term shows every record; otherwise exactly the records whose owner name, car number or some service item contains the term ignoring case, in list order, never more than the total, and still newest first (also lines 82-84) |
| MaintenanceHistory.SubsequenceNewestFirst | pages/customer-vehicle/MaintenanceHistory.tsx:17-28 | any order-preserving selection of a newest-first list is newest first |
| MaintenanceHistory.MaintenanceHistoryPage.constructor | pages/customer-vehicle/MaintenanceHistory.tsx:9-11 | no records and an empty search term |
| MaintenanceHistory.MaintenanceHistoryPage.LoadRecords | pages/customer-vehicle/MaintenanceHistory.tsx:30-39 | the kept records are the fetched ones, sorted newest first |
| MaintenanceHistory.MaintenanceHistoryPage.SetSearchTerm | pages/customer-vehicle/MaintenanceHistory.tsx:17-28 | typing a term makes the shown list the search result for it (also line 71) |
| MaintenanceItems.CategoryLabelInjective | pages/settings/MaintenanceItems.tsx:27-37 | each of the six categories has a non-empty label, and no two share one |
| MaintenanceItems.FormatDurationIsIntervalDisplay | pages/settings/MaintenanceItems.tsx:55-62 | a duration is shown exactly as the booking settings page shows an interval (`분` under an hour, `시간` with remaining `분`) |
| MaintenanceItems.ToggleActiveSpec | pages/settings/MaintenanceItems.tsx:64-72 | a toggle flips `is_active` of the items with the id and changes nothing else; toggling twice gives the list back |
| MaintenanceItems.SaveEditSpec | pages/settings/MaintenanceItems.tsx:84-96 | saving puts the form in place of the edited item, leaves the other items, and keeps every id where it was |
| MaintenanceItems.EditsKeepId | pages/settings/MaintenanceItems.tsx:74-100 | form edits never change the id or the activation the form copied from the item |
| MaintenanceItems.GroupByCategory | pages/settings/MaintenanceItems.tsx:113-119 | the categories come in first-occurrence order, each has a group, and each group is the items of that category in list order |
| MaintenanceItems.GroupedItemsSpec | pages/settings/MaintenanceItems.tsx:113-119 | every item lies in its own category's group and in no other, groups keep list order, and the group sizes add up to the number of items |
| MaintenanceItems.MaintenanceItemsPage.constructor | pages/settings/MaintenanceItems.tsx:9-12 | no items, loading, nothing being edited |
| MaintenanceItems.MaintenanceItemsPage.LoadItems | pages/settings/MaintenanceItems.tsx:18-25 | the fetched items replace the list and loading ends |
| MaintenanceItems.MaintenanceItemsPage.HandleToggleActive | pages/settings/MaintenanceItems.tsx:64-72 | the list becomes its toggle at the id |
| MaintenanceItems.MaintenanceItemsPage.HandleEditClick | pages/settings/MaintenanceItems.tsx:74-77 | the item is edited and the form is a copy of it |
| MaintenanceItems.MaintenanceItemsPage.HandleCloseEdit | pages/settings/MaintenanceItems.tsx:79-82 | nothing is being edited and the form is empty |
| MaintenanceItems.MaintenanceItemsPage.HandleFormChange | pages/settings/MaintenanceItems.tsx:98-100 | one field of the open form takes the new value and the form keeps the edited item's id |
| MaintenanceItems.MaintenanceItemsPage.HandleSaveEdit | pages/settings/MaintenanceItems.tsx:84-96 | with no item being edited nothing changes; otherwise the form replaces the edited item and the editor closes |
| Grouping.KeysInOrder | pages/sales/SalesStatistics.tsx:41-49 | the keys of a grouping reduce never repeat |
| Grouping.KeysInOrderSpec | pages/sales/SalesStatistics.tsx:41-49 | a key is listed exactly when some element carries it, so only keys that occur get a group |
| Grouping.KeysInFirstOccurrenceOrder | pages/settings/MaintenanceItems.tsx:113-119 | keys are listed in the order they first occur: an element with a later key is preceded by one with each earlier key |
| Grouping.GroupSnoc | pages/settings/MaintenanceItems.tsx:117 | pushing an element adds it at the end of its own key's group and leaves every other group alone |
| Grouping.GroupSumsPartition | pages/sales/SalesStatistics.tsx:41-60 | the per-key sums add up to the sum over all elements |
| Grouping.GroupSizesPartition | pages/settings/MaintenanceItems.tsx:113-119 | the group sizes add up to the number of elements |
| Grouping.InGroupIff | pages/settings/MaintenanceItems.tsx:113-119 | an element lies in the group of its own key and of no other key |
| SalesStatistics.StatOfIsGroup | pages/sales/SalesStatistics.tsx:41-49 | the entry of a payment type counts and sums exactly the sales paid that way |
| SalesStatistics.PaymentStats | pages/sales/SalesStatistics.tsx:41-49 | the reduce lists the payment types in first-occurrence order with, for each, its count and amount |
| SalesStatistics.PaymentStatsAddUp | pages/sales/SalesStatistics.tsx:41-60 | only occurring payment types get an entry; the counts add up to the number of sales and the amounts to `totalSales` |
| SalesStatistics.RoundedAverageSpec | pages/sales/SalesStatistics.tsx:61-109 | the shown average is 0 without sales and otherwise the integer nearest the mean sale, a half rounding up |
| SalesStatistics.PaymentLabelSpec | pages/sales/SalesStatistics.tsx:51-58 | the three payment types have distinct Korean labels, none equal to its code; an unknown code that is not an `Object.prototype` property name is shown unchanged |
| MockApi.DashboardSummarySpec | src/mock/api.ts:215-236 | net cash is today's sales less today's expenses, and each sum counts a record exactly when it is dated today |
| MockApi.DashboardSummaryOtherDays | src/mock/api.ts:218-231 | a record of another day changes none of today's figures; one of today moves the net cash by its amount |
| MockApi.MonthlyTrendsSpec | src/mock/api.ts:301-321 | every year's four series hold months 1 to 12 in order and carry the requested year; outside 2025 every value is 0 |
| MockApi.Sales2025ExceedExpenses | src/mock/api.ts:239-299 | in the 2025 data every month's sales exceed its expenses |
| ProfitAnalysis.NetProfitSpec | pages/reports/ProfitAnalysis.tsx:48-52 | cost is expenses plus payroll and net profit is sales less cost; a further sale raises it by its amount, a further expense or payment lowers it by its amount |
| ProfitAnalysis.SumOfNonNegative | pages/reports/ProfitAnalysis.tsx:49-50 | a total of non-negative amounts is non-negative |
| ProfitAnalysis.ProfitMarginSpec | pages/reports/ProfitAnalysis.tsx:53 | the margin is 0 without positive sales, otherwise net profit as a percentage of sales, negative exactly on a loss, and at most 100% when no cost is negative |
| ProfitAnalysis.CategoryTotalIsGroupSum | pages/reports/ProfitAnalysis.tsx:56-63 | the running total of a category is the sum of that category's expenses |
| ProfitAnalysis.ExpenseByCategory | pages/reports/ProfitAnalysis.tsx:56-63 | the reduce lists the categories in first-occurrence order with, for each, the sum of its expenses |
| ProfitAnalysis.ExpenseByCategoryAddsUp | pages/reports/ProfitAnalysis.tsx:48-63 | only occurring categories are listed, and the category totals add up to `totalExpenses` |
| ProfitAnalysis.MonthlyProfitOfFetched | pages/reports/ProfitAnalysis.tsx:76-79 | for the fetched trends the profit series holds months 1 to 12, each sales less expenses; all 0 outside 2025 and positive in every month of 2025 |
| ExcelExport.CatalogSpec | pages/reports/ExcelExport.tsx:12-20 | the catalog has seven kinds whose ids and labels are all different |
| ExcelExport.SelectedLabelsSpec | pages/reports/ExcelExport.tsx:36-39 | a kind's label is listed exactly when its id is chosen, in catalog order |
| ExcelExport.MapKeepsSubsequence | pages/reports/ExcelExport.tsx:36-39 | mapping an order-preserving selection gives an order-preserving selection of the mapped list |
| ExcelExport.SelectAllListsEverything | pages/reports/ExcelExport.tsx:36-46 | after choosing everything the export lists every label of the catalog in order |
| ExcelExport.FilterKeepsDistinct | pages/reports/ExcelExport.tsx:25 | removing entries from a list without repeats leaves no repeats |
| ExcelExport.ToggleSpec | pages/reports/ExcelExport.tsx:22-28 | toggling flips whether the id is chosen and nothing else, never creates a repeat, and toggling an unchosen id twice gives the list back |
| ExcelExport.ExcelExportPage.constructor | pages/reports/ExcelExport.tsx:8-10 | the page opens on 2025-01-01 to 2025-12-31 with sales chosen |
| ExcelExport.ExcelExportPage.SetStartDate | pages/reports/ExcelExport.tsx:109 | the start date takes the typed value and nothing else changes |
| ExcelExport.ExcelExportPage.SetEndDate | pages/reports/ExcelExport.tsx:133 | the end date takes the typed value and nothing else changes |
| ExcelExport.ExcelExportPage.HandleToggleData | pages/reports/ExcelExport.tsx:22-28 | the choice becomes its toggle at the id and stays free of repeats |
| ExcelExport.ExcelExportPage.HandleExport | pages/reports/ExcelExport.tsx:30-42 | nothing chosen gives the warning; otherwise the announcement carries the period and the chosen labels joined by ', ' |
| ExcelExport.ExcelExportPage.HandleSelectAll | pages/reports/ExcelExport.tsx:44-46 | every id of the catalog is chosen, in catalog order |
| ExcelExport.ExcelExportPage.HandleDeselectAll | pages/reports/ExcelExport.tsx:48-50 | nothing is chosen |
| Seqs.Filter | pages/customer-vehicle/CustomersPage.tsx:49-51 | `filter` returns no more elements than it was given, each of them an input element that passes, and keeps every input element that passes |
| Seqs.FilterIsSubsequence | pages/customer-vehicle/CustomersPage.tsx:45-75 | `filter` keeps the input order |
| Seqs.FilterFilter | pages/customer-vehicle/CustomersPage.tsx:48-72 | filtering a filtered list is one filter by both tests |
| Seqs.SumOfFilter | src/mock/api.ts:219-224 | the sum over a filtered list is the sum of the amounts that pass, 0 for the rest |
| Seqs.NextId | pages/sales/ReceivablesPage.tsx:88 | `Math.max(0, ...ids) + 1` is at least 1, above every id, and one more than the largest positive id |
| Text.JsNumberOfIntToString | pages/expense-payroll/PayrollPage.tsx:65-92 | `Number(String(n))` gives back `n` for every integer |
| Text.NatToStringInjective | pages/settings/BusinessHours.tsx:83-91 | two different naturals never print as the same numeral |
| Text.SplitJoinComma | pages/schedule/TodaySchedule.tsx:129-154 | splitting a `', '`-joined list of comma-free names at ',' gives back the names, each after the first with its leading space |
| Text.IgnoresCase | pages/customer-vehicle/CustomersPage.tsx:50 | a case-insensitive match gives the same answer whichever side is lower-cased first |
| Text.ToLowerIdempotent | pages/customer-vehicle/CustomersPage.tsx:50 | lower-casing twice is lower-casing once |
| Text.ContainsIsOccurrence | pages/customer-vehicle/CustomersPage.tsx:60 | `includes` holds exactly when the term occurs at some position |
| Text.LexLessIrreflexive | pages/customer-vehicle/MaintenanceHistory.tsx:34-36 | no date string comes before itself |
| Text.LexLessTransitive | pages/customer-vehicle/MaintenanceHistory.tsx:34-36 | the string order of dates is transitive |
| Text.LexLessTotal | pages/customer-vehicle/MaintenanceHistory.tsx:34-36 | of two different date strings one comes first |

## Left out

- Rendering: JSX, styles, hover effects, navigation bars, routing, and the render branch of `ProtectedFeature`. The access decision it renders is `UseFeature`.
- `alert` and `window.confirm`: a confirmed delete is the delete, and an alert is not modelled; `HandleExport` returns what it would announce. Handlers that only raise an alert have no method: the opening-hours save button (pages/settings/BusinessHours.tsx:57-59), the Excel downloads of the vehicles and maintenance-history pages, and the add button of the maintenance items.
- Asynchrony: the mock fetchers' `setTimeout` promises and the `useEffect` loading. A failed response leaves the state as it was and is not modelled; every `Load` method takes the fetched list.
- The clock: `new Date()`, `toISOString` (UTC) against local dates, `toLocaleDateString`, `isToday`, `formatDate` and the calendar's `goToToday`. Today's date and the current year and month are parameters.
- `setQuickPeriod` on the export page: it computes dates from the clock.
- `toLocaleString('ko-KR')` currency and mileage formatting. The model prints plain decimal numerals.
- Text.ToLower: lower-cases only the capitals `Text.LowerChar` lists: Latin A to Z, Latin-1 À to Þ except ×, Greek Α to Ω except Σ, Cyrillic Ѐ to Я, and fullwidth Ａ to Ｚ. Other cased letters stay as they are: Latin Extended (Ā, Ł, …), Greek Σ (the source picks σ or final ς from the surrounding letters), Armenian, Georgian and the rest. `İ` (U+0130) lowers to two code units in the source, so the ensures `|r| == |s|` does not hold of `toLowerCase` there. The searches that use it (`Customers.PassesSpec`, `Vehicles.SearchVehiclesSpec`, `MaintenanceHistory.SearchRecordsSpec`) miss matches the source finds only on such letters.
- WorkStatus.CompletionRate: the exact percentage rounded half up stands in for the double `Math.round((completed / total) * 100)`. The two differ by one point where the double product falls just below a half. At 23 completed of 40 the page shows 57 and the model gives 58; among totals up to 200 the same happens at 46/80, 69/120, 92/160, 29/200, 57/200, 113/200 and 115/200. The dashboard's rate (pages/home/Dashboard.tsx:120-122) is the same function.
- WorkStatus.CompletionRateRounds: states the exact half-up rounding of the model's rate, not the double `Math.round` of the page, which is one point lower at 23/40 and the other inputs above.
- Floating point: `profitMargin.toFixed(1)` and the payment, category and cost shares are not modelled. `ProfitAnalysis.ProfitMargin` is the exact fraction, and `SalesStatistics.RoundedAverage` is the exact rounding of the mean.
- `NaN`: `Number()` of a non-numeral, decimals and exponents are outside `Text.JsNumber`. Form fields that the source converts with `Number()` are held as integers.
- `Customers.EditCustomerSpec`: a customer with a missing e-mail or memo is saved with `''` after an untouched edit, as the source does. The lemma states this rather than a round trip.
- `PlanContext.PlanProvider.ChangePlan`: the effect that writes `JSON.stringify(userPlan)` under the `userPlan` key after every change (src/contexts/PlanContext.tsx:72-74) is not modelled. The model therefore does not show that a changed plan is what the next page load reads back.
- `JSON.parse` of the saved plan: a malformed saved value would throw. The model's saved plan is already a parsed record or absent.
- Expenses.CategoryLabelSpec: states the pass-through of unknown codes only for codes that are not `Object.prototype` property names (`Text.InheritedKey`). For a code such as `toString` or `constructor`, `labels[code]` finds the inherited member, a function, and the source shows that; `Expenses.CategoryLabel` returns the code. The page passes only the enum codes.
- SalesStatistics.PaymentLabelSpec: the same restriction, for the same reason, with `SalesStatistics.PaymentLabel` in place of `Expenses.CategoryLabel`.
- The marketing texts of `PLAN_INFO` and the descriptions in the export catalogue: they are display text only.
- `Slots.GenerateTimeSlots`: requires an interval above 0, and so do the slot members built on it. With 0 or a negative interval the source's `for` loop never ends, and `TodaySchedule.TodayBoard.LoadBookingInterval` takes any stored integer unchecked.
- `Storage.LoadedNumber`: a stored string that `Text.JsNumber` does not read keeps the value the loader held. The source instead takes `Number()` of it: `NaN` for a non-number, and the number for strings such as `' 5'`, `'+5'` or `'0x5'`. The settings page writes only `String(n)` of integers, so such strings arrive only when the store is edited by hand.
- `Months.MonthKeySelectsMonth`: stated for years from 0 on. `Date` maps two-digit years to 19xx, and negative years print with a sign.
- `MaintenanceHistory.SortNewestFirst`: an insertion sort stands in for the engine's `Array.prototype.sort`. The model proves the order and the permutation, but not stability, which the source does not rely on. The comparator subtracts `getTime()` values, which for well-formed ISO dates orders as the strings do.
- `ProfitAnalysis.MonthlyProfit`: requires an expense point for every sales point. The source would throw reading `expenses[index]` otherwise; `MonthlyProfitOfFetched` proves the fetched trends meet it.
- `MaintenanceItems.MaintenanceItemsPage.HandleFormChange`: with no item being edited, the source still adds the field to the `{}` form. The model keeps the form absent; nothing reads that form before the next `handleEditClick` replaces it.
- The legacy top-level pages (pages/Dashboard.tsx, pages/SalesPage.tsx and the like) and mockApi.ts: they repeat the logic modelled here and change no state.
- pages/settings/SettingsPage.tsx: form fields and one storage flag, which is read by `Dashboard.UnconfirmedSettingsSpec`.
- The mock data lists other than the monthly trends: they are fixtures, passed in as parameters.

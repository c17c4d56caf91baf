/** The today-board (pages/schedule/TodaySchedule.tsx): the day's appointments,
    the expanded slots, the booking settings it reads, and the booking modal
    with its form and service selection. The slot arithmetic it draws with is
    in module Slots. */
module TodaySchedule {
  import opened Seqs
  import opened Text
  import opened Types
  import opened Records
  import opened Storage
  import opened Calendar

  /** `serviceInputMode`. */
  datatype InputMode = SelectMode | ManualMode

  /** `formData` of the booking modal. */
  datatype BookingForm = BookingForm(
    customerName: string,
    carNumber: string,
    phone: string,
    scheduleDate: string,
    scheduleTime: string,
    serviceType: string,
    memo: string)

  /** The `name` attribute of a form control. */
  datatype FormField = CustomerName | CarNumber | Phone | ScheduleDate | ScheduleTime | ServiceType | Memo

  function GetField(f: BookingForm, field: FormField): string
  {
    match field
    case CustomerName => f.customerName
    case CarNumber => f.carNumber
    case Phone => f.phone
    case ScheduleDate => f.scheduleDate
    case ScheduleTime => f.scheduleTime
    case ServiceType => f.serviceType
    case Memo => f.memo
  }

  /** `handleInputChange`: `{ ...prev, [name]: value }`. */
  function SetField(f: BookingForm, field: FormField, value: string): BookingForm
  {
    match field
    case CustomerName => f.(customerName := value)
    case CarNumber => f.(carNumber := value)
    case Phone => f.(phone := value)
    case ScheduleDate => f.(scheduleDate := value)
    case ScheduleTime => f.(scheduleTime := value)
    case ServiceType => f.(serviceType := value)
    case Memo => f.(memo := value)
  }

  /** An input change sets the named field and no other. */
  lemma SetFieldSpec(f: BookingForm, field: FormField, value: string)
    ensures GetField(SetField(f, field, value), field) == value
    ensures forall other :: other != field ==> GetField(SetField(f, field, value), other) == GetField(f, other)
  {
  }

  /** A blank form for a new booking on `date` at `time`. */
  function BlankForm(date: string, time: string): BookingForm
  {
    BookingForm("", "", "", date, time, "", "")
  }

  /** `handleEditClick`'s form: the appointment's fields, a missing memo as ''. */
  function FormOf(s: Schedule): BookingForm
  {
    BookingForm(s.customerName, s.carNumber, s.phone, s.scheduleDate, s.scheduleTime, s.serviceType,
      match s.memo case Some(m) => m case None => "")
  }

  function ScheduleId(s: Schedule): int { s.id }

  /** `{ ...s, status: newStatus }`. */
  function WithStatus(status: Status): Schedule -> Schedule
  {
    (s: Schedule) => s.(status := status)
  }

  /** The edit branch of `handleSubmit`: the seven form fields over the appointment. */
  function ApplyForm(form: BookingForm, serviceType: string): Schedule -> Schedule
  {
    (s: Schedule) => s.(customerName := form.customerName, carNumber := form.carNumber, phone := form.phone,
      scheduleDate := form.scheduleDate, scheduleTime := form.scheduleTime, serviceType := serviceType,
      memo := Some(form.memo))
  }

  /** The create branch of `handleSubmit`: a PENDING appointment without
      `created_at` or customer id. */
  function NewSchedule(id: int, form: BookingForm, serviceType: string): Schedule
  {
    Schedule(id, None, form.customerName, form.carNumber, form.phone, form.scheduleDate, form.scheduleTime,
      serviceType, Pending, Some(form.memo), None)
  }

  /** A status change rewrites the status of the records with that id, from
      any status to any other, and nothing else: other records, other fields
      and the ids stay; an unknown id changes nothing; a second change wins. */
  lemma StatusChangeSpec(schedules: seq<Schedule>, id: int, status: Status, later: Status)
    ensures var r := UpdateWhere(schedules, ScheduleId, id, WithStatus(status));
      |r| == |schedules|
      && (forall i :: 0 <= i < |r| ==>
            if schedules[i].id == id then r[i] == schedules[i].(status := status) else r[i] == schedules[i])
      && Keys(r, ScheduleId) == Keys(schedules, ScheduleId)
      && UpdateWhere(r, ScheduleId, id, WithStatus(later)) == UpdateWhere(schedules, ScheduleId, id, WithStatus(later))
    ensures (forall i :: 0 <= i < |schedules| ==> schedules[i].id != id)
      ==> UpdateWhere(schedules, ScheduleId, id, WithStatus(status)) == schedules
  {
    UpdateWhereSpec(schedules, ScheduleId, id, WithStatus(status));
    UpdateKeepsKeys(schedules, ScheduleId, id, WithStatus(status));
    UpdateOverwrites(schedules, ScheduleId, id, WithStatus(status), WithStatus(later));
  }

  /** An edit writes the form back exactly: the edited appointment's form is
      the submitted one, while id, status, customer id and `created_at` stay. */
  lemma EditRoundTrip(s: Schedule, form: BookingForm, serviceType: string)
    ensures var e := ApplyForm(form, serviceType)(s);
      FormOf(e) == form.(serviceType := serviceType)
      && e.id == s.id && e.status == s.status && e.customerId == s.customerId && e.createdAt == s.createdAt
  {
  }

  /** Opening an appointment for edit and submitting unchanged leaves it as it
      was, provided it had a memo (a missing memo comes back as ''). */
  lemma EditUnchanged(s: Schedule)
    ensures ApplyForm(FormOf(s), s.serviceType)(s) == (if s.memo.Some? then s else s.(memo := Some("")))
  {
  }

  /** `toggleSlot`: remove the time if present, otherwise add it. */
  function Toggled(slots: set<string>, time: string): set<string>
  {
    if time in slots then slots - {time} else slots + {time}
  }

  /** A toggle flips membership of its time only, and toggling twice restores the set. */
  lemma ToggleSpec(slots: set<string>, time: string)
    ensures time in Toggled(slots, time) <==> time !in slots
    ensures forall t :: t != time ==> (t in Toggled(slots, time) <==> t in slots)
    ensures Toggled(Toggled(slots, time), time) == slots
  {
  }

  /** The selected services stay free of empty names and duplicates. */
  predicate WellFormedServices(names: seq<string>)
  {
    (forall i :: 0 <= i < |names| ==> names[i] != "")
    && (forall i, j :: 0 <= i < j < |names| ==> names[i] != names[j])
  }

  /** `handleServiceSelect`: append a non-empty name that is not yet selected. */
  function SelectService(names: seq<string>, name: string): (r: seq<string>)
    ensures name != "" ==> name in r
    ensures WellFormedServices(names) ==> WellFormedServices(r)
    ensures r == names || r == names + [name]
    ensures (name == "" || name in names) ==> r == names
  {
    if name != "" && name !in names then names + [name] else names
  }

  function IsNot(name: string): string -> bool
  {
    (n: string) => n != name
  }

  /** `handleRemoveService`: drop the name. */
  function RemoveService(names: seq<string>, name: string): seq<string>
  {
    Filter(IsNot(name), names)
  }

  /** Removing a name leaves every other selected name, in order, and keeps
      the selection well formed. */
  lemma RemoveServiceSpec(names: seq<string>, name: string)
    ensures var r := RemoveService(names, name);
      name !in r
      && (forall i :: 0 <= i < |names| && names[i] != name ==> names[i] in r)
      && IsSubsequence(r, names)
      && (WellFormedServices(names) ==> WellFormedServices(r))
  {
    var r := RemoveService(names, name);
    FilterIsSubsequence(IsNot(name), names);
    if name in r {
      InFilterSatisfies(IsNot(name), names, name);
    }
    if WellFormedServices(names) {
      SubsequenceElements(r, names);
      SubsequenceNoDuplicates(r, names);
    }
  }

  lemma {:induction false} SubsequenceNoDuplicates(r: seq<string>, s: seq<string>)
    requires IsSubsequence(r, s)
    requires forall i, j :: 0 <= i < j < |s| ==> s[i] != s[j]
    ensures forall i, j :: 0 <= i < j < |r| ==> r[i] != r[j]
    decreases |s|
  {
    if r != [] && s != [] {
      var s' := s[..|s| - 1];
      if r[|r| - 1] == s[|s| - 1] {
        var r' := r[..|r| - 1];
        SubsequenceNoDuplicates(r', s');
        SubsequenceElements(r', s');
        forall i | 0 <= i < |r'| ensures r'[i] != r[|r| - 1] {
          var j :| 0 <= j < |s'| && s'[j] == r'[i];
        }
      } else {
        SubsequenceNoDuplicates(r, s');
      }
    }
  }

  /** The service text `handleSubmit` saves: the joined selection in select
      mode, the typed text in manual mode. */
  function ServiceText(mode: InputMode, names: seq<string>, form: BookingForm): string
  {
    if mode == SelectMode then Join(names, ", ") else form.serviceType
  }

  /** `schedule.service_type.split(',').map(s => s.trim())`. */
  function ServicesOf(serviceType: string): (names: seq<string>)
    ensures |names| >= 1
  {
    var parts := Split(serviceType, ',');
    seq(|parts|, i requires 0 <= i < |parts| => Trim(parts[i]))
  }

  lemma TrimUnpadded(n: string)
    requires NoOuterSpace(n)
    ensures Trim(n) == n && Trim(" " + n) == n
  {
    assert TrimStart(" " + n) == TrimStart(n) by {
      assert (" " + n)[1..] == n;
    }
  }

  /** Saving a selection with `join(', ')` and reopening it with `split(',')`
      and `trim` gives the selection back, for names without commas or outer
      white space. */
  lemma ServicesRoundTrip(names: seq<string>)
    requires |names| >= 1
    requires forall i :: 0 <= i < |names| ==> ',' !in names[i] && NoOuterSpace(names[i])
    ensures ServicesOf(Join(names, ", ")) == names
  {
    var text := Join(names, ", ");
    var parts := Split(text, ',');
    assert parts == [names[0]] + LeadSpace(names[1..]) by {
      SplitJoinComma("", names);
      assert "" + text == text;
      assert "" + names[0] == names[0];
    }
    var r := ServicesOf(text);
    assert |r| == |names|;
    forall i | 0 <= i < |names| ensures r[i] == names[i] {
      TrimPart(parts, names, i);
    }
  }

  lemma TrimPart(parts: seq<string>, names: seq<string>, i: int)
    requires |names| >= 1 && 0 <= i < |names| && NoOuterSpace(names[i])
    requires parts == [names[0]] + LeadSpace(names[1..])
    ensures Trim(parts[i]) == names[i]
  {
    TrimUnpadded(names[i]);
    if i > 0 {
      assert parts[i] == " " + names[1..][i - 1];
    }
  }

  class TodayBoard {
    var schedules: seq<Schedule>
    var bookingInterval: int
    var bookingCapacity: int
    var expandedSlots: set<string>
    var modalOpen: bool
    var editing: Option<Schedule>
    var selectedTime: string
    var form: BookingForm
    var inputMode: InputMode
    var selectedServices: seq<string>

    /** The initial state; `utcToday` is `new Date().toISOString().split('T')[0]`. */
    constructor (utcToday: string)
      ensures schedules == [] && bookingInterval == 60 && bookingCapacity == 1 && expandedSlots == {}
      ensures !modalOpen && editing == None && selectedTime == ""
      ensures form == BookingForm("", "", "", utcToday, "10:00", "", "")
      ensures inputMode == SelectMode && selectedServices == []
    {
      schedules := [];
      bookingInterval := 60;
      bookingCapacity := 1;
      expandedSlots := {};
      modalOpen := false;
      editing := None;
      selectedTime := "";
      form := BookingForm("", "", "", utcToday, "10:00", "", "");
      inputMode := SelectMode;
      selectedServices := [];
    }

    /** `loadSchedules`: keep only the appointments dated today (local date). */
    method LoadSchedules(fetched: seq<Schedule>, today: Date)
      modifies this`schedules
      ensures schedules == SchedulesForDate(fetched, today)
    {
      schedules := SchedulesForDate(fetched, today);
    }

    /** `loadBookingInterval`: the stored interval and capacity, unchecked. */
    method LoadBookingInterval(store: Store)
      modifies this`bookingInterval, this`bookingCapacity
      ensures bookingInterval == LoadedNumber(store, IntervalKey, old(bookingInterval))
      ensures bookingCapacity == LoadedNumber(store, CapacityKey, old(bookingCapacity))
    {
      bookingInterval := LoadedNumber(store, IntervalKey, bookingInterval);
      bookingCapacity := LoadedNumber(store, CapacityKey, bookingCapacity);
    }

    method ToggleSlot(time: string)
      modifies this`expandedSlots
      ensures expandedSlots == Toggled(old(expandedSlots), time)
    {
      if time in expandedSlots {
        expandedSlots := expandedSlots - {time};
      } else {
        expandedSlots := expandedSlots + {time};
      }
    }

    /** `handleStatusChange`: unguarded; any status may follow any other. */
    method HandleStatusChange(id: int, status: Status)
      modifies this`schedules
      ensures schedules == UpdateWhere(old(schedules), ScheduleId, id, WithStatus(status))
    {
      schedules := UpdateWhere(schedules, ScheduleId, id, WithStatus(status));
    }

    /** `handleBookingClick`: open a blank booking for today at the slot's time. */
    method HandleBookingClick(time: string, today: Date)
      modifies this`selectedTime, this`editing, this`form, this`selectedServices, this`inputMode, this`modalOpen
      ensures selectedTime == time && editing == None
      ensures form == BlankForm(DateKey(today), time)
      ensures selectedServices == [] && inputMode == SelectMode && modalOpen
    {
      selectedTime := time;
      editing := None;
      form := BlankForm(DateKey(today), time);
      selectedServices := [];
      inputMode := SelectMode;
      modalOpen := true;
    }

    /** `handleEditClick`: open the appointment with its services split back out. */
    method HandleEditClick(s: Schedule)
      modifies this`selectedTime, this`editing, this`form, this`selectedServices, this`inputMode, this`modalOpen
      ensures selectedTime == s.scheduleTime && editing == Some(s)
      ensures form == FormOf(s)
      ensures selectedServices == ServicesOf(s.serviceType)
      ensures inputMode == SelectMode && modalOpen
    {
      selectedTime := s.scheduleTime;
      editing := Some(s);
      form := FormOf(s);
      selectedServices := ServicesOf(s.serviceType);
      inputMode := SelectMode;
      modalOpen := true;
    }

    method CloseModal()
      modifies this`modalOpen, this`editing, this`selectedTime
      ensures !modalOpen && editing == None && selectedTime == ""
    {
      modalOpen := false;
      editing := None;
      selectedTime := "";
    }

    method HandleServiceSelect(name: string)
      modifies this`selectedServices
      ensures selectedServices == SelectService(old(selectedServices), name)
    {
      if name != "" && name !in selectedServices {
        selectedServices := selectedServices + [name];
      }
    }

    method HandleRemoveService(name: string)
      modifies this`selectedServices
      ensures selectedServices == RemoveService(old(selectedServices), name)
    {
      selectedServices := RemoveService(selectedServices, name);
    }

    /** `handleSubmit`: an empty service text changes nothing; otherwise an
        edit rewrites the edited id's seven fields, a create appends a PENDING
        appointment with id `max(0, ids) + 1`, and the modal closes. */
    method HandleSubmit() returns (saved: bool)
      modifies this`schedules, this`modalOpen, this`editing, this`selectedTime
      ensures var text := ServiceText(old(inputMode), old(selectedServices), old(form));
        saved == (text != "")
        && (!saved ==> schedules == old(schedules) && modalOpen == old(modalOpen)
                        && editing == old(editing) && selectedTime == old(selectedTime))
        && (saved && old(editing).Some? ==>
              schedules == UpdateWhere(old(schedules), ScheduleId, old(editing).value.id, ApplyForm(old(form), text)))
        && (saved && old(editing).None? ==>
              schedules == old(schedules) + [NewSchedule(FreshKey(old(schedules), ScheduleId), old(form), text)])
        && (saved ==> !modalOpen && editing == None && selectedTime == "")
    {
      var text := ServiceText(inputMode, selectedServices, form);
      if text == "" {
        return false;
      }
      match editing {
        case Some(e) =>
          schedules := UpdateWhere(schedules, ScheduleId, e.id, ApplyForm(form, text));
        case None =>
          schedules := schedules + [NewSchedule(FreshKey(schedules, ScheduleId), form, text)];
      }
      CloseModal();
      saved := true;
    }

    method HandleInputChange(field: FormField, value: string)
      modifies this`form
      ensures form == SetField(old(form), field, value)
    {
      form := SetField(form, field, value);
    }

    /** The service-input radios: switch to `mode`, clearing both the typed
        service text and the selected services. */
    method SetInputMode(mode: InputMode)
      modifies this`inputMode, this`form, this`selectedServices
      ensures inputMode == mode
      ensures form == SetField(old(form), ServiceType, "")
      ensures selectedServices == []
    {
      inputMode := mode;
      form := SetField(form, ServiceType, "");
      selectedServices := [];
    }
  }

  /** Right after a switch of input mode there is no service text, so a
      submit saves nothing; once in manual mode, the typed text is what a
      submit stores, whatever is selected. */
  lemma InputModeSwitch(mode: InputMode, f: BookingForm, names: seq<string>, typed: string)
    ensures ServiceText(mode, [], SetField(f, ServiceType, "")) == ""
    ensures ServiceText(ManualMode, names, SetField(f, ServiceType, typed)) == typed
  {
  }

  /** A created appointment is PENDING, has an id no held appointment has,
      and keeps the held ids distinct. */
  lemma CreateSpec(schedules: seq<Schedule>, form: BookingForm, serviceType: string)
    requires DistinctKeys(schedules, ScheduleId)
    ensures var s := NewSchedule(FreshKey(schedules, ScheduleId), form, serviceType);
      s.status == Pending && s.id >= 1
      && (forall i :: 0 <= i < |schedules| ==> schedules[i].id < s.id)
      && DistinctKeys(schedules + [s], ScheduleId)
  {
    var s := NewSchedule(FreshKey(schedules, ScheduleId), form, serviceType);
    FreshKeyIsNew(schedules, ScheduleId, s);
    AppendFreshKeepsDistinct(schedules, ScheduleId, s);
  }
}

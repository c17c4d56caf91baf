/** The receivables list (pages/sales/ReceivablesPage.tsx): create, edit and
    delete of receivables keyed by `recv_id`, collecting and un-collecting a
    payment, the month view by due date and its unpaid total. */
module Receivables {
  import opened Seqs
  import opened Text
  import opened Types
  import opened Records
  import opened Months

  /** The receivable modal's `formData`; the numbers are the inputs' values. */
  datatype ReceivableForm = ReceivableForm(saleId: int, customerName: string, amount: int, dueDate: string)

  /** One change in the receivable modal: the control and the value it now
      holds, the number inputs' values read as numbers. */
  datatype ReceivableInput =
    | SaleIdInput(saleId: int)
    | CustomerNameInput(customerName: string)
    | AmountInput(amount: int)
    | DueDateInput(dueDate: string)

  /** The form holds the value the input entered. */
  predicate ReceivableShows(form: ReceivableForm, input: ReceivableInput)
  {
    match input
    case SaleIdInput(v) => form.saleId == v
    case CustomerNameInput(v) => form.customerName == v
    case AmountInput(v) => form.amount == v
    case DueDateInput(v) => form.dueDate == v
  }

  /** The two inputs are changes of the same control. */
  predicate SameReceivableControl(a: ReceivableInput, b: ReceivableInput)
  {
    a.SaleIdInput? == b.SaleIdInput? && a.CustomerNameInput? == b.CustomerNameInput?
    && a.AmountInput? == b.AmountInput? && a.DueDateInput? == b.DueDateInput?
  }

  /** An input's `onChange`, `{ ...prev, [field]: e.target.value }`: the
      control shows the value and every other control keeps what it showed. */
  function EnterReceivable(form: ReceivableForm, input: ReceivableInput): (r: ReceivableForm)
    ensures ReceivableShows(r, input)
    ensures forall other :: !SameReceivableControl(other, input) ==>
      ReceivableShows(r, other) == ReceivableShows(form, other)
  {
    match input
    case SaleIdInput(v) => form.(saleId := v)
    case CustomerNameInput(v) => form.(customerName := v)
    case AmountInput(v) => form.(amount := v)
    case DueDateInput(v) => form.(dueDate := v)
  }

  function RecvId(r: Receivable): int { r.id }

  function DueDate(r: Receivable): string { r.dueDate }

  function Amount(r: Receivable): int { r.amount }

  function BlankReceivableForm(utcToday: string): ReceivableForm
  {
    ReceivableForm(0, "", 0, utcToday)
  }

  function ReceivableFormOf(r: Receivable): ReceivableForm
  {
    ReceivableForm(r.saleId, r.customerName, r.amount, r.dueDate)
  }

  /** The edit branch of `handleSubmit`: four fields; paid state kept. */
  function ApplyReceivableForm(form: ReceivableForm): Receivable -> Receivable
  {
    (r: Receivable) => r.(saleId := form.saleId, customerName := form.customerName, amount := form.amount,
      dueDate := form.dueDate)
  }

  /** The create branch of `handleSubmit`: unpaid, no paid date. */
  function NewReceivable(id: int, form: ReceivableForm): Receivable
  {
    Receivable(id, form.saleId, form.customerName, form.amount, form.dueDate, false, None)
  }

  /** `handleCollect`'s update: paid today. */
  function Collect(today: string): Receivable -> Receivable
  {
    (r: Receivable) => r.(paid := true, paidDate := Some(today))
  }

  /** `handleCancel`'s update: unpaid, paid date cleared. */
  function Uncollect(r: Receivable): Receivable
  {
    r.(paid := false, paidDate := None)
  }

  /** An edit keeps the id and the paid state and writes back exactly the form. */
  lemma EditReceivableSpec(r: Receivable, form: ReceivableForm)
    ensures var e := ApplyReceivableForm(form)(r);
      e.id == r.id && e.paid == r.paid && e.paidDate == r.paidDate && ReceivableFormOf(e) == form
    ensures ApplyReceivableForm(ReceivableFormOf(r))(r) == r
  {
  }

  /** A created receivable is unpaid, carries the form under a fresh id, and
      the held ids stay distinct. */
  lemma CreateReceivableSpec(receivables: seq<Receivable>, form: ReceivableForm)
    requires DistinctKeys(receivables, RecvId)
    ensures var r := NewReceivable(FreshKey(receivables, RecvId), form);
      !r.paid && r.paidDate == None && ReceivableFormOf(r) == form && r.id >= 1
      && (forall i :: 0 <= i < |receivables| ==> receivables[i].id < r.id)
      && DistinctKeys(receivables + [r], RecvId)
  {
    var r := NewReceivable(FreshKey(receivables, RecvId), form);
    FreshKeyIsNew(receivables, RecvId, r);
    AppendFreshKeepsDistinct(receivables, RecvId, r);
  }

  /** Collecting marks the records with that id paid today and nothing else;
      cancelling afterwards leaves each of them unpaid with every other field
      as before the collection, and the other records untouched. */
  lemma CollectThenCancel(receivables: seq<Receivable>, id: int, today: string)
    ensures var c := UpdateWhere(receivables, RecvId, id, Collect(today));
      |c| == |receivables|
      && (forall i :: 0 <= i < |c| && receivables[i].id == id ==> c[i].paid && c[i].paidDate == Some(today))
      && (forall i :: 0 <= i < |c| && receivables[i].id != id ==> c[i] == receivables[i])
    ensures UpdateWhere(UpdateWhere(receivables, RecvId, id, Collect(today)), RecvId, id, Uncollect)
         == UpdateWhere(receivables, RecvId, id, Uncollect)
  {
    UpdateOverwrites(receivables, RecvId, id, Collect(today), Uncollect);
  }

  predicate Unpaid(r: Receivable) { !r.paid }

  /** `unpaidTotal`: the sum of the unpaid amounts in the month view. */
  function UnpaidTotal(receivables: seq<Receivable>, key: string): int
  {
    SumOf(Amount, Filter(Unpaid, MonthView(receivables, DueDate, key)))
  }

  /** What one receivable adds to the unpaid total of month `key`. */
  function UnpaidAmount(key: string): Receivable -> int
  {
    (r: Receivable) => if StartsWith(r.dueDate, key) && !r.paid then r.amount else 0
  }

  function DueInAndUnpaid(key: string): Receivable -> bool
  {
    (r: Receivable) => StartsWith(r.dueDate, key) && !r.paid
  }

  /** The unpaid total is the sum over the whole list of the amounts that are
      due in the month and unpaid. */
  lemma UnpaidTotalIsSum(receivables: seq<Receivable>, key: string)
    ensures UnpaidTotal(receivables, key) == SumOf(UnpaidAmount(key), receivables)
  {
    forall x: Receivable ensures DueInAndUnpaid(key)(x) == (DatedIn(DueDate, key)(x) && Unpaid(x)) {
      assert DatedIn(DueDate, key)(x) == StartsWith(DueDate(x), key);
    }
    FilterFilter(DatedIn(DueDate, key), Unpaid, DueInAndUnpaid(key), receivables);
    SumOfFilter(Amount, DueInAndUnpaid(key), receivables);
    SumOfAgree(Masked(Amount, DueInAndUnpaid(key)), UnpaidAmount(key), receivables);
  }

  /** With distinct ids, collecting a receivable lowers the unpaid total of a
      month by its amount when it was due that month and unpaid, and leaves
      the total as it was otherwise. */
  lemma CollectLowersUnpaidTotal(receivables: seq<Receivable>, key: string, j: int, today: string)
    requires DistinctKeys(receivables, RecvId) && 0 <= j < |receivables|
    ensures var r := receivables[j];
      UnpaidTotal(UpdateWhere(receivables, RecvId, r.id, Collect(today)), key)
      == UnpaidTotal(receivables, key) - (if StartsWith(r.dueDate, key) && !r.paid then r.amount else 0)
  {
    var r := receivables[j];
    UnpaidTotalIsSum(receivables, key);
    UnpaidTotalIsSum(UpdateWhere(receivables, RecvId, r.id, Collect(today)), key);
    SumOfUpdate(UnpaidAmount(key), receivables, RecvId, r.id, Collect(today), j);
  }

  class ReceivablesPage {
    var receivables: seq<Receivable>
    var modalOpen: bool
    var editing: Option<Receivable>
    var form: ReceivableForm
    var selectedYear: int
    var selectedMonth: int

    constructor (utcToday: string, year: int, month: int)
      ensures receivables == [] && !modalOpen && editing == None
      ensures form == BlankReceivableForm(utcToday) && selectedYear == year && selectedMonth == month
    {
      receivables := [];
      modalOpen := false;
      editing := None;
      form := BlankReceivableForm(utcToday);
      selectedYear := year;
      selectedMonth := month;
    }

    method Load(fetched: seq<Receivable>)
      modifies this
      ensures receivables == fetched
      ensures modalOpen == old(modalOpen) && editing == old(editing) && form == old(form)
      ensures selectedYear == old(selectedYear) && selectedMonth == old(selectedMonth)
    {
      receivables := fetched;
    }

    method OpenModal(receivable: Option<Receivable>, utcToday: string)
      modifies this
      ensures editing == receivable && modalOpen
      ensures form == (match receivable case Some(r) => ReceivableFormOf(r) case None => BlankReceivableForm(utcToday))
      ensures receivables == old(receivables) && selectedYear == old(selectedYear) && selectedMonth == old(selectedMonth)
    {
      editing := receivable;
      match receivable {
        case Some(r) => form := ReceivableFormOf(r);
        case None => form := BlankReceivableForm(utcToday);
      }
      modalOpen := true;
    }

    method CloseModal()
      modifies this
      ensures !modalOpen && editing == None
      ensures receivables == old(receivables) && form == old(form)
      ensures selectedYear == old(selectedYear) && selectedMonth == old(selectedMonth)
    {
      modalOpen := false;
      editing := None;
    }

    method HandleSubmit()
      modifies this
      ensures old(editing).Some? ==>
        receivables == UpdateWhere(old(receivables), RecvId, old(editing).value.id, ApplyReceivableForm(old(form)))
      ensures old(editing).None? ==>
        receivables == old(receivables) + [NewReceivable(FreshKey(old(receivables), RecvId), old(form))]
      ensures !modalOpen && editing == None && form == old(form)
      ensures selectedYear == old(selectedYear) && selectedMonth == old(selectedMonth)
    {
      match editing {
        case Some(e) =>
          receivables := UpdateWhere(receivables, RecvId, e.id, ApplyReceivableForm(form));
        case None =>
          receivables := receivables + [NewReceivable(FreshKey(receivables, RecvId), form)];
      }
      CloseModal();
    }

    /** The modal's inputs. */
    method HandleInput(input: ReceivableInput)
      modifies this`form
      ensures form == EnterReceivable(old(form), input)
    {
      form := EnterReceivable(form, input);
    }

    /** The `MonthFilter` pickers: the list then shows the receivables due in
        that month, and the unpaid total is that month's. */
    method SelectMonth(year: int, month: int)
      modifies this`selectedYear, this`selectedMonth
      ensures selectedYear == year && selectedMonth == month
      ensures FilteredReceivables() == MonthView(receivables, DueDate, MonthKey(year, month))
      ensures PageUnpaidTotal() == UnpaidTotal(receivables, MonthKey(year, month))
    {
      selectedYear := year;
      selectedMonth := month;
    }

    /** A confirmed `handleDelete`. */
    method HandleDelete(recvId: int)
      modifies this
      ensures receivables == RemoveKey(old(receivables), RecvId, recvId)
      ensures modalOpen == old(modalOpen) && editing == old(editing) && form == old(form)
      ensures selectedYear == old(selectedYear) && selectedMonth == old(selectedMonth)
    {
      receivables := RemoveKey(receivables, RecvId, recvId);
    }

    /** `handleCollect`, with `today` the UTC date. */
    method HandleCollect(recvId: int, today: string)
      modifies this
      ensures receivables == UpdateWhere(old(receivables), RecvId, recvId, Collect(today))
      ensures modalOpen == old(modalOpen) && editing == old(editing) && form == old(form)
      ensures selectedYear == old(selectedYear) && selectedMonth == old(selectedMonth)
    {
      receivables := UpdateWhere(receivables, RecvId, recvId, Collect(today));
    }

    method HandleCancel(recvId: int)
      modifies this
      ensures receivables == UpdateWhere(old(receivables), RecvId, recvId, Uncollect)
      ensures modalOpen == old(modalOpen) && editing == old(editing) && form == old(form)
      ensures selectedYear == old(selectedYear) && selectedMonth == old(selectedMonth)
    {
      receivables := UpdateWhere(receivables, RecvId, recvId, Uncollect);
    }

    /** `filteredReceivables`: due in the selected month. */
    function FilteredReceivables(): seq<Receivable>
      reads this
    {
      MonthView(receivables, DueDate, MonthKey(selectedYear, selectedMonth))
    }

    /** `unpaidTotal` over the month view. */
    function PageUnpaidTotal(): int
      reads this
    {
      UnpaidTotal(receivables, MonthKey(selectedYear, selectedMonth))
    }
  }
}

/** The sales list (pages/sales/SalesPage.tsx): create, edit and delete of
    sales keyed by `sale_id`, and the month view. */
module Sales {
  import opened Seqs
  import opened Text
  import opened Types
  import opened Records
  import opened Months

  /** The sale modal's `formData`; `amount` is the number input's value. */
  datatype SaleForm = SaleForm(
    saleDate: string,
    amount: int,
    paymentType: PaymentType,
    carNumber: string,
    customerName: string,
    memo: string)

  /** One change in the sale modal: the control and the value it now holds,
      the amount input's value read as a number and the payment select's
      value as its code. */
  datatype SaleInput =
    | SaleDateInput(saleDate: string)
    | AmountInput(amount: int)
    | PaymentTypeInput(paymentType: PaymentType)
    | CarNumberInput(carNumber: string)
    | CustomerNameInput(customerName: string)
    | MemoInput(memo: string)

  /** The form holds the value the input entered. */
  predicate SaleShows(form: SaleForm, input: SaleInput)
  {
    match input
    case SaleDateInput(v) => form.saleDate == v
    case AmountInput(v) => form.amount == v
    case PaymentTypeInput(v) => form.paymentType == v
    case CarNumberInput(v) => form.carNumber == v
    case CustomerNameInput(v) => form.customerName == v
    case MemoInput(v) => form.memo == v
  }

  /** The two inputs are changes of the same control. */
  predicate SameSaleControl(a: SaleInput, b: SaleInput)
  {
    a.SaleDateInput? == b.SaleDateInput? && a.AmountInput? == b.AmountInput?
    && a.PaymentTypeInput? == b.PaymentTypeInput? && a.CarNumberInput? == b.CarNumberInput?
    && a.CustomerNameInput? == b.CustomerNameInput? && a.MemoInput? == b.MemoInput?
  }

  /** An input's `onChange`, `{ ...formData, [field]: e.target.value }`: the
      control shows the value and every other control keeps what it showed. */
  function EnterSale(form: SaleForm, input: SaleInput): (r: SaleForm)
    ensures SaleShows(r, input)
    ensures forall other :: !SameSaleControl(other, input) ==> SaleShows(r, other) == SaleShows(form, other)
  {
    match input
    case SaleDateInput(v) => form.(saleDate := v)
    case AmountInput(v) => form.(amount := v)
    case PaymentTypeInput(v) => form.(paymentType := v)
    case CarNumberInput(v) => form.(carNumber := v)
    case CustomerNameInput(v) => form.(customerName := v)
    case MemoInput(v) => form.(memo := v)
  }

  function SaleId(s: Sale): int { s.id }

  function SaleDate(s: Sale): string { s.saleDate }

  /** The form of the create mode: today, nothing entered, cash. */
  function BlankSaleForm(utcToday: string): SaleForm
  {
    SaleForm(utcToday, 0, Cash, "", "", "")
  }

  /** The form of the edit mode: the sale's fields, missing texts as ''. */
  function SaleFormOf(s: Sale): SaleForm
  {
    SaleForm(s.saleDate, s.amount, s.paymentType, OrEmpty(s.carNumber), OrEmpty(s.customerName), OrEmpty(s.memo))
  }

  /** The edit branch of `handleSubmit`: the six form fields over the sale. */
  function ApplySaleForm(form: SaleForm): Sale -> Sale
  {
    (s: Sale) => s.(saleDate := form.saleDate, amount := form.amount, paymentType := form.paymentType,
      carNumber := Some(form.carNumber), customerName := Some(form.customerName), memo := Some(form.memo))
  }

  /** The create branch of `handleSubmit`. */
  function NewSale(id: int, form: SaleForm): Sale
  {
    Sale(id, form.saleDate, form.amount, form.paymentType, Some(form.carNumber), Some(form.customerName), Some(form.memo))
  }

  /** An edit keeps the id and writes back exactly the submitted form;
      opening a sale and submitting unchanged leaves it as it was when none of
      its optional texts is missing. */
  lemma EditSaleSpec(s: Sale, form: SaleForm)
    ensures ApplySaleForm(form)(s).id == s.id
    ensures SaleFormOf(ApplySaleForm(form)(s)) == form
    ensures s.carNumber.Some? && s.customerName.Some? && s.memo.Some? ==> ApplySaleForm(SaleFormOf(s))(s) == s
  {
  }

  /** A created sale carries the submitted form under an id above every held
      id, and the held ids stay distinct. */
  lemma CreateSaleSpec(sales: seq<Sale>, form: SaleForm)
    requires DistinctKeys(sales, SaleId)
    ensures var s := NewSale(FreshKey(sales, SaleId), form);
      SaleFormOf(s) == form && s.id >= 1
      && (forall i :: 0 <= i < |sales| ==> sales[i].id < s.id)
      && DistinctKeys(sales + [s], SaleId)
  {
    var s := NewSale(FreshKey(sales, SaleId), form);
    FreshKeyIsNew(sales, SaleId, s);
    AppendFreshKeepsDistinct(sales, SaleId, s);
  }

  class SalesPage {
    var sales: seq<Sale>
    var modalOpen: bool
    var editing: Option<Sale>
    var form: SaleForm
    var selectedYear: int
    var selectedMonth: int

    constructor (utcToday: string, year: int, month: int)
      ensures sales == [] && !modalOpen && editing == None
      ensures form == BlankSaleForm(utcToday) && selectedYear == year && selectedMonth == month
    {
      sales := [];
      modalOpen := false;
      editing := None;
      form := BlankSaleForm(utcToday);
      selectedYear := year;
      selectedMonth := month;
    }

    method Load(fetched: seq<Sale>)
      modifies this
      ensures sales == fetched
      ensures modalOpen == old(modalOpen) && editing == old(editing) && form == old(form)
      ensures selectedYear == old(selectedYear) && selectedMonth == old(selectedMonth)
    {
      sales := fetched;
    }

    /** `openModal(sale?)`: edit mode with the sale's form, or create mode
        with a blank one. */
    method OpenModal(sale: Option<Sale>, utcToday: string)
      modifies this
      ensures editing == sale && modalOpen
      ensures form == (match sale case Some(s) => SaleFormOf(s) case None => BlankSaleForm(utcToday))
      ensures sales == old(sales) && selectedYear == old(selectedYear) && selectedMonth == old(selectedMonth)
    {
      editing := sale;
      match sale {
        case Some(s) => form := SaleFormOf(s);
        case None => form := BlankSaleForm(utcToday);
      }
      modalOpen := true;
    }

    method CloseModal()
      modifies this
      ensures !modalOpen && editing == None
      ensures sales == old(sales) && form == old(form)
      ensures selectedYear == old(selectedYear) && selectedMonth == old(selectedMonth)
    {
      modalOpen := false;
      editing := None;
    }

    /** `handleSubmit`: rewrite the edited sale, or append a new one with id
        `max(0, ids) + 1`; then close the modal. */
    method HandleSubmit()
      modifies this
      ensures old(editing).Some? ==> sales == UpdateWhere(old(sales), SaleId, old(editing).value.id, ApplySaleForm(old(form)))
      ensures old(editing).None? ==> sales == old(sales) + [NewSale(FreshKey(old(sales), SaleId), old(form))]
      ensures !modalOpen && editing == None && form == old(form)
      ensures selectedYear == old(selectedYear) && selectedMonth == old(selectedMonth)
    {
      match editing {
        case Some(e) =>
          sales := UpdateWhere(sales, SaleId, e.id, ApplySaleForm(form));
        case None =>
          sales := sales + [NewSale(FreshKey(sales, SaleId), form)];
      }
      CloseModal();
    }

    /** The modal's inputs. */
    method HandleInput(input: SaleInput)
      modifies this`form
      ensures form == EnterSale(old(form), input)
    {
      form := EnterSale(form, input);
    }

    /** The `MonthFilter` pickers: the list then shows that month's sales. */
    method SelectMonth(year: int, month: int)
      modifies this`selectedYear, this`selectedMonth
      ensures selectedYear == year && selectedMonth == month
      ensures FilteredSales() == MonthView(sales, SaleDate, MonthKey(year, month))
    {
      selectedYear := year;
      selectedMonth := month;
    }

    /** A confirmed `handleDelete`. */
    method HandleDelete(saleId: int)
      modifies this
      ensures sales == RemoveKey(old(sales), SaleId, saleId)
      ensures modalOpen == old(modalOpen) && editing == old(editing) && form == old(form)
      ensures selectedYear == old(selectedYear) && selectedMonth == old(selectedMonth)
    {
      sales := RemoveKey(sales, SaleId, saleId);
    }

    /** `filteredSales`: the sales dated in the selected month. */
    function FilteredSales(): seq<Sale>
      reads this
    {
      MonthView(sales, SaleDate, MonthKey(selectedYear, selectedMonth))
    }
  }
}

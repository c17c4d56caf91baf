/** The expense list (pages/expense-payroll/ExpensesPage.tsx): create, edit
    and delete of expenses keyed by `expense_id`, the month view and the
    category labels. */
module Expenses {
  import opened Seqs
  import opened Text
  import opened Types
  import opened Records
  import opened Months

  /** The expense modal's `formData`; `amount` is the number input's value. */
  datatype ExpenseForm = ExpenseForm(
    expenseDate: string,
    category: ExpenseCategory,
    vendorName: string,
    amount: int,
    paymentType: PaymentType,
    memo: string)

  /** One change in the expense modal: the control and the value it now
      holds, the amount input's value read as a number and the selects'
      values as their codes. */
  datatype ExpenseInput =
    | ExpenseDateInput(expenseDate: string)
    | CategoryInput(category: ExpenseCategory)
    | VendorNameInput(vendorName: string)
    | AmountInput(amount: int)
    | PaymentTypeInput(paymentType: PaymentType)
    | MemoInput(memo: string)

  /** The form holds the value the input entered. */
  predicate ExpenseShows(form: ExpenseForm, input: ExpenseInput)
  {
    match input
    case ExpenseDateInput(v) => form.expenseDate == v
    case CategoryInput(v) => form.category == v
    case VendorNameInput(v) => form.vendorName == v
    case AmountInput(v) => form.amount == v
    case PaymentTypeInput(v) => form.paymentType == v
    case MemoInput(v) => form.memo == v
  }

  /** The two inputs are changes of the same control. */
  predicate SameExpenseControl(a: ExpenseInput, b: ExpenseInput)
  {
    a.ExpenseDateInput? == b.ExpenseDateInput? && a.CategoryInput? == b.CategoryInput?
    && a.VendorNameInput? == b.VendorNameInput? && a.AmountInput? == b.AmountInput?
    && a.PaymentTypeInput? == b.PaymentTypeInput? && a.MemoInput? == b.MemoInput?
  }

  /** An input's `onChange`, `{ ...formData, [field]: e.target.value }`: the
      control shows the value and every other control keeps what it showed. */
  function EnterExpense(form: ExpenseForm, input: ExpenseInput): (r: ExpenseForm)
    ensures ExpenseShows(r, input)
    ensures forall other :: !SameExpenseControl(other, input) ==> ExpenseShows(r, other) == ExpenseShows(form, other)
  {
    match input
    case ExpenseDateInput(v) => form.(expenseDate := v)
    case CategoryInput(v) => form.(category := v)
    case VendorNameInput(v) => form.(vendorName := v)
    case AmountInput(v) => form.(amount := v)
    case PaymentTypeInput(v) => form.(paymentType := v)
    case MemoInput(v) => form.(memo := v)
  }

  function ExpenseId(e: Expense): int { e.id }

  function ExpenseDate(e: Expense): string { e.expenseDate }

  /** The form of the create mode: today, a part, cash, nothing entered. */
  function BlankExpenseForm(utcToday: string): ExpenseForm
  {
    ExpenseForm(utcToday, Part, "", 0, Cash, "")
  }

  function ExpenseFormOf(e: Expense): ExpenseForm
  {
    ExpenseForm(e.expenseDate, e.category, e.vendorName, e.amount, e.paymentType, OrEmpty(e.memo))
  }

  /** The edit branch of `handleSubmit`: the six form fields over the expense;
      the receipt path is kept. */
  function ApplyExpenseForm(form: ExpenseForm): Expense -> Expense
  {
    (e: Expense) => e.(expenseDate := form.expenseDate, category := form.category, vendorName := form.vendorName,
      amount := form.amount, paymentType := form.paymentType, memo := Some(form.memo))
  }

  /** The create branch of `handleSubmit`: no receipt. */
  function NewExpense(id: int, form: ExpenseForm): Expense
  {
    Expense(id, form.expenseDate, form.category, form.vendorName, form.amount, form.paymentType, None, Some(form.memo))
  }

  /** An edit keeps the id and the receipt and writes back exactly the form. */
  lemma EditExpenseSpec(e: Expense, form: ExpenseForm)
    ensures ApplyExpenseForm(form)(e).id == e.id && ApplyExpenseForm(form)(e).receiptPath == e.receiptPath
    ensures ExpenseFormOf(ApplyExpenseForm(form)(e)) == form
    ensures e.memo.Some? ==> ApplyExpenseForm(ExpenseFormOf(e))(e) == e
  {
  }

  /** A created expense carries the form under a fresh id; ids stay distinct. */
  lemma CreateExpenseSpec(expenses: seq<Expense>, form: ExpenseForm)
    requires DistinctKeys(expenses, ExpenseId)
    ensures var e := NewExpense(FreshKey(expenses, ExpenseId), form);
      ExpenseFormOf(e) == form && e.id >= 1
      && (forall i :: 0 <= i < |expenses| ==> expenses[i].id < e.id)
      && DistinctKeys(expenses + [e], ExpenseId)
  {
    var e := NewExpense(FreshKey(expenses, ExpenseId), form);
    FreshKeyIsNew(expenses, ExpenseId, e);
    AppendFreshKeepsDistinct(expenses, ExpenseId, e);
  }

  /** The stored code of a category. */
  function CategoryCode(c: ExpenseCategory): string
  {
    match c
    case Part => "PART"
    case Outsource => "OUTSOURCE"
    case Fixed => "FIXED"
    case Etc => "ETC"
  }

  /** `getCategoryLabel(code)`: `labels[code] || code`, for a code that is
      not an inherited key of the table. */
  function CategoryLabel(code: string): string
  {
    if code == "PART" then "부품"
    else if code == "OUTSOURCE" then "외주"
    else if code == "FIXED" then "고정비"
    else if code == "ETC" then "기타"
    else code
  }

  /** The four categories get their own distinct labels, none equal to a code;
      any other code that is not an inherited key is shown as it is. */
  lemma CategoryLabelSpec(c: ExpenseCategory, d: ExpenseCategory, code: string)
    ensures CategoryLabel(CategoryCode(c)) != CategoryCode(c)
    ensures CategoryLabel(CategoryCode(c)) == CategoryLabel(CategoryCode(d)) <==> c == d
    ensures (forall k :: CategoryCode(k) != code) && !InheritedKey(code) ==> CategoryLabel(code) == code
  {
    assert CategoryCode(Part) == "PART" && CategoryCode(Outsource) == "OUTSOURCE";
    assert CategoryCode(Fixed) == "FIXED" && CategoryCode(Etc) == "ETC";
  }

  class ExpensesPage {
    var expenses: seq<Expense>
    var modalOpen: bool
    var editing: Option<Expense>
    var form: ExpenseForm
    var selectedYear: int
    var selectedMonth: int

    constructor (utcToday: string, year: int, month: int)
      ensures expenses == [] && !modalOpen && editing == None
      ensures form == BlankExpenseForm(utcToday) && selectedYear == year && selectedMonth == month
    {
      expenses := [];
      modalOpen := false;
      editing := None;
      form := BlankExpenseForm(utcToday);
      selectedYear := year;
      selectedMonth := month;
    }

    method Load(fetched: seq<Expense>)
      modifies this
      ensures expenses == fetched
      ensures modalOpen == old(modalOpen) && editing == old(editing) && form == old(form)
      ensures selectedYear == old(selectedYear) && selectedMonth == old(selectedMonth)
    {
      expenses := fetched;
    }

    method OpenModal(expense: Option<Expense>, utcToday: string)
      modifies this
      ensures editing == expense && modalOpen
      ensures form == (match expense case Some(e) => ExpenseFormOf(e) case None => BlankExpenseForm(utcToday))
      ensures expenses == old(expenses) && selectedYear == old(selectedYear) && selectedMonth == old(selectedMonth)
    {
      editing := expense;
      match expense {
        case Some(e) => form := ExpenseFormOf(e);
        case None => form := BlankExpenseForm(utcToday);
      }
      modalOpen := true;
    }

    method CloseModal()
      modifies this
      ensures !modalOpen && editing == None
      ensures expenses == old(expenses) && form == old(form)
      ensures selectedYear == old(selectedYear) && selectedMonth == old(selectedMonth)
    {
      modalOpen := false;
      editing := None;
    }

    method HandleSubmit()
      modifies this
      ensures old(editing).Some? ==>
        expenses == UpdateWhere(old(expenses), ExpenseId, old(editing).value.id, ApplyExpenseForm(old(form)))
      ensures old(editing).None? ==> expenses == old(expenses) + [NewExpense(FreshKey(old(expenses), ExpenseId), old(form))]
      ensures !modalOpen && editing == None && form == old(form)
      ensures selectedYear == old(selectedYear) && selectedMonth == old(selectedMonth)
    {
      match editing {
        case Some(e) =>
          expenses := UpdateWhere(expenses, ExpenseId, e.id, ApplyExpenseForm(form));
        case None =>
          expenses := expenses + [NewExpense(FreshKey(expenses, ExpenseId), form)];
      }
      CloseModal();
    }

    /** The modal's inputs. */
    method HandleInput(input: ExpenseInput)
      modifies this`form
      ensures form == EnterExpense(old(form), input)
    {
      form := EnterExpense(form, input);
    }

    /** The `MonthFilter` pickers: the list then shows that month's expenses. */
    method SelectMonth(year: int, month: int)
      modifies this`selectedYear, this`selectedMonth
      ensures selectedYear == year && selectedMonth == month
      ensures FilteredExpenses() == MonthView(expenses, ExpenseDate, MonthKey(year, month))
    {
      selectedYear := year;
      selectedMonth := month;
    }

    /** A confirmed `handleDelete`. */
    method HandleDelete(expenseId: int)
      modifies this
      ensures expenses == RemoveKey(old(expenses), ExpenseId, expenseId)
      ensures modalOpen == old(modalOpen) && editing == old(editing) && form == old(form)
      ensures selectedYear == old(selectedYear) && selectedMonth == old(selectedMonth)
    {
      expenses := RemoveKey(expenses, ExpenseId, expenseId);
    }

    /** `filteredExpenses`: the expenses dated in the selected month. */
    function FilteredExpenses(): seq<Expense>
      reads this
    {
      MonthView(expenses, ExpenseDate, MonthKey(selectedYear, selectedMonth))
    }
  }
}

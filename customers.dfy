/** The customer list (pages/customer-vehicle/CustomersPage.tsx): five
    filter fields narrowed one after another by `applyFilters`, and create,
    edit and delete of customers keyed by `customer_id`. */
module Customers {
  import opened Seqs
  import opened Text
  import opened Types
  import opened Records

  datatype CustomerFilters = CustomerFilters(name: string, carNumber: string, phone: string, email: string, memo: string)

  /** The filter inputs, in the order `applyFilters` applies them. */
  datatype FilterField = NameFilter | CarFilter | PhoneFilter | EmailFilter | MemoFilter

  const NoFilters: CustomerFilters := CustomerFilters("", "", "", "", "")

  function Term(f: CustomerFilters, k: FilterField): string
  {
    match k
    case NameFilter => f.name
    case CarFilter => f.carNumber
    case PhoneFilter => f.phone
    case EmailFilter => f.email
    case MemoFilter => f.memo
  }

  /** `handleFilterChange`: one filter field takes the typed value. */
  function SetFilter(f: CustomerFilters, k: FilterField, value: string): (r: CustomerFilters)
    ensures Term(r, k) == value
    ensures forall j :: j != k ==> Term(r, j) == Term(f, j)
  {
    match k
    case NameFilter => f.(name := value)
    case CarFilter => f.(carNumber := value)
    case PhoneFilter => f.(phone := value)
    case EmailFilter => f.(email := value)
    case MemoFilter => f.(memo := value)
  }

  /** The test of one filter block: name, car number, e-mail and memo ignore
      case, the phone number does not, and a customer without e-mail (memo)
      fails the e-mail (memo) test because `c.email?.…` is `undefined`. */
  predicate FieldMatches(c: Customer, k: FilterField, term: string)
  {
    match k
    case NameFilter => IncludesIgnoringCase(c.name, term)
    case CarFilter => IncludesIgnoringCase(c.carNumber, term)
    case PhoneFilter => Contains(c.phone, term)
    case EmailFilter => c.email.Some? && IncludesIgnoringCase(c.email.value, term)
    case MemoFilter => c.memo.Some? && IncludesIgnoringCase(c.memo.value, term)
  }

  /** One `if (filters.x)` block as a predicate: an empty field lets every customer through. */
  function Check(f: CustomerFilters, k: FilterField): Customer -> bool
  {
    (c: Customer) => Term(f, k) == "" || FieldMatches(c, k, Term(f, k))
  }

  function FieldAt(n: nat): FilterField
    requires n < 5
  {
    if n == 0 then NameFilter
    else if n == 1 then CarFilter
    else if n == 2 then PhoneFilter
    else if n == 3 then EmailFilter
    else MemoFilter
  }

  /** The customer passes the first `n` filter blocks. */
  predicate PassesFirst(f: CustomerFilters, n: nat, c: Customer)
    requires n <= 5
  {
    n == 0 || (PassesFirst(f, n - 1, c) && Check(f, FieldAt(n - 1))(c))
  }

  function Stage(f: CustomerFilters, n: nat): Customer -> bool
    requires n <= 5
  {
    (c: Customer) => PassesFirst(f, n, c)
  }

  /** The customers the filters let through, in list order. */
  function Matching(customers: seq<Customer>, f: CustomerFilters): seq<Customer>
  {
    Filter(Stage(f, 5), customers)
  }

  /** Applying one more filter block to the survivors of the first `n` blocks
      leaves the survivors of the first `n + 1`; a block whose field is empty
      is skipped and changes nothing. */
  lemma StageStep(customers: seq<Customer>, f: CustomerFilters, k: FilterField, n: nat, before: seq<Customer>, after: seq<Customer>)
    requires n < 5 && k == FieldAt(n)
    requires before == Filter(Stage(f, n), customers)
    requires after == if Term(f, k) == "" then before else Filter(Check(f, k), before)
    ensures after == Filter(Stage(f, n + 1), customers)
  {
    forall x: Customer ensures Stage(f, n + 1)(x) == (Stage(f, n)(x) && Check(f, k)(x)) {
    }
    FilterFilter(Stage(f, n), Check(f, k), Stage(f, n + 1), customers);
    if Term(f, k) == "" {
      FilterAll(Check(f, k), before);
    }
  }

  /** Before any block runs, every customer is still in the list. */
  lemma NoStageKeepsAll(customers: seq<Customer>, f: CustomerFilters)
    ensures Filter(Stage(f, 0), customers) == customers
  {
    FilterAll(Stage(f, 0), customers);
  }

  /** One `if (filters.x) filtered = filtered.filter(…)` block of
      `applyFilters`, applied to the survivors of the blocks before it. */
  method NarrowBy(customers: seq<Customer>, f: CustomerFilters, k: FilterField, n: nat, filtered: seq<Customer>)
    returns (narrowed: seq<Customer>)
    requires n < 5 && k == FieldAt(n)
    requires filtered == Filter(Stage(f, n), customers)
    ensures narrowed == Filter(Stage(f, n + 1), customers)
  {
    narrowed := filtered;
    if Term(f, k) != "" {
      narrowed := Filter(Check(f, k), narrowed);
    }
    StageStep(customers, f, k, n, filtered, narrowed);
  }

  /** `applyFilters`: starts from every customer and narrows the list by each
      non-empty filter field in turn. */
  method ApplyFilters(customers: seq<Customer>, f: CustomerFilters) returns (filtered: seq<Customer>)
    ensures filtered == Matching(customers, f)
  {
    filtered := customers;
    NoStageKeepsAll(customers, f);
    filtered := NarrowBy(customers, f, NameFilter, 0, filtered);
    filtered := NarrowBy(customers, f, CarFilter, 1, filtered);
    filtered := NarrowBy(customers, f, PhoneFilter, 2, filtered);
    filtered := NarrowBy(customers, f, EmailFilter, 3, filtered);
    filtered := NarrowBy(customers, f, MemoFilter, 4, filtered);
  }

  /** A customer passes the filters exactly when every non-empty field
      matches: the five tests are combined with AND. */
  lemma PassesSpec(f: CustomerFilters, c: Customer)
    ensures Stage(f, 5)(c) <==>
      (f.name == "" || IncludesIgnoringCase(c.name, f.name))
      && (f.carNumber == "" || IncludesIgnoringCase(c.carNumber, f.carNumber))
      && (f.phone == "" || Contains(c.phone, f.phone))
      && (f.email == "" || (c.email.Some? && IncludesIgnoringCase(c.email.value, f.email)))
      && (f.memo == "" || (c.memo.Some? && IncludesIgnoringCase(c.memo.value, f.memo)))
  {
    assert PassesFirst(f, 1, c) == Check(f, NameFilter)(c);
    assert PassesFirst(f, 2, c) == (PassesFirst(f, 1, c) && Check(f, CarFilter)(c));
    assert PassesFirst(f, 3, c) == (PassesFirst(f, 2, c) && Check(f, PhoneFilter)(c));
    assert PassesFirst(f, 4, c) == (PassesFirst(f, 3, c) && Check(f, EmailFilter)(c));
    assert PassesFirst(f, 5, c) == (PassesFirst(f, 4, c) && Check(f, MemoFilter)(c));
  }

  /** The filtered list keeps input order, holds exactly the customers that
      pass, and with every field empty is the whole list. */
  lemma MatchingSpec(customers: seq<Customer>, f: CustomerFilters)
    ensures var r := Matching(customers, f);
      IsSubsequence(r, customers)
      && (forall i :: 0 <= i < |r| ==> Stage(f, 5)(r[i]))
      && (forall i :: 0 <= i < |customers| && Stage(f, 5)(customers[i]) ==> customers[i] in r)
    ensures Matching(customers, NoFilters) == customers
  {
    FilterIsSubsequence(Stage(f, 5), customers);
    forall i | 0 <= i < |customers| ensures Stage(NoFilters, 5)(customers[i]) {
      PassesSpec(NoFilters, customers[i]);
    }
    FilterAll(Stage(NoFilters, 5), customers);
  }

  /** A non-empty e-mail (memo) filter drops every customer without an e-mail (memo). */
  lemma MissingFieldExcluded(f: CustomerFilters, c: Customer)
    requires (f.email != "" && c.email.None?) || (f.memo != "" && c.memo.None?)
    ensures !Stage(f, 5)(c)
  {
    PassesSpec(f, c);
  }

  datatype CustomerForm = CustomerForm(name: string, carNumber: string, phone: string, email: string, memo: string)

  const BlankCustomerForm: CustomerForm := CustomerForm("", "", "", "", "")

  function CustomerId(c: Customer): int { c.id }

  /** The modal form has the same five inputs as the filter bar. */
  function FormField(form: CustomerForm, k: FilterField): string
  {
    match k
    case NameFilter => form.name
    case CarFilter => form.carNumber
    case PhoneFilter => form.phone
    case EmailFilter => form.email
    case MemoFilter => form.memo
  }

  /** `handleInputChange`: one form input takes the typed value. */
  function SetFormField(form: CustomerForm, k: FilterField, value: string): (r: CustomerForm)
    ensures FormField(r, k) == value
    ensures forall j :: j != k ==> FormField(r, j) == FormField(form, j)
  {
    match k
    case NameFilter => form.(name := value)
    case CarFilter => form.(carNumber := value)
    case PhoneFilter => form.(phone := value)
    case EmailFilter => form.(email := value)
    case MemoFilter => form.(memo := value)
  }

  /** The edit form of a customer: a missing e-mail or memo shows as ''. */
  function CustomerFormOf(c: Customer): CustomerForm
  {
    CustomerForm(c.name, c.carNumber, c.phone, OrEmpty(c.email), OrEmpty(c.memo))
  }

  /** The edit branch of `handleSubmit`: the five form fields replace the
      customer's, which keeps its `customer_id` and `created_at`. */
  function ApplyCustomerForm(form: CustomerForm): Customer -> Customer
  {
    (c: Customer) => c.(name := form.name, carNumber := form.carNumber, phone := form.phone,
      email := Some(form.email), memo := Some(form.memo))
  }

  /** The create branch: the form's fields, a fresh id and `created_at` today. */
  function NewCustomer(id: int, form: CustomerForm, utcToday: string): Customer
  {
    Customer(id, form.name, form.carNumber, form.phone, Some(form.email), Some(form.memo), utcToday)
  }

  /** An edit keeps the id and the creation date and reads back as the form;
      saving an untouched edit form gives back the customer exactly when it
      had an e-mail and a memo (a missing one is saved as ''). */
  lemma EditCustomerSpec(c: Customer, form: CustomerForm)
    ensures var e := ApplyCustomerForm(form)(c);
      e.id == c.id && e.createdAt == c.createdAt && CustomerFormOf(e) == form
    ensures ApplyCustomerForm(CustomerFormOf(c))(c) == c <==> c.email.Some? && c.memo.Some?
  {
  }

  /** A created customer has an id above every id in the list, today's date,
      and keeps the ids distinct. */
  lemma CreateCustomerSpec(customers: seq<Customer>, form: CustomerForm, utcToday: string)
    requires DistinctKeys(customers, CustomerId)
    ensures var c := NewCustomer(FreshKey(customers, CustomerId), form, utcToday);
      CustomerFormOf(c) == form && c.createdAt == utcToday
      && (forall i :: 0 <= i < |customers| ==> customers[i].id < c.id)
      && DistinctKeys(customers + [c], CustomerId)
  {
    var c := NewCustomer(FreshKey(customers, CustomerId), form, utcToday);
    FreshKeyIsNew(customers, CustomerId, c);
    AppendFreshKeepsDistinct(customers, CustomerId, c);
  }

  class CustomersPage {
    var customers: seq<Customer>
    var filters: CustomerFilters
    var filteredCustomers: seq<Customer>
    var modalOpen: bool
    var editing: Option<Customer>
    var form: CustomerForm

    /** The shown list is always the filtered customers (the effect on
        `[customers, filters]`). */
    predicate Valid()
      reads this
    {
      filteredCustomers == Matching(customers, filters)
    }

    constructor ()
      ensures Valid()
      ensures customers == [] && filters == NoFilters && filteredCustomers == []
      ensures !modalOpen && editing == None && form == BlankCustomerForm
    {
      customers := [];
      filters := NoFilters;
      filteredCustomers := [];
      modalOpen := false;
      editing := None;
      form := BlankCustomerForm;
    }

    /** Re-runs `applyFilters` after `customers` or `filters` changed. */
    method Refresh()
      modifies this`filteredCustomers
      ensures Valid()
    {
      filteredCustomers := ApplyFilters(customers, filters);
    }

    method Load(fetched: seq<Customer>)
      modifies this`customers, this`filteredCustomers
      ensures customers == fetched && Valid()
    {
      customers := fetched;
      Refresh();
    }

    method HandleFilterChange(k: FilterField, value: string)
      modifies this`filters, this`filteredCustomers
      ensures filters == SetFilter(old(filters), k, value) && Valid()
    {
      filters := SetFilter(filters, k, value);
      Refresh();
    }

    method OpenModal(customer: Option<Customer>)
      modifies this`editing, this`form, this`modalOpen
      ensures editing == customer && modalOpen
      ensures form == (match customer case Some(c) => CustomerFormOf(c) case None => BlankCustomerForm)
    {
      editing := customer;
      match customer {
        case Some(c) => form := CustomerFormOf(c);
        case None => form := BlankCustomerForm;
      }
      modalOpen := true;
    }

    method CloseModal()
      modifies this`modalOpen, this`editing
      ensures !modalOpen && editing == None
    {
      modalOpen := false;
      editing := None;
    }

    method HandleSubmit(utcToday: string)
      modifies this`customers, this`filteredCustomers, this`modalOpen, this`editing
      ensures old(editing).Some? ==>
        customers == UpdateWhere(old(customers), CustomerId, old(editing).value.id, ApplyCustomerForm(form))
      ensures old(editing).None? ==>
        customers == old(customers) + [NewCustomer(FreshKey(old(customers), CustomerId), form, utcToday)]
      ensures Valid() && !modalOpen && editing == None
    {
      match editing {
        case Some(c) =>
          customers := UpdateWhere(customers, CustomerId, c.id, ApplyCustomerForm(form));
        case None =>
          customers := customers + [NewCustomer(FreshKey(customers, CustomerId), form, utcToday)];
      }
      Refresh();
      CloseModal();
    }

    method HandleInputChange(k: FilterField, value: string)
      modifies this`form
      ensures form == SetFormField(old(form), k, value)
    {
      form := SetFormField(form, k, value);
    }

    /** A confirmed `handleDelete`. */
    method HandleDelete(customerId: int)
      modifies this`customers, this`filteredCustomers
      ensures customers == RemoveKey(old(customers), CustomerId, customerId) && Valid()
    {
      customers := RemoveKey(customers, CustomerId, customerId);
      Refresh();
    }
  }
}

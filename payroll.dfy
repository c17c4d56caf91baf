/** Employees and payroll payments (pages/expense-payroll/PayrollPage.tsx):
    two lists keyed by `emp_id` and `payroll_id`, each with create, edit and
    delete, the employee-name lookup, and the payments of a pay month. */
module Payrolls {
  import opened Seqs
  import opened Text
  import opened Types
  import opened Records
  import opened Months

  datatype EmployeeForm = EmployeeForm(name: string, role: string, monthlyPay: int, joinDate: string)

  datatype PayrollForm = PayrollForm(empId: int, payMonth: string, payAmount: int, paidDate: string)

  /** One change in the employee modal: the control and the value it now
      holds, the pay input's value read as a number. */
  datatype EmployeeInput =
    | NameInput(name: string)
    | RoleInput(role: string)
    | MonthlyPayInput(monthlyPay: int)
    | JoinDateInput(joinDate: string)

  /** The form holds the value the input entered. */
  predicate EmployeeShows(form: EmployeeForm, input: EmployeeInput)
  {
    match input
    case NameInput(v) => form.name == v
    case RoleInput(v) => form.role == v
    case MonthlyPayInput(v) => form.monthlyPay == v
    case JoinDateInput(v) => form.joinDate == v
  }

  /** The two inputs are changes of the same control. */
  predicate SameEmployeeControl(a: EmployeeInput, b: EmployeeInput)
  {
    a.NameInput? == b.NameInput? && a.RoleInput? == b.RoleInput?
    && a.MonthlyPayInput? == b.MonthlyPayInput? && a.JoinDateInput? == b.JoinDateInput?
  }

  /** An input's `onChange`, `{ ...prev, [field]: e.target.value }`: the
      control shows the value and every other control keeps what it showed. */
  function EnterEmployee(form: EmployeeForm, input: EmployeeInput): (r: EmployeeForm)
    ensures EmployeeShows(r, input)
    ensures forall other :: !SameEmployeeControl(other, input) ==> EmployeeShows(r, other) == EmployeeShows(form, other)
  {
    match input
    case NameInput(v) => form.(name := v)
    case RoleInput(v) => form.(role := v)
    case MonthlyPayInput(v) => form.(monthlyPay := v)
    case JoinDateInput(v) => form.(joinDate := v)
  }

  /** One change in the payment modal: the employee select's value read as
      an id, the amount input's as a number. */
  datatype PayrollInput =
    | EmpIdInput(empId: int)
    | PayMonthInput(payMonth: string)
    | PayAmountInput(payAmount: int)
    | PaidDateInput(paidDate: string)

  /** The form holds the value the input entered. */
  predicate PayrollShows(form: PayrollForm, input: PayrollInput)
  {
    match input
    case EmpIdInput(v) => form.empId == v
    case PayMonthInput(v) => form.payMonth == v
    case PayAmountInput(v) => form.payAmount == v
    case PaidDateInput(v) => form.paidDate == v
  }

  /** The two inputs are changes of the same control. */
  predicate SamePayrollControl(a: PayrollInput, b: PayrollInput)
  {
    a.EmpIdInput? == b.EmpIdInput? && a.PayMonthInput? == b.PayMonthInput?
    && a.PayAmountInput? == b.PayAmountInput? && a.PaidDateInput? == b.PaidDateInput?
  }

  /** An input's `onChange`, `{ ...prev, [field]: e.target.value }`: the
      control shows the value and every other control keeps what it showed. */
  function EnterPayroll(form: PayrollForm, input: PayrollInput): (r: PayrollForm)
    ensures PayrollShows(r, input)
    ensures forall other :: !SamePayrollControl(other, input) ==> PayrollShows(r, other) == PayrollShows(form, other)
  {
    match input
    case EmpIdInput(v) => form.(empId := v)
    case PayMonthInput(v) => form.(payMonth := v)
    case PayAmountInput(v) => form.(payAmount := v)
    case PaidDateInput(v) => form.(paidDate := v)
  }

  function EmpId(e: Employee): int { e.id }

  function PayrollId(p: Payroll): int { p.id }

  function BlankEmployeeForm(utcToday: string): EmployeeForm
  {
    EmployeeForm("", "", 0, utcToday)
  }

  function EmployeeFormOf(e: Employee): EmployeeForm
  {
    EmployeeForm(e.name, e.role, e.monthlyPay, e.joinDate)
  }

  /** `{ ...emp, ...employeeForm, monthly_pay: Number(...) }`. */
  function ApplyEmployeeForm(form: EmployeeForm): Employee -> Employee
  {
    (e: Employee) => e.(name := form.name, role := form.role, monthlyPay := form.monthlyPay, joinDate := form.joinDate)
  }

  function NewEmployee(id: int, form: EmployeeForm): Employee
  {
    Employee(id, form.name, form.role, form.monthlyPay, form.joinDate)
  }

  /** The create form of a payment: the current month, today. */
  function BlankPayrollForm(year: int, month: int, utcToday: string): PayrollForm
  {
    PayrollForm(0, MonthKey(year, month), 0, utcToday)
  }

  function PayrollFormOf(p: Payroll): PayrollForm
  {
    PayrollForm(p.empId, p.payMonth, p.payAmount, p.paidDate)
  }

  function ApplyPayrollForm(form: PayrollForm): Payroll -> Payroll
  {
    (p: Payroll) => p.(empId := form.empId, payMonth := form.payMonth, payAmount := form.payAmount, paidDate := form.paidDate)
  }

  function NewPayroll(id: int, form: PayrollForm): Payroll
  {
    Payroll(id, form.empId, form.payMonth, form.payAmount, form.paidDate)
  }

  /** Edits keep the record's id and write back exactly the form. */
  lemma EditSpec(e: Employee, ef: EmployeeForm, p: Payroll, pf: PayrollForm)
    ensures ApplyEmployeeForm(ef)(e).id == e.id && EmployeeFormOf(ApplyEmployeeForm(ef)(e)) == ef
    ensures ApplyEmployeeForm(EmployeeFormOf(e))(e) == e
    ensures ApplyPayrollForm(pf)(p).id == p.id && PayrollFormOf(ApplyPayrollForm(pf)(p)) == pf
    ensures ApplyPayrollForm(PayrollFormOf(p))(p) == p
  {
  }

  /** Creates take a fresh id in their own list and keep its ids distinct. */
  lemma CreateSpec(employees: seq<Employee>, ef: EmployeeForm, payrolls: seq<Payroll>, pf: PayrollForm)
    requires DistinctKeys(employees, EmpId) && DistinctKeys(payrolls, PayrollId)
    ensures var e := NewEmployee(FreshKey(employees, EmpId), ef);
      EmployeeFormOf(e) == ef && (forall i :: 0 <= i < |employees| ==> employees[i].id < e.id)
      && DistinctKeys(employees + [e], EmpId)
    ensures var p := NewPayroll(FreshKey(payrolls, PayrollId), pf);
      PayrollFormOf(p) == pf && (forall i :: 0 <= i < |payrolls| ==> payrolls[i].id < p.id)
      && DistinctKeys(payrolls + [p], PayrollId)
  {
    var e := NewEmployee(FreshKey(employees, EmpId), ef);
    FreshKeyIsNew(employees, EmpId, e);
    AppendFreshKeepsDistinct(employees, EmpId, e);
    var p := NewPayroll(FreshKey(payrolls, PayrollId), pf);
    FreshKeyIsNew(payrolls, PayrollId, p);
    AppendFreshKeepsDistinct(payrolls, PayrollId, p);
  }

  const UnknownName: string := "알 수 없음"

  /** `i` is the first position holding an employee with id `empId`. */
  predicate IsFirstWithId(employees: seq<Employee>, empId: int, i: int)
  {
    0 <= i < |employees| && employees[i].id == empId
    && forall j :: 0 <= j < i ==> employees[j].id != empId
  }

  /** `employees.find(e => e.emp_id === empId)`. */
  function FindEmployee(employees: seq<Employee>, empId: int): (r: Option<Employee>)
    ensures r.None? <==> forall i :: 0 <= i < |employees| ==> employees[i].id != empId
    ensures r.Some? ==> r.value.id == empId && exists i :: IsFirstWithId(employees, empId, i) && employees[i] == r.value
    decreases |employees|
  {
    if employees == [] then None
    else if employees[0].id == empId then Some(employees[0])
    else
      var r := FindEmployee(employees[1..], empId);
      if r.Some? then
        var i :| IsFirstWithId(employees[1..], empId, i) && employees[1..][i] == r.value;
        assert IsFirstWithId(employees, empId, i + 1);
        r
      else r
  }

  /** `getEmployeeName`: the first matching employee's name, or '알 수 없음'
      when there is none or the name is empty. */
  function EmployeeName(employees: seq<Employee>, empId: int): string
  {
    match FindEmployee(employees, empId)
    case Some(e) => if e.name != "" then e.name else UnknownName
    case None => UnknownName
  }

  /** Deleting an employee leaves the payments alone, and from then on their
      employee's name reads '알 수 없음'. */
  lemma DeleteEmployeeOrphansPayrolls(employees: seq<Employee>, empId: int)
    ensures EmployeeName(RemoveKey(employees, EmpId, empId), empId) == UnknownName
  {
    RemoveKeySpec(employees, EmpId, empId);
  }

  /** The test of the pay-month view: exact equality with the month key. */
  function PaidIn(key: string): Payroll -> bool
  {
    (p: Payroll) => p.payMonth == key
  }

  /** `filteredPayrolls`. */
  function PayrollsOfMonth(payrolls: seq<Payroll>, key: string): seq<Payroll>
  {
    Filter(PaidIn(key), payrolls)
  }

  /** The pay-month view holds exactly the payments whose `pay_month` equals
      the key, in order; unlike the date views it is not a prefix match. */
  lemma PayrollsOfMonthSpec(payrolls: seq<Payroll>, key: string)
    ensures var r := PayrollsOfMonth(payrolls, key);
      (forall i :: 0 <= i < |r| ==> r[i].payMonth == key && r[i] in payrolls)
      && (forall i :: 0 <= i < |payrolls| && payrolls[i].payMonth == key ==> payrolls[i] in r)
      && IsSubsequence(r, payrolls)
  {
    FilterIsSubsequence(PaidIn(key), payrolls);
  }

  class PayrollPage {
    var employees: seq<Employee>
    var payrolls: seq<Payroll>
    var selectedYear: int
    var selectedMonth: int
    var employeeModalOpen: bool
    var editingEmployee: Option<Employee>
    var employeeForm: EmployeeForm
    var payrollModalOpen: bool
    var editingPayroll: Option<Payroll>
    var payrollForm: PayrollForm

    constructor (utcToday: string, year: int, month: int)
      ensures employees == [] && payrolls == [] && selectedYear == year && selectedMonth == month
      ensures !employeeModalOpen && editingEmployee == None && employeeForm == BlankEmployeeForm(utcToday)
      ensures !payrollModalOpen && editingPayroll == None && payrollForm == BlankPayrollForm(year, month, utcToday)
    {
      employees := [];
      payrolls := [];
      selectedYear := year;
      selectedMonth := month;
      employeeModalOpen := false;
      editingEmployee := None;
      employeeForm := BlankEmployeeForm(utcToday);
      payrollModalOpen := false;
      editingPayroll := None;
      payrollForm := BlankPayrollForm(year, month, utcToday);
    }

    method Load(fetchedEmployees: seq<Employee>, fetchedPayrolls: seq<Payroll>)
      modifies this`employees, this`payrolls
      ensures employees == fetchedEmployees && payrolls == fetchedPayrolls
    {
      employees := fetchedEmployees;
      payrolls := fetchedPayrolls;
    }

    method OpenEmployeeModal(employee: Option<Employee>, utcToday: string)
      modifies this`editingEmployee, this`employeeForm, this`employeeModalOpen
      ensures editingEmployee == employee && employeeModalOpen
      ensures employeeForm == (match employee case Some(e) => EmployeeFormOf(e) case None => BlankEmployeeForm(utcToday))
    {
      editingEmployee := employee;
      match employee {
        case Some(e) => employeeForm := EmployeeFormOf(e);
        case None => employeeForm := BlankEmployeeForm(utcToday);
      }
      employeeModalOpen := true;
    }

    method HandleEmployeeSubmit()
      modifies this`employees, this`employeeModalOpen, this`editingEmployee
      ensures old(editingEmployee).Some? ==>
        employees == UpdateWhere(old(employees), EmpId, old(editingEmployee).value.id, ApplyEmployeeForm(employeeForm))
      ensures old(editingEmployee).None? ==>
        employees == old(employees) + [NewEmployee(FreshKey(old(employees), EmpId), employeeForm)]
      ensures !employeeModalOpen && editingEmployee == None
    {
      match editingEmployee {
        case Some(e) =>
          employees := UpdateWhere(employees, EmpId, e.id, ApplyEmployeeForm(employeeForm));
        case None =>
          employees := employees + [NewEmployee(FreshKey(employees, EmpId), employeeForm)];
      }
      employeeModalOpen := false;
      editingEmployee := None;
    }

    /** The employee modal's inputs. */
    method HandleEmployeeInput(input: EmployeeInput)
      modifies this`employeeForm
      ensures employeeForm == EnterEmployee(old(employeeForm), input)
    {
      employeeForm := EnterEmployee(employeeForm, input);
    }

    /** `closeEmployeeModal`: the form keeps what was typed. */
    method CloseEmployeeModal()
      modifies this`employeeModalOpen, this`editingEmployee
      ensures !employeeModalOpen && editingEmployee == None
    {
      employeeModalOpen := false;
      editingEmployee := None;
    }

    /** A confirmed `handleDeleteEmployee`: the payments are not touched. */
    method HandleDeleteEmployee(empId: int)
      modifies this`employees
      ensures employees == RemoveKey(old(employees), EmpId, empId)
    {
      employees := RemoveKey(employees, EmpId, empId);
    }

    method OpenPayrollModal(payroll: Option<Payroll>, year: int, month: int, utcToday: string)
      modifies this`editingPayroll, this`payrollForm, this`payrollModalOpen
      ensures editingPayroll == payroll && payrollModalOpen
      ensures payrollForm == (match payroll case Some(p) => PayrollFormOf(p) case None => BlankPayrollForm(year, month, utcToday))
    {
      editingPayroll := payroll;
      match payroll {
        case Some(p) => payrollForm := PayrollFormOf(p);
        case None => payrollForm := BlankPayrollForm(year, month, utcToday);
      }
      payrollModalOpen := true;
    }

    method HandlePayrollSubmit()
      modifies this`payrolls, this`payrollModalOpen, this`editingPayroll
      ensures old(editingPayroll).Some? ==>
        payrolls == UpdateWhere(old(payrolls), PayrollId, old(editingPayroll).value.id, ApplyPayrollForm(payrollForm))
      ensures old(editingPayroll).None? ==>
        payrolls == old(payrolls) + [NewPayroll(FreshKey(old(payrolls), PayrollId), payrollForm)]
      ensures !payrollModalOpen && editingPayroll == None
    {
      match editingPayroll {
        case Some(p) =>
          payrolls := UpdateWhere(payrolls, PayrollId, p.id, ApplyPayrollForm(payrollForm));
        case None =>
          payrolls := payrolls + [NewPayroll(FreshKey(payrolls, PayrollId), payrollForm)];
      }
      payrollModalOpen := false;
      editingPayroll := None;
    }

    /** The payment modal's inputs. */
    method HandlePayrollInput(input: PayrollInput)
      modifies this`payrollForm
      ensures payrollForm == EnterPayroll(old(payrollForm), input)
    {
      payrollForm := EnterPayroll(payrollForm, input);
    }

    /** `closePayrollModal`. */
    method ClosePayrollModal()
      modifies this`payrollModalOpen, this`editingPayroll
      ensures !payrollModalOpen && editingPayroll == None
    {
      payrollModalOpen := false;
      editingPayroll := None;
    }

    /** The year and month pickers: the list then shows that month's payments. */
    method SelectMonth(year: int, month: int)
      modifies this`selectedYear, this`selectedMonth
      ensures selectedYear == year && selectedMonth == month
      ensures FilteredPayrolls() == PayrollsOfMonth(payrolls, MonthKey(year, month))
    {
      selectedYear := year;
      selectedMonth := month;
    }

    /** A confirmed `handleDeletePayroll`. */
    method HandleDeletePayroll(payrollId: int)
      modifies this`payrolls
      ensures payrolls == RemoveKey(old(payrolls), PayrollId, payrollId)
    {
      payrolls := RemoveKey(payrolls, PayrollId, payrollId);
    }

    function FilteredPayrolls(): seq<Payroll>
      reads this
    {
      PayrollsOfMonth(payrolls, MonthKey(selectedYear, selectedMonth))
    }
  }
}

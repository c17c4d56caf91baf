/** The records and closed enumerations of the dashboard (src/types/index.ts).
    Every numeric field is an integer: ids, KRW amounts, minutes, mileage. */
module Types {
  import opened Seqs

  /** `Schedule['status']`: a closed four-value type. */
  datatype Status = Pending | InProgress | Completed | Cancelled

  /** `Sale['payment_type']` and `Expense['payment_type']`. */
  datatype PaymentType = Cash | Card | Transfer

  /** `Expense['category']`. */
  datatype ExpenseCategory = Part | Outsource | Fixed | Etc

  /** `MaintenanceItem['category']`. */
  datatype MaintenanceCategory = Engine | Brake | Suspension | Electrical | Body | Other

  /** An appointment. `created_at` is optional here because the today-board's
      create handler builds a schedule without it. */
  datatype Schedule = Schedule(
    id: int,
    customerId: Option<int>,
    customerName: string,
    carNumber: string,
    phone: string,
    scheduleDate: string,
    scheduleTime: string,
    serviceType: string,
    status: Status,
    memo: Option<string>,
    createdAt: Option<string>)

  datatype Sale = Sale(
    id: int,
    saleDate: string,
    amount: int,
    paymentType: PaymentType,
    carNumber: Option<string>,
    customerName: Option<string>,
    memo: Option<string>)

  datatype Expense = Expense(
    id: int,
    expenseDate: string,
    category: ExpenseCategory,
    vendorName: string,
    amount: int,
    paymentType: PaymentType,
    receiptPath: Option<string>,
    memo: Option<string>)

  datatype Receivable = Receivable(
    id: int,
    saleId: int,
    customerName: string,
    amount: int,
    dueDate: string,
    paid: bool,
    paidDate: Option<string>)

  datatype Employee = Employee(
    id: int,
    name: string,
    role: string,
    monthlyPay: int,
    joinDate: string)

  datatype Payroll = Payroll(
    id: int,
    empId: int,
    payMonth: string,
    payAmount: int,
    paidDate: string)

  datatype Customer = Customer(
    id: int,
    name: string,
    carNumber: string,
    phone: string,
    email: Option<string>,
    memo: Option<string>,
    createdAt: string)

  datatype Vehicle = Vehicle(
    id: int,
    customerId: int,
    customerName: string,
    carNumber: string,
    carModel: string,
    carYear: Option<int>,
    mileage: Option<int>,
    vin: Option<string>,
    memo: Option<string>,
    createdAt: string)

  datatype MaintenanceRecord = MaintenanceRecord(
    id: int,
    vehicleId: int,
    customerName: string,
    carNumber: string,
    serviceDate: string,
    serviceItems: seq<string>,
    partsCost: int,
    laborCost: int,
    totalCost: int,
    mileage: Option<int>,
    technician: Option<string>,
    memo: Option<string>)

  datatype MaintenanceItem = MaintenanceItem(
    id: int,
    name: string,
    category: MaintenanceCategory,
    defaultPrice: int,
    defaultDuration: int,
    description: Option<string>,
    isActive: bool)

  /** `BusinessHoursConfig`: one weekday's opening hours. */
  datatype HoursConfig = HoursConfig(
    day: string,
    dayKo: string,
    isOpen: bool,
    openTime: string,
    closeTime: string)

  /** `MonthlyData`: one point of a monthly series. */
  datatype MonthlyData = MonthlyData(month: int, value: int)
}

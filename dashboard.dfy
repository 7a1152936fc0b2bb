/**
 * The dashboard's summary figures: computed once, on mount, from the four
 * collections and the clock.
 */
module Dashboard {
  import opened Types
  import opened Seqs
  import opened Storage
  import opened InvoicesPage

  /** The English month names, as `toLocaleDateString('en-US', { month: 'long' })` writes them. */
  const MonthNames: seq<string> := [
    "January", "February", "March", "April", "May", "June",
    "July", "August", "September", "October", "November", "December"]

  /**
   * The long English name of a month counted from 0; no other month has
   * that name, so a payroll entry's month field picks out one month.
   */
  function MonthName(month: int): (name: string)
    requires 0 <= month < 12
    ensures name in MonthNames
    ensures forall m | 0 <= m < 12 && m != month :: MonthNames[m] != name
  {
    MonthNames[month]
  }

  /** Different months have different names, so a name picks out one month. */
  lemma MonthNamesDistinct()
    ensures |MonthNames| == 12
    ensures forall i, j | 0 <= i < j < 12 :: MonthNames[i] != MonthNames[j]
  {
  }

  /** The eight dashboard cards. */
  datatype DashboardStats = DashboardStats(
    totalClients: nat,
    totalEmployees: nat,
    totalInvoices: nat,
    paidInvoices: nat,
    pendingInvoices: nat,
    totalRevenue: int,
    monthlyPayroll: int,
    activeEmployees: nat)

  /** `p.netSalary`, in cents. */
  function NetSalaryOf(entry: Record): int
  {
    NumberOf(entry, "netSalary")
  }

  /** `e => e.status === 'active'`. */
  function IsActiveEmployee(): Record -> bool
  {
    FieldEquals("status", Str(Active.Name()))
  }

  /** The payroll entries of the current month and year, `monthlyPayrollEntries`, in stored order. */
  function MonthlyEntries(payroll: seq<Record>, today: Timestamp): (r: seq<Record>)
    requires 0 <= today.month < 12
    ensures IsFilterOf(r, payroll, InPeriod(MonthName(today.month), today.year))
  {
    FilterSpec(payroll, InPeriod(MonthName(today.month), today.year));
    Filter(payroll, InPeriod(MonthName(today.month), today.year))
  }

  /**
   * The argument of `setStats`: the three totals are the collections'
   * sizes; the paid count is the number of paid invoices and the pending
   * count the number of sent ones only, so an overdue invoice is not
   * pending here; the active count is at most the number of employees.
   */
  function ComputeDashboard(clients: seq<Record>, employees: seq<Record>, invoices: seq<Record>,
                            payroll: seq<Record>, today: Timestamp): (st: DashboardStats)
    requires 0 <= today.month < 12
    ensures st.totalClients == |clients| && st.totalEmployees == |employees| && st.totalInvoices == |invoices|
    ensures st.paidInvoices <= |invoices| && st.pendingInvoices <= |invoices|
    ensures st.paidInvoices == |Filter(invoices, StatusIs(Paid))|
    ensures st.pendingInvoices == |Filter(invoices, StatusIs(Sent))|
    ensures st.activeEmployees <= |employees|
  {
    FilterSpec(invoices, StatusIs(Paid));
    FilterSpec(invoices, StatusIs(Sent));
    CountMonotone(invoices, StatusIs(Paid), StatusIs(Paid));
    CountMonotone(invoices, StatusIs(Sent), StatusIs(Sent));
    CountMonotone(employees, IsActiveEmployee(), IsActiveEmployee());
    DashboardStats(
      |clients|,
      |employees|,
      |invoices|,
      CountWhere(invoices, StatusIs(Paid)),
      CountWhere(invoices, StatusIs(Sent)),
      Sum(Filter(invoices, StatusIs(Paid)), TotalOf),
      Sum(MonthlyEntries(payroll, today), NetSalaryOf),
      CountWhere(employees, IsActiveEmployee()))
  }

  /** The dashboard reads the four collections of the store. */
  function DashboardOf(store: RecordStore, today: Timestamp): DashboardStats
    requires 0 <= today.month < 12
    reads store
  {
    ComputeDashboard(store.Get(Clients), store.Get(Employees), store.Get(Invoices), store.Get(Payroll), today)
  }

  /**
   * The counts are bounded by the collections: paid and pending invoices are
   * disjoint and together at most all invoices, and active employees at most
   * all employees.
   */
  lemma DashboardBounds(clients: seq<Record>, employees: seq<Record>, invoices: seq<Record>,
                        payroll: seq<Record>, today: Timestamp)
    requires 0 <= today.month < 12
    ensures var st := ComputeDashboard(clients, employees, invoices, payroll, today);
      && st.totalClients == |clients| && st.totalEmployees == |employees| && st.totalInvoices == |invoices|
      && st.paidInvoices + st.pendingInvoices <= st.totalInvoices
      && st.activeEmployees <= st.totalEmployees
  {
    forall i | 0 <= i < |invoices| ensures !(StatusIs(Paid)(invoices[i]) && StatusIs(Sent)(invoices[i])) {
      if StatusIs(Paid)(invoices[i]) && StatusIs(Sent)(invoices[i]) {
        StatusesExclusive(invoices[i], Paid, Sent);
      }
    }
    CountDisjoint(invoices, StatusIs(Paid), StatusIs(Sent), (inv: Record) => StatusIs(Paid)(inv) || StatusIs(Sent)(inv));
    FilterSpec(employees, IsActiveEmployee());
  }

  /**
   * The store-level reading of the cards: paid is the size of
   * `getByStatus('paid')`, revenue the sum of totals over it, active the size
   * of `getActiveEmployees()`, and the monthly payroll the sum of net
   * salaries over `getByPeriod(current month name, current year)`.
   */
  lemma DashboardAgreesWithQueries(store: RecordStore, today: Timestamp)
    requires 0 <= today.month < 12
    ensures var st := DashboardOf(store, today);
      && st.paidInvoices == |store.InvoicesByStatus(Paid)|
      && st.totalRevenue == Sum(store.InvoicesByStatus(Paid), TotalOf)
      && st.activeEmployees == |store.ActiveEmployees()|
      && st.monthlyPayroll == Sum(store.PayrollByPeriod(MonthName(today.month), today.year), NetSalaryOf)
  {
    FilterSpec(store.Get(Invoices), StatusIs(Paid));
    FilterSpec(store.Get(Employees), IsActiveEmployee());
  }

  /**
   * Only that month's entries count: an entry is summed exactly when its
   * month field holds the current month's name and its year field the
   * current year; an entry of the same month of another year is not.
   */
  lemma MonthlyEntriesSpec(payroll: seq<Record>, today: Timestamp)
    requires 0 <= today.month < 12
    ensures forall e :: e in MonthlyEntries(payroll, today) <==>
      e in payroll && FieldIs(e, "month", Str(MonthNames[today.month])) && FieldIs(e, "year", Num(today.year))
    ensures forall r | IsFilterOf(r, payroll, InPeriod(MonthName(today.month), today.year)) ::
      r == MonthlyEntries(payroll, today)
  {
    FilterSpec(payroll, InPeriod(MonthName(today.month), today.year));
    forall r | IsFilterOf(r, payroll, InPeriod(MonthName(today.month), today.year))
      ensures r == MonthlyEntries(payroll, today)
    {
      FilterOfIsFilter(r, payroll, InPeriod(MonthName(today.month), today.year));
    }
  }

  /**
   * Every entry is summed once: a payroll entry of the current period adds
   * exactly its net salary to the monthly payroll card, and an entry of any
   * other period adds nothing.
   */
  lemma MonthlyPayrollAfterAdd(payroll: seq<Record>, entry: Record, today: Timestamp)
    requires 0 <= today.month < 12
    ensures var before, after := Sum(MonthlyEntries(payroll, today), NetSalaryOf),
                                 Sum(MonthlyEntries(payroll + [entry], today), NetSalaryOf);
      after == if InPeriod(MonthName(today.month), today.year)(entry) then before + NetSalaryOf(entry) else before
  {
    var p := InPeriod(MonthName(today.month), today.year);
    FilterAppend(payroll, [entry], p);
    assert [entry][1..] == [];
    SumAppend(Filter(payroll, p), Filter([entry], p), NetSalaryOf);
    if p(entry) {
      assert Filter([entry], p) == [entry];
      assert Sum([entry], NetSalaryOf) == NetSalaryOf(entry) + Sum([], NetSalaryOf);
    }
  }

  /**
   * The dashboard and the invoices page agree on paid count and revenue; the
   * dashboard's pending count is the invoices page's sent count, so it
   * leaves out overdue invoices, which the page's pending amount includes.
   */
  lemma DashboardAgreesWithInvoicesPage(clients: seq<Record>, employees: seq<Record>, invoices: seq<Record>,
                                        payroll: seq<Record>, today: Timestamp)
    requires 0 <= today.month < 12
    ensures var st, page := ComputeDashboard(clients, employees, invoices, payroll, today), ComputeStats(invoices);
      && st.paidInvoices == page.paid
      && st.totalRevenue == page.totalRevenue
      && st.pendingInvoices == page.sent
      && st.pendingInvoices + page.overdue == CountWhere(invoices, AwaitingPayment())
  {
    forall i | 0 <= i < |invoices| ensures !(StatusIs(Sent)(invoices[i]) && StatusIs(Overdue)(invoices[i])) {
      if StatusIs(Sent)(invoices[i]) && StatusIs(Overdue)(invoices[i]) {
        StatusesExclusive(invoices[i], Sent, Overdue);
      }
    }
    CountDisjoint(invoices, StatusIs(Sent), StatusIs(Overdue), AwaitingPayment());
  }
}

/**
 * The invoice management page: its search-and-status filter, its summary
 * figures, and its two handlers that write to the store and reload.
 */
module InvoicesPage {
  import opened Types
  import opened Seqs
  import opened Text
  import opened Collection
  import opened Storage

  /** The status drop-down: "all", or one status literal. */
  datatype StatusFilter = AllStatuses | OnlyStatus(status: InvoiceStatus)

  /** `i => i.status === status`, the predicate `invoiceStorage.getByStatus` filters by. */
  function StatusIs(status: InvoiceStatus): Record -> bool
  {
    FieldEquals("status", Str(status.Name()))
  }

  /** The invoice's status field holds one of the five status literals, as its interface declares. */
  predicate HasKnownStatus(inv: Record)
  {
    "status" in inv && inv["status"].Str? && ParseInvoiceStatus(inv["status"].s).Some?
  }

  /** The search clause: number, client name or client email contains the term, ignoring case. */
  predicate MatchesSearch(inv: Record, term: string)
  {
    var t := Lower(term);
    || Contains(Lower(TextOf(inv, "invoiceNumber")), t)
    || Contains(Lower(TextOf(ObjectOf(inv, "client"), "name")), t)
    || Contains(Lower(TextOf(ObjectOf(inv, "client"), "email")), t)
  }

  /** The status clause: `statusFilter === 'all' || invoice.status === statusFilter`. */
  predicate MatchesStatus(inv: Record, filter: StatusFilter)
  {
    filter.AllStatuses? || StatusIs(filter.status)(inv)
  }

  function Keeps(term: string, filter: StatusFilter): Record -> bool
  {
    (inv: Record) => MatchesSearch(inv, term) && MatchesStatus(inv, filter)
  }

  /** `filteredInvoices`: the invoices the search and the drop-down both pass, each as often as it occurs, in order. */
  function FilteredInvoices(invoices: seq<Record>, term: string, filter: StatusFilter): (r: seq<Record>)
    ensures IsFilterOf(r, invoices, Keeps(term, filter))
  {
    FilterSpec(invoices, Keeps(term, filter));
    Filter(invoices, Keeps(term, filter))
  }

  /**
   * The list shown is an order-preserving subsequence of the invoices, as
   * long as the number of invoices that pass; an invoice is in it exactly
   * when the search matches one of its three text fields and its status
   * passes the drop-down, so under a chosen status every invoice shown has
   * that status.
   */
  lemma FilteredInvoicesSpec(invoices: seq<Record>, term: string, filter: StatusFilter)
    ensures var r := FilteredInvoices(invoices, term, filter);
      && IsFilterOf(r, invoices, Keeps(term, filter))
      && (forall x :: x in r <==> x in invoices && MatchesSearch(x, term) && MatchesStatus(x, filter))
      && (filter.OnlyStatus? ==> forall i | 0 <= i < |r| :: FieldIs(r[i], "status", Str(filter.status.Name())))
  {
    FilterSpec(invoices, Keeps(term, filter));
  }

  /** With an empty search and "all" statuses every invoice is shown, in order. */
  lemma UnfilteredShowsAll(invoices: seq<Record>)
    ensures FilteredInvoices(invoices, "", AllStatuses) == invoices
  {
    forall i | 0 <= i < |invoices| ensures Keeps("", AllStatuses)(invoices[i]) {
      ContainsEmpty(Lower(TextOf(invoices[i], "invoiceNumber")));
    }
    FilterKeepsAll(invoices, Keeps("", AllStatuses));
  }

  /** The search ignores case: an upper-cased term shows exactly what the term shows. */
  lemma SearchIgnoresCase(invoices: seq<Record>, term: string, filter: StatusFilter)
    ensures FilteredInvoices(invoices, Upper(term), filter) == FilteredInvoices(invoices, term, filter)
  {
    LowerOfUpper(term);
    FilterCongruent(invoices, Keeps(Upper(term), filter), Keeps(term, filter));
  }

  /** The summary cards: counts per status, revenue and the amount still owed. */
  datatype InvoiceStats = InvoiceStats(
    total: nat,
    draft: nat,
    sent: nat,
    paid: nat,
    overdue: nat,
    totalRevenue: int,
    pendingAmount: int)

  /** `i.total`, in cents. */
  function TotalOf(inv: Record): int
  {
    NumberOf(inv, "total")
  }

  /** `i => i.status === 'sent' || i.status === 'overdue'`. */
  function AwaitingPayment(): Record -> bool
  {
    (inv: Record) => StatusIs(Sent)(inv) || StatusIs(Overdue)(inv)
  }

  /**
   * `stats`: the total is the number of invoices, no status count exceeds
   * it, and each status count is the length of that status's filter. The two sums
   * are characterised by `RevenueIsPaidQuery` and `RevenueAndPendingDisjoint`.
   */
  function ComputeStats(invoices: seq<Record>): (st: InvoiceStats)
    ensures st.total == |invoices|
    ensures st.draft <= st.total && st.sent <= st.total && st.paid <= st.total && st.overdue <= st.total
    ensures st.draft == |Filter(invoices, StatusIs(Draft))|
    ensures st.sent == |Filter(invoices, StatusIs(Sent))|
    ensures st.paid == |Filter(invoices, StatusIs(Paid))|
    ensures st.overdue == |Filter(invoices, StatusIs(Overdue))|
  {
    FilterSpec(invoices, StatusIs(Draft));
    FilterSpec(invoices, StatusIs(Sent));
    FilterSpec(invoices, StatusIs(Overdue));
    CountMonotone(invoices, StatusIs(Draft), StatusIs(Draft));
    CountMonotone(invoices, StatusIs(Sent), StatusIs(Sent));
    CountMonotone(invoices, StatusIs(Paid), StatusIs(Paid));
    CountMonotone(invoices, StatusIs(Overdue), StatusIs(Overdue));
    FilterSpec(invoices, StatusIs(Paid));
    InvoiceStats(
      |invoices|,
      CountWhere(invoices, StatusIs(Draft)),
      CountWhere(invoices, StatusIs(Sent)),
      CountWhere(invoices, StatusIs(Paid)),
      CountWhere(invoices, StatusIs(Overdue)),
      Sum(Filter(invoices, StatusIs(Paid)), TotalOf),
      Sum(Filter(invoices, AwaitingPayment()), TotalOf))
  }

  /** No record carries two different status literals. */
  lemma StatusesExclusive(inv: Record, a: InvoiceStatus, b: InvoiceStatus)
    requires StatusIs(a)(inv) && StatusIs(b)(inv)
    ensures a == b
  {
    InvoiceStatusRoundTrip(a);
  }

  /** With every status one of the five literals, the five counts add up to the number of invoices. */
  lemma {:induction false} StatusCountsPartition(invoices: seq<Record>)
    requires forall i | 0 <= i < |invoices| :: HasKnownStatus(invoices[i])
    ensures CountWhere(invoices, StatusIs(Draft)) + CountWhere(invoices, StatusIs(Sent))
          + CountWhere(invoices, StatusIs(Paid)) + CountWhere(invoices, StatusIs(Overdue))
          + CountWhere(invoices, StatusIs(Cancelled)) == |invoices|
  {
    if invoices != [] {
      StatusCountsPartition(invoices[1..]);
      var inv := invoices[0];
      var st := ParseInvoiceStatus(inv["status"].s).value;
      assert StatusIs(st)(inv);
      forall other: InvoiceStatus | other != st
        ensures !StatusIs(other)(inv)
      {
        if StatusIs(other)(inv) {
          StatusesExclusive(inv, st, other);
        }
      }
    }
  }

  /**
   * The four cards never count more than all invoices, and they count fewer
   * exactly when some invoice is cancelled.
   */
  lemma StatsCountsBound(invoices: seq<Record>)
    requires forall i | 0 <= i < |invoices| :: HasKnownStatus(invoices[i])
    ensures var st := ComputeStats(invoices);
      && st.draft + st.sent + st.paid + st.overdue <= st.total
      && (st.draft + st.sent + st.paid + st.overdue < st.total <==>
          exists i | 0 <= i < |invoices| :: FieldIs(invoices[i], "status", Str("cancelled")))
  {
    StatusCountsPartition(invoices);
    CountZero(invoices, StatusIs(Cancelled));
  }

  /**
   * Revenue sums the totals of paid invoices and the pending amount those of
   * sent or overdue ones: no invoice is in both, and together they are the
   * sum over the invoices that are paid, sent or overdue.
   */
  lemma RevenueAndPendingDisjoint(invoices: seq<Record>)
    ensures forall i | 0 <= i < |invoices| :: !(StatusIs(Paid)(invoices[i]) && AwaitingPayment()(invoices[i]))
    ensures var st := ComputeStats(invoices);
      st.totalRevenue + st.pendingAmount ==
        Sum(Filter(invoices, (inv: Record) => StatusIs(Paid)(inv) || AwaitingPayment()(inv)), TotalOf)
  {
    forall i | 0 <= i < |invoices| ensures !(StatusIs(Paid)(invoices[i]) && AwaitingPayment()(invoices[i])) {
      if StatusIs(Paid)(invoices[i]) && StatusIs(Sent)(invoices[i]) {
        StatusesExclusive(invoices[i], Paid, Sent);
      }
      if StatusIs(Paid)(invoices[i]) && StatusIs(Overdue)(invoices[i]) {
        StatusesExclusive(invoices[i], Paid, Overdue);
      }
    }
    SumDisjoint(invoices, StatusIs(Paid), AwaitingPayment(),
      (inv: Record) => StatusIs(Paid)(inv) || AwaitingPayment()(inv), TotalOf);
  }

  /** Revenue on the page is the sum of totals over what `invoiceStorage.getByStatus('paid')` returns. */
  lemma RevenueIsPaidQuery(store: RecordStore)
    ensures ComputeStats(store.Get(Invoices)).totalRevenue == Sum(store.InvoicesByStatus(Paid), TotalOf)
    ensures ComputeStats(store.Get(Invoices)).paid == |store.InvoicesByStatus(Paid)|
  {
    FilterSpec(store.Get(Invoices), StatusIs(Paid));
  }

  /**
   * The fields `handleStatusUpdate` writes: a status literal that reads back
   * as the chosen status, and the clock reading; never an id, so the
   * invoice keeps its identity.
   */
  function StatusPatch(status: InvoiceStatus, now: Timestamp): (patch: Record)
    ensures "id" !in patch && "updatedAt" in patch && patch["updatedAt"] == Time(now)
    ensures StatusIs(status)(patch) && HasKnownStatus(patch)
    ensures ParseInvoiceStatus(patch["status"].s) == Some(status)
  {
    InvoiceStatusRoundTrip(status);
    map["status" := Str(status.Name()), "updatedAt" := Time(now)]
  }

  /**
   * A status update rewrites the first invoice carrying the id: its status
   * and `updatedAt` take the new values, every other field is kept, the id
   * still finds it, and every other invoice is untouched.
   */
  lemma StatusUpdateSpec(invoices: seq<Record>, id: string, status: InvoiceStatus, now: Timestamp)
    ensures var r, i := UpdateFirst(invoices, id, StatusPatch(status, now)), FindIndex(invoices, id);
      && |r| == |invoices|
      && (forall j | 0 <= j < |r| && j != i :: r[j] == invoices[j])
      && (i >= 0 ==>
            && r[i].Keys == invoices[i].Keys + {"status", "updatedAt"}
            && r[i]["status"] == Str(status.Name()) && r[i]["updatedAt"] == Time(now)
            && (forall f | f in invoices[i] && f != "status" && f != "updatedAt" :: r[i][f] == invoices[i][f])
            && Find(r, id) == Some(r[i]))
  {
    FindAfterUpdate(invoices, id, StatusPatch(status, now));
  }

  /** The page's React state over a store. */
  class InvoicesPageState {
    const store: RecordStore
    var invoices: seq<Record>
    var searchTerm: string
    var statusFilter: StatusFilter

    constructor (store: RecordStore)
      ensures this.store == store
      ensures invoices == [] && searchTerm == "" && statusFilter == AllStatuses
    {
      this.store := store;
      invoices := [];
      searchTerm := "";
      statusFilter := AllStatuses;
    }

    /** `loadInvoices`: the state takes what the store holds now. */
    method LoadInvoices()
      modifies this
      ensures invoices == store.Get(Invoices)
      ensures searchTerm == old(searchTerm) && statusFilter == old(statusFilter)
    {
      invoices := store.Get(Invoices);
    }

    /** `handleStatusUpdate`: update the status and `updatedAt` of the first invoice with the id, then reload. */
    method HandleStatusUpdate(id: string, status: InvoiceStatus, now: Timestamp)
      modifies this, store
      ensures store.entries == old(store.AfterUpdate(Invoices, id, StatusPatch(status, now)))
      ensures store.session == old(store.session)
      ensures invoices == store.Get(Invoices)
      ensures searchTerm == old(searchTerm) && statusFilter == old(statusFilter)
    {
      store.Update(Invoices, id, StatusPatch(status, now));
      LoadInvoices();
    }

    /** `handleDeleteInvoice`: only a confirmed delete touches the store. */
    method HandleDeleteInvoice(id: string, confirmed: bool)
      modifies this, store
      ensures confirmed ==> store.entries == old(store.AfterDelete(Invoices, id)) && invoices == store.Get(Invoices)
      ensures !confirmed ==> store.entries == old(store.entries) && invoices == old(invoices)
      ensures store.session == old(store.session)
      ensures searchTerm == old(searchTerm) && statusFilter == old(statusFilter)
    {
      if confirmed {
        store.Delete(Invoices, id);
        LoadInvoices();
      }
    }
  }
}

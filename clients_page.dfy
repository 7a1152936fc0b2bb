/**
 * The client management page: its search, its "New This Month" card, and
 * its add, edit and delete handlers, which write to the store and reload.
 */
module ClientsPage {
  import opened Types
  import opened Seqs
  import opened Text
  import opened Collection
  import opened Storage

  /** The name-or-email part of the search: a substring match ignoring case. */
  predicate MatchesNameOrEmail(client: Record, term: string)
  {
    || Contains(Lower(TextOf(client, "name")), Lower(term))
    || Contains(Lower(TextOf(client, "email")), Lower(term))
  }

  /** The search: name or email ignoring case, or the phone number as a raw substring. */
  predicate MatchesClientSearch(client: Record, term: string)
  {
    MatchesNameOrEmail(client, term) || Contains(TextOf(client, "phone"), term)
  }

  function ClientKeeps(term: string): Record -> bool
  {
    (client: Record) => MatchesClientSearch(client, term)
  }

  /** `filteredClients`: the clients the search passes, each as often as it occurs, in order. */
  function FilteredClients(clients: seq<Record>, term: string): (r: seq<Record>)
    ensures IsFilterOf(r, clients, ClientKeeps(term))
  {
    FilterSpec(clients, ClientKeeps(term));
    Filter(clients, ClientKeeps(term))
  }

  /**
   * The list shown is the only order-preserving subsequence that holds
   * every matching client as often as it occurs and nothing else; a client
   * is in it exactly when its name, email or phone matches the search.
   */
  lemma FilteredClientsSpec(clients: seq<Record>, term: string)
    ensures IsFilterOf(FilteredClients(clients, term), clients, ClientKeeps(term))
    ensures forall r | IsFilterOf(r, clients, ClientKeeps(term)) :: r == FilteredClients(clients, term)
    ensures forall c :: c in FilteredClients(clients, term) <==> c in clients && MatchesClientSearch(c, term)
  {
    FilterSpec(clients, ClientKeeps(term));
    forall r | IsFilterOf(r, clients, ClientKeeps(term)) ensures r == FilteredClients(clients, term) {
      FilterOfIsFilter(r, clients, ClientKeeps(term));
    }
  }

  /** An empty search shows every client, in order. */
  lemma EmptySearchShowsAll(clients: seq<Record>)
    ensures FilteredClients(clients, "") == clients
  {
    forall i | 0 <= i < |clients| ensures ClientKeeps("")(clients[i]) {
      ContainsEmpty(Lower(TextOf(clients[i], "name")));
    }
    FilterKeepsAll(clients, ClientKeeps(""));
  }

  /**
   * Upper-casing the term leaves the name-or-email part of the match as it
   * was; only the phone part sees the difference.
   */
  lemma NameOrEmailIgnoresCase(client: Record, term: string)
    ensures MatchesNameOrEmail(client, Upper(term)) == MatchesNameOrEmail(client, term)
    ensures MatchesClientSearch(client, Upper(term)) <==>
      MatchesNameOrEmail(client, term) || Contains(TextOf(client, "phone"), Upper(term))
  {
    LowerOfUpper(term);
  }

  /** A client that the phone part alone matches, to show that part does not ignore case. */
  const PhoneOnlyClient: Record := map["name" := Str("A"), "email" := Str("B"), "phone" := Str("X")]

  /** The phone part is case-sensitive: "X" finds the client whose phone is "X", "x" does not. */
  lemma PhoneMatchIsCaseSensitive()
    ensures MatchesClientSearch(PhoneOnlyClient, "X")
    ensures !MatchesClientSearch(PhoneOnlyClient, "x")
  {
    assert TextOf(PhoneOnlyClient, "phone") == "X";
    assert StartsWith("X", "X");
    assert Lower("x") == "x" by {
      assert Lower("x")[0] == 'x';
    }
    assert Lower("A") == "a" by {
      assert Lower("A")[0] == 'a';
    }
    assert Lower("B") == "b" by {
      assert Lower("B")[0] == 'b';
    }
    assert !Contains("a", "x") by {
      assert "a"[1..] == [];
    }
    assert !Contains("b", "x") by {
      assert "b"[1..] == [];
    }
    assert !Contains("X", "x") by {
      assert "X"[1..] == [];
    }
  }

  /**
   * The record `handleAddClient` creates: the form data with a fresh id and
   * the two clock readings, which override any such fields the data carries;
   * every other field of the data is kept as given.
   */
  function NewClient(data: Record, id: string, created: Timestamp, updated: Timestamp): (c: Record)
    ensures c.Keys == data.Keys + {"id", "createdAt", "updatedAt"}
    ensures HasId(c, id) && CreatedInPeriod(created.month, created.year)(c)
    ensures c["createdAt"] == Time(created) && c["updatedAt"] == Time(updated)
    ensures forall f | f in data && f !in {"id", "createdAt", "updatedAt"} :: c[f] == data[f]
  {
    var c := data + map["id" := Str(id), "createdAt" := Time(created), "updatedAt" := Time(updated)];
    assert CreatedInMonth(created.month)(c);
    c
  }

  /**
   * The patch `handleEditClient` sends: the updates and a fresh `updatedAt`,
   * which wins over one in the updates; it carries an id or a creation
   * date only when the updates do.
   */
  function EditPatch(updates: Record, now: Timestamp): (patch: Record)
    ensures patch.Keys == updates.Keys + {"updatedAt"}
    ensures patch["updatedAt"] == Time(now)
    ensures forall f | f in updates && f != "updatedAt" :: patch[f] == updates[f]
  {
    updates + map["updatedAt" := Time(now)]
  }

  /**
   * An edit whose updates leave id and `createdAt` alone (the form submits
   * neither) merges into the first client carrying the id: its id and
   * `createdAt` are kept, `updatedAt` is the new reading, the updated
   * fields take their new values, and the id still finds it.
   */
  lemma EditClientSpec(clients: seq<Record>, id: string, updates: Record, now: Timestamp)
    requires "id" !in updates && "createdAt" !in updates
    ensures var r, i := UpdateFirst(clients, id, EditPatch(updates, now)), FindIndex(clients, id);
      && |r| == |clients|
      && (forall j | 0 <= j < |r| && j != i :: r[j] == clients[j])
      && (i >= 0 ==>
            && HasId(r[i], id)
            && ("createdAt" in clients[i] ==> "createdAt" in r[i] && r[i]["createdAt"] == clients[i]["createdAt"])
            && r[i]["updatedAt"] == Time(now)
            && (forall f | f in updates && f != "updatedAt" :: r[i][f] == updates[f])
            && Find(r, id) == Some(r[i]))
  {
    FindAfterUpdate(clients, id, EditPatch(updates, now));
  }

  /**
   * `new Date(c.createdAt).getMonth() === month`. The store holds the date
   * as an ISO string, which `new Date` reads back; here that string is the
   * `Time` value it denotes, so only a `Time` field carries a month. A
   * record without one is never counted, as a missing date gives an invalid
   * date whose month equals nothing.
   */
  function CreatedInMonth(month: int): Record -> bool
  {
    (c: Record) => "createdAt" in c && c["createdAt"].Time? && c["createdAt"].t.month == month
  }

  /**
   * The "New This Month" card as written: the creation month is compared,
   * the year is not. It is the number of clients created in this calendar
   * month of any year: every client created this month of this year, and
   * possibly more, but none created in another month. `today` stands for
   * the `new Date()` read once per client, taken as one reading.
   */
  function NewThisMonth(clients: seq<Record>, today: Timestamp): (n: nat)
    ensures CountWhere(clients, CreatedInPeriod(today.month, today.year)) <= n <= |clients|
    ensures n == |Filter(clients, CreatedInMonth(today.month))|
    ensures n == 0 <==> forall i | 0 <= i < |clients| :: !CreatedInMonth(today.month)(clients[i])
  {
    CountMonotone(clients, CreatedInPeriod(today.month, today.year), CreatedInMonth(today.month));
    CountZero(clients, CreatedInMonth(today.month));
    FilterSpec(clients, CreatedInMonth(today.month));
    CountWhere(clients, CreatedInMonth(today.month))
  }

  /**
   * As written, the card depends on the current month only: two days in the
   * same month of different years give the same count.
   */
  lemma NewThisMonthIgnoresYear(clients: seq<Record>, t1: Timestamp, t2: Timestamp)
    requires t1.month == t2.month
    ensures NewThisMonth(clients, t1) == NewThisMonth(clients, t2)
  {
  }

  /**
   * As written, adding a client raises the card by one exactly when the
   * client was created in the current calendar month, whatever its year; a
   * client created in another month is never counted.
   */
  lemma NewThisMonthAfterAdd(clients: seq<Record>, today: Timestamp, c: Record)
    ensures NewThisMonth(clients + [c], today)
         == NewThisMonth(clients, today) + if CreatedInMonth(today.month)(c) then 1 else 0
  {
    CountAppend(clients, [c], CreatedInMonth(today.month));
    assert CountWhere([c], CreatedInMonth(today.month)) == if CreatedInMonth(today.month)(c) then 1 else 0 by {
      assert [c][1..] == [];
    }
  }

  /** A client created in the same month a year earlier, seen from that month this year. */
  const LastYearsClient: Record := map["createdAt" := Time(Timestamp(2025, 9, 0))]
  const ThisMonth := Timestamp(2026, 9, 0)

  /** As written, a client created a year ago counts as new this month. */
  lemma NewThisMonthCountsLastYear()
    ensures NewThisMonth([LastYearsClient], ThisMonth) == 1
    ensures NewThisMonthAndYear([LastYearsClient], ThisMonth) == 0
  {
    var s := [LastYearsClient];
    assert s[1..] == [];
    assert CreatedInMonth(ThisMonth.month)(s[0]);
    assert !CreatedInPeriod(ThisMonth.month, ThisMonth.year)(s[0]);
    assert CountWhere(s[1..], CreatedInMonth(ThisMonth.month)) == 0;
    assert CountWhere(s[1..], CreatedInPeriod(ThisMonth.month, ThisMonth.year)) == 0;
  }

  /** When a client was created: the month and year of its creation date, if it has one. */
  function CreatedInPeriod(month: int, year: int): Record -> bool
  {
    (c: Record) => CreatedInMonth(month)(c) && c["createdAt"].t.year == year
  }

  /**
   * The evidently intended card: clients created in the current month of
   * the current year; 0 exactly when there is none.
   */
  function NewThisMonthAndYear(clients: seq<Record>, today: Timestamp): (n: nat)
    ensures n <= |clients|
    ensures n == 0 <==> forall i | 0 <= i < |clients| :: !CreatedInPeriod(today.month, today.year)(clients[i])
  {
    CountMonotone(clients, CreatedInPeriod(today.month, today.year), CreatedInPeriod(today.month, today.year));
    CountZero(clients, CreatedInPeriod(today.month, today.year));
    CountWhere(clients, CreatedInPeriod(today.month, today.year))
  }

  /**
   * The corrected count never exceeds the count as written, is 0 exactly
   * when no client was created in the current month and year, and grows by
   * one when a client created now is added.
   */
  lemma NewThisMonthAndYearSpec(clients: seq<Record>, today: Timestamp, data: Record, id: string, updated: Timestamp)
    ensures NewThisMonthAndYear(clients, today) <= NewThisMonth(clients, today) <= |clients|
    ensures NewThisMonthAndYear(clients, today) == 0 <==>
      forall i | 0 <= i < |clients| :: !CreatedInPeriod(today.month, today.year)(clients[i])
    ensures NewThisMonthAndYear(clients + [NewClient(data, id, today, updated)], today)
         == NewThisMonthAndYear(clients, today) + 1
  {
    CountMonotone(clients, CreatedInPeriod(today.month, today.year), CreatedInMonth(today.month));
    CountZero(clients, CreatedInPeriod(today.month, today.year));
    var c := NewClient(data, id, today, updated);
    CountAppend(clients, [c], CreatedInPeriod(today.month, today.year));
    assert CreatedInPeriod(today.month, today.year)(c);
  }

  /** The page's React state over a store. */
  class ClientsPageState {
    const store: RecordStore
    var clients: seq<Record>
    var isAddingClient: bool
    var editingClient: Option<Record>
    var searchTerm: string

    constructor (store: RecordStore)
      ensures this.store == store
      ensures clients == [] && !isAddingClient && editingClient == None && searchTerm == ""
    {
      this.store := store;
      clients := [];
      isAddingClient := false;
      editingClient := None;
      searchTerm := "";
    }

    /** `loadClients`: the state takes what the store holds now. */
    method LoadClients()
      modifies this
      ensures clients == store.Get(Clients)
      ensures isAddingClient == old(isAddingClient) && editingClient == old(editingClient)
      ensures searchTerm == old(searchTerm)
    {
      clients := store.Get(Clients);
    }

    /**
     * `handleAddClient`: append the new record, reload and close the form.
     * When the write reaches the medium the list has grown by exactly that record.
     */
    method HandleAddClient(data: Record, id: string, created: Timestamp, updated: Timestamp)
      modifies this, store
      ensures store.entries == old(store.AfterAdd(Clients, NewClient(data, id, created, updated)))
      ensures store.session == old(store.session)
      ensures clients == store.Get(Clients)
      ensures store.Accepts(Clients, old(store.Get(Clients)) + [NewClient(data, id, created, updated)]) ==>
        clients == old(store.Get(Clients)) + [NewClient(data, id, created, updated)]
      ensures !isAddingClient && editingClient == old(editingClient) && searchTerm == old(searchTerm)
    {
      store.Add(Clients, NewClient(data, id, created, updated));
      LoadClients();
      isAddingClient := false;
    }

    /** `handleEditClient`: merge the updates and a fresh `updatedAt`, reload and close the editor. */
    method HandleEditClient(id: string, updates: Record, now: Timestamp)
      modifies this, store
      ensures store.entries == old(store.AfterUpdate(Clients, id, EditPatch(updates, now)))
      ensures store.session == old(store.session)
      ensures clients == store.Get(Clients)
      ensures editingClient == None && isAddingClient == old(isAddingClient) && searchTerm == old(searchTerm)
    {
      store.Update(Clients, id, EditPatch(updates, now));
      LoadClients();
      editingClient := None;
    }

    /** `handleDeleteClient`: only a confirmed delete touches the store. */
    method HandleDeleteClient(id: string, confirmed: bool)
      modifies this, store
      ensures confirmed ==> store.entries == old(store.AfterDelete(Clients, id)) && clients == store.Get(Clients)
      ensures !confirmed ==> store.entries == old(store.entries) && clients == old(clients)
      ensures store.session == old(store.session)
      ensures isAddingClient == old(isAddingClient) && editingClient == old(editingClient)
      ensures searchTerm == old(searchTerm)
    {
      if confirmed {
        store.Delete(Clients, id);
        LoadClients();
      }
    }
  }
}

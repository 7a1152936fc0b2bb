/**
 * The local record store: a browser key-value medium holding one JSON array
 * of records per collection key and one JSON object in the current-user
 * slot, read and written through fail-soft accessors.
 */
module Storage {
  import opened Types
  import opened Seqs
  import opened Collection

  /** The storage keys, one constructor per entry of `STORAGE_KEYS`. */
  datatype Key = Clients | Employees | Invoices | Payroll | Attendance | LeaveRequests | CurrentUser | Settings {
    function Name(): string
    {
      match this
      case Clients => "rmv_clients"
      case Employees => "rmv_employees"
      case Invoices => "rmv_invoices"
      case Payroll => "rmv_payroll"
      case Attendance => "rmv_attendance"
      case LeaveRequests => "rmv_leave_requests"
      case CurrentUser => "rmv_current_user"
      case Settings => "rmv_settings"
    }
  }

  /** `Object.values(STORAGE_KEYS)`, in declaration order. */
  const StorageKeys: seq<Key> := [Clients, Employees, Invoices, Payroll, Attendance, LeaveRequests, CurrentUser, Settings]

  /**
   * The key list names every key once, and distinct keys are distinct
   * strings in the medium: writing one collection never touches another.
   */
  lemma StorageKeysDistinct()
    ensures forall k: Key :: k in StorageKeys
    ensures forall i, j | 0 <= i < j < |StorageKeys| :: StorageKeys[i].Name() != StorageKeys[j].Name()
  {
    forall k: Key ensures k in StorageKeys {
      match k
      case Clients => assert StorageKeys[0] == k;
      case Employees => assert StorageKeys[1] == k;
      case Invoices => assert StorageKeys[2] == k;
      case Payroll => assert StorageKeys[3] == k;
      case Attendance => assert StorageKeys[4] == k;
      case LeaveRequests => assert StorageKeys[5] == k;
      case CurrentUser => assert StorageKeys[6] == k;
      case Settings => assert StorageKeys[7] == k;
    }
    forall i, j | 0 <= i < j < |StorageKeys|
      ensures StorageKeys[i].Name() != StorageKeys[j].Name()
    {
      var a, b := StorageKeys[i].Name(), StorageKeys[j].Name();
      assert a[4] != b[4] || a[5] != b[5] || |a| != |b|;
    }
  }

  /** A key under which a collection (a JSON array) is kept: every key but the current-user slot. */
  type CollectionKey = k: Key | k != CurrentUser witness Clients

  /**
   * What a stored string parses to: a value of the expected shape, or a
   * parse failure. A string that is valid JSON of another shape (`null`, an
   * object, a number, an array holding something other than records) has
   * no representation here.
   */
  datatype Stored<T> = Parsed(value: T) | Unparsable

  /** `m` without the entry for `k` (for the current-user key, `m` itself). */
  function Without<V>(m: map<CollectionKey, V>, k: Key): (r: map<CollectionKey, V>)
    ensures r.Keys == m.Keys - {k}
    ensures forall c | c in r :: r[c] == m[c]
  {
    map c | c in m && c != k :: m[c]
  }

  /** `f => f.name === value` for a primitive value. */
  function FieldEquals(name: string, value: Value): Record -> bool
  {
    (r: Record) => FieldIs(r, name, value)
  }

  /** `p => p.month === month && p.year === year`. */
  function InPeriod(month: string, year: int): Record -> bool
  {
    (r: Record) => FieldIs(r, "month", Str(month)) && FieldIs(r, "year", Num(year))
  }

  class RecordStore {
    /** False where the page runs without a browser window (`typeof window === 'undefined'`). */
    const available: bool
    /** The writes the medium refuses (`setItem` throwing, as on an exceeded quota). */
    const rejects: (CollectionKey, seq<Record>) -> bool

    /** The collection entries present in the medium. */
    var entries: map<CollectionKey, Stored<seq<Record>>>
    /** The current-user slot: absent, or a stored string and what it parses to. */
    var session: Option<Stored<User>>

    constructor (available: bool, rejects: (CollectionKey, seq<Record>) -> bool)
      ensures this.available == available && this.rejects == rejects
      ensures entries == map[] && session == None
    {
      this.available := available;
      this.rejects := rejects;
      entries := map[];
      session := None;
    }

    /**
     * `storage.get`: the stored array; the empty sequence when there is no
     * window, no entry, or an entry that fails to parse.
     */
    function Get(k: CollectionKey): (r: seq<Record>)
      reads this
      ensures (!available || k !in entries || entries[k].Unparsable?) ==> r == []
      ensures available && k in entries && entries[k].Parsed? ==> r == entries[k].value
    {
      if available && k in entries && entries[k].Parsed? then entries[k].value else []
    }

    /** Whether a write of `data` under `k` reaches the medium. */
    predicate Accepts(k: CollectionKey, data: seq<Record>)
    {
      available && !rejects(k, data)
    }

    /** The entries `e` after `storage.set(k, data)`. */
    function Written(e: map<CollectionKey, Stored<seq<Record>>>, k: CollectionKey, data: seq<Record>): map<CollectionKey, Stored<seq<Record>>>
    {
      if Accepts(k, data) then e[k := Parsed(data)] else e
    }

    /** `storage.set`: store `data` under `k`; a refused write is dropped silently. */
    method Set(k: CollectionKey, data: seq<Record>)
      modifies this
      ensures entries == Written(old(entries), k, data) && session == old(session)
      ensures Get(k) == if Accepts(k, data) then data else old(Get(k))
      ensures forall c: CollectionKey | c != k :: Get(c) == old(Get(c))
    {
      if !available {
        return;
      }
      if !rejects(k, data) {
        entries := entries[k := Parsed(data)];
      }
    }

    /** `storage.getById`: the first record of the collection carrying the id, or null. */
    function GetById(k: CollectionKey, id: string): (r: Option<Record>)
      reads this
      ensures r.None? <==> forall j | 0 <= j < |Get(k)| :: !HasId(Get(k)[j], id)
      ensures r.Some? ==> HasId(r.value, id) && r.value == Get(k)[FindIndex(Get(k), id)]
    {
      Find(Get(k), id)
    }

    /** The entries after `storage.add(k, item)`. */
    function AfterAdd(k: CollectionKey, item: Record): map<CollectionKey, Stored<seq<Record>>>
      reads this
    {
      Written(entries, k, Get(k) + [item])
    }

    /** The entries after `storage.update(k, id, updates)`: no write at all when nothing matches. */
    function AfterUpdate(k: CollectionKey, id: string, updates: Record): map<CollectionKey, Stored<seq<Record>>>
      reads this
    {
      if FindIndex(Get(k), id) == -1 then entries
      else Written(entries, k, UpdateFirst(Get(k), id, updates))
    }

    /** The entries after `storage.delete(k, id)`: the filtered array is written back even when nothing matched. */
    function AfterDelete(k: CollectionKey, id: string): map<CollectionKey, Stored<seq<Record>>>
      reads this
    {
      Written(entries, k, RemoveId(Get(k), id))
    }

    /**
     * `storage.add`: append `item`. Earlier records are kept in place, and an
     * id no earlier record carried now finds `item`.
     */
    method Add(k: CollectionKey, item: Record)
      modifies this
      ensures entries == old(AfterAdd(k, item)) && session == old(session)
      ensures Accepts(k, old(Get(k)) + [item]) ==> Get(k) == old(Get(k)) + [item]
      ensures !Accepts(k, old(Get(k)) + [item]) ==> Get(k) == old(Get(k))
      ensures forall c: CollectionKey | c != k :: Get(c) == old(Get(c))
      ensures forall id | Accepts(k, old(Get(k)) + [item]) && HasId(item, id) && old(GetById(k, id)).None? ::
        GetById(k, id) == Some(item)
    {
      var items := Get(k);
      Set(k, items + [item]);
      forall id | Accepts(k, items + [item]) && HasId(item, id) && Find(items, id).None?
        ensures GetById(k, id) == Some(item)
      {
        FindAfterAppend(items, item, id);
      }
    }

    /**
     * `storage.update`: shallow-merge `updates` into the first record carrying
     * the id; every other record is kept; no match, nothing is written.
     */
    method Update(k: CollectionKey, id: string, updates: Record)
      modifies this
      ensures entries == old(AfterUpdate(k, id, updates)) && session == old(session)
      ensures FindIndex(old(Get(k)), id) == -1 ==> entries == old(entries)
      ensures Accepts(k, UpdateFirst(old(Get(k)), id, updates)) ==> Get(k) == UpdateFirst(old(Get(k)), id, updates)
      ensures forall c: CollectionKey | c != k :: Get(c) == old(Get(c))
    {
      var items := Get(k);
      var index := FindIndex(items, id);
      if index != -1 {
        Set(k, items[index := Merge(items[index], updates)]);
      }
    }

    /**
     * `storage.delete`: keep only the records without the id. Afterwards the
     * id finds nothing, and a second delete would change nothing.
     */
    method Delete(k: CollectionKey, id: string)
      modifies this
      ensures entries == old(AfterDelete(k, id)) && session == old(session)
      ensures Accepts(k, RemoveId(old(Get(k)), id)) ==> Get(k) == RemoveId(old(Get(k)), id) && GetById(k, id) == None
      ensures forall c: CollectionKey | c != k :: Get(c) == old(Get(c))
      ensures AfterDelete(k, id) == entries
    {
      var items := Get(k);
      Set(k, RemoveId(items, id));
      if Accepts(k, RemoveId(items, id)) {
        assert GetById(k, id) == None by {
          RemoveIdSpec(items, id);
        }
      }
      assert AfterDelete(k, id) == entries by {
        RemoveIdIdempotent(items, id);
      }
    }

    /** `localStorage.removeItem` under one key. */
    method RemoveItem(k: Key)
      modifies this
      ensures k == CurrentUser ==> session == None && entries == old(entries)
      ensures k != CurrentUser ==> entries == Without(old(entries), k) && session == old(session)
    {
      if k == CurrentUser {
        session := None;
      } else {
        entries := Without(entries, k);
      }
    }

    /** `storage.clear`: remove the one key (the current-user slot, if that is the key). */
    method Clear(k: Key)
      modifies this
      ensures !available ==> entries == old(entries) && session == old(session)
      ensures available && k == CurrentUser ==> session == None && entries == old(entries)
      ensures available && k != CurrentUser ==> entries == Without(old(entries), k) && session == old(session)
    {
      if !available {
        return;
      }
      RemoveItem(k);
    }

    /** `storage.clearAll`: remove every key of `STORAGE_KEYS`, the current-user slot included. */
    method ClearAll()
      modifies this
      ensures !available ==> entries == old(entries) && session == old(session)
      ensures available ==> entries == map[] && session == None
    {
      if !available {
        return;
      }
      var i := 0;
      while i < |StorageKeys|
        invariant 0 <= i <= |StorageKeys|
        invariant forall c :: c in entries <==> c in old(entries) && c !in StorageKeys[..i]
        invariant forall c | c in entries :: entries[c] == old(entries)[c]
        invariant session == if CurrentUser in StorageKeys[..i] then None else old(session)
      {
        assert StorageKeys[..i + 1] == StorageKeys[..i] + [StorageKeys[i]];
        RemoveItem(StorageKeys[i]);
        i := i + 1;
      }
      StorageKeysDistinct();
      assert StorageKeys[..i] == StorageKeys;
    }

    /** `userStorage.getCurrentUser`: the stored user; null with no window, no entry, or an unparsable one. */
    function GetCurrentUser(): (u: Option<User>)
      reads this
      ensures u.Some? <==> available && session.Some? && session.value.Parsed?
      ensures u.Some? ==> u.value == session.value.value
    {
      if available && session.Some? && session.value.Parsed? then Some(session.value.value) else None
    }

    /** `userStorage.setCurrentUser`: store `u` in the slot; the collections are untouched. */
    method SetCurrentUser(u: User)
      modifies this
      ensures entries == old(entries)
      ensures session == if available then Some(Parsed(u)) else old(session)
      ensures available ==> GetCurrentUser() == Some(u)
    {
      if !available {
        return;
      }
      session := Some(Parsed(u));
    }

    /** `userStorage.logout`: empty the slot; afterwards there is no current user. */
    method Logout()
      modifies this
      ensures entries == old(entries)
      ensures session == if available then None else old(session)
      ensures GetCurrentUser() == None
    {
      if !available {
        return;
      }
      session := None;
    }

    /** The records of collection `k` that satisfy `p`, in stored order. */
    function Where(k: CollectionKey, p: Record -> bool): (r: seq<Record>)
      reads this
      ensures IsFilterOf(r, Get(k), p)
      ensures forall x :: x in r <==> x in Get(k) && p(x)
    {
      FilterSpec(Get(k), p);
      Filter(Get(k), p)
    }

    /** `employeeStorage.getByDepartment`. */
    function EmployeesByDepartment(department: string): (r: seq<Record>)
      reads this
      ensures IsFilterOf(r, Get(Employees), FieldEquals("department", Str(department)))
    {
      Where(Employees, FieldEquals("department", Str(department)))
    }

    /** `employeeStorage.getActiveEmployees`. */
    function ActiveEmployees(): (r: seq<Record>)
      reads this
      ensures IsFilterOf(r, Get(Employees), FieldEquals("status", Str(Active.Name())))
    {
      Where(Employees, FieldEquals("status", Str(Active.Name())))
    }

    /** `invoiceStorage.getByStatus`. */
    function InvoicesByStatus(status: InvoiceStatus): (r: seq<Record>)
      reads this
      ensures IsFilterOf(r, Get(Invoices), FieldEquals("status", Str(status.Name())))
    {
      Where(Invoices, FieldEquals("status", Str(status.Name())))
    }

    /** `invoiceStorage.getByClient`. */
    function InvoicesByClient(clientId: string): (r: seq<Record>)
      reads this
      ensures IsFilterOf(r, Get(Invoices), FieldEquals("clientId", Str(clientId)))
    {
      Where(Invoices, FieldEquals("clientId", Str(clientId)))
    }

    /** `payrollStorage.getByEmployee`. */
    function PayrollByEmployee(employeeId: string): (r: seq<Record>)
      reads this
      ensures IsFilterOf(r, Get(Payroll), FieldEquals("employeeId", Str(employeeId)))
    {
      Where(Payroll, FieldEquals("employeeId", Str(employeeId)))
    }

    /** `payrollStorage.getByPeriod`. */
    function PayrollByPeriod(month: string, year: int): (r: seq<Record>)
      reads this
      ensures IsFilterOf(r, Get(Payroll), InPeriod(month, year))
    {
      Where(Payroll, InPeriod(month, year))
    }

    /** `attendanceStorage.getByEmployee`. */
    function AttendanceByEmployee(employeeId: string): (r: seq<Record>)
      reads this
      ensures IsFilterOf(r, Get(Attendance), FieldEquals("employeeId", Str(employeeId)))
    {
      Where(Attendance, FieldEquals("employeeId", Str(employeeId)))
    }

    /** `leaveStorage.getByEmployee`. */
    function LeaveByEmployee(employeeId: string): (r: seq<Record>)
      reads this
      ensures IsFilterOf(r, Get(LeaveRequests), FieldEquals("employeeId", Str(employeeId)))
    {
      Where(LeaveRequests, FieldEquals("employeeId", Str(employeeId)))
    }

    /** `leaveStorage.getPendingRequests`. */
    function PendingLeaveRequests(): (r: seq<Record>)
      reads this
      ensures IsFilterOf(r, Get(LeaveRequests), FieldEquals("status", Str(Pending.Name())))
    {
      Where(LeaveRequests, FieldEquals("status", Str(Pending.Name())))
    }
  }
}

/**
 * The entity vocabulary of the application: JSON-shaped records, the
 * string-literal status enumerations of the entity interfaces, and the
 * session user.
 */
module Types {

  datatype Option<T> = None | Some(value: T)

  /**
   * A clock reading. The local calendar year and month (0 = January, as
   * `Date.getMonth` counts) are given with the reading, since the time zone
   * is outside the model; `epochMs` distinguishes readings within a month.
   */
  datatype Timestamp = Timestamp(year: int, month: int, epochMs: int)

  /**
   * A JSON-shaped value as the records hold it. Numbers are integers
   * (money in cents); a `Date` field holds a `Time`.
   */
  datatype Value =
    | Str(s: string)
    | Num(n: int)
    | Bool(b: bool)
    | Time(t: Timestamp)
    | Obj(fields: map<string, Value>)
    | List(items: seq<Value>)

  /** A stored entity: its own-property map. The identifier is the field "id". */
  type Record = map<string, Value>

  /** `r.f === v` for a primitive `v`: a missing field is `undefined`, equal to nothing. */
  predicate FieldIs(r: Record, f: string, v: Value)
  {
    f in r && r[f] == v
  }

  /** `r.f` read as a string; "" when the field is missing or holds something else. */
  function TextOf(r: Record, f: string): string
  {
    if f in r && r[f].Str? then r[f].s else ""
  }

  /** `r.f` read as a number; 0 when the field is missing or holds something else. */
  function NumberOf(r: Record, f: string): int
  {
    if f in r && r[f].Num? then r[f].n else 0
  }

  /** `r.f` read as a nested object (an embedded snapshot); empty when it is not one. */
  function ObjectOf(r: Record, f: string): Record
  {
    if f in r && r[f].Obj? then r[f].fields else map[]
  }

  /** `r.id === id`. */
  predicate HasId(r: Record, id: string)
  {
    FieldIs(r, "id", Str(id))
  }

  // ---- Status enumerations: each constructor stands for one string literal ----

  datatype InvoiceStatus = Draft | Sent | Paid | Overdue | Cancelled {
    function Name(): string
    {
      match this
      case Draft => "draft"
      case Sent => "sent"
      case Paid => "paid"
      case Overdue => "overdue"
      case Cancelled => "cancelled"
    }
  }

  /** The status whose literal is `s`, if any: the inverse of `Name`. */
  function ParseInvoiceStatus(s: string): (r: Option<InvoiceStatus>)
    ensures r.Some? ==> r.value.Name() == s
  {
    if s == "draft" then Some(Draft)
    else if s == "sent" then Some(Sent)
    else if s == "paid" then Some(Paid)
    else if s == "overdue" then Some(Overdue)
    else if s == "cancelled" then Some(Cancelled)
    else None
  }

  /** Every status is recovered from its literal, so distinct statuses have distinct literals. */
  lemma InvoiceStatusRoundTrip(st: InvoiceStatus)
    ensures ParseInvoiceStatus(st.Name()) == Some(st)
    ensures forall other: InvoiceStatus :: other.Name() == st.Name() ==> other == st
  {
    forall other: InvoiceStatus | other.Name() == st.Name()
      ensures other == st
    {
      assert ParseInvoiceStatus(other.Name()) == Some(other);
    }
  }

  datatype EmployeeStatus = Active | Inactive | Terminated {
    function Name(): string
    {
      match this
      case Active => "active"
      case Inactive => "inactive"
      case Terminated => "terminated"
    }
  }

  datatype LeaveStatus = Pending | Approved | Rejected {
    function Name(): string
    {
      match this
      case Pending => "pending"
      case Approved => "approved"
      case Rejected => "rejected"
    }
  }

  datatype Role = Admin | Manager | Employee {
    function Name(): string
    {
      match this
      case Admin => "admin"
      case Manager => "manager"
      case Employee => "employee"
    }
  }

  /** The session user (`User` interface); `department` and `avatar` are optional. */
  datatype User = User(
    id: string,
    name: string,
    email: string,
    role: Role,
    department: Option<string>,
    avatar: Option<string>)
}

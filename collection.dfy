/**
 * What the generic accessors of the record store do to one collection,
 * the ordered sequence of records stored under one key: `find`,
 * `findIndex`, `push`, the shallow-merge update at the first match, and the
 * filter-based delete of every match.
 */
module Collection {
  import opened Types
  import opened Seqs

  /** `item => item.id === id`. */
  function IdIs(id: string): Record -> bool
  {
    (r: Record) => HasId(r, id)
  }

  /** `item => item.id !== id`. */
  function IdIsNot(id: string): Record -> bool
  {
    (r: Record) => !HasId(r, id)
  }

  /** `items.findIndex(item => item.id === id)`: the first matching position, or -1. */
  function FindIndex(s: seq<Record>, id: string): (i: int)
    ensures -1 <= i < |s|
    ensures i >= 0 ==> HasId(s[i], id)
    ensures forall j | 0 <= j < |s| && (i == -1 || j < i) :: !HasId(s[j], id)
  {
    FirstIndex(s, IdIs(id))
  }

  /** The position found is the only one that is a match with no match before it. */
  lemma FindIndexUnique(s: seq<Record>, id: string, i: int)
    requires 0 <= i < |s| && HasId(s[i], id)
    requires forall j | 0 <= j < i :: !HasId(s[j], id)
    ensures FindIndex(s, id) == i
  {
  }

  /** `items.find(item => item.id === id) || null`. */
  function Find(s: seq<Record>, id: string): (r: Option<Record>)
    ensures r.None? <==> forall j | 0 <= j < |s| :: !HasId(s[j], id)
    ensures r.Some? ==> r.value == s[FindIndex(s, id)] && HasId(r.value, id)
  {
    var i := FindIndex(s, id);
    if i == -1 then None else Some(s[i])
  }

  /** `{ ...r, ...updates }`: every field of `updates` overrides, every other field of `r` is kept. */
  function Merge(r: Record, updates: Record): (m: Record)
    ensures m.Keys == r.Keys + updates.Keys
    ensures forall f | f in updates :: m[f] == updates[f]
    ensures forall f | f in r && f !in updates :: m[f] == r[f]
  {
    r + updates
  }

  /**
   * The body of `update`: exactly the first record that carries the id
   * changes, to its shallow merge with `updates`; the length and every other
   * position are kept; without a match nothing changes.
   */
  function UpdateFirst(s: seq<Record>, id: string, updates: Record): (r: seq<Record>)
    ensures |r| == |s|
    ensures FindIndex(s, id) == -1 ==> r == s
    ensures FindIndex(s, id) >= 0 ==> r[FindIndex(s, id)] == Merge(s[FindIndex(s, id)], updates)
    ensures forall j | 0 <= j < |s| && j != FindIndex(s, id) :: r[j] == s[j]
  {
    var i := FindIndex(s, id);
    if i == -1 then s else s[i := Merge(s[i], updates)]
  }

  /**
   * The body of `delete`, `items.filter(item => item.id !== id)`: the
   * records without the id, each as often as it occurs, in their order.
   */
  function RemoveId(s: seq<Record>, id: string): (r: seq<Record>)
    ensures IsFilterOf(r, s, IdIsNot(id))
  {
    FilterSpec(s, IdIsNot(id));
    Filter(s, IdIsNot(id))
  }

  /**
   * Appending keeps the first match of every id that already had one; an id
   * without a match before finds the appended record, if it carries that id.
   */
  lemma {:induction false} FindAfterAppend(s: seq<Record>, item: Record, id: string)
    ensures Find(s + [item], id) ==
      if Find(s, id).Some? then Find(s, id)
      else if HasId(item, id) then Some(item)
      else None
  {
    var t := s + [item];
    var i := FindIndex(s, id);
    if i >= 0 {
      FindIndexUnique(t, id, i);
    } else if HasId(item, id) {
      FindIndexUnique(t, id, |s|);
    } else {
      assert forall j | 0 <= j < |t| :: !HasId(t[j], id) by {
        forall j | 0 <= j < |t| ensures !HasId(t[j], id) {
          if j < |s| { assert t[j] == s[j]; }
        }
      }
    }
  }

  /**
   * When `updates` leaves the id alone, looking the id up after `update`
   * finds the merged record, at the same position as before.
   */
  lemma FindAfterUpdate(s: seq<Record>, id: string, updates: Record)
    requires "id" !in updates
    ensures var r, i := UpdateFirst(s, id, updates), FindIndex(s, id);
      && FindIndex(r, id) == i
      && Find(r, id) == if i == -1 then None else Some(Merge(s[i], updates))
  {
    var r, i := UpdateFirst(s, id, updates), FindIndex(s, id);
    if i >= 0 {
      assert HasId(r[i], id);
      FindIndexUnique(r, id, i);
    }
  }

  /**
   * A record is kept by `delete` exactly when it does not carry the id;
   * `delete` drops as many records as carried the id, and afterwards no
   * record carries it.
   */
  lemma RemoveIdSpec(s: seq<Record>, id: string)
    ensures forall x :: x in RemoveId(s, id) <==> x in s && !HasId(x, id)
    ensures |RemoveId(s, id)| == |s| - CountWhere(s, IdIs(id))
    ensures Find(RemoveId(s, id), id) == None
  {
    FilterSpec(s, IdIsNot(id));
    CountComplement(s, IdIs(id), IdIsNot(id));
    var r := RemoveId(s, id);
    assert forall j | 0 <= j < |r| :: !HasId(r[j], id) by {
      forall j | 0 <= j < |r| ensures !HasId(r[j], id) {
        assert r[j] in r;
      }
    }
  }

  /** Deleting an id twice is deleting it once. */
  lemma RemoveIdIdempotent(s: seq<Record>, id: string)
    ensures RemoveId(RemoveId(s, id), id) == RemoveId(s, id)
  {
    FilterIdempotent(s, IdIsNot(id));
  }

  /** Deleting an id no record carries changes nothing. */
  lemma RemoveAbsentId(s: seq<Record>, id: string)
    requires Find(s, id) == None
    ensures RemoveId(s, id) == s
  {
    FilterKeepsAll(s, IdIsNot(id));
  }

  /**
   * With two records sharing an id, `update` merges into the first and leaves
   * the later duplicate as it was, while `delete` removes both.
   */
  lemma DuplicateIds(s: seq<Record>, id: string, updates: Record, i: int, j: int)
    requires 0 <= i < j < |s| && HasId(s[i], id) && HasId(s[j], id)
    ensures var k := FindIndex(s, id); 0 <= k <= i && UpdateFirst(s, id, updates)[k] == Merge(s[k], updates)
    ensures UpdateFirst(s, id, updates)[j] == s[j]
    ensures s[i] !in RemoveId(s, id) && s[j] !in RemoveId(s, id)
    ensures |RemoveId(s, id)| <= |s| - 2
  {
    var k := FindIndex(s, id);
    assert 0 <= k <= i;
    RemoveIdSpec(s, id);
    CountAtLeastTwo(s, id, i, j);
  }

  lemma {:induction false} CountAtLeastTwo(s: seq<Record>, id: string, i: int, j: int)
    requires 0 <= i < j < |s| && HasId(s[i], id) && HasId(s[j], id)
    ensures CountWhere(s, IdIs(id)) >= 2
  {
    if i == 0 {
      CountAtLeastOne(s[1..], id, j - 1);
    } else {
      CountAtLeastTwo(s[1..], id, i - 1, j - 1);
    }
  }

  lemma {:induction false} CountAtLeastOne(s: seq<Record>, id: string, j: int)
    requires 0 <= j < |s| && HasId(s[j], id)
    ensures CountWhere(s, IdIs(id)) >= 1
  {
    if j > 0 {
      CountAtLeastOne(s[1..], id, j - 1);
    }
  }
}

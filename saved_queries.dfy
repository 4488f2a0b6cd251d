/** The catalog of saved queries, `$savedQueries`: a PHP array from id to
    `{id, name, sql, created}` that keeps insertion order. Reading and writing
    the JSON file behind it is not modelled; the catalog is in-memory state. */
module SavedQueries {
  import opened Php

  /** One saved query; `created` is the `date('c')` text, supplied by the caller. */
  datatype SavedQuery = SavedQuery(id: string, name: string, sql: string, created: string)

  /** An insertion-ordered map: the keys in order, and the entries by key. */
  datatype Store = Store(order: seq<string>, entries: map<string, SavedQuery>)

  predicate NoDuplicates<T(==)>(ids: seq<T>) {
    forall i, j :: 0 <= i < j < |ids| ==> ids[i] != ids[j]
  }

  /** A duplicate-free order stays so without its head, and its head does not recur. */
  lemma NoDuplicatesTail<T>(ids: seq<T>)
    requires ids != [] && NoDuplicates(ids)
    ensures NoDuplicates(ids[1..]) && ids[0] !in ids[1..]
  {
    forall i, j | 0 <= i < j < |ids[1..]| ensures ids[1..][i] != ids[1..][j] {
      assert ids[1..][i] == ids[i + 1] && ids[1..][j] == ids[j + 1];
    }
    forall j | 0 <= j < |ids[1..]| ensures ids[1..][j] != ids[0] {
      assert ids[1..][j] == ids[j + 1];
    }
  }

  /** The order lists each key exactly once, and every entry carries its own key as id. */
  predicate WellFormed(st: Store) {
    NoDuplicates(st.order) &&
    (forall id :: id in st.entries ==> id in st.order) &&
    (forall i :: 0 <= i < |st.order| ==> st.order[i] in st.entries) &&
    (forall id :: id in st.entries ==> st.entries[id].id == id)
  }

  const Empty: Store := Store([], map[])

  /** The entries in insertion order, as a `foreach` over the array visits them. */
  function Listing(st: Store): (qs: seq<SavedQuery>)
    requires WellFormed(st)
    ensures |qs| == |st.order|
    ensures forall i :: 0 <= i < |qs| ==> qs[i] == st.entries[st.order[i]]
  {
    seq(|st.order|, i requires 0 <= i < |st.order| && WellFormed(st) => st.entries[st.order[i]])
  }

  /** The store after `$a[$id] = $q`, before any contract about it. */
  function Append(st: Store, q: SavedQuery): Store {
    Store(st.order + [q.id], st.entries[q.id := q])
  }

  lemma AppendWellFormed(st: Store, q: SavedQuery)
    requires WellFormed(st) && q.id !in st.entries
    ensures WellFormed(Append(st, q))
  {
    var r := Append(st, q);
    assert forall i :: 0 <= i < |st.order| ==> r.order[i] == st.order[i];
    assert r.order[|st.order|] == q.id;
  }

  lemma AppendListing(st: Store, q: SavedQuery)
    requires WellFormed(st) && q.id !in st.entries
    ensures WellFormed(Append(st, q))
    ensures Listing(Append(st, q)) == Listing(st) + [q]
  {
    AppendWellFormed(st, q);
    var r := Append(st, q);
    var a, b := Listing(r), Listing(st) + [q];
    assert forall i :: 0 <= i < |st.order| ==> r.order[i] == st.order[i] && a[i] == b[i];
    assert a == b;
  }

  /** `$a[$id] = $q` for an id not yet present: appended at the end. */
  function Insert(st: Store, q: SavedQuery): (r: Store)
    requires WellFormed(st) && q.id !in st.entries
    ensures WellFormed(r)
    ensures r.entries.Keys == st.entries.Keys + {q.id} && r.entries[q.id] == q
    ensures forall id :: id in st.entries ==> r.entries[id] == st.entries[id]
    ensures Listing(r) == Listing(st) + [q]
  {
    AppendListing(st, q);
    Append(st, q)
  }

  /** The order with one key taken out; the other keys keep their order. */
  function Without<T(==,!new)>(ids: seq<T>, id: T): (r: seq<T>)
    ensures forall x :: x in r <==> x in ids && x != id
    ensures NoDuplicates(ids) ==> NoDuplicates(r)
    ensures id !in ids ==> r == ids
  {
    if ids == [] then []
    else
      assert NoDuplicates(ids) ==> NoDuplicates(ids[1..]) && ids[0] !in ids[1..] by {
        if NoDuplicates(ids) { NoDuplicatesTail(ids); }
      }
      if ids[0] == id then Without(ids[1..], id)
      else [ids[0]] + Without(ids[1..], id)
  }

  lemma DistinctAt<T>(ids: seq<T>, i: int, j: int)
    requires NoDuplicates(ids) && 0 <= i < |ids| && 0 <= j < |ids| && i != j
    ensures ids[i] != ids[j]
  {
    if j < i {
      assert ids[j] != ids[i];
    }
  }

  /** Taking a key out works piece by piece. */
  lemma {:induction false} WithoutConcat<T(!new)>(a: seq<T>, b: seq<T>, id: T)
    ensures Without(a + b, id) == Without(a, id) + Without(b, id)
  {
    if a == [] {
      assert a + b == b;
    } else {
      assert (a + b)[0] == a[0] && (a + b)[1..] == a[1..] + b;
      WithoutConcat(a[1..], b, id);
    }
  }

  /** Taking out the key at position `k` of a duplicate-free order leaves the
      keys before it and the keys after it, each in their old order. */
  lemma {:induction false} WithoutKeepsOrder<T(!new)>(ids: seq<T>, id: T, k: int)
    requires NoDuplicates(ids) && 0 <= k < |ids| && ids[k] == id
    ensures Without(ids, id) == ids[..k] + ids[k + 1..]
    decreases k
  {
    NoDuplicatesTail(ids);
    if k == 0 {
      assert Without(ids, id) == Without(ids[1..], id);
      assert ids[..0] + ids[1..] == ids[1..];
    } else {
      DistinctAt(ids, 0, k);
      assert Without(ids, id) == [ids[0]] + Without(ids[1..], id);
      WithoutKeepsOrder(ids[1..], id, k - 1);
      assert ids[1..][..k - 1] == ids[1..k] && ids[1..][k..] == ids[k + 1..];
      assert [ids[0]] + ids[1..k] == ids[..k];
    }
  }

  /** The store after `unset`, before any contract about it. */
  function Unset(st: Store, id: string): Store {
    Store(Without(st.order, id), st.entries - {id})
  }

  lemma UnsetWellFormed(st: Store, id: string)
    requires WellFormed(st)
    ensures WellFormed(Unset(st, id))
  {
    var order := Without(st.order, id);
    assert forall i :: 0 <= i < |order| ==> order[i] in order;
  }

  /** Unsetting the key at position `k` drops entry `k` from the listing. */
  lemma UnsetListing(st: Store, id: string, k: int)
    requires WellFormed(st) && 0 <= k < |st.order| && st.order[k] == id
    ensures WellFormed(Unset(st, id))
    ensures Listing(Unset(st, id)) == Listing(st)[..k] + Listing(st)[k + 1..]
  {
    UnsetWellFormed(st, id);
    WithoutKeepsOrder(st.order, id, k);
    var order := Without(st.order, id);
    var a, b := Listing(Unset(st, id)), Listing(st)[..k] + Listing(st)[k + 1..];
    assert |a| == |b|;
    forall i | 0 <= i < |a| ensures a[i] == b[i] {
      if i < k {
        assert order[i] == st.order[i];
      } else {
        assert order[i] == st.order[i + 1];
      }
    }
  }

  /** `unset($a[$id])`: the entry leaves both the map and the order, and the
      listing loses exactly that entry, the others keeping their order. */
  function Remove(st: Store, id: string): (r: Store)
    requires WellFormed(st)
    ensures WellFormed(r)
    ensures r.entries == st.entries - {id}
    ensures id !in st.entries ==> r == st
    ensures forall k :: 0 <= k < |st.order| && st.order[k] == id ==>
      Listing(r) == Listing(st)[..k] + Listing(st)[k + 1..]
  {
    UnsetWellFormed(st, id);
    forall k | 0 <= k < |st.order| && st.order[k] == id
      ensures Listing(Unset(st, id)) == Listing(st)[..k] + Listing(st)[k + 1..]
    {
      UnsetListing(st, id, k);
    }
    Unset(st, id)
  }

  /** `$id && isset($a[$id])`: "0" and "" are never found. */
  function Find(st: Store, id: string): (r: Option<SavedQuery>)
    ensures r.Some? <==> !PhpEmpty(id) && id in st.entries
    ensures r.Some? ==> r.value == st.entries[id]
  {
    if !PhpEmpty(id) && id in st.entries then Some(st.entries[id]) else None
  }

  lemma {:induction false} WithoutAppended<T(!new)>(ids: seq<T>, id: T)
    requires id !in ids
    ensures Without(ids + [id], id) == ids
  {
    if ids != [] {
      assert (ids + [id])[1..] == ids[1..] + [id];
      WithoutAppended(ids[1..], id);
    } else {
      assert [id][1..] == [];
    }
  }

  /** Saving under a fresh id and then deleting that id gives back the catalog. */
  lemma RemoveUndoesInsert(st: Store, q: SavedQuery)
    requires WellFormed(st) && q.id !in st.entries
    ensures Remove(Insert(st, q), q.id) == st
  {
    WithoutAppended(st.order, q.id);
    assert st.entries[q.id := q] - {q.id} == st.entries;
  }

  /** A found entry is the one saved under that id. */
  lemma FindAfterInsert(st: Store, q: SavedQuery)
    requires WellFormed(st) && q.id !in st.entries && !PhpEmpty(q.id)
    ensures Find(Insert(st, q), q.id) == Some(q)
  {
  }

  /** After a delete the id is not found, and every other id is found as before. */
  lemma FindAfterRemove(st: Store, id: string, other: string)
    requires WellFormed(st) && other != id
    ensures Find(Remove(st, id), id).None?
    ensures Find(Remove(st, id), other) == Find(st, other)
  {
  }

  const NameMissingMessage: string := "Please provide a name to save the query."

  function SavedMessage(name: string): string {
    "Saved query '" + name + "'."
  }

  function DeletedMessage(name: string): string {
    "Deleted query '" + name + "'."
  }

  /** `$savedQueries`, updated in place by the save and delete actions. */
  class Catalog {
    var order: seq<string>
    var entries: map<string, SavedQuery>

    function View(): Store
      reads this
    {
      Store(order, entries)
    }

    ghost predicate Valid()
      reads this
    {
      WellFormed(View())
    }

    constructor ()
      ensures Valid() && View() == Empty
    {
      order, entries := [], map[];
    }

    /** The save action, `$id` being the fresh `uniqid()`. The name is trimmed;
        the SQL is stored as submitted. */
    method Save(id: string, postedName: string, sql: string, created: string) returns (message: string)
      requires Valid() && id !in entries
      modifies this
      ensures Valid()
      ensures Trim(postedName) == "" ==>
        View() == old(View()) && message == NameMissingMessage
      ensures Trim(postedName) != "" ==>
        View() == Insert(old(View()), SavedQuery(id, Trim(postedName), sql, created)) &&
        message == SavedMessage(Trim(postedName))
    {
      var name := Trim(postedName);
      if name == "" {
        message := NameMissingMessage;
      } else {
        var q := SavedQuery(id, name, sql, created);
        ghost var before := View();
        entries := entries[id := q];
        order := order + [id];
        assert View() == Insert(before, q);
        message := SavedMessage(name);
      }
    }

    /** The delete action: only a truthy id that is present is removed. */
    method Delete(id: string) returns (message: Option<string>)
      requires Valid()
      modifies this
      ensures Valid()
      ensures Find(old(View()), id).None? ==> View() == old(View()) && message == None
      ensures Find(old(View()), id).Some? ==>
        View() == Remove(old(View()), id) &&
        message == Some(DeletedMessage(old(entries)[id].name))
    {
      if !PhpEmpty(id) && id in entries {
        var name := entries[id].name;
        ghost var before := View();
        entries := entries - {id};
        order := Without(order, id);
        assert View() == Remove(before, id);
        message := Some(DeletedMessage(name));
      } else {
        message := None;
      }
    }
  }
}

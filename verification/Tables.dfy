/** Insertion-ordered collections with one entry per id.

    A Python `dict` whose keys are only ever assigned, and an SQL table written by
    "update if the key exists, else insert", both behave like `Upsert`. */
module Tables {
  import opened Wrappers
  import opened Billing

  datatype Entry<V> = Entry(id: Id, value: V)

  type Table<V> = seq<Entry<V>>

  function Ids<V>(t: Table<V>): set<Id> {
    set i | 0 <= i < |t| :: t[i].id
  }

  predicate UniqueIds<V>(t: Table<V>) {
    forall i, j :: 0 <= i < j < |t| ==> t[i].id != t[j].id
  }

  /** The position of `id`, or the length of the table when it is absent. */
  function Position<V>(t: Table<V>, id: Id): (r: nat)
    ensures r <= |t|
    ensures r < |t| ==> t[r].id == id
    ensures forall i :: 0 <= i < r ==> t[i].id != id
  {
    if t == [] || t[0].id == id then 0 else 1 + Position(t[1..], id)
  }

  function Lookup<V>(t: Table<V>, id: Id): (r: Option<V>)
    ensures r.Some? <==> id in Ids(t)
  {
    var p := Position(t, id);
    if p < |t| then assert t[p].id in Ids(t); Some(t[p].value) else None
  }

  function Upsert<V>(t: Table<V>, id: Id, v: V): (r: Table<V>) {
    var p := Position(t, id);
    if p < |t| then t[p := Entry(id, v)] else t + [Entry(id, v)]
  }

  /** The table seen as a finite map. */
  function AsMap<V>(t: Table<V>): (m: map<Id, V>)
    ensures m.Keys == Ids(t)
  {
    map id | id in Ids(t) :: Lookup(t, id).value
  }

  function Values<V>(t: Table<V>): set<V> {
    set i | 0 <= i < |t| :: t[i].value
  }

  lemma LookupIsValue<V>(t: Table<V>, id: Id)
    requires id in Ids(t)
    ensures Lookup(t, id).value in Values(t)
    ensures exists i :: 0 <= i < |t| && t[i] == Entry(id, Lookup(t, id).value)
  {
    var p := Position(t, id);
    assert t[p].value in Values(t) && t[p] == Entry(id, t[p].value);
  }

  lemma PositionIs<V>(t: Table<V>, id: Id, p: nat)
    requires UniqueIds(t) && p < |t| && t[p].id == id
    ensures Position(t, id) == p
  {
  }

  lemma UpsertFrame<V>(t: Table<V>, id: Id, v: V)
    requires UniqueIds(t)
    ensures var t' := Upsert(t, id, v);
            && UniqueIds(t')
            && Ids(t') == Ids(t) + {id}
            && |t'| == |t| + (if id in Ids(t) then 0 else 1)
            && (forall i :: 0 <= i < |t| ==> t'[i].id == t[i].id)
  {
    var t' := Upsert(t, id, v);
    var p := Position(t, id);
    assert p < |t| <==> id in Ids(t) by { assert p < |t| ==> t[p].id in Ids(t); }
    assert Ids(t') == Ids(t) + {id} by {
      forall x ensures x in Ids(t') <==> x in Ids(t) + {id} {
        if i :| 0 <= i < |t| && t[i].id == x { assert t'[i].id == x; }
        assert t'[p].id == id;
      }
    }
  }

  /** After a save, reading the saved id gives the saved value and every other id is
      untouched; ids stay unique. */
  lemma UpsertIsUpdate<V>(t: Table<V>, id: Id, v: V)
    requires UniqueIds(t)
    ensures UniqueIds(Upsert(t, id, v))
    ensures AsMap(Upsert(t, id, v)) == AsMap(t)[id := v]
  {
    var t' := Upsert(t, id, v);
    UpsertFrame(t, id, v);
    forall x | x in Ids(t')
      ensures Lookup(t', x) == if x == id then Some(v) else Lookup(t, x)
    {
      if x == id {
        PositionIs(t', id, Position(t, id));
      } else {
        PositionIs(t', x, Position(t, x));
      }
    }
  }

  lemma LookupsOfUpsert<V>(t: Table<V>, id: Id, v: V)
    requires UniqueIds(t)
    ensures var t' := Upsert(t, id, v);
            && Ids(t') == Ids(t) + {id}
            && forall x :: x in Ids(t') ==> Lookup(t', x) == if x == id then Some(v) else Lookup(t, x)
  {
    UpsertIsUpdate(t, id, v);
    var t' := Upsert(t, id, v);
    assert AsMap(t').Keys == AsMap(t)[id := v].Keys;
    forall x | x in Ids(t')
      ensures Lookup(t', x) == if x == id then Some(v) else Lookup(t, x)
    {
      assert AsMap(t')[x] == Lookup(t', x).value;
    }
  }

  /** What holds of every entry and of the new one holds of every entry afterwards. */
  lemma UpsertKeeps<V>(t: Table<V>, id: Id, v: V, sound: (V, Id) -> bool)
    requires UniqueIds(t) && sound(v, id)
    requires forall i :: 0 <= i < |t| ==> sound(t[i].value, t[i].id)
    ensures var t' := Upsert(t, id, v);
            UniqueIds(t') && forall i :: 0 <= i < |t'| ==> sound(t'[i].value, t'[i].id)
  {
    UpsertFrame(t, id, v);
    var t' := Upsert(t, id, v);
    forall i | 0 <= i < |t'| ensures sound(t'[i].value, t'[i].id) {
      if i != Position(t, id) { assert t'[i] == t[i]; }
    }
  }

  lemma UpsertValues<V>(t: Table<V>, id: Id, v: V)
    ensures Values(Upsert(t, id, v)) <= Values(t) + {v} && v in Values(Upsert(t, id, v))
  {
    var p, t' := Position(t, id), Upsert(t, id, v);
    assert t'[p].value == v;
    forall i | 0 <= i < |t'| ensures t'[i].value in Values(t) + {v} {
      if i != p { assert t'[i] == t[i]; }
    }
  }

  // ----- Runs of saves -----

  function SaveAll<V>(t: Table<V>, saves: seq<Entry<V>>): Table<V> {
    if saves == [] then t
    else
      var last := saves[|saves| - 1];
      Upsert(SaveAll(t, saves[..|saves| - 1]), last.id, last.value)
  }

  /** The value of the last save under `id`, if any. */
  function LastSaved<V>(saves: seq<Entry<V>>, id: Id): Option<V> {
    if saves == [] then None
    else if saves[|saves| - 1].id == id then Some(saves[|saves| - 1].value)
    else LastSaved(saves[..|saves| - 1], id)
  }

  /** After any run of saves there is one entry per id, `get` returns what was saved
      last under the id, and ids never saved read as before. */
  lemma {:induction false} GetReturnsLastSaved<V>(t: Table<V>, saves: seq<Entry<V>>)
    requires UniqueIds(t)
    ensures var t' := SaveAll(t, saves);
            && UniqueIds(t')
            && forall id :: Lookup(t', id) ==
                 (if LastSaved(saves, id).Some? then LastSaved(saves, id) else Lookup(t, id))
  {
    if saves == [] {
    } else {
      var front, last := saves[..|saves| - 1], saves[|saves| - 1];
      var before := SaveAll(t, front);
      GetReturnsLastSaved(t, front);
      UpsertIsUpdate(before, last.id, last.value);
      var after := Upsert(before, last.id, last.value);
      forall id
        ensures Lookup(after, id) == if id == last.id then Some(last.value) else Lookup(before, id)
      {
        assert id in AsMap(after).Keys <==> id in AsMap(before)[last.id := last.value].Keys;
        if id in Ids(after) { assert AsMap(after)[id] == Lookup(after, id).value; }
        if id in Ids(before) { assert AsMap(before)[id] == Lookup(before, id).value; }
      }
    }
  }

  // ----- First match in insertion order -----

  /** The position of the first value with the given property. */
  function FirstMatch<V>(t: Table<V>, wanted: V -> bool): (r: nat)
    ensures r <= |t|
    ensures r < |t| ==> wanted(t[r].value)
    ensures forall i :: 0 <= i < r ==> !wanted(t[i].value)
  {
    if t == [] || wanted(t[0].value) then 0 else 1 + FirstMatch(t[1..], wanted)
  }

  lemma FirstMatchIs<V>(t: Table<V>, wanted: V -> bool, p: nat)
    requires p < |t| && wanted(t[p].value)
    requires forall i :: 0 <= i < p ==> !wanted(t[i].value)
    ensures FirstMatch(t, wanted) == p
  {
  }

  /** Saving what is already there changes nothing; saving a new id adds an entry at the end. */
  lemma UpsertExtends<V>(t: Table<V>, id: Id, v: V)
    requires UniqueIds(t) && (id in Ids(t) ==> Lookup(t, id) == Some(v))
    ensures t <= Upsert(t, id, v)
    ensures id in Ids(t) ==> Upsert(t, id, v) == t
  {
    var p := Position(t, id);
    if p < |t| {
      assert t[p] == Entry(id, v) && t[p].id in Ids(t);
    }
  }

  /** Entries added at the end never replace a first match. */
  lemma FirstMatchStays<V>(t: Table<V>, longer: Table<V>, wanted: V -> bool)
    requires t <= longer && FirstMatch(t, wanted) < |t|
    ensures FirstMatch(longer, wanted) == FirstMatch(t, wanted)
    ensures longer[FirstMatch(t, wanted)] == t[FirstMatch(t, wanted)]
  {
    var p := FirstMatch(t, wanted);
    assert forall i :: 0 <= i <= p ==> longer[i] == t[i];
    FirstMatchIs(longer, wanted, p);
  }
}

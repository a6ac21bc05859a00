/** The id-keyed tables both bridge modules keep (`fileManagers`,
    `upgrades`), and the three ways they are changed: Android inserts only
    under a new id, iOS assigns (an optional value: nil removes), and both
    remove on destroy. */
module Registry {
  import opened Bridge

  /** Android `create…`: a new id gets the entry (Some of the new table); an
      id already present is refused (None) and the table stays as it was. */
  function InsertNew<T>(table: map<string, T>, id: string, v: T): (r: Option<map<string, T>>)
    ensures r.None? <==> id in table
    ensures r.Some? ==> r.value.Keys == table.Keys + {id} && r.value[id] == v
    ensures r.Some? ==> forall k | k in table :: r.value[k] == table[k]
  {
    if id in table then None else Some(table[id := v])
  }

  /** Swift `table[id] = v` with an optional `v`: a value replaces whatever
      the id held, nil removes the id. */
  function Assign<T>(table: map<string, T>, id: string, v: Option<T>): (r: map<string, T>)
    ensures v.Some? ==> r.Keys == table.Keys + {id} && r[id] == v.value
    ensures v.None? ==> r.Keys == table.Keys - {id}
    ensures forall k | k in table && k != id :: k in r && r[k] == table[k]
  {
    match v
    case Some(x) => table[id := x]
    case None => table - {id}
  }

  /** `remove(id)` / `table[id] = nil`: only that id goes. */
  function Remove<T>(table: map<string, T>, id: string): (r: map<string, T>)
    ensures r.Keys == table.Keys - {id}
    ensures forall k | k in r :: r[k] == table[k]
  {
    table - {id}
  }

  /** Creating under a new id and then destroying it gives back the table. */
  lemma InsertNewThenRemove<T>(table: map<string, T>, id: string, v: T)
    requires id !in table
    ensures InsertNew(table, id, v).Some? && Remove(InsertNew(table, id, v).value, id) == table
  {
    var r := Remove(InsertNew(table, id, v).value, id);
    assert r.Keys == table.Keys;
  }

  /** Android never replaces a live entry; iOS always does, and removes it
      when the new value is nil. */
  lemma DuplicateIds<T>(table: map<string, T>, id: string, v: T)
    requires id in table
    ensures InsertNew(table, id, v) == None
    ensures Assign(table, id, Some(v))[id] == v
    ensures id !in Assign(table, id, None)
  {
  }

  /** Assigning nil is removing. */
  lemma AssignNoneIsRemove<T>(table: map<string, T>, id: string)
    ensures Assign(table, id, None) == Remove(table, id)
  {
  }
}

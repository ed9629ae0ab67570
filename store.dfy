/** What the storage layer's whole-table query returns, shared by both item tables. */
module Store {
  import opened Uuids

  /**
   * `DB.Find(&items)` with no ORDER BY: one element per row, every row present, in an
   * order the database chooses. Modelled as a scan that takes the rows out one by one;
   * `keys` names the row each element came from.
   */
  method ListAll<T(==)>(rows: map<Uuid, T>) returns (items: seq<T>, ghost keys: seq<Uuid>)
    ensures |items| == |keys| == |rows|
    ensures forall i :: 0 <= i < |keys| ==> keys[i] in rows && items[i] == rows[keys[i]]
    ensures forall i, j :: 0 <= i < j < |keys| ==> keys[i] != keys[j]
    ensures forall id :: id in rows ==> id in keys
    // Consequences of the clauses above, stated on the returned elements alone:
    ensures forall id :: id in rows ==> rows[id] in items
    ensures forall x :: x in items ==> x in rows.Values
  {
    items, keys := [], [];
    var pending := rows.Keys;
    while pending != {}
      invariant pending <= rows.Keys
      invariant |items| == |keys| && |items| + |pending| == |rows|
      invariant forall i :: 0 <= i < |keys| ==> keys[i] in rows && keys[i] !in pending
      invariant forall i :: 0 <= i < |keys| ==> items[i] == rows[keys[i]]
      invariant forall i, j :: 0 <= i < j < |keys| ==> keys[i] != keys[j]
      invariant forall id :: id in rows && id !in pending ==> id in keys
      invariant forall id :: id in rows && id !in pending ==> rows[id] in items
      invariant forall x :: x in items ==> x in rows.Values
      decreases |pending|
    {
      var id :| id in pending;
      items, keys := items + [rows[id]], keys + [id];
      pending := pending - {id};
    }
  }
}

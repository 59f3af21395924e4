/** An in-memory table standing for one relational table behind the ORM:
    rows in insertion order, each with an auto-incremented id. */
module Store {
  import opened Js

  datatype Entry<T> = Entry(id: nat, value: T)

  ghost predicate IdsIncreasing<T>(rows: seq<Entry<T>>) {
    forall i, j :: 0 <= i < j < |rows| ==> rows[i].id < rows[j].id
  }

  /** `findUnique({ where: { id } })`: the row with that id, if any. */
  function FindIn<T>(rows: seq<Entry<T>>, id: nat): (r: Option<T>)
    ensures r.Some? ==> Entry(id, r.value) in rows
    ensures r.None? ==> forall e :: e in rows ==> e.id != id
    decreases |rows|
  {
    if rows == [] then None
    else if rows[0].id == id then Some(rows[0].value)
    else FindIn(rows[1..], id)
  }

  /** `update({ where: { id }, data })`: `f` applied to the row with that id. */
  function UpdateIn<T>(rows: seq<Entry<T>>, id: nat, f: T -> T): seq<Entry<T>> {
    seq(|rows|, i requires 0 <= i < |rows| =>
      if rows[i].id == id then Entry(id, f(rows[i].value)) else rows[i])
  }

  /** An update touches only the row it names; every other row is kept. */
  lemma UpdateInKeepsOthers<T>(rows: seq<Entry<T>>, id: nat, f: T -> T, e: Entry<T>)
    requires e in rows && e.id != id
    ensures e in UpdateIn(rows, id, f)
  {
    var i :| 0 <= i < |rows| && rows[i] == e;
    assert UpdateIn(rows, id, f)[i] == e;
  }

  /** With unique ids, reading a row back after updating it gives `f` of the old row. */
  lemma {:induction false} FindAfterUpdate<T>(rows: seq<Entry<T>>, id: nat, f: T -> T)
    requires IdsIncreasing(rows)
    ensures FindIn(UpdateIn(rows, id, f), id) ==
      match FindIn(rows, id) case None => None case Some(v) => Some(f(v))
    decreases |rows|
  {
    if rows != [] {
      var u := UpdateIn(rows, id, f);
      assert u[1..] == UpdateIn(rows[1..], id, f);
      FindAfterUpdate(rows[1..], id, f);
    }
  }

  /** Updating the row just appended under a fresh id changes that row only. */
  lemma UpdateNewest<T>(rows: seq<Entry<T>>, e: Entry<T>, f: T -> T)
    requires forall i :: 0 <= i < |rows| ==> rows[i].id < e.id
    ensures UpdateIn(rows + [e], e.id, f) == rows + [Entry(e.id, f(e.value))]
  {}

  class Table<T> {
    var rows: seq<Entry<T>>
    var nextId: nat

    ghost predicate Valid()
      reads this
    {
      IdsIncreasing(rows) && forall i :: 0 <= i < |rows| ==> rows[i].id < nextId
    }

    constructor ()
      ensures Valid() && rows == [] && nextId == 1
    {
      rows := [];
      nextId := 1;
    }

    function Find(id: nat): Option<T>
      reads this
    {
      FindIn(rows, id)
    }

    /** `findMany({ orderBy: { id: "desc" }, take: 1 })`: the row with the largest id. */
    function Newest(): (r: Option<Entry<T>>)
      reads this
      requires Valid()
      ensures r.None? <==> rows == []
      ensures r.Some? ==> r.value in rows && forall e :: e in rows ==> e.id <= r.value.id
    {
      if rows == [] then None else Some(rows[|rows| - 1])
    }

    /** `create({ data })`: appends the row under the next id. */
    method Create(v: T) returns (e: Entry<T>)
      requires Valid()
      modifies this
      ensures Valid()
      ensures e == Entry(old(nextId), v)
      ensures rows == old(rows) + [e] && nextId == old(nextId) + 1
    {
      e := Entry(nextId, v);
      rows := rows + [e];
      nextId := nextId + 1;
    }

    /** `update({ where: { id }, data })`: a missing id changes nothing (the ORM
        throws, and every caller here swallows or reports the error). */
    method Update(id: nat, f: T -> T) returns (found: bool)
      requires Valid()
      modifies this
      ensures Valid() && nextId == old(nextId)
      ensures found == old(Find(id)).Some?
      ensures rows == UpdateIn(old(rows), id, f)
      ensures !found ==> rows == old(rows)
    {
      found := FindIn(rows, id).Some?;
      var before := rows;
      rows := UpdateIn(before, id, f);
      if !found {
        assert rows == before;
      }
    }
  }
}

/** The `Todo.objects` table the views and the seed command work on: rows in
    insertion order and the auto-increment counter that numbers them (an
    id, once used, is never handed out again, even after a delete). The
    query language and the SQL behind it are not modelled. */
module TodoStore {
  import opened Common
  import opened TodoModels

  /** The row with id `pk`, if any (`objects.get(pk=pk)` without the
      exception). */
  function Lookup(rows: seq<Todo>, pk: nat): (r: Option<Todo>)
    ensures r.Some? <==> exists i :: 0 <= i < |rows| && rows[i].id == pk
    ensures r.Some? ==> r.value in rows && r.value.id == pk
    decreases |rows|
  {
    if |rows| == 0 then None
    else if rows[0].id == pk then Some(rows[0])
    else
      var r := Lookup(rows[1..], pk);
      assert forall i :: 1 <= i < |rows| ==> rows[i] == rows[1..][i - 1];
      r
  }

  /** Ids are distinct. */
  predicate UniqueIds(rows: seq<Todo>) {
    forall i, j :: 0 <= i < j < |rows| ==> rows[i].id != rows[j].id
  }

  /** The rows with their `is_resolved` column set to `value` where the id is
      `pk` (`save(update_fields=["is_resolved"])`). */
  function WithResolved(rows: seq<Todo>, pk: nat, value: bool): (r: seq<Todo>)
    ensures |r| == |rows|
    ensures forall i :: 0 <= i < |rows| ==>
      r[i] == if rows[i].id == pk then rows[i].(isResolved := value) else rows[i]
  {
    seq(|rows|, i requires 0 <= i < |rows| => if rows[i].id == pk then rows[i].(isResolved := value) else rows[i])
  }

  class TodoTable {
    var rows: seq<Todo>
    var nextId: nat

    /** Every id is distinct and below the counter. */
    predicate Valid()
      reads this
    {
      UniqueIds(rows) && forall i :: 0 <= i < |rows| ==> rows[i].id < nextId
    }

    /** An empty table whose first id will be 1. */
    constructor ()
      ensures Valid() && rows == [] && nextId == 1
    {
      rows := [];
      nextId := 1;
    }

    /** `objects.exists()`. */
    function Exists(): (b: bool)
      reads this
      ensures b <==> |rows| > 0
    {
      |rows| > 0
    }

    /** `objects.create(**fields)`: one new row at the end, numbered by the
        counter and stamped `createdAt`. */
    method Create(d: Draft, createdAt: int) returns (t: Todo)
      requires Valid()
      modifies this
      ensures Valid()
      ensures t == Todo(old(nextId), d.title, d.description, d.dueDate, d.isResolved, d.priority, d.category, createdAt)
      ensures rows == old(rows) + [t] && nextId == old(nextId) + 1
    {
      t := Todo(nextId, d.title, d.description, d.dueDate, d.isResolved, d.priority, d.category, createdAt);
      rows := rows + [t];
      nextId := nextId + 1;
    }

    /** `objects.all().delete()`: the counter is kept. */
    method DeleteAll()
      requires Valid()
      modifies this
      ensures Valid() && rows == [] && nextId == old(nextId)
    {
      rows := [];
    }

    /** Sets `is_resolved` on the row with id `pk`; no other column and no
        other row changes. */
    method SaveResolved(pk: nat, value: bool)
      requires Valid()
      modifies this
      ensures Valid()
      ensures rows == WithResolved(old(rows), pk, value) && nextId == old(nextId)
    {
      rows := WithResolved(rows, pk, value);
    }
  }
}

/** The `seed_todos` management command of the Django todo app
    (tasks/management/commands/seed_todos.py): it leaves a populated table
    alone unless forced, clears it when forced, and otherwise creates eight
    sample records. `today` is a day number and `clock(k)` the creation time
    of the k-th record created; the console message is the outcome. */
module SeedTodos {
  import opened Common
  import opened TodoModels
  import opened TodoStore

  const Title0: string := "Prepare client presentation"
  const Title1: string := "Buy groceries for the week"
  const Title2: string := "Read Python chapter"
  const Title3: string := "Book a dentist appointment"
  const Title4: string := "Do code review for the team"
  const Title5: string := "Pay utility bills"
  const Title6: string := "Prepare for Django exam"
  const Title7: string := "Buy a birthday gift"
  const Description0: string := "Create slides with quarterly results and growth plans"
  const Description1: string := "Milk, bread, vegetables, fruit"
  const Description2: string := "Chapter 5: Decorators and context managers"
  const Description4: string := "Check pull requests for new features"
  const Description5: string := "Don't forget internet and electricity"
  const Description6: string := "Review ORM, migrations, authentication"

  /** The eight sample records, in creation order. */
  function Samples(today: int): (s: seq<Draft>)
    ensures |s| == 8
  {
    [ Draft(Title0, Description0, Some(today + 2), false, "high", "work"),
      Draft(Title1, Description1, Some(today), false, "medium", "shopping"),
      Draft(Title2, Description2, Some(today + 5), false, "medium", "study"),
      Draft(Title3, "", Some(today - 2), false, "high", "personal"),
      Draft(Title4, Description4, None, true, "medium", "work"),
      Draft(Title5, Description5, Some(today + 7), false, "low", "personal"),
      Draft(Title6, Description6, Some(today + 10), false, "high", "study"),
      Draft(Title7, "", Some(today + 14), true, "medium", "shopping") ]
  }

  /** The fields of a stored record that its creator supplied. */
  function DraftOf(t: Todo): Draft {
    Draft(t.title, t.description, t.dueDate, t.isResolved, t.priority, t.category)
  }

  /** The samples are due in 2, 0, 5, -2, (none), 7, 10 and 14 days, exactly
      the fifth and the eighth are resolved, and every one passes model
      validation. */
  lemma SampleFacts(today: int)
    ensures |Samples(today)| == 8
    ensures [Samples(today)[0].dueDate, Samples(today)[1].dueDate, Samples(today)[2].dueDate,
             Samples(today)[3].dueDate, Samples(today)[4].dueDate, Samples(today)[5].dueDate,
             Samples(today)[6].dueDate, Samples(today)[7].dueDate]
         == [Some(today + 2), Some(today), Some(today + 5), Some(today - 2), None,
             Some(today + 7), Some(today + 10), Some(today + 14)]
    ensures forall k :: 0 <= k < 8 ==> (Samples(today)[k].isResolved <==> k == 4 || k == 7)
    ensures forall k :: 0 <= k < 8 ==>
      Conforms(Todo(0, Samples(today)[k].title, Samples(today)[k].description, Samples(today)[k].dueDate,
                    Samples(today)[k].isResolved, Samples(today)[k].priority, Samples(today)[k].category, 0))
  {
    var s := Samples(today);
    PriorityChoiceValues("low");
    PriorityChoiceValues("medium");
    PriorityChoiceValues("high");
    CategoryChoiceValues("work");
    CategoryChoiceValues("study");
    CategoryChoiceValues("personal");
    CategoryChoiceValues("shopping");
  }

  /** The records that creating `drafts` in turn adds to a table whose
      counter stands at `start`. */
  function Seeded(start: nat, drafts: seq<Draft>, clock: nat -> int): (r: seq<Todo>)
    ensures |r| == |drafts|
    ensures forall k :: 0 <= k < |r| ==> DraftOf(r[k]) == drafts[k] && r[k].id == start + k && r[k].createdAt == clock(k)
  {
    seq(|drafts|, k requires 0 <= k < |drafts| =>
      Todo(start + k, drafts[k].title, drafts[k].description, drafts[k].dueDate,
           drafts[k].isResolved, drafts[k].priority, drafts[k].category, clock(k)))
  }

  /** Creating one more draft appends one more record. */
  lemma SeededStep(start: nat, drafts: seq<Draft>, d: Draft, clock: nat -> int)
    ensures Seeded(start, drafts + [d], clock) ==
      Seeded(start, drafts, clock) +
      [Todo(start + |drafts|, d.title, d.description, d.dueDate, d.isResolved, d.priority, d.category, clock(|drafts|))]
  {
    var a := Seeded(start, drafts + [d], clock);
    var b := Seeded(start, drafts, clock) +
      [Todo(start + |drafts|, d.title, d.description, d.dueDate, d.isResolved, d.priority, d.category, clock(|drafts|))];
    assert forall k :: 0 <= k < |a| ==> a[k] == b[k];
  }

  /** The table (rows and counter) after one run of the command. */
  function SeedResult(rows: seq<Todo>, nextId: nat, force: bool, today: int, clock: nat -> int): (r: (seq<Todo>, nat))
    ensures |rows| > 0 && !force ==> r == (rows, nextId)
    ensures !(|rows| > 0 && !force) ==>
      |r.0| == 8 && r.1 == nextId + 8 &&
      forall k :: 0 <= k < 8 ==> DraftOf(r.0[k]) == Samples(today)[k] && r.0[k].id == nextId + k
  {
    if |rows| > 0 && !force then (rows, nextId) else (Seeded(nextId, Samples(today), clock), nextId + 8)
  }

  /** A second run without --force, on any later day, changes nothing: the
      first run left the table populated. */
  lemma SeedTwiceIsSeedOnce(rows: seq<Todo>, nextId: nat, today: int, clock: nat -> int,
                            today2: int, clock2: nat -> int)
    ensures var once := SeedResult(rows, nextId, false, today, clock);
            SeedResult(once.0, once.1, false, today2, clock2) == once
  {
  }

  /** With --force the result depends on the prior table only through the
      counter: the rows are exactly the eight samples. */
  lemma ForceIgnoresContents(rows1: seq<Todo>, rows2: seq<Todo>, nextId: nat, today: int, clock: nat -> int)
    ensures SeedResult(rows1, nextId, true, today, clock) == SeedResult(rows2, nextId, true, today, clock)
    ensures |SeedResult(rows1, nextId, true, today, clock).0| == 8
  {
  }

  datatype Outcome = Skipped | Created(count: nat)

  /** The `for item in sample: Todo.objects.create(**item)` loop on an
      empty table. */
  method CreateAll(table: TodoTable, drafts: seq<Draft>, clock: nat -> int)
    requires table.Valid() && table.rows == []
    modifies table
    ensures table.Valid()
    ensures table.rows == Seeded(old(table.nextId), drafts, clock) && table.nextId == old(table.nextId) + |drafts|
  {
    var start := table.nextId;
    var i := 0;
    while i < |drafts|
      invariant 0 <= i <= |drafts|
      invariant table.Valid()
      invariant table.rows == Seeded(start, drafts[..i], clock) && table.nextId == start + i
    {
      var _ := table.Create(drafts[i], clock(i));
      assert drafts[..i + 1] == drafts[..i] + [drafts[i]];
      SeededStep(start, drafts[..i], drafts[i], clock);
      i := i + 1;
    }
    assert drafts[..i] == drafts;
  }

  /** `Command.handle`. */
  method Handle(table: TodoTable, force: bool, today: int, clock: nat -> int) returns (out: Outcome)
    requires table.Valid()
    modifies table
    ensures table.Valid()
    ensures (table.rows, table.nextId) == SeedResult(old(table.rows), old(table.nextId), force, today, clock)
    ensures out == if |old(table.rows)| > 0 && !force then Skipped else Created(8)
  {
    if table.Exists() && !force {
      return Skipped;
    }
    if force {
      table.DeleteAll();
    }
    var sample := Samples(today);
    CreateAll(table, sample, clock);
    out := Created(|sample|);
  }
}

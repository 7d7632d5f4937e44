/** The todo record of the Django todo app (tasks/models.py): its fields and
    their defaults, the declared priority and category choices, and the
    model's default ordering. Dates are day numbers and timestamps are
    integers; neither is ever negative-checked by the source. */
module TodoModels {
  import opened Common

  datatype Todo = Todo(
    id: nat,
    title: string,
    description: string,
    dueDate: Option<int>,
    isResolved: bool,
    priority: string,
    category: string,
    createdAt: int)

  /** The declared (value, label) pairs. */
  const PriorityChoices: seq<(string, string)> := [("low", "Low"), ("medium", "Medium"), ("high", "High")]
  const CategoryChoices: seq<(string, string)> :=
    [("work", "Work"), ("study", "Study"), ("personal", "Personal"), ("shopping", "Shopping"), ("other", "Other")]

  const TitleMaxLength: nat := 200
  const PriorityMaxLength: nat := 10
  const CategoryMaxLength: nat := 20
  const DefaultPriority: string := "medium"
  const DefaultCategory: string := "work"

  predicate IsChoice(v: string, choices: seq<(string, string)>) {
    exists i :: 0 <= i < |choices| && choices[i].0 == v
  }

  /** What model validation accepts: the lengths of the character fields
      and the declared choices. The description may be blank and the due
      date absent. */
  predicate Conforms(t: Todo) {
    |t.title| <= TitleMaxLength &&
    |t.priority| <= PriorityMaxLength && IsChoice(t.priority, PriorityChoices) &&
    |t.category| <= CategoryMaxLength && IsChoice(t.category, CategoryChoices)
  }

  /** The declared priorities are exactly low, medium and high. */
  lemma PriorityChoiceValues(v: string)
    ensures IsChoice(v, PriorityChoices) <==> v in {"low", "medium", "high"}
  {
    if v in {"low", "medium", "high"} {
      var i := if v == "low" then 0 else if v == "medium" then 1 else 2;
      assert PriorityChoices[i].0 == v;
    }
  }

  /** The declared categories are exactly work, study, personal, shopping
      and other. */
  lemma CategoryChoiceValues(v: string)
    ensures IsChoice(v, CategoryChoices) <==> v in {"work", "study", "personal", "shopping", "other"}
  {
    if v in {"work", "study", "personal", "shopping", "other"} {
      var i := if v == "work" then 0 else if v == "study" then 1 else if v == "personal" then 2
               else if v == "shopping" then 3 else 4;
      assert CategoryChoices[i].0 == v;
    }
  }

  /** A record created with only the required title (and optionally a
      description): not resolved, priority "medium", category "work", no
      due date; the id and creation time are the database's. */
  function NewTodo(id: nat, title: string, description: string, createdAt: int): (t: Todo)
    ensures t.id == id && t.title == title && t.description == description && t.createdAt == createdAt
    ensures !t.isResolved && t.priority == "medium" && t.category == "work" && t.dueDate == None
    ensures |title| <= 200 ==> Conforms(t)
  {
    PriorityChoiceValues(DefaultPriority);
    CategoryChoiceValues(DefaultCategory);
    Todo(id, title, description, None, false, DefaultPriority, DefaultCategory, createdAt)
  }

  /** The fields a caller passes to `create`; the id and the creation time
      are filled in by the database. */
  datatype Draft = Draft(
    title: string, description: string, dueDate: Option<int>,
    isResolved: bool, priority: string, category: string)

  /** `__str__`. */
  function Str(t: Todo): string {
    t.title
  }

  // ------------------------------------------------------------ ordering

  /** Code-point lexicographic order on strings, the order in which the
      database compares the character columns. */
  predicate StrLeq(a: string, b: string)
    decreases |a|
  {
    if |a| == 0 then true
    else if |b| == 0 then false
    else if a[0] != b[0] then a[0] < b[0]
    else StrLeq(a[1..], b[1..])
  }

  lemma {:induction false} StrLeqTotal(a: string, b: string)
    ensures StrLeq(a, b) || StrLeq(b, a)
    decreases |a|
  {
    if |a| > 0 && |b| > 0 && a[0] == b[0] {
      StrLeqTotal(a[1..], b[1..]);
    }
  }

  lemma {:induction false} StrLeqTrans(a: string, b: string, c: string)
    requires StrLeq(a, b) && StrLeq(b, c)
    ensures StrLeq(a, c)
    decreases |a|
  {
    if |a| > 0 && |b| > 0 && |c| > 0 && a[0] == b[0] && b[0] == c[0] {
      StrLeqTrans(a[1..], b[1..], c[1..]);
    }
  }

  lemma {:induction false} StrLeqAntisym(a: string, b: string)
    requires StrLeq(a, b) && StrLeq(b, a)
    ensures a == b
    decreases |a|
  {
    if |a| > 0 {
      StrLeqAntisym(a[1..], b[1..]);
      assert a == [a[0]] + a[1..] && b == [b[0]] + b[1..];
    }
  }

  /** Ascending order on a nullable date, with NULL first, as SQLite sorts it. */
  predicate DateLeq(x: Option<int>, y: Option<int>) {
    match x
    case None => true
    case Some(dx) => y.Some? && dx <= y.value
  }

  /** `Meta.ordering`: unresolved first, then due date ascending, then
      priority descending as a string, then newest first. */
  predicate DefaultLeq(a: Todo, b: Todo) {
    if a.isResolved != b.isResolved then !a.isResolved
    else if a.dueDate != b.dueDate then DateLeq(a.dueDate, b.dueDate)
    else if a.priority != b.priority then StrLeq(b.priority, a.priority)
    else a.createdAt >= b.createdAt
  }

  /** Any two records are comparable. */
  lemma DefaultOrderTotal(a: Todo, b: Todo)
    ensures DefaultLeq(a, b) || DefaultLeq(b, a)
  {
    StrLeqTotal(a.priority, b.priority);
  }

  /** The default ordering is transitive, so it is a total preorder. */
  lemma DefaultOrderTrans(a: Todo, b: Todo, c: Todo)
    requires DefaultLeq(a, b) && DefaultLeq(b, c)
    ensures DefaultLeq(a, c)
  {
    if a.isResolved == b.isResolved == c.isResolved && a.dueDate == b.dueDate == c.dueDate {
      if a.priority != b.priority && b.priority != c.priority {
        StrLeqTrans(c.priority, b.priority, a.priority);
        if a.priority == c.priority {
          StrLeqAntisym(a.priority, b.priority);
        }
      }
    }
  }

  /** An unresolved record always comes strictly before a resolved one. */
  lemma DefaultOrderResolvedLast(a: Todo, b: Todo)
    requires !a.isResolved && b.isResolved
    ensures DefaultLeq(a, b) && !DefaultLeq(b, a)
  {
  }

  /** Because priority is compared as text, descending priority puts
      "medium" first, then "low", then "high": of two records alike in
      resolution and due date, the high-priority one comes last. */
  lemma PriorityDescendsAlphabetically(m: Todo, l: Todo, h: Todo)
    requires m.isResolved == l.isResolved == h.isResolved && m.dueDate == l.dueDate == h.dueDate
    requires m.priority == "medium" && l.priority == "low" && h.priority == "high"
    ensures DefaultLeq(m, l) && !DefaultLeq(l, m)
    ensures DefaultLeq(l, h) && !DefaultLeq(h, l)
  {
    assert StrLeq("low", "medium") && !StrLeq("medium", "low");
    assert StrLeq("high", "low") && !StrLeq("low", "high");
  }
}

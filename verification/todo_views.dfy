/** The views of the Django todo app (tasks/views.py): the filtered and
    ordered list, the filter values echoed to the template, the
    resolved-flag toggle and the statistics page. Request parameters are a
    map from name to value; `lower` stands for the case folding behind
    `icontains`; `today` is a day number. Redirects and templates are not
    modelled. */
module TodoViews {
  import opened Common
  import opened TodoModels
  import opened TodoStore

  type Params = map<string, string>

  datatype Filters = Filters(status: string, category: string, priority: string, q: string, orderBy: string)

  /** The filter values `get_queryset` reads, with their defaults. */
  function QueryFilters(params: Params): Filters {
    Filters(GetOr(params, "status", "all"), GetOr(params, "category", "all"),
            GetOr(params, "priority", "all"), GetOr(params, "q", ""), GetOr(params, "order_by", "due_date"))
  }

  /** The "filters" entry `get_context_data` puts in the context, read from
      the request a second time. */
  function ContextFilters(params: Params): Filters {
    var status := GetOr(params, "status", "all");
    var category := GetOr(params, "category", "all");
    var priority := GetOr(params, "priority", "all");
    var q := GetOr(params, "q", "");
    var orderBy := GetOr(params, "order_by", "due_date");
    Filters(status, category, priority, q, orderBy)
  }

  datatype Context = Context(filters: Filters, today: int)

  /** The context entries `get_context_data` adds. */
  function ContextData(params: Params, today: int): (c: Context)
    ensures c.filters == QueryFilters(params) && c.today == today
  {
    Context(ContextFilters(params), today)
  }

  /** The echoed filters are the ones the list was built with, and an
      absent parameter shows as its default. */
  lemma ContextEchoesQuery(params: Params)
    ensures ContextFilters(params) == QueryFilters(params)
    ensures "status" !in params ==> QueryFilters(params).status == "all"
    ensures "category" !in params ==> QueryFilters(params).category == "all"
    ensures "priority" !in params ==> QueryFilters(params).priority == "all"
    ensures "q" !in params ==> QueryFilters(params).q == ""
    ensures "order_by" !in params ==> QueryFilters(params).orderBy == "due_date"
  {
  }

  // ----------------------------------------------------------- filtering

  /** `qs.filter(...)`: the rows satisfying `p`, in their order. */
  function Keep(s: seq<Todo>, p: Todo -> bool): (r: seq<Todo>)
    ensures forall t :: t in r <==> t in s && p(t)
    ensures |r| <= |s|
    decreases |s|
  {
    if |s| == 0 then []
    else if p(s[0]) then [s[0]] + Keep(s[1..], p)
    else Keep(s[1..], p)
  }

  /** Two filters in a row keep what their conjunction keeps. */
  lemma {:induction false} KeepKeep(s: seq<Todo>, p: Todo -> bool, q: Todo -> bool, pq: Todo -> bool)
    requires forall t :: pq(t) == (p(t) && q(t))
    ensures Keep(Keep(s, p), q) == Keep(s, pq)
    decreases |s|
  {
    if |s| > 0 {
      KeepKeep(s[1..], p, q, pq);
      if p(s[0]) {
        assert Keep(s, p) == [s[0]] + Keep(s[1..], p);
        assert Keep(s, p)[0] == s[0] && Keep(s, p)[1..] == Keep(s[1..], p);
      }
    }
  }

  /** A filter that keeps every row changes nothing. */
  lemma {:induction false} KeepAll(s: seq<Todo>, p: Todo -> bool)
    requires forall t :: p(t)
    ensures Keep(s, p) == s
    decreases |s|
  {
    if |s| > 0 {
      KeepAll(s[1..], p);
      assert s == [s[0]] + s[1..];
    }
  }

  /** The q filter: title or description contains q, ignoring case. */
  predicate TextOk(t: Todo, q: string, lower: string -> string) {
    q == "" || Contains(lower(t.title), lower(q)) || Contains(lower(t.description), lower(q))
  }

  predicate CategoryOk(t: Todo, category: string) {
    category == "all" || t.category == category
  }

  predicate PriorityOk(t: Todo, priority: string) {
    priority == "all" || t.priority == priority
  }

  /** "active" keeps unresolved rows, "done" resolved ones, anything else all. */
  predicate StatusOk(t: Todo, status: string) {
    (status == "active" ==> !t.isResolved) && (status == "done" ==> t.isResolved)
  }

  /** Whether the list shows `t`. */
  predicate Matches(t: Todo, f: Filters, lower: string -> string) {
    TextOk(t, f.q, lower) && CategoryOk(t, f.category) && PriorityOk(t, f.priority) && StatusOk(t, f.status)
  }

  // ------------------------------------------------------------ ordering

  /** The sort keys the view accepts as the second key. */
  const OrderKeys: set<string> := {"due_date", "-due_date", "priority", "-priority"}

  /** `order_by("is_resolved", order_by)` for an accepted key, and
      `order_by("is_resolved")` for any other value: unresolved rows first,
      then the requested key, NULL dates first ascending and last
      descending. */
  predicate ListLeq(a: Todo, b: Todo, orderBy: string) {
    if a.isResolved != b.isResolved then !a.isResolved
    else if orderBy == "due_date" then DateLeq(a.dueDate, b.dueDate)
    else if orderBy == "-due_date" then DateLeq(b.dueDate, a.dueDate)
    else if orderBy == "priority" then StrLeq(a.priority, b.priority)
    else if orderBy == "-priority" then StrLeq(b.priority, a.priority)
    else true
  }

  /** An unaccepted key leaves the resolved flag as the only key. */
  lemma UnknownKeyIgnored(a: Todo, b: Todo, orderBy: string)
    requires orderBy !in OrderKeys
    ensures ListLeq(a, b, orderBy) <==> (a.isResolved ==> b.isResolved)
  {
  }

  lemma ListLeqTotal(a: Todo, b: Todo, orderBy: string)
    ensures ListLeq(a, b, orderBy) || ListLeq(b, a, orderBy)
  {
    StrLeqTotal(a.priority, b.priority);
  }

  lemma ListLeqTrans(a: Todo, b: Todo, c: Todo, orderBy: string)
    requires ListLeq(a, b, orderBy) && ListLeq(b, c, orderBy)
    ensures ListLeq(a, c, orderBy)
  {
    if a.isResolved == b.isResolved == c.isResolved {
      if orderBy == "priority" {
        StrLeqTrans(a.priority, b.priority, c.priority);
      } else if orderBy == "-priority" {
        StrLeqTrans(c.priority, b.priority, a.priority);
      }
    }
  }

  /** Each row is in order with the next. */
  predicate Sorted(s: seq<Todo>, orderBy: string) {
    forall i :: 0 <= i < |s| - 1 ==> ListLeq(s[i], s[i + 1], orderBy)
  }

  /** Inserts `x` before the first row it may precede. */
  function Insert(x: Todo, s: seq<Todo>, orderBy: string): (r: seq<Todo>)
    requires Sorted(s, orderBy)
    ensures multiset(r) == multiset(s) + multiset{x}
    ensures Sorted(r, orderBy)
    ensures |r| > 0 && (r[0] == x || (|s| > 0 && r[0] == s[0]))
    decreases |s|
  {
    if |s| == 0 then [x]
    else if ListLeq(x, s[0], orderBy) then [x] + s
    else
      ListLeqTotal(x, s[0], orderBy);
      var rest := Insert(x, s[1..], orderBy);
      assert s == [s[0]] + s[1..];
      [s[0]] + rest
  }

  /** The ordered list: the same rows, sorted. Rows equal under the key come
      in an order the database chooses; this model picks one. */
  function OrderBy(s: seq<Todo>, orderBy: string): (r: seq<Todo>)
    ensures multiset(r) == multiset(s)
    ensures Sorted(r, orderBy)
    decreases |s|
  {
    if |s| == 0 then []
    else
      assert s == [s[0]] + s[1..];
      Insert(s[0], OrderBy(s[1..], orderBy), orderBy)
  }

  /** Sorted by neighbours means sorted by every pair. */
  lemma {:induction false} SortedPairwise(s: seq<Todo>, orderBy: string)
    requires Sorted(s, orderBy)
    ensures forall i, j :: 0 <= i < j < |s| ==> ListLeq(s[i], s[j], orderBy)
    decreases |s|
  {
    if |s| > 1 {
      SortedPairwise(s[1..], orderBy);
      forall j | 1 < j < |s|
        ensures ListLeq(s[0], s[j], orderBy)
      {
        assert ListLeq(s[1..][0], s[1..][j - 1], orderBy);
        ListLeqTrans(s[0], s[1], s[j], orderBy);
      }
      forall i, j | 0 < i < j < |s|
        ensures ListLeq(s[i], s[j], orderBy)
      {
        assert ListLeq(s[1..][i - 1], s[1..][j - 1], orderBy);
      }
    }
  }

  /** Every unresolved row of a sorted list precedes every resolved one. */
  lemma ResolvedLast(s: seq<Todo>, orderBy: string)
    requires Sorted(s, orderBy)
    ensures forall i, j :: 0 <= i < |s| && 0 <= j < |s| && !s[i].isResolved && s[j].isResolved ==> i < j
  {
    SortedPairwise(s, orderBy);
  }

  /** One step of the filter chain: applying `c` (or, when the step does
      not apply, nothing) to the rows kept so far keeps what `next` keeps. */
  lemma FilterStep(s: seq<Todo>, prev: Todo -> bool, applies: bool, c: Todo -> bool, next: Todo -> bool)
    requires forall t :: next(t) == (prev(t) && (!applies || c(t)))
    ensures (if applies then Keep(Keep(s, prev), c) else Keep(s, prev)) == Keep(s, next)
  {
    if applies {
      KeepKeep(s, prev, c, next);
    } else {
      KeepKeep(s, prev, (_: Todo) => true, next);
      KeepAll(Keep(s, prev), (_: Todo) => true);
    }
  }

  /** A list sorted on the resolved flag alone is sorted for any key the
      view does not accept. */
  lemma SortedUnknownKey(s: seq<Todo>, orderBy: string)
    requires Sorted(s, "") && orderBy !in OrderKeys
    ensures Sorted(s, orderBy)
  {
    forall i | 0 <= i < |s| - 1
      ensures ListLeq(s[i], s[i + 1], orderBy)
    {
      UnknownKeyIgnored(s[i], s[i + 1], "");
      UnknownKeyIgnored(s[i], s[i + 1], orderBy);
    }
  }

  /** The rows the four filters keep, in table order. */
  function Selected(rows: seq<Todo>, f: Filters, lower: string -> string): (r: seq<Todo>)
    ensures forall t :: t in r <==> t in rows && Matches(t, f, lower)
    ensures |r| <= |rows|
  {
    Keep(rows, (t: Todo) => Matches(t, f, lower))
  }

  /** The filter chain of `get_queryset`: each filter is applied only when
      its parameter asks for it, and the chain keeps what `Selected` keeps. */
  method FilterRows(rows: seq<Todo>, f: Filters, lower: string -> string) returns (qs: seq<Todo>)
    ensures qs == Selected(rows, f, lower)
  {
    ghost var p0 := (_: Todo) => true;
    ghost var p1 := (t: Todo) => TextOk(t, f.q, lower);
    ghost var p2 := (t: Todo) => TextOk(t, f.q, lower) && CategoryOk(t, f.category);
    ghost var p3 := (t: Todo) => TextOk(t, f.q, lower) && CategoryOk(t, f.category) && PriorityOk(t, f.priority);
    ghost var p4 := (t: Todo) => Matches(t, f, lower);
    var byText := (t: Todo) => TextOk(t, f.q, lower);
    var byCategory := (t: Todo) => t.category == f.category;
    var byPriority := (t: Todo) => t.priority == f.priority;
    var unresolved := (t: Todo) => !t.isResolved;
    var resolved := (t: Todo) => t.isResolved;

    qs := rows;
    KeepAll(rows, p0);
    if f.q != "" {
      qs := Keep(qs, byText);
    }
    FilterStep(rows, p0, f.q != "", byText, p1);
    if f.category != "all" {
      qs := Keep(qs, byCategory);
    }
    FilterStep(rows, p1, f.category != "all", byCategory, p2);
    if f.priority != "all" {
      qs := Keep(qs, byPriority);
    }
    FilterStep(rows, p2, f.priority != "all", byPriority, p3);
    if f.status == "active" {
      qs := Keep(qs, unresolved);
      FilterStep(rows, p3, true, unresolved, p4);
    } else if f.status == "done" {
      qs := Keep(qs, resolved);
      FilterStep(rows, p3, true, resolved, p4);
    } else {
      FilterStep(rows, p3, false, p0, p4);
    }
  }

  /** `TodoListView.get_queryset`: the table's rows that pass the four
      filters, each present as often as in the table, sorted unresolved first
      and then by the accepted key. */
  method GetQueryset(table: TodoStore.TodoTable, params: Params, lower: string -> string) returns (qs: seq<Todo>)
    ensures forall t :: t in qs <==> t in table.rows && Matches(t, QueryFilters(params), lower)
    ensures multiset(qs) == multiset(Selected(table.rows, QueryFilters(params), lower))
    ensures Sorted(qs, QueryFilters(params).orderBy)
  {
    var status := GetOr(params, "status", "all");
    var category := GetOr(params, "category", "all");
    var priority := GetOr(params, "priority", "all");
    var q := GetOr(params, "q", "");
    var orderBy := GetOr(params, "order_by", "due_date");
    qs := FilterRows(table.rows, Filters(status, category, priority, q, orderBy), lower);
    ghost var selected := qs;
    if orderBy in OrderKeys {
      qs := OrderBy(qs, orderBy);
    } else {
      qs := OrderBy(qs, "");
      SortedUnknownKey(qs, orderBy);
    }
    forall t
      ensures t in qs <==> t in selected
    {
      assert t in qs <==> t in multiset(qs);
      assert t in selected <==> t in multiset(selected);
    }
  }

  // --------------------------------------------------------------- toggle

  /** The rows with the resolved flag of row `pk` flipped. */
  function Toggled(rows: seq<Todo>, pk: nat): (r: seq<Todo>)
    ensures |r| == |rows|
    ensures forall i :: 0 <= i < |rows| && rows[i].id != pk ==> r[i] == rows[i]
    ensures forall i :: 0 <= i < |rows| && rows[i].id == pk ==>
      r[i] == rows[i].(isResolved := !rows[i].isResolved)
  {
    seq(|rows|, i requires 0 <= i < |rows| =>
      if rows[i].id == pk then rows[i].(isResolved := !rows[i].isResolved) else rows[i])
  }

  /** Toggling twice restores the table. */
  lemma ToggleTwice(rows: seq<Todo>, pk: nat)
    ensures Toggled(Toggled(rows, pk), pk) == rows
  {
    var r := Toggled(Toggled(rows, pk), pk);
    assert forall i :: 0 <= i < |rows| ==> r[i] == rows[i];
  }

  /** `ToggleResolvedView.post`: flips `is_resolved` of the row with id `pk`
      and nothing else. `found` is false when no such row exists, where the
      source's `objects.get` raises; the table is then unchanged. */
  method ToggleResolved(table: TodoStore.TodoTable, pk: nat) returns (found: bool)
    requires table.Valid()
    modifies table
    ensures table.Valid() && table.nextId == old(table.nextId)
    ensures found <==> Lookup(old(table.rows), pk).Some?
    ensures table.rows == Toggled(old(table.rows), pk)
    ensures !found ==> table.rows == old(table.rows)
  {
    var todo := Lookup(table.rows, pk);
    if todo.None? {
      found := false;
      assert Toggled(table.rows, pk) == table.rows;
    } else {
      found := true;
      ghost var before := table.rows;
      forall i | 0 <= i < |before| && before[i].id == pk
        ensures before[i] == todo.value
      {
        var k :| 0 <= k < |before| && before[k] == todo.value;
        assert !(i < k) && !(k < i);
      }
      table.SaveResolved(pk, !todo.value.isResolved);
      assert table.rows == Toggled(before, pk);
    }
  }

  // ---------------------------------------------------------------- stats

  /** `.filter(...).count()`. */
  function Count(rows: seq<Todo>, p: Todo -> bool): (n: nat)
    ensures n <= |rows|
    decreases |rows|
  {
    if |rows| == 0 then 0 else (if p(rows[0]) then 1 else 0) + Count(rows[1..], p)
  }

  /** `filter(...).count()` is the length of `filter(...)`: counting the
      rows that satisfy `p` gives as many as keeping them. */
  lemma {:induction false} CountIsKeptLength(rows: seq<Todo>, p: Todo -> bool)
    ensures Count(rows, p) == |Keep(rows, p)|
    decreases |rows|
  {
    if |rows| > 0 {
      CountIsKeptLength(rows[1..], p);
    }
  }

  /** A predicate and its negation split the rows. */
  lemma {:induction false} CountComplement(rows: seq<Todo>, p: Todo -> bool, q: Todo -> bool)
    requires forall t :: q(t) == !p(t)
    ensures Count(rows, p) + Count(rows, q) == |rows|
    decreases |rows|
  {
    if |rows| > 0 {
      CountComplement(rows[1..], p, q);
    }
  }

  /** A stronger filter counts no more rows. */
  lemma {:induction false} CountMono(rows: seq<Todo>, p: Todo -> bool, q: Todo -> bool)
    requires forall t :: p(t) ==> q(t)
    ensures Count(rows, p) <= Count(rows, q)
    decreases |rows|
  {
    if |rows| > 0 {
      CountMono(rows[1..], p, q);
    }
  }

  /** Rounding `n / total` to the nearest integer, ties to even: the result
      is within half of `total` of the exact value, and at most `bound` when
      the exact value is. */
  lemma RoundHalfEven(n: nat, total: nat, bound: nat, q: nat, r: nat, p: nat)
    requires total > 0 && n == q * total + r && r < total
    requires p == if 2 * r > total || (2 * r == total && q % 2 == 1) then q + 1 else q
    ensures 2 * (p * total - n) <= total && 2 * (n - p * total) <= total
    ensures 2 * r == total ==> p % 2 == 0
    ensures n <= bound * total ==> p <= bound
  {
    if p == q + 1 {
      assert p * total == q * total + total;
    }
    MulMono(bound + 1, q, total);
  }

  lemma MulMono(a: int, b: int, c: nat)
    ensures a <= b ==> a * c <= b * c
  {
  }

  lemma DivMod(n: nat, total: nat) returns (q: nat, r: nat)
    requires total > 0
    ensures q == n / total && r == n % total && n == q * total + r && r < total
  {
    q := n / total;
    r := n % total;
  }

  /** `n / total` rounded to the nearest integer, ties to even as Python's
      `round` does. */
  function RoundDiv(n: nat, total: nat): (p: nat)
    requires total > 0
    ensures 2 * (p * total - n) <= total && 2 * (n - p * total) <= total
    ensures 2 * (n % total) == total ==> p % 2 == 0
    ensures n <= 100 * total ==> p <= 100
  {
    var q := n / total;
    var r := n % total;
    var p := if 2 * r > total || (2 * r == total && q % 2 == 1) then q + 1 else q;
    DivRounds(n, total, q, r, p);
    p
  }

  lemma DivRounds(n: nat, total: nat, q: nat, r: nat, p: nat)
    requires total > 0 && q == n / total && r == n % total
    requires p == if 2 * r > total || (2 * r == total && q % 2 == 1) then q + 1 else q
    ensures 2 * (p * total - n) <= total && 2 * (n - p * total) <= total
    ensures 2 * (n % total) == total ==> p % 2 == 0
    ensures n <= 100 * total ==> p <= 100
  {
    var q', r' := DivMod(n, total);
    RoundHalfEven(n, total, 100, q, r, p);
  }

  /** `int(round(done / total * 100))`, computed exactly: the nearest
      integer to 100 * done / total, ties to even; 0 when there are no
      rows. */
  function Progress(done: nat, total: nat): (p: nat)
    ensures total == 0 ==> p == 0
    ensures total > 0 ==> 2 * (p * total - 100 * done) <= total && 2 * (100 * done - p * total) <= total
    ensures total > 0 && 2 * ((100 * done) % total) == total ==> p % 2 == 0
    ensures done <= total ==> p <= 100
  {
    if total == 0 then 0 else RoundDiv(100 * done, total)
  }

  datatype Stats = Stats(total: nat, active: nat, done: nat, overdue: nat, progress: nat)

  /** Unresolved and due before `today`; a row without a due date is never
      overdue. */
  predicate Overdue(t: Todo, today: int) {
    !t.isResolved && t.dueDate.Some? && t.dueDate.value < today
  }

  /** The filters `is_resolved=True`, `is_resolved=False` and
      `is_resolved=False, due_date__lt=today` as row predicates. */
  predicate IsResolved(t: Todo) {
    t.isResolved
  }

  predicate IsUnresolved(t: Todo) {
    !t.isResolved
  }

  function OverdueOn(today: int): Todo -> bool {
    t => Overdue(t, today)
  }

  /** `StatsView.get_context_data`. */
  function StatsOf(rows: seq<Todo>, today: int): (s: Stats)
    ensures s.total == |rows|
    ensures s.active == Count(rows, IsUnresolved) && s.done == Count(rows, IsResolved)
    ensures s.overdue == Count(rows, OverdueOn(today))
    ensures s.progress == Progress(s.done, s.total)
    ensures s.total == s.active + s.done
    ensures s.overdue <= s.active
    ensures s.total == 0 ==> s.progress == 0
    ensures s.progress <= 100
  {
    var active := Count(rows, IsUnresolved);
    var done := Count(rows, IsResolved);
    var overdue := Count(rows, OverdueOn(today));
    CountComplement(rows, IsResolved, IsUnresolved);
    CountMono(rows, OverdueOn(today), IsUnresolved);
    Stats(|rows|, active, done, overdue, Progress(done, |rows|))
  }
}

/** Shared vocabulary of the coding-interview rooms: the optional value, the
    dictionary lookup with a default, the room and participant records and
    the execution result, plus the substring test that both the client
    mocks (`String.includes`) and the filters use. */
module Common {

  datatype Option<+T> = None | Some(value: T)

  /** Python's `dict.get(key, default)`, used on a JSON frame's members and
      on a request's query parameters. */
  function GetOr<K, V>(m: map<K, V>, key: K, default: V): (v: V)
    ensures key in m ==> v == m[key]
    ensures key !in m ==> v == default
  {
    if key in m then m[key] else default
  }

  /** The two languages a room may be in; values arrive as plain strings. */
  const JavaScript: string := "javascript"
  const Python: string := "python"

  predicate IsLanguage(s: string) {
    s == JavaScript || s == Python
  }

  /** A room record, as the backend stores it and the client receives it. */
  datatype Room = Room(id: string, code: string, language: string, task: string, createdAt: string)

  datatype Participant = Participant(id: string, name: string, isOnline: bool)

  /** Output text, an optional error text and the duration in milliseconds. */
  datatype ExecResult = ExecResult(output: string, error: Option<string>, executionTime: nat)

  /** `t` occurs in `s` starting at index `i`. */
  ghost predicate OccursAt(s: string, t: string, i: int) {
    0 <= i && i + |t| <= |s| && s[i..i + |t|] == t
  }

  /** `s.includes(t)` / `t in s`: some position of `s` starts a copy of `t`. */
  function Contains(s: string, t: string): (r: bool)
    ensures r <==> exists i :: OccursAt(s, t, i)
    decreases |s|
  {
    if t <= s then
      assert OccursAt(s, t, 0);
      true
    else if |s| == 0 then
      assert forall i :: !OccursAt(s, t, i);
      false
    else
      var rest := Contains(s[1..], t);
      ShiftOccurrence(s, t);
      rest
  }

  /** Occurrences in `s[1..]` are the occurrences in `s` past position 0. */
  lemma ShiftOccurrence(s: string, t: string)
    requires |s| > 0 && !(t <= s)
    ensures (exists i :: OccursAt(s[1..], t, i)) <==> (exists i :: OccursAt(s, t, i))
  {
    forall i | OccursAt(s[1..], t, i) ensures OccursAt(s, t, i + 1) {
      assert s[1..][i..i + |t|] == s[i + 1..i + 1 + |t|];
    }
    forall i | OccursAt(s, t, i) ensures i > 0 && OccursAt(s[1..], t, i - 1) {
      assert s[1..][i - 1..i - 1 + |t|] == s[i..i + |t|];
    }
  }

}

/** The task library dialog (frontend/src/components/room/TaskLibraryDialog.tsx):
    the search filter over the task library, the difficulty label and colour,
    the one-line description preview, and task selection. Lower-casing is
    Unicode case mapping and is a parameter `lower`. */
module TaskLibrary {
  import opened Common

  datatype TaskTemplate = TaskTemplate(
    id: string, title: string, description: string, difficulty: string,
    category: string, language: string, starterCode: string)

  /** Whether the dialog lists `task`: its language is the room's, and the
      search is empty or occurs, ignoring case, in its title, description or
      category. */
  predicate Listed(task: TaskTemplate, currentLanguage: string, search: string, lower: string -> string) {
    task.language == currentLanguage &&
    (search == "" ||
     Contains(lower(task.title), lower(search)) ||
     Contains(lower(task.description), lower(search)) ||
     Contains(lower(task.category), lower(search)))
  }

  /** `a` is `b` with some elements left out, the rest in their order. */
  predicate IsSubsequence<T(==)>(a: seq<T>, b: seq<T>)
    decreases |b|
  {
    if |a| == 0 then true
    else if |b| == 0 then false
    else (a[0] == b[0] && IsSubsequence(a[1..], b[1..])) || IsSubsequence(a, b[1..])
  }

  /** `filteredTasks`. */
  function FilterTasks(library: seq<TaskTemplate>, currentLanguage: string, search: string,
                       lower: string -> string): (r: seq<TaskTemplate>)
    ensures forall t :: t in r <==> t in library && Listed(t, currentLanguage, search, lower)
    ensures forall i :: 0 <= i < |r| ==> r[i].language == currentLanguage
    ensures |r| <= |library|
    decreases |library|
  {
    if |library| == 0 then []
    else
      var rest := FilterTasks(library[1..], currentLanguage, search, lower);
      if Listed(library[0], currentLanguage, search, lower) then [library[0]] + rest else rest
  }

  /** The listed tasks keep the library's order. */
  lemma {:induction false} FilterKeepsOrder(library: seq<TaskTemplate>, currentLanguage: string, search: string,
                                            lower: string -> string)
    ensures IsSubsequence(FilterTasks(library, currentLanguage, search, lower), library)
    decreases |library|
  {
    if |library| > 0 {
      var r := FilterTasks(library, currentLanguage, search, lower);
      var rest := FilterTasks(library[1..], currentLanguage, search, lower);
      FilterKeepsOrder(library[1..], currentLanguage, search, lower);
      if Listed(library[0], currentLanguage, search, lower) {
        assert r[0] == library[0] && r[1..] == rest;
      } else {
        assert r == rest;
        if |r| > 0 {
          assert IsSubsequence(r, library[1..]);
        }
      }
    }
  }

  /** An empty search lists exactly the tasks of the room's language, in
      library order. */
  lemma EmptySearchListsLanguage(library: seq<TaskTemplate>, currentLanguage: string, lower: string -> string)
    ensures forall t :: t in FilterTasks(library, currentLanguage, "", lower) <==>
      t in library && t.language == currentLanguage
  {
  }

  /** `getDifficultyLabel`. */
  function DifficultyLabel(difficulty: string): (l: string)
    ensures difficulty == "easy" ==> l == "Легко"
    ensures difficulty == "medium" ==> l == "Средне"
    ensures difficulty == "hard" ==> l == "Сложно"
    ensures difficulty !in {"easy", "medium", "hard"} ==> l == difficulty
  {
    match difficulty
    case "easy" => "Легко"
    case "medium" => "Средне"
    case "hard" => "Сложно"
    case _ => difficulty
  }

  /** `getDifficultyColor`: a class list for the three known levels, "" for
      anything else. */
  function DifficultyColor(difficulty: string): (c: string)
    ensures c == "" <==> difficulty !in {"easy", "medium", "hard"}
    ensures difficulty == "easy" ==> c == "bg-success/10 text-success hover:bg-success/20"
    ensures difficulty == "medium" ==> c == "bg-primary/10 text-primary hover:bg-primary/20"
    ensures difficulty == "hard" ==> c == "bg-destructive/10 text-destructive hover:bg-destructive/20"
  {
    match difficulty
    case "easy" => "bg-success/10 text-success hover:bg-success/20"
    case "medium" => "bg-primary/10 text-primary hover:bg-primary/20"
    case "hard" => "bg-destructive/10 text-destructive hover:bg-destructive/20"
    case _ => ""
  }

  /** `description.split('\n')[0]`: the description up to its first line
      feed, or all of it when it has none. */
  function Preview(description: string): (p: string)
    ensures p <= description
    ensures '\n' !in p
    ensures |p| < |description| ==> description[|p|] == '\n'
    decreases |description|
  {
    if |description| == 0 || description[0] == '\n' then ""
    else [description[0]] + Preview(description[1..])
  }

  /** The dialog's own state and the tasks handed to `onSelectTask`. */
  class TaskDialog {
    var open: bool
    var search: string
    var selected: seq<TaskTemplate>

    constructor ()
      ensures !open && search == "" && selected == []
    {
      open := false;
      search := "";
      selected := [];
    }

    /** `handleSelectTask`: passes exactly that task on and closes the dialog;
        the search text stays. */
    method SelectTask(task: TaskTemplate)
      modifies this
      ensures selected == old(selected) + [task]
      ensures !open && search == old(search)
    {
      selected := selected + [task];
      open := false;
    }
  }
}

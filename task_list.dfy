/**
 * The home screen's task list: four fixed tasks and a row of category
 * buttons; "All" shows every task, any other category shows its own tasks.
 */
module TaskList {
  import opened Wrappers

  datatype Category = All | Inbox | Finance | Code | Recurring

  datatype Task = Task(id: string, title: string, category: Category, schedule: Option<string>, icon: Option<string>)

  /** `tasks`: the fixed task data. */
  function Tasks(): (ts: seq<Task>)
    ensures |ts| == 4
  {
    [ Task("1", "Summarize emails", Inbox, Some("Daily 9 am"), Some("\U{2709}\U{FE0F}")),
      Task("2", "Research new AI startups", Inbox, None, Some("\U{1F310}")),
      Task("3", "Revenue report", Finance, Some("Daily 9 am"), Some("\U{1F4B0}")),
      Task("4", "Code review", Code, None, Some("\U{1F4BB}")) ]
  }

  /** The category row: the five buttons in order. */
  function CategoryButtons(): seq<Category> {
    [All, Inbox, Finance, Code, Recurring]
  }

  /** `useState<Category>('All')`. */
  const InitialCategory := All

  predicate Shown(t: Task, selected: Category) {
    selected == All || t.category == selected
  }

  /** `filteredTasks`: the tasks the selected category lets through, in list order. */
  function FilteredTasks(ts: seq<Task>, selected: Category): (r: seq<Task>)
    ensures |r| <= |ts|
    ensures forall t :: t in r ==> t in ts && Shown(t, selected)
    decreases |ts|
  {
    if ts == [] then []
    else (if Shown(ts[0], selected) then [ts[0]] else []) + FilteredTasks(ts[1..], selected)
  }

  /** Under "All" the list is the whole list. */
  lemma {:induction false} AllShowsEverything(ts: seq<Task>)
    ensures FilteredTasks(ts, All) == ts
    decreases |ts|
  {
    if ts != [] {
      AllShowsEverything(ts[1..]);
      assert [ts[0]] + ts[1..] == ts;
    }
  }

  /** Under another category a task is listed exactly when it has that category. */
  lemma {:induction false} CategoryMembers(ts: seq<Task>, selected: Category, t: Task)
    requires selected != All
    ensures t in FilteredTasks(ts, selected) <==> t in ts && t.category == selected
    decreases |ts|
  {
    if ts != [] {
      CategoryMembers(ts[1..], selected, t);
      assert ts == [ts[0]] + ts[1..];
    }
  }

  /** Filtering two parts of a list filters each part, so the list order is kept. */
  lemma {:induction false} FilteredTasksAppend(a: seq<Task>, b: seq<Task>, selected: Category)
    ensures FilteredTasks(a + b, selected) == FilteredTasks(a, selected) + FilteredTasks(b, selected)
    decreases |a|
  {
    if a == [] {
      assert a + b == b;
    } else {
      assert (a + b)[0] == a[0];
      assert (a + b)[1..] == a[1..] + b;
      FilteredTasksAppend(a[1..], b, selected);
    }
  }

  /** "Recurring" is offered as a button, but no fixed task has it: the list is then empty. */
  lemma RecurringIsEmpty()
    ensures Recurring in CategoryButtons()
    ensures FilteredTasks(Tasks(), Recurring) == []
  {
    var ts := Tasks();
    assert ts[1..][1..][1..][1..] == [];
  }

  /** The screen opens on "All", so it first lists every task. */
  lemma InitialShowsAllTasks()
    ensures FilteredTasks(Tasks(), InitialCategory) == Tasks()
  {
    AllShowsEverything(Tasks());
  }

  /** The inbox shows the first two tasks, in order. */
  lemma InboxShowsFirstTwo()
    ensures FilteredTasks(Tasks(), Inbox) == Tasks()[..2]
  {
    var ts := Tasks();
    assert ts[1..][1..][1..][1..] == [];
  }
}

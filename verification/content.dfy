/** The page's to-do state: the ordered task list and the draft typed into
    the input box, with the handlers that change them. The list and string
    computations are functions over values; the `Content` class holds the
    two state cells and its methods assign the results of those functions. */
module Content {
  import opened Strings
  import opened TimeIds
  import opened Tasks

  /** The list the page starts with. */
  const DefaultTasks: seq<Task> := [
    Task("1", "Contact Artifact L!ft Off", false),
    Task("2", "Prepare for the Cosmic Council Meeting", false)
  ]

  /** Both state cells together: the task list and the draft. */
  datatype State = State(tasks: seq<Task>, draft: string)

  /** `addTask` at time value `now`: a blank draft changes nothing; otherwise
      the list grows by one task at its end, every earlier task keeps its
      position, the new task carries the id made from `now`, the trimmed
      draft and `completed = false`, and the draft is cleared. The stored
      text is never empty, has no whitespace at either end, and is what the
      draft holds between its leading and trailing whitespace. */
  function Add(s: State, now: int): (r: State)
    ensures AllWhiteSpace(s.draft) ==> r == s
    ensures !AllWhiteSpace(s.draft) ==>
              && |r.tasks| == |s.tasks| + 1
              && r.tasks[..|s.tasks|] == s.tasks
              && r.tasks[|s.tasks|] == Task(TimeString(now), Trim(s.draft), false)
              && r.draft == ""
    ensures |r.tasks| > |s.tasks| ==>
              var text := r.tasks[|s.tasks|].text;
              && text != [] && IsTrimmed(text) && Trim(text) == text
              && text == s.draft[LeadLength(s.draft)..LeadLength(s.draft) + |text|]
  {
    var trimmed := Trim(s.draft);
    if trimmed == [] then s
    else
      TrimIdempotent(s.draft);
      State(s.tasks + [Task(TimeString(now), trimmed, false)], "")
  }

  /** `handleKeyPress`: the draft is submitted only on the Enter key and only
      when it is not blank. Since a blank draft makes `addTask` do nothing,
      the Enter key has exactly the effect of `addTask`, and every other key
      has none. */
  function KeyPress(s: State, key: string, now: int): (r: State)
    ensures key == "Enter" ==> r == Add(s, now)
    ensures key != "Enter" ==> r == s
  {
    if key == "Enter" && Trim(s.draft) != [] then Add(s, now) else s
  }

  /** The initial list holds two open tasks with the distinct ids "1" and "2",
      whose texts satisfy what `addTask` guarantees of the texts it stores. */
  lemma DefaultTasksWellFormed()
    ensures |DefaultTasks| == 2
    ensures DefaultTasks[0].id == "1" && DefaultTasks[1].id == "2"
    ensures forall i :: 0 <= i < |DefaultTasks| ==> !DefaultTasks[i].completed
    ensures DistinctIds(DefaultTasks) && TextsTrimmed(DefaultTasks)
  {
    assert !IsWhiteSpace('C') && !IsWhiteSpace('f') && !IsWhiteSpace('P') && !IsWhiteSpace('g');
  }

  /** Adding keeps every stored text non-empty and trimmed. */
  lemma AddKeepsTextsTrimmed(s: State, now: int)
    requires TextsTrimmed(s.tasks)
    ensures TextsTrimmed(Add(s, now).tasks)
  {
  }

  /** Adding keeps ids distinct only when the new id is not already taken:
      the code itself does not check this, it relies on the clock. */
  lemma AddKeepsIdsDistinct(s: State, now: int)
    requires DistinctIds(s.tasks)
    requires !HasId(s.tasks, TimeString(now))
    ensures DistinctIds(Add(s, now).tasks)
  {
  }

  /** Starting from the initial list, an add at any time value other than 1
      and 2 keeps the ids distinct: those are the only time values whose
      rendering collides with "1" or "2". */
  lemma AddToDefaultsKeepsIdsDistinct(draft: string, now: int)
    requires now != 1 && now != 2
    ensures DistinctIds(Add(State(DefaultTasks, draft), now).tasks)
  {
    DefaultTasksWellFormed();
    assert TimeString(1) == "1" && TimeString(2) == "2";
    if TimeString(now) == "1" {
      TimeStringInjective(now, 1);
    } else if TimeString(now) == "2" {
      TimeStringInjective(now, 2);
    }
    AddKeepsIdsDistinct(State(DefaultTasks, draft), now);
  }

  /** Two adds within the same millisecond give the two new tasks the same id. */
  lemma SameTickAddsShareId(s: State, second: string, now: int)
    requires !AllWhiteSpace(s.draft) && !AllWhiteSpace(second)
    ensures var s2 := Add(State(Add(s, now).tasks, second), now);
            && |s2.tasks| == |s.tasks| + 2
            && s2.tasks[|s.tasks|].id == s2.tasks[|s.tasks| + 1].id
            && !DistinctIds(s2.tasks)
  {
    var s1 := Add(s, now);
    assert s1.tasks[|s.tasks|] == Add(State(s1.tasks, second), now).tasks[..|s1.tasks|][|s.tasks|];
  }

  /** After two adds within the same millisecond, removing their shared id
      deletes both new tasks, not just one. */
  lemma SameTickRemoveDeletesBoth(s: State, second: string, now: int)
    requires !AllWhiteSpace(s.draft) && !AllWhiteSpace(second)
    ensures var s2 := Add(State(Add(s, now).tasks, second), now);
            WithoutId(s2.tasks, TimeString(now)) == WithoutId(s.tasks, TimeString(now))
  {
    var id := TimeString(now);
    var t1 := Task(id, Trim(s.draft), false);
    var t2 := Task(id, Trim(second), false);
    var s2 := Add(State(Add(s, now).tasks, second), now);
    assert s2.tasks == s.tasks + [t1, t2];
    WithoutIdAppend(s.tasks, [t1, t2], id);
    assert [t1, t2][1..] == [t2] && [t2][1..] == [];
  }

  /** A worked session: on the initial list, add "C" at time 3, toggle "1",
      remove "2". */
  lemma SessionExample()
    ensures var s1 := Add(State(DefaultTasks, "C"), 3);
            var toggled := Toggled(s1.tasks, "1");
            WithoutId(toggled, "2") ==
              [Task("1", "Contact Artifact L!ft Off", true), Task("3", "C", false)]
  {
    assert !IsWhiteSpace('C');
    assert [] + "C" + [] == "C";
    TrimOfPadded([], "C", []);
    var open3 := Task("3", "C", false);
    var s1 := Add(State(DefaultTasks, "C"), 3);
    assert s1.tasks == DefaultTasks + [open3];
    var done1 := Task("1", "Contact Artifact L!ft Off", true);
    var toggled := Toggled(s1.tasks, "1");
    assert toggled[0] == done1 && toggled[1] == DefaultTasks[1] && toggled[2] == open3;
    assert toggled == [done1] + [DefaultTasks[1]] + [open3];
    var open2 := DefaultTasks[1];
    assert open2.id == "2" && [open2][1..] == [];
    assert WithoutId([open2], "2") == [];
    KeptTaskStaysInPlace([], done1, [open2], "2");
    assert [] + [done1] + [open2] == [done1] + [open2];
    KeptTaskStaysInPlace([done1] + [open2], open3, [], "2");
    assert [done1] + [open2] + [open3] + [] == toggled;
  }

  /** The state cells of the page: `tasks` and `newTask`. */
  class Content {
    var tasks: seq<Task>
    var newTask: string

    function Snapshot(): State
      reads this
    {
      State(tasks, newTask)
    }

    /** The initial state: the default list and an empty draft. */
    constructor ()
      ensures tasks == DefaultTasks && newTask == ""
    {
      tasks := DefaultTasks;
      newTask := "";
    }

    /** The input box's change handler: the draft becomes what was typed. */
    method SetNewTask(value: string)
      modifies this
      ensures newTask == value && tasks == old(tasks)
    {
      newTask := value;
    }

    /** `addTask`, with `now` standing for `Date.now()`. */
    method AddTask(now: int)
      modifies this
      ensures Snapshot() == Add(old(Snapshot()), now)
      ensures old(TextsTrimmed(tasks)) ==> TextsTrimmed(tasks)
      ensures old(DistinctIds(tasks) && !HasId(tasks, TimeString(now))) ==> DistinctIds(tasks)
    {
      if TextsTrimmed(tasks) {
        AddKeepsTextsTrimmed(Snapshot(), now);
      }
      if DistinctIds(tasks) && !HasId(tasks, TimeString(now)) {
        AddKeepsIdsDistinct(Snapshot(), now);
      }
      var trimmedTask := Trim(newTask);
      if trimmedTask == [] {
        return;
      }
      var newTaskObj := Task(TimeString(now), trimmedTask, false);
      tasks := tasks + [newTaskObj];
      newTask := "";
    }

    /** `removeTask`: the draft is untouched. */
    method RemoveTask(taskId: string)
      modifies this
      ensures tasks == WithoutId(old(tasks), taskId) && newTask == old(newTask)
      ensures old(DistinctIds(tasks)) ==> DistinctIds(tasks)
      ensures old(TextsTrimmed(tasks)) ==> TextsTrimmed(tasks)
    {
      if DistinctIds(tasks) {
        WithoutIdKeepsDistinct(tasks, taskId);
      }
      if TextsTrimmed(tasks) {
        WithoutIdKeepsTexts(tasks, taskId);
      }
      tasks := WithoutId(tasks, taskId);
    }

    /** `toggleComplete`: the draft is untouched. */
    method ToggleComplete(taskId: string)
      modifies this
      ensures tasks == Toggled(old(tasks), taskId) && newTask == old(newTask)
      ensures old(DistinctIds(tasks)) ==> DistinctIds(tasks)
      ensures old(TextsTrimmed(tasks)) ==> TextsTrimmed(tasks)
    {
      ToggleKeepsInvariants(tasks, taskId);
      tasks := Toggled(tasks, taskId);
    }

    /** `handleKeyPress` for the key named `key`. */
    method HandleKeyPress(key: string, now: int)
      modifies this
      ensures Snapshot() == KeyPress(old(Snapshot()), key, now)
    {
      if key == "Enter" && Trim(newTask) != [] {
        AddTask(now);
      }
    }

    /** Drag-and-drop reordering: the list becomes the order the reorder
      component reports, taken as it is, without any check. */
    method Reorder(newOrder: seq<Task>)
      modifies this
      ensures tasks == newOrder && newTask == old(newTask)
    {
      tasks := newOrder;
    }
  }
}

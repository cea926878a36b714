/** The to-do record and the two list computations the page performs on it:
    keeping the tasks whose id differs from a given one (`filter`) and
    flipping `completed` on the tasks with a given id (`map`). */
module Tasks {
  import opened Strings

  /** One to-do item. */
  datatype Task = Task(id: string, text: string, completed: bool)

  predicate HasId(tasks: seq<Task>, id: string) {
    exists i :: 0 <= i < |tasks| && tasks[i].id == id
  }

  /** No two positions of the list carry the same id. */
  predicate DistinctIds(tasks: seq<Task>) {
    forall i, j :: 0 <= i < j < |tasks| ==> tasks[i].id != tasks[j].id
  }

  /** Every stored text is non-empty and has no whitespace at either end. */
  predicate TextsTrimmed(tasks: seq<Task>) {
    forall i :: 0 <= i < |tasks| ==> tasks[i].text != [] && IsTrimmed(tasks[i].text)
  }

  /** How many tasks carry `id`. */
  function CountId(tasks: seq<Task>, id: string): (c: nat)
    ensures c <= |tasks|
    ensures c == 0 <==> !HasId(tasks, id)
  {
    if tasks == [] then 0
    else (if tasks[0].id == id then 1 else 0) + CountId(tasks[1..], id)
  }

  /** The `filter` in `removeTask`: keeps the tasks whose id differs from
      `id`. No task with `id` is left, and the list is shorter by exactly
      the number of tasks that carried it (WithoutIdMembers: the others all
      stay). */
  function WithoutId(tasks: seq<Task>, id: string): (r: seq<Task>)
    ensures forall i :: 0 <= i < |r| ==> r[i].id != id
    ensures |r| == |tasks| - CountId(tasks, id)
  {
    if tasks == [] then []
    else if tasks[0].id != id then [tasks[0]] + WithoutId(tasks[1..], id)
    else WithoutId(tasks[1..], id)
  }

  /** The task at one position after the toggle. */
  function Flip(t: Task, id: string): Task {
    if t.id == id then t.(completed := !t.completed) else t
  }

  /** The `map` in `toggleComplete`: flips `completed` on every task whose
      id is `id`. Same length, same id and text everywhere, and `completed`
      differs from before exactly at the positions whose id is `id`. */
  function Toggled(tasks: seq<Task>, id: string): (r: seq<Task>)
    ensures |r| == |tasks|
    ensures forall i :: 0 <= i < |tasks| ==>
              && r[i].id == tasks[i].id
              && r[i].text == tasks[i].text
              && (r[i].completed != tasks[i].completed <==> tasks[i].id == id)
  {
    if tasks == [] then [] else [Flip(tasks[0], id)] + Toggled(tasks[1..], id)
  }

  /** The filtered list holds exactly the tasks whose id differs from `id`. */
  lemma {:induction false} WithoutIdMembers(tasks: seq<Task>, id: string)
    ensures forall t :: t in WithoutId(tasks, id) <==> t in tasks && t.id != id
  {
    if tasks != [] {
      WithoutIdMembers(tasks[1..], id);
      assert tasks == [tasks[0]] + tasks[1..];
    }
  }

  /** Filtering keeps the relative order: it works piecewise on a concatenation. */
  lemma {:induction false} WithoutIdAppend(a: seq<Task>, b: seq<Task>, id: string)
    ensures WithoutId(a + b, id) == WithoutId(a, id) + WithoutId(b, id)
  {
    if a == [] {
      assert a + b == b;
    } else {
      assert (a + b)[0] == a[0];
      assert (a + b)[1..] == a[1..] + b;
      WithoutIdAppend(a[1..], b, id);
      if a[0].id != id {
        calc {
          WithoutId(a + b, id);
          [a[0]] + WithoutId(a[1..] + b, id);
          [a[0]] + (WithoutId(a[1..], id) + WithoutId(b, id));
          ([a[0]] + WithoutId(a[1..], id)) + WithoutId(b, id);
        }
      }
    }
  }

  /** A kept task stays between the kept tasks that were before it and the
      kept tasks that were after it. */
  lemma KeptTaskStaysInPlace(before: seq<Task>, t: Task, after: seq<Task>, id: string)
    requires t.id != id
    ensures WithoutId(before + [t] + after, id) == WithoutId(before, id) + [t] + WithoutId(after, id)
  {
    assert [t][1..] == [];
    assert WithoutId([t], id) == [t];
    WithoutIdAppend(before, [t], id);
    WithoutIdAppend(before + [t], after, id);
  }

  /** Removing an id no task carries changes nothing. */
  lemma {:induction false} WithoutAbsentId(tasks: seq<Task>, id: string)
    requires !HasId(tasks, id)
    ensures WithoutId(tasks, id) == tasks
  {
    if tasks != [] {
      WithoutAbsentId(tasks[1..], id);
      assert tasks[0].id != id;
    }
  }

  /** With distinct ids, an id that is present is carried by exactly one task. */
  lemma {:induction false} CountIdDistinct(tasks: seq<Task>, id: string)
    requires DistinctIds(tasks) && HasId(tasks, id)
    ensures CountId(tasks, id) == 1
  {
    assert tasks != [];
    if tasks[0].id == id {
      assert !HasId(tasks[1..], id);
    } else {
      var i :| 0 <= i < |tasks| && tasks[i].id == id;
      assert tasks[1..][i - 1].id == id;
      CountIdDistinct(tasks[1..], id);
    }
  }

  /** Removing an id that one of several distinctly identified tasks carries
      shortens the list by exactly one. */
  lemma RemovePresentIdShrinksByOne(tasks: seq<Task>, id: string)
    requires DistinctIds(tasks) && HasId(tasks, id)
    ensures |WithoutId(tasks, id)| == |tasks| - 1
    ensures !HasId(WithoutId(tasks, id), id)
  {
    CountIdDistinct(tasks, id);
  }

  /** Filtering keeps ids distinct. */
  lemma {:induction false} WithoutIdKeepsDistinct(tasks: seq<Task>, id: string)
    requires DistinctIds(tasks)
    ensures DistinctIds(WithoutId(tasks, id))
  {
    if tasks != [] {
      var rest := WithoutId(tasks[1..], id);
      WithoutIdKeepsDistinct(tasks[1..], id);
      WithoutIdMembers(tasks[1..], id);
      if tasks[0].id != id {
        forall j | 0 <= j < |rest| ensures rest[j].id != tasks[0].id {
          assert rest[j] in tasks[1..];
          var m :| 0 <= m < |tasks[1..]| && tasks[1..][m] == rest[j];
          assert tasks[m + 1] == rest[j];
        }
        var r := [tasks[0]] + rest;
        forall i, j | 0 <= i < j < |r| ensures r[i].id != r[j].id {
          if i == 0 { assert r[j] == rest[j - 1]; } else { assert r[i] == rest[i - 1] && r[j] == rest[j - 1]; }
        }
      }
    }
  }

  /** Filtering keeps every stored text non-empty and trimmed. */
  lemma WithoutIdKeepsTexts(tasks: seq<Task>, id: string)
    requires TextsTrimmed(tasks)
    ensures TextsTrimmed(WithoutId(tasks, id))
  {
    WithoutIdMembers(tasks, id);
  }

  /** Toggling the same id twice restores the list. */
  lemma ToggleInvolution(tasks: seq<Task>, id: string)
    ensures Toggled(Toggled(tasks, id), id) == tasks
  {
  }

  /** Toggling an id no task carries changes nothing. */
  lemma ToggleAbsentId(tasks: seq<Task>, id: string)
    requires !HasId(tasks, id)
    ensures Toggled(tasks, id) == tasks
  {
  }

  /** Toggling keeps ids distinct and texts trimmed, since it changes neither. */
  lemma ToggleKeepsInvariants(tasks: seq<Task>, id: string)
    ensures DistinctIds(tasks) ==> DistinctIds(Toggled(tasks, id))
    ensures TextsTrimmed(tasks) ==> TextsTrimmed(Toggled(tasks, id))
  {
  }
}

/**
 * The list adapter's data side: all tasks, the incomplete ones, and which of
 * the two the list shows.
 */
module Adapter {
  import opened Tasks

  /** The tasks not yet completed, in their order in `tasks`. */
  function Incomplete(tasks: seq<Task>): (r: seq<Task>)
    ensures forall i :: 0 <= i < |r| ==> !r[i].completed
  {
    if tasks == [] then []
    else
      var last := tasks[|tasks| - 1];
      Incomplete(tasks[..|tasks| - 1]) + (if !last.completed then [last] else [])
  }

  /** Filtering keeps the order: it distributes over concatenation. */
  lemma {:induction false} IncompleteAppend(a: seq<Task>, b: seq<Task>)
    ensures Incomplete(a + b) == Incomplete(a) + Incomplete(b)
    decreases |b|
  {
    if b == [] {
      assert a + b == a;
    } else {
      var b' := b[..|b| - 1];
      assert (a + b)[..|a + b| - 1] == a + b';
      IncompleteAppend(a, b');
    }
  }

  /** A task is listed as incomplete exactly when it is in the list and not completed. */
  lemma {:induction false} IncompleteMembers(tasks: seq<Task>, t: Task)
    ensures t in Incomplete(tasks) <==> t in tasks && !t.completed
    decreases |tasks|
  {
    if tasks != [] {
      var init := tasks[..|tasks| - 1];
      IncompleteMembers(init, t);
      assert tasks == init + [tasks[|tasks| - 1]];
    }
  }

  /** There are never more incomplete tasks than tasks. */
  lemma {:induction false} IncompleteLength(tasks: seq<Task>)
    ensures |Incomplete(tasks)| <= |tasks|
    decreases |tasks|
  {
    if tasks != [] {
      IncompleteLength(tasks[..|tasks| - 1]);
    }
  }

  /** Filtering twice changes nothing. */
  lemma {:induction false} IncompleteIdempotent(tasks: seq<Task>)
    ensures Incomplete(Incomplete(tasks)) == Incomplete(tasks)
    decreases |tasks|
  {
    if tasks != [] {
      var init := tasks[..|tasks| - 1];
      var last := tasks[|tasks| - 1];
      IncompleteIdempotent(init);
      var tail := if !last.completed then [last] else [];
      IncompleteAppend(Incomplete(init), tail);
      assert Incomplete(tail) == tail by {
        if tail != [] {
          assert tail[..0] == [];
        }
      }
    }
  }

  class TaskRecyclerAdapter {
    var incompleteTasks: seq<Task>
    var hideCompletedTasks: bool
    var allTasks: seq<Task>

    /** `incompleteTasks` is exactly the incomplete tasks of `allTasks`, in order. */
    ghost predicate Valid()
      reads this
    {
      incompleteTasks == Incomplete(allTasks)
    }

    /** `TaskRecyclerAdapter(tasks, hideCompletedTasks, callback)`, without the view callback. */
    constructor (tasks: seq<Task>, hideCompletedTasks: bool)
      ensures Valid()
      ensures allTasks == tasks && this.hideCompletedTasks == hideCompletedTasks
    {
      allTasks := tasks;
      this.hideCompletedTasks := hideCompletedTasks;
      incompleteTasks := [];
      new;
      UpdateIncompleteTasks();
    }

    /**
     * `getItemCount`: the number of rows the list shows, read from the
     * filtered list when hiding is on. It counts the incomplete tasks of
     * `allTasks` only while `Valid()` holds, that is from a rebuild until
     * the list next changes.
     */
    method GetItemCount() returns (n: nat)
      ensures n == if hideCompletedTasks then |incompleteTasks| else |allTasks|
      ensures Valid() ==> n <= |allTasks|
      ensures Valid() && hideCompletedTasks ==> n == |Incomplete(allTasks)|
    {
      IncompleteLength(allTasks);
      n := if hideCompletedTasks then |incompleteTasks| else |allTasks|;
    }

    /**
     * The task `onBindViewHolder` shows at `position`: a row of the filtered
     * list when hiding is on, of all tasks otherwise. While `Valid()` holds
     * a hidden-mode row is an incomplete task of `allTasks`.
     */
    method TaskAt(position: nat) returns (t: Task)
      requires position < (if hideCompletedTasks then |incompleteTasks| else |allTasks|)
      ensures hideCompletedTasks ==> t == incompleteTasks[position]
      ensures !hideCompletedTasks ==> t == allTasks[position] && t in allTasks
      ensures Valid() ==> t in allTasks
      ensures Valid() && hideCompletedTasks ==> !t.completed && t == Incomplete(allTasks)[position]
    {
      t := if hideCompletedTasks then incompleteTasks[position] else allTasks[position];
      IncompleteMembers(allTasks, t);
    }

    /** `setHideCompletedTasks`: set the flag and rebuild the filtered list. */
    method SetHideCompletedTasks(hideCompletedTasks: bool)
      modifies this`hideCompletedTasks, this`incompleteTasks
      ensures Valid() && this.hideCompletedTasks == hideCompletedTasks
    {
      this.hideCompletedTasks := hideCompletedTasks;
      UpdateIncompleteTasks();
    }

    /** `updateIncompleteTasks`: clear, then refill with the incomplete tasks in order. */
    method UpdateIncompleteTasks()
      modifies this`incompleteTasks
      ensures Valid()
    {
      incompleteTasks := [];
      for i := 0 to |allTasks|
        invariant incompleteTasks == Incomplete(allTasks[..i])
      {
        assert allTasks[..i + 1][..i] == allTasks[..i];
        var task := allTasks[i];
        if !task.completed {
          incompleteTasks := incompleteTasks + [task];
        }
      }
      assert allTasks[..|allTasks|] == allTasks;
    }
  }
}

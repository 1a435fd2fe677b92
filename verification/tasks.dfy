/**
 * The task entity: a title and a completion flag. Lists of tasks everywhere in
 * the model hold `Task` values; `TaskObject` is the mutable Java object with
 * its setters, `equals(Object)` and `hashCode()`.
 */
module Tasks {

  /** A task as the pair that equality and the hash look at. */
  datatype Task = Task(title: string, completed: bool)

  const TWO_31: int := 0x8000_0000
  const TWO_32: int := 0x1_0000_0000

  /** Java `int` arithmetic: the one 32-bit signed value congruent to `x`. */
  function ToInt32(x: int): (r: int)
    ensures -TWO_31 <= r < TWO_31
    ensures (x - r) % TWO_32 == 0
  {
    var m := x % TWO_32;
    if m >= TWO_31 then m - TWO_32 else m
  }

  /**
   * `String.hashCode`: h := 31 * h + c over the characters, with 32-bit
   * wrap-around at every step.
   */
  function StringHash(s: string): (h: int)
    ensures -TWO_31 <= h < TWO_31
  {
    if s == [] then 0 else ToInt32(31 * StringHash(s[..|s| - 1]) + s[|s| - 1] as int)
  }

  /** `Task.hashCode`: 31 * hash(title) + (completed ? 1 : 0), in 32-bit arithmetic. */
  function TaskHash(t: Task): (h: int)
    ensures -TWO_31 <= h < TWO_31
  {
    ToInt32(31 * StringHash(t.title) + (if t.completed then 1 else 0))
  }

  /** Two tasks that differ only in their flag never share a hash. */
  lemma HashSeparatesCompleted(title: string)
    ensures TaskHash(Task(title, true)) != TaskHash(Task(title, false))
  {
    var x := 31 * StringHash(title);
    var a, b := ToInt32(x + 1), ToInt32(x);
    assert (x + 1 - a) % TWO_32 == 0 && (x - b) % TWO_32 == 0;
  }

  /**
   * `List.indexOf(t)`: the first position whose element equals `t`, or -1
   * when no element does.
   */
  function IndexOf(list: seq<Task>, t: Task): (i: int)
    ensures -1 <= i < |list|
    ensures i == -1 <==> t !in list
    ensures 0 <= i ==> list[i] == t && forall k :: 0 <= k < i ==> list[k] != t
  {
    if list == [] then -1
    else if list[0] == t then 0
    else
      var j := IndexOf(list[1..], t);
      assert list == [list[0]] + list[1..];
      if j == -1 then -1 else j + 1
  }

  /**
   * Writing a task back at the position `indexOf` finds for it leaves the
   * list unchanged as a sequence of values.
   */
  lemma SetAtIndexOfKeepsList(list: seq<Task>, t: Task)
    requires t in list
    ensures 0 <= IndexOf(list, t) && list[IndexOf(list, t) := t] == list
  {
  }

  /** The Java `Task` object, whose fields the setters change in place. */
  class TaskObject {
    var title: string
    var completed: bool

    /** `new Task(title)`: the flag keeps Java's default, false. */
    constructor (title: string)
      ensures this.title == title && !completed
    {
      this.title := title;
      completed := false;
    }

    /** The value this object currently holds. */
    function Value(): Task
      reads this
    {
      Task(title, completed)
    }

    /** `getTitle`: the title of the task this object currently holds. */
    function GetTitle(): (r: string)
      reads this
      ensures r == Value().title
    {
      title
    }

    /** `getCompleted`: the flag of the task this object currently holds. */
    function GetCompleted(): (r: bool)
      reads this
      ensures r == Value().completed
    {
      completed
    }

    method SetTitle(title: string)
      modifies this`title
      ensures GetTitle() == title && GetCompleted() == old(GetCompleted())
    {
      this.title := title;
    }

    method SetCompleted(completed: bool)
      modifies this`completed
      ensures GetCompleted() == completed && GetTitle() == old(GetTitle())
    {
      this.completed := completed;
    }

    /**
     * `equals(Object o)`: the same object, or another `Task` whose flag and
     * title agree with this one's; never equal to a non-`Task` or to null.
     */
    function Equals(o: object?): (r: bool)
      reads this, o
      ensures o == this ==> r
      ensures !(o is TaskObject) ==> !r
      ensures o is TaskObject ==> (r <==> (o as TaskObject).Value() == Value())
    {
      if this == o then true
      else if !(o is TaskObject) then false
      else
        var task := o as TaskObject;
        if GetCompleted() != task.GetCompleted() then false
        else GetTitle() == task.GetTitle()
    }

    /** `hashCode()` of the current field values. */
    function HashCode(): (h: int)
      reads this
      ensures -TWO_31 <= h < TWO_31
    {
      TaskHash(Value())
    }
  }

  /** `equals` and `hashCode` agree: equal objects hash alike. */
  lemma EqualObjectsHashAlike(a: TaskObject, b: TaskObject)
    requires a.Equals(b)
    ensures a.HashCode() == b.HashCode() == TaskHash(a.Value())
  {
  }

  /** `equals` is symmetric, and objects differing only in their flag are unequal. */
  lemma EqualsSymmetric(a: TaskObject, b: TaskObject)
    ensures a.Equals(b) == b.Equals(a)
    ensures a.GetTitle() == b.GetTitle() && a.GetCompleted() != b.GetCompleted() ==> !a.Equals(b)
  {
  }
}

/**
 * The orchestrator: the single in-memory task list, the state manager it
 * reads from and saves to, and the one observer it notifies.
 */
module TaskManagers {
  import opened Wrappers
  import opened Tasks
  import opened Listeners

  /** Identifies the state manager a `TaskManager` was created with. */
  type StateManagerId = nat

  /** Identifies a registered `TaskListStateListener`. */
  type ObserverId = nat

  /** A call the manager makes on its `TaskListStateManager`. */
  datatype StateManagerCall =
    | SetDataSetChangedListenerCall(listener: Listener)
    | LoadTasksCall
    | SaveTasksCall(taskList: seq<Task>)

  /** The exceptions the manager's operations throw. */
  datatype Error = IndexOutOfBounds(index: int)

  const NOT_INITIALISED: string := "Call TaskManager.init() first."

  class TaskManager {
    var taskList: seq<Task>
    const taskListStateManager: StateManagerId
    var taskListStateListener: Option<ObserverId>
    /** Every call made on `taskListStateManager`, oldest first. */
    var calls: seq<StateManagerCall>
    /** Every `onTaskListUpdated` call made on an observer, oldest first. */
    var notifications: seq<ObserverId>

    /** The manager registered itself as its state manager's listener first, and only then. */
    ghost predicate Valid()
      reads this
    {
      && |calls| > 0
      && calls[0] == SetDataSetChangedListenerCall(TaskManagerListener)
      && forall i :: 0 < i < |calls| ==> !calls[i].SetDataSetChangedListenerCall?
    }

    /** The private constructor: register as the state manager's data-set listener. */
    constructor (taskListStateManager: StateManagerId)
      ensures Valid()
      ensures this.taskListStateManager == taskListStateManager
      ensures taskList == [] && taskListStateListener == None && notifications == []
      ensures calls == [SetDataSetChangedListenerCall(TaskManagerListener)]
    {
      this.taskListStateManager := taskListStateManager;
      taskList := [];
      taskListStateListener := None;
      notifications := [];
      calls := [SetDataSetChangedListenerCall(TaskManagerListener)];
    }

    /**
     * `onDataSetChanged`: the delivered list replaces the whole in-memory list;
     * the observer, if one is set, is notified once.
     */
    method OnDataSetChanged(taskList: seq<Task>)
      modifies this`taskList, this`notifications
      ensures this.taskList == taskList
      ensures taskListStateListener.None? ==> notifications == old(notifications)
      ensures taskListStateListener.Some? ==> notifications == old(notifications) + [taskListStateListener.value]
    {
      this.taskList := taskList;
      if taskListStateListener.Some? {
        notifications := notifications + [taskListStateListener.value];
      }
    }

    /** `getTasks`: the in-memory list itself. */
    method GetTasks() returns (r: seq<Task>)
      ensures r == taskList
    {
      r := taskList;
    }

    /** `addTask`: append (no uniqueness check), then save the whole list once. */
    method AddTask(task: Task)
      requires Valid()
      modifies this`taskList, this`calls
      ensures Valid()
      ensures taskList == old(taskList) + [task]
      ensures calls == old(calls) + [SaveTasksCall(old(taskList) + [task])]
    {
      taskList := taskList + [task];
      SaveTasks();
    }

    /**
     * `updateTask`: write the task at the first position holding an equal
     * task, then save. With no equal task, `indexOf` is -1 and `set` throws
     * before anything changes or is saved.
     */
    method UpdateTask(task: Task) returns (r: Outcome<Error>)
      requires Valid()
      modifies this`taskList, this`calls
      ensures Valid()
      ensures r.Pass? <==> task in old(taskList)
      ensures r.Pass? ==>
        && taskList == old(taskList)[IndexOf(old(taskList), task) := task]
        && taskList == old(taskList)
        && calls == old(calls) + [SaveTasksCall(old(taskList))]
      ensures r.Fail? ==>
        && r.error == IndexOutOfBounds(-1)
        && taskList == old(taskList) && calls == old(calls)
    {
      var index := IndexOf(taskList, task);
      if index < 0 {
        return Fail(IndexOutOfBounds(index));
      }
      SetAtIndexOfKeepsList(taskList, task);
      taskList := taskList[index := task];
      SaveTasks();
      return Pass;
    }

    /** `setTaskListStateListener`: the new observer replaces any previous one. */
    method SetTaskListStateListener(listener: ObserverId)
      modifies this`taskListStateListener
      ensures taskListStateListener == Some(listener)
    {
      taskListStateListener := Some(listener);
    }

    /** The private `saveTasks`: hand the whole current list to the state manager. */
    method SaveTasks()
      requires Valid()
      modifies this`calls
      ensures Valid()
      ensures calls == old(calls) + [SaveTasksCall(taskList)]
    {
      calls := calls + [SaveTasksCall(taskList)];
    }
  }

  /** The class-level (static) state: the one `TaskManager` instance. */
  class TaskManagerRegistry {
    var instance: TaskManager?

    ghost predicate Valid()
      reads this, instance
    {
      instance != null ==> instance.Valid()
    }

    constructor ()
      ensures instance == null
    {
      instance := null;
    }

    /**
     * `init`: create the instance on the first call only (it keeps the state
     * manager it was created with); on every call empty the list and issue
     * exactly one load.
     */
    method Init(taskListStateManager: StateManagerId)
      requires Valid()
      modifies this, instance
      ensures Valid() && instance != null
      ensures old(instance) == null ==>
        && fresh(instance)
        && instance.taskListStateManager == taskListStateManager
        && instance.calls == [SetDataSetChangedListenerCall(TaskManagerListener), LoadTasksCall]
        && instance.taskListStateListener == None && instance.notifications == []
      ensures old(instance) != null ==>
        && instance == old(instance)
        && instance.taskListStateManager == old(instance.taskListStateManager)
        && instance.calls == old(instance.calls) + [LoadTasksCall]
        && instance.taskListStateListener == old(instance.taskListStateListener)
        && instance.notifications == old(instance.notifications)
      ensures instance.taskList == []
    {
      if instance == null {
        instance := new TaskManager(taskListStateManager);
      }
      instance.taskList := [];
      instance.calls := instance.calls + [LoadTasksCall];
    }

    /** `getInstance`: the instance, or the usage error when `init` has not run. */
    method GetInstance() returns (r: Result<TaskManager, string>)
      ensures r.Failure? <==> instance == null
      ensures r.Failure? ==> r.error == NOT_INITIALISED
      ensures r.Success? ==> r.value == instance
    {
      if instance == null {
        return Failure(NOT_INITIALISED);
      }
      return Success(instance);
    }
  }
}

/**
 * The remote backend: the task list lives in the Firebase node named by the
 * installation id; a load either hands over the tasks kept by an upgrade or
 * registers a one-shot listener whose callback decodes the node's children.
 */
module Firebase {
  import opened Wrappers
  import opened Tasks
  import opened Listeners
  import opened Stores
  import opened StateManagers

  /** How `setValue(taskList)` stores a list: one decodable child per task, in order. */
  function Children(taskList: seq<Task>): (children: seq<Option<Task>>)
    ensures |children| == |taskList|
    ensures forall i :: 0 <= i < |taskList| ==> children[i] == Some(taskList[i])
  {
    seq(|taskList|, i requires 0 <= i < |taskList| => Some(taskList[i]))
  }

  /** The children of the node for `uniqueId` (none when the node is absent). */
  function Snapshot(nodes: map<string, seq<Option<Task>>>, uniqueId: string): seq<Option<Task>>
  {
    if uniqueId in nodes then nodes[uniqueId] else []
  }

  /** The children that decode to a task, in order. */
  function Decoded(snapshot: seq<Option<Task>>): (r: seq<Task>)
    ensures |r| <= |snapshot|
  {
    if snapshot == [] then []
    else
      var last := snapshot[|snapshot| - 1];
      Decoded(snapshot[..|snapshot| - 1]) + (if last.Some? then [last.value] else [])
  }

  /** What a snapshot delivery hands on: the decoded children, or the seed tasks when there are none. */
  function Loaded(snapshot: seq<Option<Task>>): (r: seq<Task>)
    ensures r != []
    ensures Decoded(snapshot) != [] ==> r == Decoded(snapshot)
    ensures Decoded(snapshot) == [] ==> r == DEFAULT_TASKS
  {
    if Decoded(snapshot) == [] then DEFAULT_TASKS else Decoded(snapshot)
  }

  /** Decoding keeps the order of the children: it distributes over concatenation. */
  lemma {:induction false} DecodedAppend(a: seq<Option<Task>>, b: seq<Option<Task>>)
    ensures Decoded(a + b) == Decoded(a) + Decoded(b)
    decreases |b|
  {
    if b == [] {
      assert a + b == a;
    } else {
      var b' := b[..|b| - 1];
      assert (a + b)[..|a + b| - 1] == a + b';
      DecodedAppend(a, b');
    }
  }

  /** A task is delivered exactly when some child decodes to it. */
  lemma {:induction false} DecodedMembers(snapshot: seq<Option<Task>>, t: Task)
    ensures t in Decoded(snapshot) <==> Some(t) in snapshot
    decreases |snapshot|
  {
    if snapshot != [] {
      var init := snapshot[..|snapshot| - 1];
      DecodedMembers(init, t);
      assert snapshot == init + [snapshot[|snapshot| - 1]];
    }
  }

  /** Reading back what `saveTasks` wrote gives the saved list itself. */
  lemma {:induction false} DecodedChildren(taskList: seq<Task>)
    ensures Decoded(Children(taskList)) == taskList
    decreases |taskList|
  {
    if taskList != [] {
      var init := taskList[..|taskList| - 1];
      DecodedChildren(init);
      assert Children(taskList)[..|taskList| - 1] == Children(init);
    }
  }

  /**
   * Save then load on the remote backend: a non-empty list comes back as it
   * was saved, an empty one comes back as the two seed tasks.
   */
  lemma SaveThenLoad(nodes: map<string, seq<Option<Task>>>, uniqueId: string, taskList: seq<Task>)
    ensures Loaded(Snapshot(nodes[uniqueId := Children(taskList)], uniqueId))
            == if taskList == [] then DEFAULT_TASKS else taskList
  {
    DecodedChildren(taskList);
  }

  class FirebaseStateManager {
    const base: BaseStateManager
    const database: RemoteDatabase
    const uniqueId: string
    /** Single-value listeners registered by `loadTasks` that have not fired yet. */
    var pendingListeners: nat

    constructor (base: BaseStateManager, database: RemoteDatabase, uniqueId: string)
      ensures this.base == base && this.database == database && this.uniqueId == uniqueId
      ensures pendingListeners == 0
    {
      this.base := base;
      this.database := database;
      this.uniqueId := uniqueId;
      pendingListeners := 0;
    }

    /**
     * `FirebaseStateManager(context, uniqueId, dataSchemaVersion)`: the base
     * constructor (version check and upgrade), then the reference to the
     * node named `uniqueId`.
     */
    static method Create(ctx: Context, database: RemoteDatabase, uniqueId: string, dataSchemaVersion: int)
      returns (r: Result<FirebaseStateManager, Error>)
      requires ctx.Valid() && |uniqueId| >= 1
      modifies ctx.versionPrefs`ints, ctx.taskPrefs`taskArrays
      ensures r.Failure? <==> dataSchemaVersion < OldVersion(StoredVersion(old(ctx.versionPrefs.ints)), dataSchemaVersion)
      ensures r.Failure? ==>
        && r.error == DowngradeNotAllowed(StoredVersion(old(ctx.versionPrefs.ints)), dataSchemaVersion)
        && ctx.versionPrefs.ints == old(ctx.versionPrefs.ints)
        && ctx.taskPrefs.taskArrays == old(ctx.taskPrefs.taskArrays)
      ensures r.Success? ==>
        && fresh(r.value) && fresh(r.value.base)
        && r.value.database == database && r.value.uniqueId == uniqueId && r.value.pendingListeners == 0
        && ctx.versionPrefs.ints == old(ctx.versionPrefs.ints)[KEY_PREFS_DATA_SCHEMA_VERSION := dataSchemaVersion]
        && Constructed(r.value.base, StoredVersion(old(ctx.versionPrefs.ints)), dataSchemaVersion, ctx.taskPrefs,
                       old(ctx.taskPrefs.taskArrays))
        && ctx.taskPrefs.taskArrays
           == LegacyAfter(StoredVersion(old(ctx.versionPrefs.ints)), dataSchemaVersion, old(ctx.taskPrefs.taskArrays))
    {
      var base := BaseStateManager.Create(ctx, dataSchemaVersion);
      if base.Failure? {
        return Failure(base.error);
      }
      var m := new FirebaseStateManager(base.value, database, uniqueId);
      return Success(m);
    }

    /** `saveTasks`: the list replaces the whole value of this installation's node. */
    method SaveTasks(taskList: seq<Task>)
      modifies database`nodes
      ensures database.nodes == old(database.nodes)[uniqueId := Children(taskList)]
    {
      database.nodes := database.nodes[uniqueId := Children(taskList)];
    }

    /**
     * `loadTasks`: tasks kept by an upgrade, when there are any, are first
     * saved to this installation's node, then the legacy copy is deleted,
     * then they go to the listener (if one is set) and are dropped, without
     * reading the database; otherwise a one-shot listener is registered on
     * the node.
     */
    method LoadTasks() returns (d: Option<Delivery>)
      modifies base`tasksFromUpgrade, base`legacyBackend, this`pendingListeners, database`nodes
      modifies (if base.legacyBackend.Some? then {base.legacyBackend.value.sharedPreferences} else {})`taskArrays
      ensures var upgraded, legacy := old(base.tasksFromUpgrade), old(base.legacyBackend);
        if upgraded.Some? && upgraded.value != [] then
          && database.nodes == old(database.nodes)[uniqueId := Children(upgraded.value)]
          && (legacy.Some? ==>
                legacy.value.sharedPreferences.taskArrays
                == old(legacy.value.sharedPreferences.taskArrays) - {SAVED_TASKS})
          && base.tasksFromUpgrade == None && base.legacyBackend == None
          && pendingListeners == old(pendingListeners)
          && d == (if base.dataSetChangedListener.Some?
                   then Some(Delivery(base.dataSetChangedListener.value, upgraded.value)) else None)
        else
          && database.nodes == old(database.nodes)
          && (legacy.Some? ==>
                legacy.value.sharedPreferences.taskArrays == old(legacy.value.sharedPreferences.taskArrays))
          && base.tasksFromUpgrade == upgraded && base.legacyBackend == legacy
          && pendingListeners == old(pendingListeners) + 1
          && d == None
    {
      if base.tasksFromUpgrade.Some? && base.tasksFromUpgrade.value != [] {
        var upgraded := base.tasksFromUpgrade.value;
        // The new backend holds the tasks before the legacy copy goes.
        SaveTasks(upgraded);
        if base.legacyBackend.Some? {
          base.legacyBackend.value.DeleteAllTasks();
          base.legacyBackend := None;
        }
        d := None;
        if base.dataSetChangedListener.Some? {
          d := Some(Delivery(base.dataSetChangedListener.value, upgraded));
        }
        base.tasksFromUpgrade := None;
        return;
      }
      d := None;
      pendingListeners := pendingListeners + 1;
    }

    /**
     * `loadTasks` as the source has it: tasks kept by an upgrade, when there
     * are any, go to the listener (if one is set) and are dropped, without
     * reading or writing the database; otherwise a one-shot listener is
     * registered on the node.
     */
    method LoadTasksAsWritten() returns (d: Option<Delivery>)
      modifies base`tasksFromUpgrade, this`pendingListeners
      ensures var upgraded := old(base.tasksFromUpgrade);
        if upgraded.Some? && upgraded.value != [] then
          && base.tasksFromUpgrade == None
          && pendingListeners == old(pendingListeners)
          && d == (if base.dataSetChangedListener.Some?
                   then Some(Delivery(base.dataSetChangedListener.value, upgraded.value)) else None)
        else
          && base.tasksFromUpgrade == upgraded
          && pendingListeners == old(pendingListeners) + 1
          && d == None
    {
      if base.tasksFromUpgrade.Some? && base.tasksFromUpgrade.value != [] {
        d := None;
        if base.dataSetChangedListener.Some? {
          d := Some(Delivery(base.dataSetChangedListener.value, base.tasksFromUpgrade.value));
        }
        base.tasksFromUpgrade := None;
        return;
      }
      d := None;
      pendingListeners := pendingListeners + 1;
    }

    /**
     * The one-shot listener's `onDataChange`: keep the children that decode
     * to a task, in order; seed the defaults into an empty result; hand it
     * to the listener, if one is set.
     */
    method OnDataChange(snapshot: seq<Option<Task>>) returns (d: Option<Delivery>)
      requires pendingListeners > 0
      modifies this`pendingListeners
      ensures pendingListeners == old(pendingListeners) - 1
      ensures base.dataSetChangedListener.None? ==> d == None
      ensures base.dataSetChangedListener.Some? ==>
        d == Some(Delivery(base.dataSetChangedListener.value, Loaded(snapshot)))
    {
      pendingListeners := pendingListeners - 1;
      var taskList: seq<Task> := [];
      for i := 0 to |snapshot|
        invariant taskList == Decoded(snapshot[..i])
      {
        assert snapshot[..i + 1][..i] == snapshot[..i];
        if snapshot[i].Some? {
          taskList := taskList + [snapshot[i].value];
        }
      }
      assert snapshot[..|snapshot|] == snapshot;
      if taskList == [] {
        taskList := base.CreateDefaultEntries(taskList);
        assert taskList == DEFAULT_TASKS;
      }
      d := None;
      if base.dataSetChangedListener.Some? {
        d := Some(Delivery(base.dataSetChangedListener.value, taskList));
      }
    }

    /** The one-shot listener's `onCancelled`: the error is only logged; nothing is delivered. */
    method OnCancelled()
      requires pendingListeners > 0
      modifies this`pendingListeners
      ensures pendingListeners == old(pendingListeners) - 1
    {
      pendingListeners := pendingListeners - 1;
    }

    /** Inherited `setDataSetChangedListener`. */
    method SetDataSetChangedListener(listener: Listener)
      modifies base`dataSetChangedListener
      ensures base.dataSetChangedListener == Some(listener)
    {
      base.SetDataSetChangedListener(listener);
    }
  }
}

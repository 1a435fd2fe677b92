/**
 * The wiring at application start: a remote backend built over the
 * application's preferences, the `TaskManager` initialised with it, and the
 * state manager's deliveries handed straight to the manager's listener method.
 */
module Application {
  import opened Wrappers
  import opened Tasks
  import opened Listeners
  import opened Stores
  import opened StateManagers
  import opened Firebase
  import opened TaskManagers

  /** The id the `TaskManager` records for the remote backend. */
  const REMOTE_BACKEND: StateManagerId := 0

  /**
   * Start after an upgrade from schema 1: build the remote backend, `init`
   * the `TaskManager` with it, then carry out the two calls `init` made on
   * it (register the manager as listener, load). The legacy local tasks
   * become the manager's list without a read of the database; they are saved
   * to this installation's node before the local copy is deleted, and the
   * schema version is the new one.
   */
  method StartAfterUpgrade(ctx: Context, database: RemoteDatabase, uniqueId: string, newVersion: int,
                           registry: TaskManagerRegistry)
    returns (backend: FirebaseStateManager)
    requires ctx.Valid() && |uniqueId| >= 1
    requires registry.Valid() && registry.instance == null
    requires StoredVersion(ctx.versionPrefs.ints) == 1 && newVersion >= 2
    requires SavedTasks(ctx.taskPrefs.taskArrays) != []
    modifies ctx.versionPrefs`ints, ctx.taskPrefs`taskArrays, database`nodes, registry
    ensures registry.Valid() && registry.instance != null
    ensures registry.instance.taskList == SavedTasks(old(ctx.taskPrefs.taskArrays))
    ensures registry.instance.calls == [SetDataSetChangedListenerCall(TaskManagerListener), LoadTasksCall]
    ensures SAVED_TASKS !in ctx.taskPrefs.taskArrays
    ensures StoredVersion(ctx.versionPrefs.ints) == newVersion
    ensures backend.base.tasksFromUpgrade == None && backend.pendingListeners == 0
    ensures database.nodes == old(database.nodes)[uniqueId := Children(SavedTasks(old(ctx.taskPrefs.taskArrays)))]
  {
    var created := FirebaseStateManager.Create(ctx, database, uniqueId, newVersion);
    backend := created.value;
    registry.Init(REMOTE_BACKEND);
    var manager := registry.instance;
    // The call made by the TaskManager constructor.
    backend.SetDataSetChangedListener(TaskManagerListener);
    // The call made by `init`.
    var delivery := backend.LoadTasks();
    manager.OnDataSetChanged(delivery.value.tasks);
  }

  /**
   * An ordinary start, with the schema version already current: nothing is
   * migrated, and the manager's list is what the remote node delivers once
   * the one-shot listener fires.
   */
  method StartWithoutUpgrade(ctx: Context, database: RemoteDatabase, uniqueId: string, newVersion: int,
                             registry: TaskManagerRegistry)
    returns (backend: FirebaseStateManager)
    requires ctx.Valid() && |uniqueId| >= 1
    requires registry.Valid() && registry.instance == null
    requires StoredVersion(ctx.versionPrefs.ints) == newVersion
    modifies ctx.versionPrefs`ints, ctx.taskPrefs`taskArrays, database`nodes, registry
    ensures registry.Valid() && registry.instance != null
    ensures registry.instance.taskList == Loaded(Snapshot(old(database.nodes), uniqueId))
    ensures registry.instance.calls == [SetDataSetChangedListenerCall(TaskManagerListener), LoadTasksCall]
    ensures ctx.versionPrefs.ints == old(ctx.versionPrefs.ints)[KEY_PREFS_DATA_SCHEMA_VERSION := newVersion]
    ensures ctx.taskPrefs.taskArrays == old(ctx.taskPrefs.taskArrays)
    ensures database.nodes == old(database.nodes)
    ensures backend.pendingListeners == 0
  {
    var created := FirebaseStateManager.Create(ctx, database, uniqueId, newVersion);
    backend := created.value;
    registry.Init(REMOTE_BACKEND);
    var manager := registry.instance;
    backend.SetDataSetChangedListener(TaskManagerListener);
    var delivery := backend.LoadTasks();
    // The registered listener fires with the node's current children.
    delivery := backend.OnDataChange(Snapshot(database.nodes, uniqueId));
    manager.OnDataSetChanged(delivery.value.tasks);
  }

  /**
   * Start after an upgrade from schema 1, then start again before any task
   * is added or updated: the second start shows the legacy tasks, read back
   * from the remote node, and the legacy copy is gone.
   */
  method RestartAfterMigration(ctx: Context, database: RemoteDatabase, uniqueId: string, newVersion: int)
    returns (reloaded: seq<Task>)
    requires ctx.Valid() && |uniqueId| >= 1
    requires StoredVersion(ctx.versionPrefs.ints) == 1 && newVersion >= 2
    requires SavedTasks(ctx.taskPrefs.taskArrays) != []
    modifies ctx.versionPrefs`ints, ctx.taskPrefs`taskArrays, database`nodes
    ensures reloaded == SavedTasks(old(ctx.taskPrefs.taskArrays))
    ensures SAVED_TASKS !in ctx.taskPrefs.taskArrays
  {
    var first := new TaskManagerRegistry();
    var _ := StartAfterUpgrade(ctx, database, uniqueId, newVersion, first);
    // A new process: the stored schema version is now the current one.
    var second := new TaskManagerRegistry();
    var _ := StartWithoutUpgrade(ctx, database, uniqueId, newVersion, second);
    SaveThenLoad(old(database.nodes), uniqueId, SavedTasks(old(ctx.taskPrefs.taskArrays)));
    reloaded := second.instance.taskList;
  }

  /**
   * The same two starts with the 1 -> 2 step in the source's order, on a
   * legacy store holding one task: the first start shows the task, but
   * nothing saved it remotely and the legacy copy is already deleted, so
   * the second start shows only the seed tasks.
   */
  method RestartAfterEagerMigration()
    returns (first: seq<Task>, reloaded: seq<Task>, legacy: map<string, seq<Task>>)
    ensures first == [Task("Buy milk", false)]
    ensures reloaded == DEFAULT_TASKS
    ensures legacy == map[]
  {
    var versionPrefs := new Preferences(map[KEY_PREFS_DATA_SCHEMA_VERSION := 1], map[]);
    var taskPrefs := new Preferences(map[], map[SAVED_TASKS := [Task("Buy milk", false)]]);
    var ctx := new Context(versionPrefs, taskPrefs);
    var database := new RemoteDatabase(map[]);
    var base := new BaseStateManager();
    var upgrade := base.IsUpgrade(ctx, 2);
    base.OnUpgradeEagerDelete(ctx, 2, base.oldVersion);
    var backend := new FirebaseStateManager(base, database, "installation");
    backend.SetDataSetChangedListener(TaskManagerListener);
    var delivery := backend.LoadTasksAsWritten();
    first := delivery.value.tasks;
    // A new process, before any task was added or updated.
    var registry := new TaskManagerRegistry();
    var _ := StartWithoutUpgrade(ctx, database, "installation", 2, registry);
    reloaded, legacy := registry.instance.taskList, taskPrefs.taskArrays;
  }

  /**
   * The 1 -> 2 step as the source has it, on a legacy store holding one task:
   * nothing is kept for the first load and the legacy copy is not deleted.
   */
  method LegacyMigrationAsWritten() returns (kept: Option<seq<Task>>, legacy: map<string, seq<Task>>)
    ensures kept == None
    ensures legacy == map[SAVED_TASKS := [Task("Buy milk", false)]]
  {
    var versionPrefs := new Preferences(map[KEY_PREFS_DATA_SCHEMA_VERSION := 1], map[]);
    var taskPrefs := new Preferences(map[], map[SAVED_TASKS := [Task("Buy milk", false)]]);
    var ctx := new Context(versionPrefs, taskPrefs);
    var manager := new BaseStateManager();
    var upgrade := manager.IsUpgrade(ctx, 2);
    manager.OnUpgradeAsWritten(ctx, 2, manager.oldVersion);
    kept, legacy := manager.tasksFromUpgrade, taskPrefs.taskArrays;
  }

  /**
   * The 1 -> 2 step delivering through the inherited listener, on the same
   * store: the task is kept for the first load, and the legacy copy stays
   * until the new backend has saved it.
   */
  method LegacyMigration() returns (kept: Option<seq<Task>>, legacy: map<string, seq<Task>>)
    ensures kept == Some([Task("Buy milk", false)])
    ensures legacy == map[SAVED_TASKS := [Task("Buy milk", false)]]
  {
    var versionPrefs := new Preferences(map[KEY_PREFS_DATA_SCHEMA_VERSION := 1], map[]);
    var taskPrefs := new Preferences(map[], map[SAVED_TASKS := [Task("Buy milk", false)]]);
    var ctx := new Context(versionPrefs, taskPrefs);
    var created := BaseStateManager.Create(ctx, 2);
    kept, legacy := created.value.tasksFromUpgrade, taskPrefs.taskArrays;
  }
}

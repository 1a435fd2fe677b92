/**
 * The backend-independent part of every state manager (`BaseStateManager`:
 * the schema-version check, the upgrade steps, the seed tasks) and the local
 * backend (`SharedPreferenceStateManager`). They share one module because the
 * 1 -> 2 upgrade step constructs a local backend, whose own construction runs
 * the version check again.
 */
module StateManagers {
  import opened Wrappers
  import opened Tasks
  import opened Listeners
  import opened Stores

  /** Key of the stored schema version, in `Context.versionPrefs`. */
  const KEY_PREFS_DATA_SCHEMA_VERSION: string := "data_schema_version"

  /** Key of the local backend's task array, in `Context.taskPrefs`. */
  const SAVED_TASKS: string := "savedTasks"

  const START_LEARNING: string := "Start Learning Android!"
  const KEEP_LEARNING: string := "Keep Learning Android!"

  /** The two tasks seeded into a list that would otherwise be empty. */
  const DEFAULT_TASKS: seq<Task> := [Task(START_LEARNING, true), Task(KEEP_LEARNING, true)]

  /** The exception a state-manager constructor throws. */
  datatype Error = DowngradeNotAllowed(storedVersion: int, newVersion: int)

  /** `getInt(KEY_PREFS_DATA_SCHEMA_VERSION, -1)`. */
  function StoredVersion(ints: map<string, int>): (v: int)
    ensures KEY_PREFS_DATA_SCHEMA_VERSION !in ints ==> v == -1
    ensures KEY_PREFS_DATA_SCHEMA_VERSION in ints ==> v == ints[KEY_PREFS_DATA_SCHEMA_VERSION]
  {
    if KEY_PREFS_DATA_SCHEMA_VERSION in ints then ints[KEY_PREFS_DATA_SCHEMA_VERSION] else -1
  }

  /** The version `isUpgrade` compares against: -1 means "none stored" and adopts `newVersion`. */
  function OldVersion(stored: int, newVersion: int): (o: int)
    ensures o == stored || o == newVersion
    ensures newVersion < o <==> stored != -1 && newVersion < stored
    ensures newVersion > o <==> stored != -1 && newVersion > stored
  {
    if stored == -1 then newVersion else stored
  }

  /**
   * What `isUpgrade` decides from the stored version: a requested version
   * below a stored one is refused; otherwise the answer is whether the
   * version rises. With nothing stored there is never an upgrade.
   */
  function UpgradeDecision(stored: int, newVersion: int): (r: Result<bool, Error>)
    ensures r.Failure? <==> stored != -1 && newVersion < stored
    ensures r.Failure? ==> r.error == DowngradeNotAllowed(stored, newVersion)
    ensures r.Success? ==> (r.value <==> stored != -1 && stored < newVersion)
  {
    var oldVersion := OldVersion(stored, newVersion);
    if newVersion < oldVersion then Failure(DowngradeNotAllowed(oldVersion, newVersion))
    else Success(newVersion > oldVersion)
  }

  /** Construction over `stored` with `newVersion` runs `onUpgrade`, and in it the 1 -> 2 step. */
  predicate MigratesLegacy(stored: int, newVersion: int)
  {
    var old_ := OldVersion(stored, newVersion);
    newVersion > old_ && old_ < 2
  }

  /**
   * What the local backend's `loadTasks` hands on: the saved array when it is
   * present and non-empty, the empty list otherwise.
   */
  function SavedTasks(taskArrays: map<string, seq<Task>>): (r: seq<Task>)
    ensures SAVED_TASKS in taskArrays ==> r == taskArrays[SAVED_TASKS]
    ensures SAVED_TASKS !in taskArrays ==> r == []
  {
    if SAVED_TASKS in taskArrays && |taskArrays[SAVED_TASKS]| > 0 then taskArrays[SAVED_TASKS] else []
  }

  /** Save then load on the local backend gives back exactly the saved list, the empty one included. */
  lemma LocalSaveThenLoad(taskArrays: map<string, seq<Task>>, taskList: seq<Task>)
    ensures SavedTasks(taskArrays[SAVED_TASKS := taskList]) == taskList
  {
  }

  /** After `deleteAllTasks` the local backend loads the empty list. */
  lemma LocalDeleteThenLoad(taskArrays: map<string, seq<Task>>)
    ensures SavedTasks(taskArrays - {SAVED_TASKS}) == []
  {
  }

  /**
   * The local task store after construction: the 1 -> 2 step deletes an
   * empty legacy copy at once and leaves a non-empty one for the first load
   * to delete once the new backend holds its tasks.
   */
  function LegacyAfter(stored: int, newVersion: int, taskArrays: map<string, seq<Task>>): map<string, seq<Task>>
  {
    if MigratesLegacy(stored, newVersion) && SavedTasks(taskArrays) == [] then taskArrays - {SAVED_TASKS}
    else taskArrays
  }

  /** The base part of a state manager right after a successful construction over `taskPrefs`. */
  ghost predicate Constructed(b: BaseStateManager, stored: int, newVersion: int,
                              taskPrefs: Preferences, taskArrays: map<string, seq<Task>>)
    reads b
  {
    && b.oldVersion == OldVersion(stored, newVersion)
    && b.dataSetChangedListener == None
    && b.tasksFromUpgrade == (if MigratesLegacy(stored, newVersion) then Some(SavedTasks(taskArrays)) else None)
    && (b.legacyBackend.Some? <==> MigratesLegacy(stored, newVersion) && SavedTasks(taskArrays) != [])
    && (b.legacyBackend.Some? ==> b.legacyBackend.value.sharedPreferences == taskPrefs)
  }

  /** The state every state manager inherits from `BaseStateManager`. */
  class BaseStateManager {
    var dataSetChangedListener: Option<Listener>
    var tasksFromUpgrade: Option<seq<Task>>
    var oldVersion: int
    /** The legacy backend whose copy is deleted once the new backend holds the upgraded tasks. */
    var legacyBackend: Option<SharedPreferenceStateManager>

    /** Field initialisers only; `Create` is the Java constructor. */
    constructor ()
      ensures dataSetChangedListener == None && tasksFromUpgrade == None && oldVersion == 0
      ensures legacyBackend == None
    {
      dataSetChangedListener := None;
      tasksFromUpgrade := None;
      oldVersion := 0;
      legacyBackend := None;
    }

    /**
     * `BaseStateManager(context, newVersion)`: check the stored schema version
     * and run `onUpgrade` when the requested version is newer. A downgrade
     * throws before anything is written.
     */
    static method Create(ctx: Context, newVersion: int) returns (r: Result<BaseStateManager, Error>)
      requires ctx.Valid()
      modifies ctx.versionPrefs`ints, ctx.taskPrefs`taskArrays
      decreases if StoredVersion(ctx.versionPrefs.ints) == newVersion then 0 else 1, 2
      ensures r.Failure? <==> newVersion < OldVersion(StoredVersion(old(ctx.versionPrefs.ints)), newVersion)
      ensures r.Failure? ==>
        && r.error == DowngradeNotAllowed(StoredVersion(old(ctx.versionPrefs.ints)), newVersion)
        && ctx.versionPrefs.ints == old(ctx.versionPrefs.ints)
        && ctx.taskPrefs.taskArrays == old(ctx.taskPrefs.taskArrays)
      ensures r.Success? ==>
        StoredVersion(old(ctx.versionPrefs.ints)) == -1 || StoredVersion(old(ctx.versionPrefs.ints)) <= newVersion
      ensures r.Success? ==>
        && fresh(r.value)
        && ctx.versionPrefs.ints == old(ctx.versionPrefs.ints)[KEY_PREFS_DATA_SCHEMA_VERSION := newVersion]
        && Constructed(r.value, StoredVersion(old(ctx.versionPrefs.ints)), newVersion, ctx.taskPrefs, old(ctx.taskPrefs.taskArrays))
        && ctx.taskPrefs.taskArrays
           == LegacyAfter(StoredVersion(old(ctx.versionPrefs.ints)), newVersion, old(ctx.taskPrefs.taskArrays))
    {
      var m := new BaseStateManager();
      var upgrade := m.IsUpgrade(ctx, newVersion);
      if upgrade.Failure? {
        return Failure(upgrade.error);
      }
      if upgrade.value {
        m.OnUpgrade(ctx, newVersion, m.oldVersion);
      }
      return Success(m);
    }

    /**
     * `isUpgrade`: read the stored version (-1 when absent, then taken to be
     * `newVersion`), refuse a downgrade, store `newVersion`, and report
     * whether it is newer than the stored one.
     */
    method IsUpgrade(ctx: Context, newVersion: int) returns (r: Result<bool, Error>)
      modifies this`oldVersion, ctx.versionPrefs`ints
      ensures oldVersion == OldVersion(StoredVersion(old(ctx.versionPrefs.ints)), newVersion)
      ensures r == UpgradeDecision(StoredVersion(old(ctx.versionPrefs.ints)), newVersion)
      ensures r.Failure? <==> newVersion < oldVersion
      ensures r.Failure? ==>
        && r.error == DowngradeNotAllowed(StoredVersion(old(ctx.versionPrefs.ints)), newVersion)
        && ctx.versionPrefs.ints == old(ctx.versionPrefs.ints)
      ensures r.Success? ==>
        && ctx.versionPrefs.ints == old(ctx.versionPrefs.ints)[KEY_PREFS_DATA_SCHEMA_VERSION := newVersion]
        && r.value == (newVersion > oldVersion)
    {
      oldVersion := StoredVersion(ctx.versionPrefs.ints);
      if oldVersion == -1 {
        oldVersion := newVersion;
      }
      if newVersion < oldVersion {
        return Failure(DowngradeNotAllowed(oldVersion, newVersion));
      }
      ctx.versionPrefs.ints := ctx.versionPrefs.ints[KEY_PREFS_DATA_SCHEMA_VERSION := newVersion];
      return Success(newVersion > oldVersion);
    }

    /**
     * `onUpgrade`: independent steps keyed on the `oldVersion` field. The
     * 1 -> 2 step loads the legacy local tasks and keeps them in
     * `tasksFromUpgrade`. A non-empty legacy copy is left for the first load
     * to delete once the new backend holds the tasks; an empty one, which
     * has nothing to lose, goes at once. The 2 -> 3 step is empty.
     */
    method OnUpgrade(ctx: Context, newVersion: int, oldVersion: int)
      requires ctx.Valid()
      requires KEY_PREFS_DATA_SCHEMA_VERSION in ctx.versionPrefs.ints
      requires ctx.versionPrefs.ints[KEY_PREFS_DATA_SCHEMA_VERSION] == newVersion
      modifies this`tasksFromUpgrade, this`legacyBackend, ctx.versionPrefs`ints, ctx.taskPrefs`taskArrays
      decreases 0, 4
      ensures ctx.versionPrefs.ints == old(ctx.versionPrefs.ints)
      ensures this.oldVersion < 2 ==>
        tasksFromUpgrade == Some(SavedTasks(old(ctx.taskPrefs.taskArrays)))
      ensures this.oldVersion < 2 && SavedTasks(old(ctx.taskPrefs.taskArrays)) == [] ==>
        && legacyBackend == old(legacyBackend)
        && ctx.taskPrefs.taskArrays == old(ctx.taskPrefs.taskArrays) - {SAVED_TASKS}
      ensures this.oldVersion < 2 && SavedTasks(old(ctx.taskPrefs.taskArrays)) != [] ==>
        && legacyBackend.Some? && legacyBackend.value.sharedPreferences == ctx.taskPrefs
        && ctx.taskPrefs.taskArrays == old(ctx.taskPrefs.taskArrays)
      ensures this.oldVersion >= 2 ==>
        && tasksFromUpgrade == old(tasksFromUpgrade)
        && legacyBackend == old(legacyBackend)
        && ctx.taskPrefs.taskArrays == old(ctx.taskPrefs.taskArrays)
    {
      // From 1 to 2: move the tasks out of the legacy local store.
      if this.oldVersion < 2 {
        var created := SharedPreferenceStateManager.Create(ctx, newVersion);
        var legacy := created.value;
        legacy.SetDataSetChangedListener(MigrationListener);
        var delivery := legacy.LoadTasks();
        if delivery.Some? && delivery.value.to == MigrationListener {
          // The anonymous listener: keep the tasks in memory; the legacy copy
          // stays until the new backend has saved them.
          SetTasks(delivery.value.tasks);
          if delivery.value.tasks == [] {
            legacy.DeleteAllTasks();
          } else {
            legacyBackend := Some(legacy);
          }
        }
      }
      // From 2 to 3: no step is defined.
    }

    /**
     * `onUpgrade` as the source orders the 1 -> 2 step, once the legacy
     * backend delivers: the local copy is deleted as soon as the tasks are
     * in memory, before any backend has saved them.
     */
    method OnUpgradeEagerDelete(ctx: Context, newVersion: int, oldVersion: int)
      requires ctx.Valid()
      requires KEY_PREFS_DATA_SCHEMA_VERSION in ctx.versionPrefs.ints
      requires ctx.versionPrefs.ints[KEY_PREFS_DATA_SCHEMA_VERSION] == newVersion
      modifies this`tasksFromUpgrade, ctx.versionPrefs`ints, ctx.taskPrefs`taskArrays
      ensures ctx.versionPrefs.ints == old(ctx.versionPrefs.ints)
      ensures this.oldVersion < 2 ==>
        && tasksFromUpgrade == Some(SavedTasks(old(ctx.taskPrefs.taskArrays)))
        && ctx.taskPrefs.taskArrays == old(ctx.taskPrefs.taskArrays) - {SAVED_TASKS}
      ensures this.oldVersion >= 2 ==>
        && tasksFromUpgrade == old(tasksFromUpgrade)
        && ctx.taskPrefs.taskArrays == old(ctx.taskPrefs.taskArrays)
    {
      if this.oldVersion < 2 {
        var created := SharedPreferenceStateManager.Create(ctx, newVersion);
        var legacy := created.value;
        legacy.SetDataSetChangedListener(MigrationListener);
        var delivery := legacy.LoadTasks();
        if delivery.Some? && delivery.value.to == MigrationListener {
          SetTasks(delivery.value.tasks);
          legacy.DeleteAllTasks();
        }
      }
    }

    /**
     * `onUpgrade` as the source has it: the legacy backend delivers through
     * its own `listener` field, which nothing assigns, so the 1 -> 2 step
     * moves and deletes nothing.
     */
    method OnUpgradeAsWritten(ctx: Context, newVersion: int, oldVersion: int)
      requires ctx.Valid()
      requires KEY_PREFS_DATA_SCHEMA_VERSION in ctx.versionPrefs.ints
      requires ctx.versionPrefs.ints[KEY_PREFS_DATA_SCHEMA_VERSION] == newVersion
      modifies this`tasksFromUpgrade, ctx.versionPrefs`ints, ctx.taskPrefs`taskArrays
      ensures ctx.versionPrefs.ints == old(ctx.versionPrefs.ints)
      ensures tasksFromUpgrade == old(tasksFromUpgrade)
      ensures ctx.taskPrefs.taskArrays == old(ctx.taskPrefs.taskArrays)
    {
      if this.oldVersion < 2 {
        var created := SharedPreferenceStateManager.Create(ctx, newVersion);
        var legacy := created.value;
        legacy.SetDataSetChangedListener(MigrationListener);
        var delivery := legacy.LoadTasksAsWritten();
        // `listener` is still None here: the anonymous listener is never called,
        // so neither `setTasks` nor `deleteAllTasks` runs.
        assert delivery.None?;
      }
    }

    /** `setTasks`: hold the upgraded tasks until the first load. */
    method SetTasks(taskList: seq<Task>)
      modifies this`tasksFromUpgrade
      ensures tasksFromUpgrade == Some(taskList)
    {
      tasksFromUpgrade := Some(taskList);
    }

    /** `setDataSetChangedListener`: the new listener replaces any previous one. */
    method SetDataSetChangedListener(listener: Listener)
      modifies this`dataSetChangedListener
      ensures dataSetChangedListener == Some(listener)
    {
      dataSetChangedListener := Some(listener);
    }

    /**
     * `createDefaultEntries`: append the two seed tasks, both completed,
     * after whatever the list already holds.
     */
    method CreateDefaultEntries(taskList: seq<Task>) returns (r: seq<Task>)
      ensures |r| == |taskList| + 2 && r[..|taskList|] == taskList
      ensures r[|taskList|] == Task(START_LEARNING, true)
      ensures r[|taskList| + 1] == Task(KEEP_LEARNING, true)
    {
      var task := new TaskObject(START_LEARNING);
      task.SetCompleted(true);
      r := taskList + [task.Value()];
      task := new TaskObject(KEEP_LEARNING);
      task.SetCompleted(true);
      r := r + [task.Value()];
    }
  }

  /** The local backend: the whole list as one JSON string under `SAVED_TASKS`. */
  class SharedPreferenceStateManager {
    const base: BaseStateManager
    const sharedPreferences: Preferences
    /** Declared by this class besides the inherited `dataSetChangedListener`; nothing assigns it. */
    var listener: Option<Listener>

    constructor (base: BaseStateManager, sharedPreferences: Preferences)
      ensures this.base == base && this.sharedPreferences == sharedPreferences && listener == None
    {
      this.base := base;
      this.sharedPreferences := sharedPreferences;
      listener := None;
    }

    /**
     * `SharedPreferenceStateManager(context, version)`: the base constructor,
     * then the package's preferences file as the task store.
     */
    static method Create(ctx: Context, newVersion: int) returns (r: Result<SharedPreferenceStateManager, Error>)
      requires ctx.Valid()
      modifies ctx.versionPrefs`ints, ctx.taskPrefs`taskArrays
      decreases if StoredVersion(ctx.versionPrefs.ints) == newVersion then 0 else 1, 3
      ensures r.Failure? <==> newVersion < OldVersion(StoredVersion(old(ctx.versionPrefs.ints)), newVersion)
      ensures r.Failure? ==>
        && r.error == DowngradeNotAllowed(StoredVersion(old(ctx.versionPrefs.ints)), newVersion)
        && ctx.versionPrefs.ints == old(ctx.versionPrefs.ints)
        && ctx.taskPrefs.taskArrays == old(ctx.taskPrefs.taskArrays)
      ensures r.Success? ==>
        && fresh(r.value) && fresh(r.value.base)
        && r.value.sharedPreferences == ctx.taskPrefs && r.value.listener == None
        && ctx.versionPrefs.ints == old(ctx.versionPrefs.ints)[KEY_PREFS_DATA_SCHEMA_VERSION := newVersion]
        && Constructed(r.value.base, StoredVersion(old(ctx.versionPrefs.ints)), newVersion, ctx.taskPrefs,
                       old(ctx.taskPrefs.taskArrays))
        && ctx.taskPrefs.taskArrays
           == LegacyAfter(StoredVersion(old(ctx.versionPrefs.ints)), newVersion, old(ctx.taskPrefs.taskArrays))
    {
      var base := BaseStateManager.Create(ctx, newVersion);
      if base.Failure? {
        return Failure(base.error);
      }
      var m := new SharedPreferenceStateManager(base.value, ctx.taskPrefs);
      return Success(m);
    }

    /** `saveTasks`: the encoding of the whole list replaces the value under `SAVED_TASKS`. */
    method SaveTasks(taskList: seq<Task>)
      modifies sharedPreferences`taskArrays
      ensures sharedPreferences.taskArrays == old(sharedPreferences.taskArrays)[SAVED_TASKS := taskList]
    {
      sharedPreferences.taskArrays := sharedPreferences.taskArrays[SAVED_TASKS := taskList];
    }

    /**
     * `loadTasks`, delivering through the inherited listener: the saved array
     * in order, or the empty list when nothing (or an empty array) is saved.
     * No seed tasks here, and the store is only read.
     */
    method LoadTasks() returns (d: Option<Delivery>)
      ensures base.dataSetChangedListener.None? ==> d == None
      ensures base.dataSetChangedListener.Some? ==>
        d == Some(Delivery(base.dataSetChangedListener.value, SavedTasks(sharedPreferences.taskArrays)))
    {
      var taskList: seq<Task> := [];
      var savedTasks: Option<seq<Task>> := None;
      if SAVED_TASKS in sharedPreferences.taskArrays {
        savedTasks := Some(sharedPreferences.taskArrays[SAVED_TASKS]);
      }
      if savedTasks.Some? && |savedTasks.value| > 0 {
        taskList := taskList + savedTasks.value;
        assert taskList == savedTasks.value;
      }
      d := None;
      if base.dataSetChangedListener.Some? {
        d := Some(Delivery(base.dataSetChangedListener.value, taskList));
      }
    }

    /** `loadTasks` as the source has it: it delivers through this class's own `listener` field. */
    method LoadTasksAsWritten() returns (d: Option<Delivery>)
      ensures listener.None? ==> d == None
      ensures listener.Some? ==> d == Some(Delivery(listener.value, SavedTasks(sharedPreferences.taskArrays)))
    {
      var taskList: seq<Task> := [];
      var savedTasks: Option<seq<Task>> := None;
      if SAVED_TASKS in sharedPreferences.taskArrays {
        savedTasks := Some(sharedPreferences.taskArrays[SAVED_TASKS]);
      }
      if savedTasks.Some? && |savedTasks.value| > 0 {
        taskList := taskList + savedTasks.value;
        assert taskList == savedTasks.value;
      }
      d := None;
      if listener.Some? {
        d := Some(Delivery(listener.value, taskList));
      }
    }

    /** `deleteAllTasks`: remove the `SAVED_TASKS` entry. */
    method DeleteAllTasks()
      modifies sharedPreferences`taskArrays
      ensures sharedPreferences.taskArrays == old(sharedPreferences.taskArrays) - {SAVED_TASKS}
    {
      sharedPreferences.taskArrays := sharedPreferences.taskArrays - {SAVED_TASKS};
    }

    /** Inherited `setDataSetChangedListener`. */
    method SetDataSetChangedListener(listener: Listener)
      modifies base`dataSetChangedListener
      ensures base.dataSetChangedListener == Some(listener)
    {
      base.SetDataSetChangedListener(listener);
    }
  }
}

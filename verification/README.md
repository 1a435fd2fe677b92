# FireToDo task persistence, modelled in Dafny

FireToDo is an Android to-do list whose storage backend can be swapped. One
backend keeps tasks in the app's `SharedPreferences`. The other keeps them in a
Firebase realtime database node named after the installation. This project
models the persistence layer of the app and proves properties of it:

- `tasks.dfy` (module `Tasks`): the `Task` value (title and completion flag),
  Java's `equals`/`hashCode` on the mutable `Task` object, and `List.indexOf`.
- `stores.dfy` (module `Stores`): stand-ins for a `SharedPreferences` file, the
  application `Context` and the Firebase database.
- `listeners.dfy` (module `Listeners`): the two `DataSetChangedListener`s the
  program registers, and a delivery (one `onDataSetChanged` call).
- `state_managers.dfy` (module `StateManagers`): `BaseStateManager` and the local
  backend `SharedPreferenceStateManager`. The base class handles the schema
  version check, the upgrade steps and the two seed tasks.
- `firebase_state_manager.dfy` (module `Firebase`): the remote backend. Its
  `loadTasks` serves the tasks kept by an upgrade once. Otherwise it decodes a
  snapshot, keeping the children that decode to tasks, and seeds the defaults
  when none do.
- `task_manager.dfy` (module `TaskManagers`): the `TaskManager` singleton. It
  owns the in-memory list, records every call it makes on its state manager
  and notifies one observer.
- `task_recycler_adapter.dfy` (module `Adapter`): the adapter's list of
  incomplete tasks and its row count.
- `application.dfy` (module `Application`): application start, with and
  without an upgrade from schema 1, a restart after the upgrade, and the runs
  of the 1 -> 2 step that the findings below compare.

## How the model is built

- Java interfaces become closed choices here. A listener is a `Listener`
  value: the `TaskManager` or the migration step's anonymous listener.
- A load does not call its listener. It returns the call it would make, as an
  `Option<Delivery>`, and the caller passes that on.
- The `TaskManager` refers to its state manager by an id and logs each call it
  makes on it: register the listener, load, save.
- `Application.StartAfterUpgrade`, `Application.StartWithoutUpgrade`,
  `Application.RestartAfterMigration` and `Application.RestartAfterEagerMigration`
  carry out the logged registration and load against the remote backend.
- Java constructors that can throw are static `Create` methods that return a
  `Result`.
- The `SharedPreferences` entry under `"savedTasks"` holds a JSON string. The
  model keeps the task array it encodes instead.
- The code does not compile as shown in five places. The model follows the
  evident intent:
  - `SharedPreferenceStateManager` gets the `(context, version)` constructor
    that `BaseStateManager.java:96` calls.
  - The one constructor it declares, `SharedPreferenceStateManager(Application)`
    (`SharedPreferenceStateManager.java:24-26`), calls `super()` implicitly,
    but `BaseStateManager` declares only `(Context, int)`
    (`BaseStateManager.java:26`). The model's constructor is therefore handed
    the base state, which that Java constructor cannot build; `Create` builds
    it with the version check first.
  - `deleteAllTasks` removes the `"savedTasks"` key.
  - `FirebaseStateManager` is built with its three-argument constructor, not
    the no-argument call in `FireToDoApplication.java:12`.
  - `TaskRecyclerAdapter` is built by its three-argument constructor
    (`TaskRecyclerAdapter.java:25-30`) without the view callback, so it takes
    the task list and the hide flag. The two-argument call at
    `ToDoListActivity.java:178` passes the list and the callback, which is the
    case with the flag false.

On these points the model follows the code, where a reader of the app might
expect otherwise:

- The local backend does not seed default tasks when it is empty. It delivers
  the empty list.
- A second `init` keeps the state manager of the first one.
- Both seed tasks are completed.
- The upgrade steps test only the old version (`oldVersion < 2`,
  `oldVersion < 3`). They do not look at the range up to the new version.
- The `onUpgrade` Javadoc (`BaseStateManager.java:79-80`) promises not to lose
  the user's data during the transition. That needs the legacy copy to be
  deleted only once the new backend holds the tasks. The code deletes it as
  soon as the tasks are in memory, and the remote backend's `loadTasks` does
  not save them; only a later `addTask` or `updateTask` does.
  This is the second row under "## Findings"; the model uses the intended
  order, and keeps the source's order as `OnUpgradeEagerDelete` and
  `FirebaseStateManager.LoadTasksAsWritten`.

## Model

| member | source | states |
|---|---|---|
| `Tasks.ToInt32` | app/src/main/java/com/chscodecamp/android/firetodo/Task.java:50-52 | Java `int` arithmetic gives the one 32-bit signed value congruent to the exact result modulo 2^32 |
| `Tasks.StringHash` | app/src/main/java/com/chscodecamp/android/firetodo/Task.java:50 | `String.hashCode` (h := 31*h + c, wrapping) is a 32-bit value |
| `Tasks.TaskHash` | app/src/main/java/com/chscodecamp/android/firetodo/Task.java:49-53 | a task's hash is `31*hash(title) + (completed ? 1 : 0)` in 32-bit arithmetic, within the `int` range |
| `Tasks.HashSeparatesCompleted` | app/src/main/java/com/chscodecamp/android/firetodo/Task.java:51 | two tasks with the same title and different flags never have the same hash |
| `Tasks.IndexOf` | app/src/main/java/com/chscodecamp/android/firetodo/TaskManager.java:93 | `indexOf` is -1 exactly when no element equals the task; otherwise it is the first position holding an equal task |
| `Tasks.SetAtIndexOfKeepsList` | app/src/main/java/com/chscodecamp/android/firetodo/TaskManager.java:93 | writing a task back at the position `indexOf` finds leaves the list unchanged as values |
| `Tasks.TaskObject.constructor` | app/src/main/java/com/chscodecamp/android/firetodo/Task.java:14-16 | `new Task(title)` has that title and is not completed |
| `Tasks.TaskObject.SetTitle` | app/src/main/java/com/chscodecamp/android/firetodo/Task.java:23-25 | sets the title and leaves the flag alone |
| `Tasks.TaskObject.GetTitle` | app/src/main/java/com/chscodecamp/android/firetodo/Task.java:18-20 | the title of the task the object currently holds |
| `Tasks.TaskObject.SetCompleted` | app/src/main/java/com/chscodecamp/android/firetodo/Task.java:31-33 | sets the flag and leaves the title alone |
| `Tasks.TaskObject.GetCompleted` | app/src/main/java/com/chscodecamp/android/firetodo/Task.java:27-29 | the completion flag of the task the object currently holds |
| `Tasks.TaskObject.Equals` | app/src/main/java/com/chscodecamp/android/firetodo/Task.java:37-46 | an object equals itself; it never equals null or a non-`Task`; it equals another `Task` exactly when both hold the same (title, completed) pair, whatever their identity |
| `Tasks.TaskObject.HashCode` | app/src/main/java/com/chscodecamp/android/firetodo/Task.java:49-53 | the hash of the current fields, within the `int` range |
| `Tasks.EqualObjectsHashAlike` | app/src/main/java/com/chscodecamp/android/firetodo/Task.java:37-53 | equal objects have equal hashes, and that hash is the hash of their value |
| `Tasks.EqualsSymmetric` | app/src/main/java/com/chscodecamp/android/firetodo/Task.java:37-46 | equality is symmetric; objects that differ only in the flag are unequal |
| `StateManagers.StoredVersion` | app/src/main/java/com/chscodecamp/android/firetodo/BaseStateManager.java:45 | the version read from the preferences: the stored value whenever the key is present, and -1 when it is absent |
| `StateManagers.OldVersion` | app/src/main/java/com/chscodecamp/android/firetodo/BaseStateManager.java:45-53 | the version compared against is the stored one or, when none is stored (-1), the new one; so the new version is below it exactly when a version is stored and the new one is lower, and above it exactly when one is stored and the new one is higher |
| `StateManagers.SavedTasks` | app/src/main/java/com/chscodecamp/android/firetodo/SharedPreferenceStateManager.java:49-61 | what the local backend loads: the array under `"savedTasks"` when that key is present (an empty array loads as the empty list), and the empty list when it is absent |
| `StateManagers.LocalSaveThenLoad` | app/src/main/java/com/chscodecamp/android/firetodo/SharedPreferenceStateManager.java:35-61 | after saving a list, the local backend loads that same list in order, the empty list included |
| `StateManagers.LocalDeleteThenLoad` | app/src/main/java/com/chscodecamp/android/firetodo/BaseStateManager.java:110 | after the legacy copy is deleted, the local backend loads the empty list |
| `StateManagers.BaseStateManager.constructor` | app/src/main/java/com/chscodecamp/android/firetodo/BaseStateManager.java:22-24 | a fresh base state has no listener, no upgraded tasks and version field 0 |
| `StateManagers.BaseStateManager.Create` | app/src/main/java/com/chscodecamp/android/firetodo/BaseStateManager.java:26-30 | construction fails exactly on a downgrade, and then writes nothing. Otherwise the new version is stored, so the stored version never decreases. The 1 -> 2 step runs exactly when the new version is above the old one and the old one is below 2: the legacy tasks become `tasksFromUpgrade`; a non-empty legacy copy stays, held for deletion by the first load, and an empty one is deleted. Otherwise `tasksFromUpgrade` stays null and the task store is untouched (corrected; see Findings) |
| `StateManagers.UpgradeDecision` | app/src/main/java/com/chscodecamp/android/firetodo/BaseStateManager.java:39-76 | the decision `isUpgrade` returns, stated on the raw stored value: it fails with the stored and requested versions exactly when a version is stored and the requested one is lower; otherwise it is true exactly when a version is stored and the requested one is higher, so a first run is never an upgrade |
| `StateManagers.BaseStateManager.IsUpgrade` | app/src/main/java/com/chscodecamp/android/firetodo/BaseStateManager.java:39-76 | a missing stored version (-1) means the new version is taken as the old one. A lower requested version throws before the store is written. Otherwise the new version is stored; the result is `UpgradeDecision` of the stored value |
| `StateManagers.BaseStateManager.OnUpgrade` | app/src/main/java/com/chscodecamp/android/firetodo/BaseStateManager.java:86-127 | when the `oldVersion` field is below 2, the legacy tasks are kept in `tasksFromUpgrade`. A non-empty legacy copy is left in place and its backend remembered, so that it is deleted only after the new backend has saved the tasks; an empty one is deleted at once. Otherwise nothing changes, since the 2 -> 3 step is empty. The stored version is untouched (corrected; see Findings) |
| `StateManagers.BaseStateManager.OnUpgradeAsWritten` | app/src/main/java/com/chscodecamp/android/firetodo/BaseStateManager.java:86-127 | as written, the upgrade keeps nothing and deletes nothing, because the legacy backend never calls its listener |
| `StateManagers.BaseStateManager.OnUpgradeEagerDelete` | app/src/main/java/com/chscodecamp/android/firetodo/BaseStateManager.java:101-113 | the source's order once the legacy backend delivers: when the `oldVersion` field is below 2 the legacy tasks are kept in `tasksFromUpgrade` and the legacy key is deleted at once, before any backend has saved them |
| `StateManagers.BaseStateManager.SetTasks` | app/src/main/java/com/chscodecamp/android/firetodo/BaseStateManager.java:135-137 | the delivered legacy list becomes `tasksFromUpgrade` |
| `StateManagers.BaseStateManager.SetDataSetChangedListener` | app/src/main/java/com/chscodecamp/android/firetodo/BaseStateManager.java:146-148 | the new listener replaces any previous one |
| `StateManagers.BaseStateManager.CreateDefaultEntries` | app/src/main/java/com/chscodecamp/android/firetodo/BaseStateManager.java:156-163 | the list keeps its entries and gains exactly two more at the end: "Start Learning Android!" and "Keep Learning Android!", both completed |
| `StateManagers.SharedPreferenceStateManager.constructor` | app/src/main/java/com/chscodecamp/android/firetodo/SharedPreferenceStateManager.java:24-26 | the backend uses the given preferences file, and its own `listener` starts null |
| `StateManagers.SharedPreferenceStateManager.Create` | app/src/main/java/com/chscodecamp/android/firetodo/BaseStateManager.java:96 | the local backend built with a version runs the same version check and upgrade as its base, and stores its tasks in the package preferences |
| `StateManagers.SharedPreferenceStateManager.SaveTasks` | app/src/main/java/com/chscodecamp/android/firetodo/SharedPreferenceStateManager.java:35-37 | the whole list replaces the value under `"savedTasks"`; no other key changes |
| `StateManagers.SharedPreferenceStateManager.LoadTasks` | app/src/main/java/com/chscodecamp/android/firetodo/SharedPreferenceStateManager.java:43-70 | at most one delivery, and only when a listener is set. It delivers the saved array in order, or the empty list when the key is absent or the array is empty. No seed tasks are added, and the store is not modified |
| `StateManagers.SharedPreferenceStateManager.LoadTasksAsWritten` | app/src/main/java/com/chscodecamp/android/firetodo/SharedPreferenceStateManager.java:43-70 | as written, it delivers only through the class's own `listener` field, so with that field null nothing is delivered |
| `StateManagers.SharedPreferenceStateManager.DeleteAllTasks` | app/src/main/java/com/chscodecamp/android/firetodo/BaseStateManager.java:110 | removes the `"savedTasks"` entry and nothing else |
| `StateManagers.SharedPreferenceStateManager.SetDataSetChangedListener` | app/src/main/java/com/chscodecamp/android/firetodo/BaseStateManager.java:146-148 | sets the inherited listener |
| `Firebase.Children` | app/src/main/java/com/chscodecamp/android/firetodo/FirebaseStateManager.java:56 | `setValue(list)` stores one decodable child per task, in order |
| `Firebase.Decoded` | app/src/main/java/com/chscodecamp/android/firetodo/FirebaseStateManager.java:104-112 | the tasks decoded from a snapshot are never more than its children |
| `Firebase.DecodedAppend` | app/src/main/java/com/chscodecamp/android/firetodo/FirebaseStateManager.java:104-112 | decoding the children keeps their order (it distributes over concatenation) |
| `Firebase.DecodedMembers` | app/src/main/java/com/chscodecamp/android/firetodo/FirebaseStateManager.java:104-112 | a task is kept exactly when some child decodes to it |
| `Firebase.DecodedChildren` | app/src/main/java/com/chscodecamp/android/firetodo/FirebaseStateManager.java:55-112 | decoding what `saveTasks` wrote gives the saved list back |
| `Firebase.Loaded` | app/src/main/java/com/chscodecamp/android/firetodo/FirebaseStateManager.java:104-120 | a snapshot delivery is never empty: it is the decoded children whenever there are any, and exactly the two seed tasks otherwise (an absent node, or one whose children all fail to decode) |
| `Firebase.SaveThenLoad` | app/src/main/java/com/chscodecamp/android/firetodo/FirebaseStateManager.java:55-120 | after a save, a load gives back a non-empty list as saved; an empty list comes back as the two seed tasks |
| `Firebase.FirebaseStateManager.constructor` | app/src/main/java/com/chscodecamp/android/firetodo/FirebaseStateManager.java:25-47 | the backend refers to the node named by the installation id, with no single-value listener pending |
| `Firebase.FirebaseStateManager.Create` | app/src/main/java/com/chscodecamp/android/firetodo/FirebaseStateManager.java:25-47 | the base version check and upgrade run first, with the same outcomes as `BaseStateManager.Create`; the database is not touched (corrected; see Findings) |
| `Firebase.FirebaseStateManager.SaveTasks` | app/src/main/java/com/chscodecamp/android/firetodo/FirebaseStateManager.java:55-57 | the list replaces this installation's whole node; other nodes are unchanged |
| `Firebase.FirebaseStateManager.LoadTasks` | app/src/main/java/com/chscodecamp/android/firetodo/FirebaseStateManager.java:63-97 | non-empty upgraded tasks are first saved as this installation's node, then the remembered legacy copy is deleted, then they go to the listener, if one is set, and are cleared even when none is set; no read is made. Otherwise exactly one single-value listener is registered, nothing is written and nothing is delivered yet (corrected; see Findings) |
| `Firebase.FirebaseStateManager.LoadTasksAsWritten` | app/src/main/java/com/chscodecamp/android/firetodo/FirebaseStateManager.java:63-97 | as written: non-empty upgraded tasks go to the listener, if one is set, and are cleared, with no read and no write of the database. Otherwise exactly one single-value listener is registered and nothing is delivered yet |
| `Firebase.FirebaseStateManager.OnDataChange` | app/src/main/java/com/chscodecamp/android/firetodo/FirebaseStateManager.java:99-129 | consumes one registered listener and delivers, if a listener is set, the in-order decodable children, or the two seed tasks when there are none |
| `Firebase.FirebaseStateManager.OnCancelled` | app/src/main/java/com/chscodecamp/android/firetodo/FirebaseStateManager.java:132-134 | consumes the registered listener; nothing is delivered and no other state changes |
| `Firebase.FirebaseStateManager.SetDataSetChangedListener` | app/src/main/java/com/chscodecamp/android/firetodo/BaseStateManager.java:146-148 | sets the inherited listener |
| `TaskManagers.TaskManager.constructor` | app/src/main/java/com/chscodecamp/android/firetodo/TaskManager.java:21-24 | the new manager's first and only registration makes itself its state manager's data-set listener; the list starts empty and there is no observer |
| `TaskManagers.TaskManager.OnDataSetChanged` | app/src/main/java/com/chscodecamp/android/firetodo/TaskManager.java:59-65 | the delivered list replaces the whole in-memory list; the observer is notified exactly once when set, and not at all otherwise |
| `TaskManagers.TaskManager.GetTasks` | app/src/main/java/com/chscodecamp/android/firetodo/TaskManager.java:73-75 | returns the authoritative in-memory list |
| `TaskManagers.TaskManager.AddTask` | app/src/main/java/com/chscodecamp/android/firetodo/TaskManager.java:82-85 | the list becomes the old list plus the task, with no uniqueness check, and exactly one save of that full list is issued |
| `TaskManagers.TaskManager.UpdateTask` | app/src/main/java/com/chscodecamp/android/firetodo/TaskManager.java:92-95 | succeeds exactly when an equal task is present. The task is then written at the first equal position, so the list is unchanged as values, and one save is issued. Otherwise `set(-1, …)` throws, with no change and no save |
| `TaskManagers.TaskManager.SetTaskListStateListener` | app/src/main/java/com/chscodecamp/android/firetodo/TaskManager.java:102-104 | the new observer replaces any previous one |
| `TaskManagers.TaskManager.SaveTasks` | app/src/main/java/com/chscodecamp/android/firetodo/TaskManager.java:109-111 | one save call carrying the whole current list |
| `TaskManagers.TaskManagerRegistry.constructor` | app/src/main/java/com/chscodecamp/android/firetodo/TaskManager.java:16 | before any `init` there is no instance |
| `TaskManagers.TaskManagerRegistry.Init` | app/src/main/java/com/chscodecamp/android/firetodo/TaskManager.java:31-37 | the instance is created on the first call only, and a later call keeps its original state manager and observer. Every call empties the list and issues exactly one load on that state manager |
| `TaskManagers.TaskManagerRegistry.GetInstance` | app/src/main/java/com/chscodecamp/android/firetodo/TaskManager.java:45-50 | fails with "Call TaskManager.init() first." exactly when no instance exists, and otherwise returns it |
| `Adapter.Incomplete` | app/src/main/java/com/chscodecamp/android/firetodo/TaskRecyclerAdapter.java:69-77 | every task the filter keeps is incomplete |
| `Adapter.IncompleteAppend` | app/src/main/java/com/chscodecamp/android/firetodo/TaskRecyclerAdapter.java:69-77 | the incomplete-task filter keeps order (distributes over concatenation) |
| `Adapter.IncompleteMembers` | app/src/main/java/com/chscodecamp/android/firetodo/TaskRecyclerAdapter.java:69-77 | a task is listed as incomplete exactly when it is in the list and not completed |
| `Adapter.IncompleteLength` | app/src/main/java/com/chscodecamp/android/firetodo/TaskRecyclerAdapter.java:70-75 | there are never more incomplete tasks than tasks |
| `Adapter.IncompleteIdempotent` | app/src/main/java/com/chscodecamp/android/firetodo/TaskRecyclerAdapter.java:69-77 | filtering the filtered list changes nothing |
| `Adapter.TaskRecyclerAdapter.constructor` | app/src/main/java/com/chscodecamp/android/firetodo/TaskRecyclerAdapter.java:25-30 | the adapter starts with the given tasks and flag, and with `incompleteTasks` equal to the filter of the tasks |
| `Adapter.TaskRecyclerAdapter.GetItemCount` | app/src/main/java/com/chscodecamp/android/firetodo/TaskRecyclerAdapter.java:60-62 | the size of the filtered list when hiding completed tasks, and of all tasks otherwise; while the filtered list is current (`Valid`) that is the number of incomplete tasks, never more than all tasks |
| `Adapter.TaskRecyclerAdapter.TaskAt` | app/src/main/java/com/chscodecamp/android/firetodo/TaskRecyclerAdapter.java:41 | for a position below the row count, the row comes from the filtered list exactly when hiding is on; while the filtered list is current (`Valid`) it is one of the tasks and, when hiding, the incomplete task at that position of the filter |
| `Adapter.TaskRecyclerAdapter.SetHideCompletedTasks` | app/src/main/java/com/chscodecamp/android/firetodo/TaskRecyclerAdapter.java:64-67 | sets the flag and rebuilds the filtered list |
| `Adapter.TaskRecyclerAdapter.UpdateIncompleteTasks` | app/src/main/java/com/chscodecamp/android/firetodo/TaskRecyclerAdapter.java:69-77 | afterwards `incompleteTasks` is exactly the in-order filter of `allTasks` on "not completed", with nothing left over from before |
| `Application.StartAfterUpgrade` | app/src/main/java/com/chscodecamp/android/firetodo/FireToDoApplication.java:9-13 | starting with a stored schema 1 and non-empty legacy tasks: the `TaskManager`'s list becomes exactly the legacy tasks, without a read of the database. The tasks are saved as this installation's node, the legacy key is deleted, the new version is stored and the upgraded tasks are cleared (corrected; see Findings) |
| `Application.StartWithoutUpgrade` | app/src/main/java/com/chscodecamp/android/firetodo/FireToDoApplication.java:9-13 | starting with the current schema version stored: the `TaskManager`'s list is what the remote node delivers (its decoded children, or the seed tasks), nothing is migrated and neither store nor the database changes |
| `Application.RestartAfterMigration` | app/src/main/java/com/chscodecamp/android/firetodo/BaseStateManager.java:104-110 | a start after an upgrade from schema 1 followed by a second start, with no task added or updated in between: the second start shows exactly the legacy tasks and the legacy key is gone (corrected; see Findings) |
| `Application.RestartAfterEagerMigration` | app/src/main/java/com/chscodecamp/android/firetodo/BaseStateManager.java:104-110 | with the source's order, on a version-1 store holding one task: the first start shows the task, the legacy key is deleted, and the second start shows only the two seed tasks |
| `Application.LegacyMigrationAsWritten` | app/src/main/java/com/chscodecamp/android/firetodo/SharedPreferenceStateManager.java:67-69 | as written, on a version-1 store holding one task, the upgrade keeps nothing and the legacy copy stays |
| `Application.LegacyMigration` | app/src/main/java/com/chscodecamp/android/firetodo/BaseStateManager.java:101-113 | on the same store, delivering through the inherited listener keeps the task; the legacy copy stays until the new backend has saved it |

## Findings

| source | as written | input that shows it | evidently intended | confidence | as-written member | corrected member |
|---|---|---|---|---|---|---|
| app/src/main/java/com/chscodecamp/android/firetodo/SharedPreferenceStateManager.java:22 | `loadTasks` reads the class's own `listener` field instead of the inherited `dataSetChangedListener`, which `setDataSetChangedListener` assigns; nothing assigns `listener`. So `loadTasks` never delivers, and the 1 -> 2 upgrade step neither keeps nor deletes the legacy tasks | stored schema version 1, `"savedTasks"` = [("Buy milk", false)], backend built with version 2: `tasksFromUpgrade` stays null, the legacy entry stays, and the first load reads the (empty) remote node and shows the seed tasks instead (`Application.LegacyMigrationAsWritten`) | deliver through the inherited listener, so the legacy tasks move to the new backend and are then deleted (`Application.LegacyMigration`, `Application.StartAfterUpgrade`) | high; not executed | `StateManagers.SharedPreferenceStateManager.LoadTasksAsWritten` | `StateManagers.SharedPreferenceStateManager.LoadTasks` |
| app/src/main/java/com/chscodecamp/android/firetodo/BaseStateManager.java:104-110 | with the listener of the row above corrected, the 1 -> 2 step deletes the legacy key as soon as the tasks are in memory, and `loadTasks` (`FirebaseStateManager.java:69-83`) hands them to the listener once without saving them. Until the first `addTask` or `updateTask` saves the list, the tasks exist only in memory | stored schema version 1, `"savedTasks"` = [("Buy milk", false)], empty database, version 2: the first start shows the task; a second start before any edit finds the legacy key deleted and the node absent, and shows only the two seed tasks (`Application.RestartAfterEagerMigration`, over `OnUpgradeEagerDelete` and `FirebaseStateManager.LoadTasksAsWritten`) | the legacy copy is deleted only once the new backend holds the tasks: the first load saves them to the node, then deletes the legacy key; a second start then shows the legacy tasks (`Application.RestartAfterMigration`, over `BaseStateManager.OnUpgrade` and `FirebaseStateManager.LoadTasks`) | high; not executed | `Application.RestartAfterEagerMigration` | `Application.RestartAfterMigration` |

## Left out

- JSON encoding (Gson): a `SharedPreferences` string entry is represented by the task array it encodes. Malformed JSON, and the exception Gson would throw for it, are not modelled.
- The Firebase SDK: networking, offline persistence and the ordering of child keys are not modelled. A snapshot is passed to `OnDataChange` as the ordered children. `None` marks a child that does not decode to a `Task`.
- Asynchrony: a delivery is a synchronous call. The Firebase callbacks are methods that the environment calls once per registered listener.
- Logging (`Log.e` in `onCancelled`, `@DebugLog`) and annotations such as `@IntRange` and `@Size`: the last two are lint hints only. The `uniqueId` length is kept as a precondition.
- The text of the downgrade exception is an Android string resource that is not part of this model. The model reports it as `DowngradeNotAllowed(storedVersion, newVersion)`.
- Null titles: the no-argument `Task()` constructor, which leaves the title null for deserialisation, is left out. In the model every title is a string, so the `NullPointerException` that `equals`/`hashCode` raise on a null title cannot occur.
- `Tasks.StringHash`: hashes Dafny characters (Unicode scalar values), where Java hashes UTF-16 code units. Titles with characters outside the Basic Multilingual Plane therefore hash differently.
- Adapter.TaskRecyclerAdapter.GetItemCount and Adapter.TaskRecyclerAdapter.TaskAt: their filter-form promises (count of incomplete tasks, rows that are incomplete tasks of the list) hold only under `Valid()`, that is from a rebuild until the shared list next changes. In the app the `TaskManager` changes that list in place, and a checkbox flips a `Task` both lists hold, without a rebuild, so the filtered list can be stale and its count can exceed the list's size; the model's copy of the list cannot show this.
- Object aliasing: task lists hold values. The adapter flips `completed` in place on an object that is also in the `TaskManager`'s list, and that sharing is not captured; `UpdateTask` is stated over values. Likewise the adapter's `allTasks` is a copy of the list it was given, not an alias of the `TaskManager`'s list.
- The `TaskManager`'s state manager is known by an id, and its calls on it are logged. Only `Application.StartAfterUpgrade`, `Application.StartWithoutUpgrade`, `Application.RestartAfterMigration` and `Application.RestartAfterEagerMigration` run those calls against a real backend.
- `TaskRecyclerAdapter` view code (`onCreateViewHolder`, view binding, strike-through, `notify*`, the click callback) and the activities are left out. Only the row selection of `onBindViewHolder` is modelled, as `TaskAt`.
- The `TaskListStateManager`, `DataSetChangedListener` and `TaskListStateListener` interfaces have no model of their own, because there are no traits here. `Listener` and the call log stand in for them.
- Generation of the installation id: it is a parameter.

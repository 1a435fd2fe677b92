/**
 * Stand-ins for the two durable stores the state managers write to: Android
 * `SharedPreferences` files and the Firebase realtime database.
 */
module Stores {
  import opened Wrappers
  import opened Tasks

  /**
   * One `SharedPreferences` file. Integer entries are kept as they are; a
   * string entry holding the JSON encoding of a task array is kept as the
   * array it encodes.
   */
  class Preferences {
    var ints: map<string, int>
    var taskArrays: map<string, seq<Task>>

    constructor (ints: map<string, int>, taskArrays: map<string, seq<Task>>)
      ensures this.ints == ints && this.taskArrays == taskArrays
    {
      this.ints := ints;
      this.taskArrays := taskArrays;
    }
  }

  /**
   * What the application `Context` hands out: the preferences file holding
   * the schema version (named after the application class) and the file the
   * local backend keeps its tasks in (named after the package).
   */
  class Context {
    const versionPrefs: Preferences
    const taskPrefs: Preferences

    ghost predicate Valid()
      reads this
    {
      versionPrefs != taskPrefs
    }

    constructor (versionPrefs: Preferences, taskPrefs: Preferences)
      requires versionPrefs != taskPrefs
      ensures Valid() && this.versionPrefs == versionPrefs && this.taskPrefs == taskPrefs
    {
      this.versionPrefs := versionPrefs;
      this.taskPrefs := taskPrefs;
    }
  }

  /**
   * The Firebase database: a node per installation id whose ordered children
   * each may or may not decode to a `Task` (`None` stands for a child that
   * `getValue(Task.class)` turns into null).
   */
  class RemoteDatabase {
    var nodes: map<string, seq<Option<Task>>>

    constructor (nodes: map<string, seq<Option<Task>>>)
      ensures this.nodes == nodes
    {
      this.nodes := nodes;
    }
  }
}

/** The change-notification side of a state manager. */
module Listeners {
  import opened Tasks

  /**
   * The `DataSetChangedListener`s the program registers: the `TaskManager`
   * singleton, and the anonymous listener of the 1 -> 2 upgrade step.
   */
  datatype Listener = TaskManagerListener | MigrationListener

  /** One call `to.onDataSetChanged(tasks)`. */
  datatype Delivery = Delivery(to: Listener, tasks: seq<Task>)
}

/**
 * What the data collectors hand to the diagnosis agent. `collect_data` returns a Python
 * object of a collector-specific type; the values that occur are `None`, a string, and
 * the stack collector's dict from thread id to thread name and formatted frames.
 */
module DataCollector {

  /** The `{"name": ..., "frames": [...]}` entry the stack collector records per thread. */
  datatype ThreadStack = ThreadStack(name: string, frames: seq<string>)

  /** One `(thread_id, entry)` item of the stack dict, in the dict's iteration order. */
  type ThreadEntry = (int, ThreadStack)

  /** A value `collect_data` returns. */
  datatype Collected =
    | NoData                              // None
    | Text(text: string)                  // a str
    | Stacks(threads: seq<ThreadEntry>)   // a dict of thread stacks
  {
    /** `isinstance(data, str)`. */
    predicate IsStr() {
      Text?
    }

    /** `isinstance(data, dict)`. */
    predicate IsDict() {
      Stacks?
    }
  }
}

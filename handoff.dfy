/**
 * main.py's `work_q`, a `queue.Queue[Path]`: the only structure both the
 * watcher and the upload loop touch. It keeps its items in FIFO order and
 * the count of unfinished tasks that `task_done` decrements.
 */
module Handoff {
  import opened Wrappers
  import opened Paths

  class WorkQueue {
    var items: seq<FilePath>
    var unfinished: nat

    constructor ()
      ensures items == [] && unfinished == 0
    {
      items, unfinished := [], 0;
    }

    /** `on_file_detected(p)`: the detection callback only enqueues `p`; nothing else changes. */
    method Put(p: FilePath)
      modifies this
      ensures items == old(items) + [p]
      ensures unfinished == old(unfinished) + 1
    {
      items := items + [p];
      unfinished := unfinished + 1;
    }

    /**
     * `work_q.get(timeout=1.0)`: the oldest item, or `None` standing for the
     * `Empty` exception when the wait times out. The model is single-threaded,
     * so nothing can arrive during the wait.
     */
    method Get() returns (p: Option<FilePath>)
      modifies this
      ensures old(items) == [] ==> p == None && items == []
      ensures old(items) != [] ==> p == Some(old(items)[0]) && items == old(items)[1..]
      ensures unfinished == old(unfinished)
    {
      if items == [] {
        p := None;
      } else {
        p := Some(items[0]);
        items := items[1..];
      }
    }

    /** `work_q.task_done()`; `ok` is false where Python raises `ValueError` (more calls than puts). */
    method TaskDone() returns (ok: bool)
      modifies this
      ensures ok == (old(unfinished) > 0)
      ensures ok ==> unfinished == old(unfinished) - 1
      ensures !ok ==> unfinished == old(unfinished)
      ensures items == old(items)
    {
      ok := unfinished > 0;
      if ok {
        unfinished := unfinished - 1;
      }
    }
  }
}

/** The producer/consumer hand-off: Python's `queue.Queue`, unbounded and FIFO. */
module Channel {
  import opened Wrappers
  import opened Vectors

  class TargetQueue {
    var items: seq<Vec3>

    constructor ()
      ensures items == []
    {
      items := [];
    }

    /** `put(target)`: append at the back. */
    method Put(t: Vec3)
      modifies this
      ensures items == old(items) + [t]
    {
      items := items + [t];
    }

    /**
     * `get(timeout=1)`: the front target, or `None` for `queue.Empty` when
     * nothing is queued (no producer runs during the wait in this model).
     */
    method Get() returns (t: Option<Vec3>)
      modifies this
      ensures old(items) == [] ==> t == None && items == []
      ensures old(items) != [] ==> t == Some(old(items)[0]) && items == old(items)[1..]
    {
      if items == [] {
        t := None;
      } else {
        t := Some(items[0]);
        items := items[1..];
      }
    }
  }
}

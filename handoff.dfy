/** The bounded queue.Queue between the worker and the popup, reduced to the
    non-blocking calls the two use, run one after the other: empty(),
    get_nowait() (None stands for queue.Empty) and put_nowait() (which
    reports queue.Full instead of raising it). */
module Handoff {

  import opened Wrappers

  class BoundedQueue<T> {
    /** The pending items, oldest first. */
    var items: seq<T>
    const maxsize: nat

    ghost predicate Valid()
      reads this
    {
      0 < maxsize && |items| <= maxsize
    }

    constructor (maxsize: nat)
      requires 0 < maxsize
      ensures Valid() && this.maxsize == maxsize && items == []
    {
      this.maxsize := maxsize;
      items := [];
    }

    /** q.empty() */
    predicate Empty()
      reads this
    {
      items == []
    }

    /** q.get_nowait(): the oldest item, or None where Python raises queue.Empty. */
    method GetNowait() returns (r: Option<T>)
      requires Valid()
      modifies this
      ensures Valid()
      ensures old(items) == [] ==> r == None && items == []
      ensures old(items) != [] ==> r == Some(old(items)[0]) && items == old(items)[1..]
    {
      if items == [] {
        r := None;
      } else {
        r := Some(items[0]);
        items := items[1..];
      }
    }

    /** q.put_nowait(x): appends x, or reports full (queue.Full) and leaves the
        queue as it was. */
    method PutNowait(x: T) returns (full: bool)
      requires Valid()
      modifies this
      ensures Valid()
      ensures full <==> |old(items)| == maxsize
      ensures items == if full then old(items) else old(items) + [x]
    {
      full := |items| == maxsize;
      if !full {
        items := items + [x];
      }
    }
  }

  /** The item a drain of s leaves in hand: the last one, if any. */
  function LastOf<T>(s: seq<T>): (r: Option<T>)
    ensures r == None <==> s == []
    ensures r != None ==> r.value == s[|s| - 1] && r.value in s
  {
    if s == [] then None else Some(s[|s| - 1])
  }
}

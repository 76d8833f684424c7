/** Items held until there are enough of them or the oldest has waited long enough. */
module Batcher {
  import opened Wrappers

  /** The waiting items and when the first of them arrived. */
  datatype BatchState<T> = BatchState(items: seq<T>, oldestAt: Option<nat>) {
    /** A time is kept exactly while something waits, and the batch is never full. */
    predicate IsWaiting(maxSize: nat) {
      (oldestAt.None? <==> items == []) && |items| < maxSize
    }

    predicate IsDue(now: nat, maxWait: nat) {
      oldestAt.Some? && now - oldestAt.value >= maxWait
    }
  }

  class Batcher<T> {
    const maxSize: nat
    const maxWait: nat
    var items: seq<T>
    var oldestAt: Option<nat>

    constructor (maxSize: nat, maxWait: nat)
      requires maxSize >= 1
      ensures this.maxSize == maxSize && this.maxWait == maxWait && View() == BatchState([], None) && Valid()
    {
      this.maxSize, this.maxWait := maxSize, maxWait;
      items, oldestAt := [], None;
    }

    function View(): BatchState<T>
      reads this
    {
      BatchState(items, oldestAt)
    }

    predicate Valid()
      reads this
    {
      View().IsWaiting(maxSize)
    }

    /** Add one item; the batch comes back when this filled it. */
    method Add(item: T, now: nat) returns (full: Option<seq<T>>)
      requires Valid()
      modifies this
      ensures Valid()
      ensures full.Some? <==> |old(items)| + 1 == maxSize
      ensures full.Some? ==> full.value == old(items) + [item] && View() == BatchState([], None)
      ensures full.None? ==>
                View() == BatchState(old(items) + [item], if old(oldestAt).Some? then old(oldestAt) else Some(now))
    {
      if oldestAt.None? {
        oldestAt := Some(now);
      }
      items := items + [item];
      if |items| >= maxSize {
        var batch := Flush();
        return Some(batch);
      }
      full := None;
    }

    /** The batch when its oldest item has waited `maxWait`. */
    method FlushIfDue(now: nat) returns (due: Option<seq<T>>)
      requires Valid()
      modifies this
      ensures Valid()
      ensures due.Some? <==> old(View()).IsDue(now, maxWait)
      ensures due.Some? ==> due.value == old(items) && due.value != [] && View() == BatchState([], None)
      ensures due.None? ==> View() == old(View())
    {
      if oldestAt.None? {
        return None;
      }
      if now - oldestAt.value >= maxWait {
        var batch := Flush();
        return Some(batch);
      }
      due := None;
    }

    method Flush() returns (batch: seq<T>)
      modifies this
      ensures batch == old(items) && View() == BatchState([], None)
    {
      batch := items;
      items, oldestAt := [], None;
    }
  }
}

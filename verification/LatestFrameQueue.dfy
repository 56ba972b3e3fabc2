/** LatestFrameQueue (include/eggvision/latest_frame_queue.hpp): a queue of capacity one, as a value
    for the lease protocol and as the class itself. */
module LatestFrameQueues {
  import opened Basics

  datatype Latest<T> = Latest(value: Option<T>, closed: bool)

  function Pushed<T>(q: Latest<T>, v: T): Latest<T> {
    if q.closed then q else q.(value := Some(v))
  }

  function Taken<T>(q: Latest<T>): Latest<T> {
    q.(value := None)
  }

  function Closed<T>(): Latest<T> {
    Latest(None, true)
  }

  function Reopened<T>(): Latest<T> {
    Latest(None, false)
  }

  class LatestFrameQueue<T> {
    var slot: Option<T>
    var shut: bool

    ghost function View(): Latest<T>
      reads this
    {
      Latest(slot, shut)
    }

    /** A queue that is shut holds nothing, so no value crosses from one opening to the next. */
    ghost predicate Valid()
      reads this
    {
      shut ==> slot.None?
    }

    constructor ()
      ensures Valid() && View() == Reopened()
    {
      slot, shut := None, false;
    }

    method Push(v: T) returns (replaced: bool)
      requires Valid()
      modifies this
      ensures Valid() && View() == Pushed(old(View()), v)
      ensures shut == old(shut) && (if shut then slot.None? else slot == Some(v))
      ensures replaced <==> !shut && old(slot).Some?
    {
      if shut {
        return false;
      }
      replaced := slot.Some?;
      slot := Some(v);
    }

    /** What waitPop does once its wait ends: the queue is shut or holds a value. */
    method WaitPop() returns (got: Option<T>)
      requires Valid() && (shut || slot.Some?)
      modifies this
      ensures Valid() && View() == Taken(old(View()))
      ensures got == old(slot) && (got.None? <==> old(shut))
    {
      if slot.None? {
        return None;
      }
      got := slot;
      slot := None;
    }

    method Clear()
      requires Valid()
      modifies this
      ensures Valid() && View() == Taken(old(View()))
    {
      slot := None;
    }

    method Close()
      modifies this
      ensures Valid() && View() == Closed() && shut && slot.None?
    {
      shut := true;
      slot := None;
    }

    method Reopen()
      modifies this
      ensures Valid() && View() == Reopened() && !shut && slot.None?
    {
      slot := None;
      shut := false;
    }
  }
}

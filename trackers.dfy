/**
 * The trackers the handler drives (tip trackers on channels and tip spots,
 * volume trackers on containers and tips) live in modules outside this
 * model. Each is abstracted to the value it has committed and the value it
 * will hold once every queued operation is applied.
 */
module Trackers {

  datatype Tracker<T(==)> = Tracker(committed: T, pending: T) {

    /** No queued operation is outstanding. */
    predicate Settled() {
      pending == committed
    }

    /** Queue an operation whose effect leaves the tracker at `v`. */
    function Queue(v: T): (t: Tracker<T>)
      ensures t.committed == committed && t.pending == v
    {
      Tracker(committed, v)
    }

    /** `commit()` when `commit` holds, `rollback()` otherwise. */
    function Settle(commit: bool): (t: Tracker<T>)
      ensures t.Settled()
      ensures t.committed == if commit then pending else committed
    {
      if commit then Tracker(pending, pending) else Tracker(committed, committed)
    }
  }

  /** A tracker with nothing queued, holding `v`. */
  function Fresh<T(==)>(v: T): (t: Tracker<T>)
    ensures t.Settled() && t.committed == v
  {
    Tracker(v, v)
  }
}

/** The records that a multi-wait and an event are made of, and what each
    mutex-protected section does to them.  Both the event objects and the
    interleaved protocol are built from these sections. */
module Records {

  datatype Option<+T> = None | Some(value: T)

  /** The milliseconds argument: 0, a finite bound, or (uint64_t) -1. */
  datatype Limit = Zero | Finite | Infinite

  /** neosmart_wfmo_t_.  `status` is the union: FiredEvent when !waitAll,
      EventsLeft when waitAll.  `freed` stands for Destroy + delete and
      `notified` for a condition-variable signal not yet consumed. */
  datatype Wfmo = Wfmo(
    waitAll: bool, refCount: int, stillWaiting: bool, status: int,
    notified: bool, freed: bool)

  /** A wait as it is created, its mutex about to be taken. */
  function Open(count: nat, waitAll: bool): Wfmo {
    Wfmo(waitAll, 1, true, if waitAll then count else -1, false, false)
  }

  /** The wait is pushed on one more event's list. */
  function Enlist(r: Wfmo): Wfmo {
    r.(refCount := r.refCount + 1)
  }

  /** The registration loop found its k-th event signalled. */
  function Take(r: Wfmo, k: nat): Wfmo {
    r.(status := if r.waitAll then r.status - 1 else k)
  }

  /** A list entry of an expired wait is discarded; the last reference frees it. */
  function Discard(r: Wfmo): Wfmo {
    r.(refCount := r.refCount - 1, freed := r.freed || r.refCount == 1)
  }

  /** A setter gives its k-th event to a wait that is still waiting. */
  function Hand(r: Wfmo, k: nat): Wfmo {
    r.(refCount := r.refCount - 1,
       status := if r.waitAll then r.status - 1 else k,
       stillWaiting := r.waitAll)
  }

  /** pthread_cond_signal on the condition of a wait. */
  function Notify(r: Wfmo): Wfmo {
    r.(notified := true)
  }

  /** Both together. */
  function Grant(r: Wfmo, k: nat): Wfmo {
    Notify(Hand(r, k))
  }

  /** The waiting thread leaves; the last reference frees the record. */
  function Close(r: Wfmo): Wfmo {
    r.(stillWaiting := false, refCount := r.refCount - 1, freed := r.freed || r.refCount == 1)
  }

  /** The condition the waiting loop tests before it sleeps. */
  predicate Ready(r: Wfmo) {
    if r.waitAll then r.status == 0 else r.status != -1
  }
}

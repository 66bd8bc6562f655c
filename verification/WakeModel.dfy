/**
 Wake routing as a value: the ready queues, the deferred queue, the queue other threads
 push to, the notified bits that suppress duplicate wakes, and the interrupt of the OS poll.
 */
module WakeModel {
  /** The id under which the runtime polls its main future; never suppressed. */
  const BLOCK_ON: nat := 0xFFFF_FFFF_FFFF_FFFF

  datatype WakeSource = ByReactor | ByTask

  datatype Waker = Waker(task: nat, source: WakeSource, defer: bool)

  datatype Wakes = Wakes(
    reactorReady: seq<nat>,
    taskReady: seq<nat>,
    deferred: seq<nat>,
    cross: seq<nat>,
    notified: set<nat>,
    yielded: bool,
    interrupted: bool,
    signalled: bool)

  const QUIET: Wakes := Wakes([], [], [], [], {}, false, false, false)

  /** Whether a wake of `t` goes through: its bit is clear, or it has none. */
  predicate GoesThrough(w: Wakes, t: nat)
  {
    t == BLOCK_ON || t !in w.notified
  }

  function Notified(w: Wakes, t: nat): set<nat>
  {
    if t == BLOCK_ON then w.notified else w.notified + {t}
  }

  function PushedReactor(w: Wakes, t: nat): Wakes
  {
    if GoesThrough(w, t) then w.(notified := Notified(w, t), reactorReady := w.reactorReady + [t]) else w
  }

  function PushedTask(w: Wakes, t: nat): Wakes
  {
    if GoesThrough(w, t) then w.(notified := Notified(w, t), taskReady := w.taskReady + [t]) else w
  }

  function PushedDeferred(w: Wakes, t: nat): Wakes
  {
    w.(deferred := w.deferred + [t])
  }

  /** `defer_current`: the running task asks to be polled again. */
  function DeferredCurrent(w: Wakes, t: nat): Wakes
  {
    PushedDeferred(if t == BLOCK_ON then w.(yielded := true) else w, t)
  }

  /** `InterruptHandle::wake`: the OS is signalled only if the flag was clear. */
  function Interrupted(w: Wakes): Wakes
  {
    if w.interrupted then w else w.(interrupted := true, signalled := true)
  }

  function PushedCross(w: Wakes, t: nat): Wakes
  {
    Interrupted(w.(cross := w.cross + [t]))
  }

  /** `wake_impl`: the queue a wake goes to, by thread, defer flag and source. */
  function Woken(w: Wakes, k: Waker, onExecutor: bool): Wakes
  {
    if !onExecutor then PushedCross(w, k.task)
    else if k.defer then PushedDeferred(w, k.task)
    else if k.source == ByReactor then PushedReactor(w, k.task)
    else PushedTask(w, k.task)
  }

  function Cleared(w: Wakes, t: nat): Wakes
  {
    w.(notified := w.notified - {t})
  }

  function PushedAll(w: Wakes, ids: seq<nat>): Wakes
  {
    if ids == [] then w else PushedTask(PushedAll(w, ids[..|ids| - 1]), ids[|ids| - 1])
  }

  /** `drain_cross_thread`: foreign wakes become task wakes. */
  function CrossDrained(w: Wakes): Wakes
  {
    PushedAll(w, w.cross).(cross := [])
  }

  /** A wake that goes through puts its task in the ready queue of its source, and sets its bit. */
  lemma WakeReachesItsQueue(w: Wakes, k: Waker)
    requires GoesThrough(w, k.task) && !k.defer
    ensures
      var w' := Woken(w, k, true);
      && (if k.source == ByReactor then w'.reactorReady == w.reactorReady + [k.task] && w'.taskReady == w.taskReady
          else w'.taskReady == w.taskReady + [k.task] && w'.reactorReady == w.reactorReady)
      && w'.cross == w.cross && w'.deferred == w.deferred
      && (k.task != BLOCK_ON ==> k.task in w'.notified)
  {
  }

  // ---- no wake is lost ----

  /** A known task whose bit is set waits in a ready queue or in the local queue. */
  ghost predicate NoneLost(w: Wakes, queue: seq<nat>, known: set<nat>)
  {
    forall t :: t in w.notified && t in known ==> t in queue || t in w.reactorReady || t in w.taskReady
  }

  /** Where a wake of `t` can be found until `t` is polled. */
  predicate Waiting(w: Wakes, queue: seq<nat>, t: nat)
  {
    t in queue || t in w.reactorReady || t in w.taskReady
  }

  /** A wake on the executor's thread, suppressed or not, leaves its task waiting, or deferred if it says so. */
  lemma WakeLeavesWaiting(w: Wakes, queue: seq<nat>, known: set<nat>, k: Waker)
    requires NoneLost(w, queue, known) && k.task in known
    ensures if k.defer then k.task in Woken(w, k, true).deferred else Waiting(Woken(w, k, true), queue, k.task)
  {
  }

  lemma WokenKeeps(w: Wakes, queue: seq<nat>, known: set<nat>, k: Waker, onExecutor: bool)
    requires NoneLost(w, queue, known)
    ensures NoneLost(Woken(w, k, onExecutor), queue, known)
  {
  }

  lemma {:induction false} PushedAllKeeps(w: Wakes, queue: seq<nat>, known: set<nat>, ids: seq<nat>)
    requires NoneLost(w, queue, known)
    ensures
      var w' := PushedAll(w, ids);
      && NoneLost(w', queue, known)
      && w'.reactorReady == w.reactorReady && w'.deferred == w.deferred && w'.cross == w.cross
      && w'.yielded == w.yielded && w'.interrupted == w.interrupted && w'.signalled == w.signalled
      && w.taskReady <= w'.taskReady
      && (forall t :: t in ids && t in known ==> Waiting(w', queue, t))
  {
    if ids != [] {
      var m := |ids| - 1;
      PushedAllKeeps(w, queue, known, ids[..m]);
      assert ids == ids[..m] + [ids[m]];
    }
  }

  /** Draining the foreign queue loses nothing: each foreign wake now waits here. */
  lemma CrossDrainedKeeps(w: Wakes, queue: seq<nat>, known: set<nat>)
    requires NoneLost(w, queue, known)
    ensures NoneLost(CrossDrained(w), queue, known) && CrossDrained(w).cross == []
    ensures forall t :: t in w.cross && t in known ==> Waiting(CrossDrained(w), queue, t)
    ensures CrossDrained(w).reactorReady == w.reactorReady && w.taskReady <= CrossDrained(w).taskReady
    ensures CrossDrained(w).deferred == w.deferred && CrossDrained(w).yielded == w.yielded
    ensures CrossDrained(w).interrupted == w.interrupted && CrossDrained(w).signalled == w.signalled
  {
    PushedAllKeeps(w, queue, known, w.cross);
  }
}

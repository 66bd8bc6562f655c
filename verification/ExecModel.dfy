/**
 One tick of the executor as a function of its state, of what the environment does, and of
 the order in which the reactor's park fired its timers.
 */
module ExecModel {
  import opened Options
  import opened WakeModel
  import opened ReactorModel
  import opened ExecLog

  /** What another thread, or the OS poll, can do to the executor. */
  datatype Arrival = WakeBy(waker: Waker, onExecutor: bool) | Send(task: nat)

  /** What a future can do while it is polled. */
  datatype Effect =
    | Arrive(arrival: Arrival)
    | Defer(task: nat)
    | RegisterTimer(deadline: nat, waker: Waker)
    | DeregisterTimer(rid: nat)

  /**
   The environment's part in one logged event: a poll has `effects` and an outcome; a drain
   of reactor wakes has arrivals `before` it; a park has arrivals before and after it resets
   the interrupt, before and after timers fire, and a clock reading.
   */
  datatype Moment = Moment(
    effects: seq<Effect>,
    ready: bool,
    before: seq<Arrival>,
    early: seq<Arrival>,
    during: seq<Arrival>,
    late: seq<Arrival>,
    reading: nat)

  /** The environment, by log position. */
  type Env = nat -> Moment

  /** `channel` is what is left in the injection channel of everything ever `sent`. */
  datatype Exec = Exec(
    queue: seq<nat>,
    slab: set<nat>,
    ledger: set<nat>,
    channel: seq<nat>,
    sent: seq<nat>,
    log: Log,
    wakes: Wakes,
    timers: Reactive)

  const IDLE: Exec := Exec([], {}, {}, [], [], [], QUIET, INITIAL)

  function Logged(s: Exec, e: Event): Exec
  {
    s.(log := s.log + [e])
  }

  // ---- the environment's effects ----

  function Arrived(s: Exec, a: Arrival): Exec
  {
    match a
    case WakeBy(k, onExecutor) => s.(wakes := Woken(s.wakes, k, onExecutor))
    case Send(t) => s.(channel := s.channel + [t], sent := s.sent + [t], wakes := Interrupted(s.wakes))
  }

  /** Callers register deadlines ahead of the clock only, and cancel timers, not IO sources. */
  function Affected(s: Exec, e: Effect): Exec
  {
    match e
    case Arrive(a) => Arrived(s, a)
    case Defer(t) => s.(wakes := DeferredCurrent(s.wakes, t))
    case RegisterTimer(d, k) => if s.timers.now < d then s.(timers := Registered(s.timers, d, k)) else s
    case DeregisterTimer(r) =>
      if r in s.timers.slots && s.timers.slots[r].IoSlot? then s else s.(timers := Deregistered(s.timers, r))
  }

  function AllArrived(s: Exec, arrivals: seq<Arrival>): Exec
  {
    if arrivals == [] then s else Arrived(AllArrived(s, arrivals[..|arrivals| - 1]), arrivals[|arrivals| - 1])
  }

  function AllAffected(s: Exec, effects: seq<Effect>): Exec
  {
    if effects == [] then s else Affected(AllAffected(s, effects[..|effects| - 1]), effects[|effects| - 1])
  }

  // ---- drains ----

  /** `filter_and_enqueue`: only ids in the ledger are kept. */
  function Kept(ids: seq<nat>, ledger: set<nat>): (r: seq<nat>)
    ensures forall t :: t in r <==> t in ids && t in ledger
  {
    if ids == [] then []
    else
      var m := |ids| - 1;
      assert ids == ids[..m] + [ids[m]];
      Kept(ids[..m], ledger) + if ids[m] in ledger then [ids[m]] else []
  }

  function Enqueued(s: Exec, source: Source, ids: seq<nat>): Exec
  {
    s.(queue := s.queue + Kept(ids, s.ledger), log := s.log + [Drain(source, Kept(ids, s.ledger))])
  }

  function ReactorTaken(s: Exec): Exec
  {
    Enqueued(s.(wakes := s.wakes.(reactorReady := [])), ReactorWake, s.wakes.reactorReady)
  }

  /** What other threads did since the last event, then the drain of reactor wakes. */
  function ReactorDrained(env: Env, s: Exec): Exec
  {
    ReactorTaken(AllArrived(s, env(|s.log|).before))
  }

  function TaskDrained(s: Exec): Exec
  {
    var w := CrossDrained(s.wakes);
    Enqueued(s.(wakes := w.(taskReady := [])), TaskWake, w.taskReady)
  }

  function DeferredDrained(s: Exec): Exec
  {
    Enqueued(s.(wakes := s.wakes.(deferred := [])), Deferred, s.wakes.deferred)
  }

  // ---- injection ----

  /** What one pop of the channel accepts: nothing, if it is empty or its head was seen before. */
  function Accepts(s: Exec): Option<nat>
  {
    if s.channel == [] || s.channel[0] in s.ledger then None else Some(s.channel[0])
  }

  function Popped(s: Exec): Exec
  {
    Exec(s.queue, s.slab,
         if Accepts(s).Some? then s.ledger + {Accepts(s).value} else s.ledger,
         if s.channel == [] then [] else s.channel[1..], s.sent,
         s.log + [PopInjection(Accepts(s))], s.wakes, s.timers)
  }

  /** A popped task enters slab and queue. */
  function Admitted(s: Exec): Exec
  {
    if Accepts(s).Some?
    then Popped(s).(slab := s.slab + {Accepts(s).value}, queue := s.queue + [Accepts(s).value])
    else Popped(s)
  }

  /** `pop_injection`: pops until a pop accepts nothing. */
  function AllPopped(s: Exec): Exec
    decreases |s.channel|
  {
    if Accepts(s).Some? then AllPopped(Admitted(s)) else Popped(s)
  }

  // ---- choosing and polling ----

  /** The three paths of `next_task`: local queue, drains, one injection. */
  function Refilled(env: Env, s: Exec): Exec
  {
    if s.queue != [] then s
    else
      var d := TaskDrained(ReactorDrained(env, s));
      if d.queue != [] then d else Admitted(d)
  }

  /** `poll_task` of the queue's head. */
  function Polled(env: Env, s: Exec): Exec
    requires s.queue != []
  {
    var t, m := s.queue[0], env(|s.log|);
    var c := s.(queue := s.queue[1..], wakes := Cleared(s.wakes, t));
    if t in s.slab then
      var a := AllAffected(c.(slab := s.slab - {t}), m.effects);
      Logged(if m.ready then a else a.(slab := a.slab + {t}), PollTask(t, if m.ready then Ready else Pending))
    else Logged(c, PollTask(t, Invalid))
  }

  datatype Loop = Loop(s: Exec, count: nat)

  /** `poll_loop`: polls until the budget is used up or no task is left. */
  function PollLoop(env: Env, budget: nat, s: Exec, count: nat): Loop
    decreases budget - count
  {
    if count >= budget then Loop(s, count)
    else
      var r := Refilled(env, s);
      if r.queue == [] then Loop(r, count) else PollLoop(env, budget, Polled(env, r), count + 1)
  }

  // ---- parking ----

  /** The wakers of fired timers, called in order on the executor's thread. */
  function AllWoken(w: Wakes, woken: seq<Wake>): Wakes
  {
    if woken == [] then w else Woken(AllWoken(w, woken[..|woken| - 1]), woken[|woken| - 1].waker, true)
  }

  /** What other threads did before the park resets the interrupt flag. */
  function AtReset(env: Env, s: Exec): Exec
  {
    AllArrived(s, env(|s.log|).before)
  }

  /** The interrupt flag reset, and what arrived since. */
  function Listening(env: Env, s: Exec): Exec
  {
    var b := AtReset(env, s);
    AllArrived(b.(wakes := b.wakes.(interrupted := false)), env(|s.log|).early)
  }

  /** Before the OS poll: the interrupt is reset, then foreign wakes are drained. */
  function Prepared(env: Env, s: Exec): Exec
  {
    var a := Listening(env, s);
    a.(wakes := CrossDrained(a.wakes).(yielded := false))
  }

  /** Whether the park gives the OS poll a timeout to sleep for. */
  predicate RequiresTimeout(env: Env, s: Exec)
  {
    && !Listening(env, s).wakes.yielded && s.wakes.deferred == [] && s.wakes.reactorReady == []
    && CrossDrained(Listening(env, s).wakes).taskReady == [] && s.queue == []
  }

  /** What the OS poll wakes up to. */
  function Sleeping(env: Env, s: Exec): Exec
  {
    var p := Prepared(env, s);
    AllArrived(p.(timers := Flushed(p.timers)), env(|s.log|).during)
  }

  /** The OS poll took the interrupt's signal; timers are about to fire. */
  function AboutToFire(env: Env, s: Exec): Exec
  {
    var p := Sleeping(env, s);
    p.(wakes := p.wakes.(signalled := false))
  }

  function FireClock(env: Env, s: Exec): nat
  {
    Clock(AboutToFire(env, s).timers, env(|s.log|).reading)
  }

  function Fired(env: Env, s: Exec, woken: seq<Wake>): Exec
  {
    var f := AboutToFire(env, s);
    Logged(AllArrived(
      f.(timers := Expired(f.timers, FireClock(env, s)), wakes := AllWoken(f.wakes, woken)),
      env(|s.log|).late), Park)
  }

  /** `park`: fire what is due, then move every ready task to the local queue. */
  function ParkedOnce(env: Env, s: Exec, woken: seq<Wake>): Exec
  {
    TaskDrained(ReactorDrained(env, Fired(env, s, woken)))
  }

  // ---- ticks ----

  /** A tick up to the first poll loop. */
  function Opened(env: Env, s: Exec): Exec
  {
    AllPopped(DeferredDrained(Logged(AllAffected(s, env(|s.log|).effects), TickBegin)))
  }

  function FirstLoop(env: Env, budget: nat, s: Exec): Loop
  {
    PollLoop(env, budget, Opened(env, s), 0)
  }

  /** A tick up to and including its park. */
  function ThroughPark(env: Env, budget: nat, s: Exec, woken: seq<Wake>): Exec
  {
    ParkedOnce(env, FirstLoop(env, budget, s).s, woken)
  }

  function Tick(env: Env, budget: nat, s: Exec, woken: seq<Wake>): Exec
  {
    Logged(PollLoop(env, budget, ThroughPark(env, budget, s, woken), FirstLoop(env, budget, s).count).s, TickEnd)
  }

  /** The timers fired in this tick are exactly those due at its park. */
  ghost predicate FiresWhatIsDue(env: Env, budget: nat, s: Exec, woken: seq<Wake>)
  {
    var before := FirstLoop(env, budget, s).s;
    Enumerates(woken, AboutToFire(env, before).timers, FireClock(env, before))
  }

  /** The state after one tick for each entry of `fires`. */
  function Run(env: Env, budget: nat, s: Exec, fires: seq<seq<Wake>>): Exec
  {
    if fires == [] then s else Tick(env, budget, Run(env, budget, s, fires[..|fires| - 1]), fires[|fires| - 1])
  }
}

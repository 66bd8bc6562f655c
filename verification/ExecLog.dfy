/** The executor's event log, and what can be read off it. */
module ExecLog {
  import opened Options
  import opened Seqs

  datatype Source = ReactorWake | TaskWake | Deferred

  datatype Outcome = Ready | Pending | Invalid

  datatype Event =
    | TickBegin
    | TickEnd
    | PollTask(task: nat, outcome: Outcome)
    | PopInjection(popped: Option<nat>)
    | Drain(source: Source, ids: seq<nat>)
    | Park

  type Log = seq<Event>

  function RemoveFirst(s: seq<nat>, t: nat): seq<nat>
  {
    if s == [] then s else if s[0] == t then s[1..] else [s[0]] + RemoveFirst(s[1..], t)
  }

  function FifoStep(q: seq<nat>, e: Event): seq<nat>
  {
    match e
    case PopInjection(Some(t)) => q + [t]
    case Drain(_, ids) => q + ids
    case PollTask(t, _) => RemoveFirst(q, t)
    case _ => q
  }

  /** The queue replayed from the log: what entered and was not polled yet. */
  function Fifo(l: Log): seq<nat>
  {
    if l == [] then [] else FifoStep(Fifo(l[..|l| - 1]), l[|l| - 1])
  }

  /** The ids successfully popped from the channel, in order. */
  function Delivered(l: Log): seq<nat>
  {
    if l == [] then []
    else
      var e := l[|l| - 1];
      Delivered(l[..|l| - 1]) + if e.PopInjection? && e.popped.Some? then [e.popped.value] else []
  }

  function Injected(l: Log): set<nat>
  {
    set t | t in Delivered(l)
  }

  /** The tasks whose future returned Ready. */
  function Completed(l: Log): set<nat>
  {
    if l == [] then {}
    else
      var e := l[|l| - 1];
      Completed(l[..|l| - 1]) + if e.PollTask? && e.outcome == Ready then {e.task} else {}
  }

  /** A poll at this point of the log takes the replayed head, and is Invalid exactly for completed tasks. */
  predicate PollOk(before: Log, e: Event)
  {
    e.PollTask? ==>
      && Fifo(before) != [] && Fifo(before)[0] == e.task
      && e.task in Injected(before)
      && (e.outcome == Invalid <==> e.task in Completed(before))
  }

  predicate PollsOk(l: Log)
  {
    l != [] ==> PollsOk(l[..|l| - 1]) && PollOk(l[..|l| - 1], l[|l| - 1])
  }

  lemma Snoc(l: Log, e: Event)
    ensures Fifo(l + [e]) == FifoStep(Fifo(l), e)
    ensures Delivered(l + [e]) == Delivered(l) + if e.PopInjection? && e.popped.Some? then [e.popped.value] else []
    ensures Completed(l + [e]) == Completed(l) + if e.PollTask? && e.outcome == Ready then {e.task} else {}
    ensures PollsOk(l + [e]) <==> PollsOk(l) && PollOk(l, e)
  {
    assert (l + [e])[..|l|] == l;
  }

  /** Every poll of a good log is good at its own position. */
  lemma {:induction false} PollOkAt(l: Log, i: nat)
    requires PollsOk(l) && i < |l|
    ensures PollOk(l[..i], l[i])
  {
    var m := |l| - 1;
    if i < m {
      PollOkAt(l[..m], i);
      assert l[..m][..i] == l[..i];
    }
  }

  /** Removing the head's first occurrence removes the head. */
  lemma RemoveHead(t: nat, rest: seq<nat>)
    ensures RemoveFirst([t] + rest, t) == rest
  {
    assert ([t] + rest)[1..] == rest;
  }

  // ---- the executor's tables against its log ----

  /** Queue, slab and ledger are what the log says, and every poll so far was a good one. */
  ghost predicate Recorded(queue: seq<nat>, slab: set<nat>, ledger: set<nat>, l: Log)
  {
    && queue == Fifo(l)
    && ledger == Injected(l)
    && slab == Injected(l) - Completed(l)
    && (forall t :: t in queue ==> t in ledger)
    && PollsOk(l)
    && Distinct(Delivered(l))
  }

  lemma RecordMark(queue: seq<nat>, slab: set<nat>, ledger: set<nat>, l: Log, e: Event)
    requires Recorded(queue, slab, ledger, l)
    requires e.TickBegin? || e.TickEnd? || e.Park? || e == PopInjection(None)
    ensures Recorded(queue, slab, ledger, l + [e])
  {
    Snoc(l, e);
  }

  lemma RecordDrain(queue: seq<nat>, slab: set<nat>, ledger: set<nat>, l: Log, source: Source, ids: seq<nat>)
    requires Recorded(queue, slab, ledger, l) && forall t :: t in ids ==> t in ledger
    ensures Recorded(queue + ids, slab, ledger, l + [Drain(source, ids)])
  {
    Snoc(l, Drain(source, ids));
  }

  lemma {:induction false} CompletedInjected(l: Log)
    requires PollsOk(l)
    ensures Completed(l) <= Injected(l)
  {
    if l != [] {
      var m := |l| - 1;
      CompletedInjected(l[..m]);
      assert l == l[..m] + [l[m]];
      Snoc(l[..m], l[m]);
    }
  }

  lemma RecordPop(queue: seq<nat>, slab: set<nat>, ledger: set<nat>, l: Log, t: nat)
    requires Recorded(queue, slab, ledger, l) && t !in ledger
    ensures Recorded(queue + [t], slab + {t}, ledger + {t}, l + [PopInjection(Some(t))])
  {
    var e := PopInjection(Some(t));
    Snoc(l, e);
    CompletedInjected(l);
    assert Injected(l + [e]) == Injected(l) + {t};
    assert slab + {t} == Injected(l + [e]) - Completed(l + [e]);
  }

  /** The poll of the head: a task in the slab leaves it exactly when it is ready. */
  lemma RecordPoll(t: nat, rest: seq<nat>, slab: set<nat>, ledger: set<nat>, l: Log, outcome: Outcome)
    requires Recorded([t] + rest, slab, ledger, l)
    requires outcome == Invalid <==> t !in slab
    ensures Recorded(rest, if outcome == Ready then slab - {t} else slab, ledger, l + [PollTask(t, outcome)])
  {
    var e := PollTask(t, outcome);
    Snoc(l, e);
    RemoveHead(t, rest);
    assert t in [t] + rest;
    assert forall x :: x in rest ==> x in [t] + rest;
    assert Injected(l + [e]) == Injected(l);
  }
}

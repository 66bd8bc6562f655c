/** The executor thread's queues and notified bits, updated in place. */
module ThreadLocal {
  import opened WakeModel

  class Tls {
    var reactorReady: seq<nat>
    var taskReady: seq<nat>
    var deferred: seq<nat>
    var cross: seq<nat>
    var bits: seq<bool>
    var yielded: bool
    var interrupted: bool
    var signalled: bool

    ghost function State(): Wakes
      reads this
    {
      Wakes(reactorReady, taskReady, deferred, cross, Set(bits), yielded, interrupted, signalled)
    }

    constructor ()
      ensures State() == QUIET
    {
      reactorReady, taskReady, deferred, cross, bits := [], [], [], [], [];
      yielded, interrupted, signalled := false, false, false;
    }

    /** Sets the bit of `t`; false exactly when it was set already. The main future has none. */
    method SetNotified(t: nat) returns (result: bool)
      modifies this`bits
      ensures result <==> t == BLOCK_ON || t >= |old(bits)| || !old(bits)[t]
      ensures t != BLOCK_ON ==> t < |bits| && bits[t]
      ensures |bits| >= |old(bits)|
      ensures forall i :: 0 <= i < |bits| && i != t ==> bits[i] == (i < |old(bits)| && old(bits)[i])
      ensures result == GoesThrough(old(State()), t)
      ensures State() == old(State()).(notified := Notified(old(State()), t))
    {
      if t == BLOCK_ON {
        return true;
      }
      if t >= |bits| {
        GrownBits(bits, t + 1 - |bits|);
        bits := bits + seq(t + 1 - |bits|, _ => false);
      }
      if bits[t] {
        assert Set(bits) + {t} == Set(bits);
        return false;
      }
      SetBit(bits, t);
      bits := bits[t := true];
      result := true;
    }

    method ClearNotified(t: nat)
      modifies this`bits
      ensures |bits| == |old(bits)|
      ensures forall i :: 0 <= i < |bits| ==> bits[i] == (i != t && old(bits)[i])
      ensures State() == Cleared(old(State()), t)
    {
      if t < |bits| {
        bits := bits[t := false];
      }
      assert State().notified == old(State()).notified - {t};
    }

    method PushReactorReady(t: nat)
      modifies this
      ensures State() == PushedReactor(old(State()), t)
    {
      hide Set;
      var first := SetNotified(t);
      if first {
        reactorReady := reactorReady + [t];
      } else {
        SuppressedIsSet(old(State()), t);
      }
    }

    method PushTaskReady(t: nat)
      modifies this
      ensures State() == PushedTask(old(State()), t) && cross == old(cross)
    {
      hide Set;
      var first := SetNotified(t);
      if first {
        taskReady := taskReady + [t];
      } else {
        SuppressedIsSet(old(State()), t);
      }
    }

    method PushDeferred(t: nat)
      modifies this`deferred
      ensures State() == PushedDeferred(old(State()), t)
    {
      deferred := deferred + [t];
    }

    method DeferCurrent(t: nat)
      modifies this
      ensures State() == DeferredCurrent(old(State()), t)
    {
      hide Set;
      if t == BLOCK_ON {
        yielded := true;
      }
      PushDeferred(t);
    }

    /** Signals the OS poll, once until the flag is reset. */
    method Interrupt()
      modifies this`interrupted, this`signalled
      ensures State() == Interrupted(old(State()))
    {
      if !interrupted {
        interrupted := true;
        signalled := true;
      }
    }

    method PushCross(t: nat)
      modifies this
      ensures State() == PushedCross(old(State()), t)
    {
      cross := cross + [t];
      Interrupt();
    }

    method WakeImpl(waker: Waker, onExecutor: bool)
      modifies this
      ensures State() == Woken(old(State()), waker, onExecutor)
    {
      hide PushedReactor, PushedTask;
      if onExecutor {
        if waker.defer {
          PushDeferred(waker.task);
        } else {
          match waker.source
          case ByReactor => PushReactorReady(waker.task);
          case ByTask => PushTaskReady(waker.task);
        }
      } else {
        PushCross(waker.task);
      }
    }

    /** Pops foreign wakes one at a time and pushes each as a task wake. */
    method DrainCrossThread()
      modifies this
      ensures State() == CrossDrained(old(State()))
    {
      hide PushedTask, Set;
      ghost var w := old(State());
      ghost var n := 0;
      while |cross| > 0
        invariant n <= |w.cross| && cross == w.cross[n..]
        invariant State() == PushedAll(w, w.cross[..n]).(cross := cross)
        decreases |cross|
      {
        var t := cross[0];
        cross := cross[1..];
        PushTaskReady(t);
        assert w.cross[..n + 1][..n] == w.cross[..n];
        PushIgnoresCross(PushedAll(w, w.cross[..n]), w.cross[n..], t);
        PushIgnoresCross(PushedAll(w, w.cross[..n]), cross, t);
        n := n + 1;
      }
      assert w.cross[..n] == w.cross;
    }

    method TakeReactorReady() returns (ids: seq<nat>)
      modifies this`reactorReady
      ensures ids == old(reactorReady) && State() == old(State()).(reactorReady := [])
    {
      ids := reactorReady;
      reactorReady := [];
    }

    method TakeTaskReady() returns (ids: seq<nat>)
      modifies this`taskReady
      ensures ids == old(taskReady) && State() == old(State()).(taskReady := [])
    {
      ids := taskReady;
      taskReady := [];
    }

    method TakeDeferred() returns (ids: seq<nat>)
      modifies this`deferred
      ensures ids == old(deferred) && State() == old(State()).(deferred := [])
    {
      ids := deferred;
      deferred := [];
    }

    method TakeYielded() returns (was: bool)
      modifies this`yielded
      ensures was == old(yielded) && State() == old(State()).(yielded := false)
    {
      was := yielded;
      yielded := false;
    }

    method ResetInterrupt()
      modifies this`interrupted
      ensures State() == old(State()).(interrupted := false)
    {
      interrupted := false;
    }

    /** The OS poll returns and takes the signal with it. */
    method TakeSignal() returns (was: bool)
      modifies this`signalled
      ensures was == old(signalled) && State() == old(State()).(signalled := false)
    {
      was := signalled;
      signalled := false;
    }
  }

  /** The ids whose bit is set. */
  ghost function Set(bits: seq<bool>): set<nat>
  {
    set t: nat | t < |bits| && bits[t]
  }

  lemma GrownBits(bits: seq<bool>, n: nat)
    ensures Set(bits + seq(n, _ => false)) == Set(bits)
  {
  }

  lemma SetBit(bits: seq<bool>, t: nat)
    requires t < |bits|
    ensures Set(bits[t := true]) == Set(bits) + {t}
  {
  }

  lemma SuppressedIsSet(w: Wakes, t: nat)
    requires !GoesThrough(w, t)
    ensures Notified(w, t) == w.notified
  {
  }

  lemma PushIgnoresCross(w: Wakes, rest: seq<nat>, t: nat)
    ensures PushedTask(w.(cross := rest), t) == PushedTask(w, t).(cross := rest)
  {
  }
}

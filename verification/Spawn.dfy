/** Spawning: task ids from an atomic 64-bit counter, sent into the injection channel. */
module Spawning {
  import opened WakeModel
  import opened Seqs
  import opened ExecLog
  import opened ThreadLocal

  const WORD: nat := 0x1_0000_0000_0000_0000

  /** The ids of the first `n` spawns; `fetch_add` wraps around. */
  function SpawnIds(n: nat): (ids: seq<nat>)
    ensures |ids| == n && forall i :: 0 <= i < n ==> ids[i] == (1 + i) % WORD
  {
    seq(n, i requires 0 <= i < n => (1 + i) % WORD)
  }

  /** The handle tasks are spawned through; it shares the executor's interrupt. */
  class InnerHandle {
    const tls: Tls
    var counter: nat
    var sent: seq<nat>

    ghost predicate Valid()
      reads this
    {
      counter == (1 + |sent|) % WORD && sent == SpawnIds(|sent|)
    }

    constructor (tls: Tls)
      ensures Valid() && sent == [] && this.tls == tls
    {
      this.tls := tls;
      counter := 1;
      sent := [];
    }

    method Spawn() returns (id: nat)
      requires Valid()
      modifies this, tls
      ensures Valid() && sent == old(sent) + [id] && id == (1 + |old(sent)|) % WORD
      ensures tls.State() == Interrupted(old(tls.State()))
    {
      id := counter;
      counter := (counter + 1) % WORD;
      sent := sent + [id];
      tls.Interrupt();
    }
  }

  /** Spawn ids are distinct exactly until the counter has gone round once. */
  lemma SpawnIdsDistinct(n: nat)
    ensures Distinct(SpawnIds(n)) <==> n <= WORD
  {
    var ids := SpawnIds(n);
    if n > WORD {
      assert ids[0] == 1 && ids[WORD] == 1;
    }
  }

  /** The id the runtime keeps for its main future is first reached by spawn number 2^64 - 1. */
  lemma SpawnIdsAvoidMain(n: nat)
    ensures BLOCK_ON !in SpawnIds(n) <==> n < WORD - 1
  {
    var ids := SpawnIds(n);
    if n >= WORD - 1 {
      assert ids[WORD - 2] == BLOCK_ON;
    }
  }
}

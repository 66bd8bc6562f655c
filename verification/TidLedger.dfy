/** The bit-packed set of task ids that were ever injected. */
module TidLedgers {
  type Word = bv64

  function Digit(d: nat): (r: Word)
    requires d < 8
    ensures r < 8
  {
    if d == 0 then 0 else if d == 1 then 1 else if d == 2 then 2 else if d == 3 then 3
    else if d == 4 then 4 else if d == 5 then 5 else if d == 6 then 6 else 7
  }

  /**
   The number `b`, below 64, as a machine word, put together from two octal digits. The
   conversion `b as bv64` says the same, but its meaning to the solver is an equation between
   integers and 64-bit vectors; this one stays on either side of that border.
   */
  function Shift(b: nat): (r: Word)
    requires b < 64
    ensures r < 64
  {
    (Digit(b / 8) << 3) | Digit(b % 8)
  }

  lemma ShiftInjective(a: nat, b: nat)
    requires a < 64 && b < 64 && Shift(a) == Shift(b)
    ensures a == b
  {
    Packed(Digit(a / 8), Digit(a % 8), Digit(b / 8), Digit(b % 8));
  }

  lemma Packed(h: Word, l: Word, h': Word, l': Word)
    requires h < 8 && l < 8 && h' < 8 && l' < 8 && (h << 3) | l == (h' << 3) | l'
    ensures h == h' && l == l'
  {
  }

  function WithBit(w: Word, b: Word): Word
    requires b < 64
  {
    w | ((1 as bv64) << b)
  }

  predicate HasBit(w: Word, b: Word)
    requires b < 64
  {
    (w >> b) & 1 == 1
  }

  lemma BitSetSelf(w: Word, b: Word)
    requires b < 64
    ensures HasBit(WithBit(w, b), b)
  {
  }

  lemma BitSetOther(w: Word, b: Word, b2: Word)
    requires b < 64 && b2 < 64 && b != b2
    ensures HasBit(WithBit(w, b), b2) == HasBit(w, b2)
  {
  }

  lemma ZeroBit(b: Word)
    requires b < 64
    ensures !HasBit(0, b)
  {
  }

  /** Whether the words hold the bit of id `t`. */
  predicate Has(words: seq<Word>, t: nat)
  {
    t / 64 < |words| && HasBit(words[t / 64], Shift(t % 64))
  }

  class TidLedger {
    var words: seq<Word>

    /** The ids in the ledger. */
    ghost function View(): set<nat>
      reads this
    {
      set t: nat | 0 <= t < 64 * |words| && Has(words, t)
    }

    constructor ()
      ensures View() == {}
    {
      words := [];
    }

    method Contains(tid: nat) returns (result: bool)
      ensures result <==> tid in View()
    {
      if tid / 64 >= |words| {
        return false;
      }
      result := (words[tid / 64] >> Shift(tid % 64)) & 1 == 1;
    }

    method Mark(tid: nat)
      modifies this
      ensures View() == old(View()) + {tid}
    {
      hide HasBit, WithBit, Shift;
      var w, b := tid / 64, Shift(tid % 64);
      while |words| <= w
        invariant old(words) <= words
        invariant forall j :: |old(words)| <= j < |words| ==> words[j] == 0
        decreases w + 1 - |words|
      {
        words := words + [0];
      }
      ghost var before := words;
      words := words[w := WithBit(words[w], b)];
      forall t: nat
        ensures Has(words, t) <==> Has(old(words), t) || t == tid
      {
        MarkOne(old(words), before, tid, t);
      }
    }
  }

  /** Growing by zero words and setting one bit adds exactly one id. */
  lemma MarkOne(words: seq<Word>, grown: seq<Word>, tid: nat, t: nat)
    requires words <= grown && tid / 64 < |grown| && forall j :: |words| <= j < |grown| ==> grown[j] == 0
    ensures Has(grown[tid / 64 := WithBit(grown[tid / 64], Shift(tid % 64))], t) <==> Has(words, t) || t == tid
  {
    hide HasBit, WithBit, Shift;
    var b, b2 := Shift(tid % 64), Shift(t % 64);
    BitSetSelf(grown[tid / 64], b);
    if t / 64 == tid / 64 {
      if b2 == b {
        ShiftInjective(t % 64, tid % 64);
      } else {
        BitSetOther(grown[tid / 64], b, b2);
        ZeroBit(b2);
      }
    } else {
      ZeroBit(b2);
    }
  }
}

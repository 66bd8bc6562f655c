/** Facts about sequences of ids, shared by the wheel and the executor. */
module Seqs {
  ghost predicate Distinct(s: seq<nat>)
  {
    forall i, j :: 0 <= i < j < |s| ==> s[i] != s[j]
  }

  function Members(s: seq<nat>): set<nat>
  {
    set t | t in s
  }
}

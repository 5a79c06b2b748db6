/** Polling a register whose hardware bits are an arbitrary sequence of words, one per read. */
module Polling {

  /** The value a loop waits for: `reg & mask == want`. */
  predicate Shows(v: bv32, mask: bv32, want: bv32) {
    v & mask == want
  }

  /** The index of the last read made by a polling loop that starts with read `start`. */
  function PollEnd(reg: nat -> bv32, mask: bv32, want: bv32, start: nat, budget: nat): (e: nat)
    ensures start <= e <= start + budget
    ensures forall j | start <= j < e :: !Shows(reg(j), mask, want)
    ensures Shows(reg(e), mask, want) || e == start + budget
    decreases budget
  {
    if Shows(reg(start), mask, want) || budget == 0 then start
    else PollEnd(reg, mask, want, start + 1, budget - 1)
  }

  /** The end of a poll is the only index with its three properties. */
  lemma {:induction false} PollEndUnique(reg: nat -> bv32, mask: bv32, want: bv32, start: nat, budget: nat, e: nat)
    requires start <= e <= start + budget
    requires forall j | start <= j < e :: !Shows(reg(j), mask, want)
    requires Shows(reg(e), mask, want) || e == start + budget
    ensures PollEnd(reg, mask, want, start, budget) == e
    decreases budget
  {
    if start < e {
      PollEndUnique(reg, mask, want, start + 1, budget - 1, e);
    }
  }
}

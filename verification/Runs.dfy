/** Sequences of driver calls, and what is left of them in a register that each call may overwrite. */
module Runs {

  datatype Option<+T> = None | Some(value: T)

  /** The last call of `calls` that satisfies `hit`. */
  function Last<C>(calls: seq<C>, hit: C -> bool): (r: Option<C>)
    ensures r.None? ==> forall i | 0 <= i < |calls| :: !hit(calls[i])
    ensures r.Some? ==>
              exists i | 0 <= i < |calls| ::
                calls[i] == r.value && hit(calls[i]) && forall j | i < j < |calls| :: !hit(calls[j])
  {
    if |calls| == 0 then None
    else
      var c := calls[|calls| - 1];
      if hit(c) then Some(c) else Last(calls[..|calls| - 1], hit)
  }

  /**
   * If each call either writes `written(c)` to an observed value or leaves it alone, then a run of
   * any length ends with what the last writing call wrote, or with the initial value.
   */
  lemma {:induction false} LastWriterWins<S, C, V>(
    trace: seq<S>, calls: seq<C>, hit: C -> bool, written: C -> V, observe: S -> V)
    requires |trace| == |calls| + 1
    requires forall i | 0 <= i < |calls| ::
               observe(trace[i + 1]) == if hit(calls[i]) then written(calls[i]) else observe(trace[i])
    ensures observe(trace[|calls|]) ==
            match Last(calls, hit)
            case Some(c) => written(c)
            case None => observe(trace[0])
  {
    var n := |calls|;
    if n > 0 && !hit(calls[n - 1]) {
      assert observe(trace[n - 1 + 1]) == observe(trace[n - 1]);
      LastWriterWins(trace[..n], calls[..n - 1], hit, written, observe);
    } else if n > 0 {
      assert observe(trace[n - 1 + 1]) == written(calls[n - 1]);
    }
  }

  /** If the last call that satisfies `wide` also satisfies the narrower `hit`, it is the last of those too. */
  lemma {:induction false} LastOfNarrower<C(!new)>(calls: seq<C>, wide: C -> bool, hit: C -> bool)
    requires forall c :: hit(c) ==> wide(c)
    requires Last(calls, wide).Some? && hit(Last(calls, wide).value)
    ensures Last(calls, hit) == Last(calls, wide)
  {
    if !wide(calls[|calls| - 1]) {
      LastOfNarrower(calls[..|calls| - 1], wide, hit);
    }
  }
}

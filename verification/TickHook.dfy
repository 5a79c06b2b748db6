/**
 * The kernel's timer tick: `OSTimeTickHook` counts clock ticks in a 16-bit counter and signals the timer
 * task once per period.
 */
module TickHook {

  const COUNTER_WRAP: nat := 0x1_0000

  /** `OSTmrCtr`, and how often `OSTmrSignal` has been called since initialisation. */
  datatype State = State(ctr: nat, signals: nat)

  /** One tick for a period of `period` ticks; the increment wraps at sixteen bits before the comparison. */
  function Ticked(s: State, period: nat): State {
    var c := (s.ctr + 1) % COUNTER_WRAP;
    if c >= period then State(0, s.signals + 1) else State(c, s.signals)
  }

  /** The state `n` ticks after `OSInitHookBegin`. */
  function After(n: nat, period: nat): State {
    if n == 0 then State(0, 0) else Ticked(After(n - 1, period), period)
  }

  /** For every period the counter can count to, exactly one signal per period, and the remainder in the counter. */
  lemma {:induction false} SignalsOncePerPeriod(n: nat, period: nat)
    requires 1 <= period < 0x1_0000
    ensures After(n, period) == State(n % period, n / period)
  {
    if n > 0 {
      SignalsOncePerPeriod(n - 1, period);
      NextTick(n - 1, period);
    }
  }

  lemma NextTick(m: nat, period: nat)
    requires 1 <= period < 0x1_0000
    ensures Ticked(State(m % period, m / period), period) == State((m + 1) % period, (m + 1) / period)
  {
    NextQuotient(m, period);
  }

  lemma NextQuotient(m: nat, period: nat)
    requires period > 0
    ensures m % period + 1 < period ==> (m + 1) % period == m % period + 1 && (m + 1) / period == m / period
    ensures m % period + 1 >= period ==> (m + 1) % period == 0 && (m + 1) / period == m / period + 1
  {
    var q, r := m / period, m % period;
    assert m == q * period + r;
    if r + 1 < period {
      UniqueQuotient(m + 1, period, q, r + 1);
    } else {
      assert (q + 1) * period == q * period + period;
      UniqueQuotient(m + 1, period, q + 1, 0);
    }
  }

  lemma UniqueQuotient(m: nat, period: nat, q: nat, r: nat)
    requires r < period && m == q * period + r
    ensures m / period == q && m % period == r
  {
    var a: int, b: int := m / period, m % period;
    DividesOnce(a - q, period, r - b);
  }

  lemma DividesOnce(d: int, period: int, rest: int)
    requires 0 < period && d * period == rest && -period < rest < period
    ensures d == 0
  {
  }

  /** A period of zero signals on every tick. */
  lemma {:induction false} ZeroPeriod(n: nat)
    ensures After(n, 0) == State(0, n)
  {
    if n > 0 {
      ZeroPeriod(n - 1);
    }
  }

  /** A period beyond sixteen bits never signals: the counter wraps first. */
  lemma {:induction false} UnreachablePeriod(n: nat, period: nat)
    requires period >= 0x1_0000
    ensures After(n, period) == State(n % 0x1_0000, 0)
  {
    if n > 0 {
      UnreachablePeriod(n - 1, period);
      NextQuotient(n - 1, COUNTER_WRAP);
    }
  }

  /** The timer is served at its rate exactly for the periods the counter can hold. */
  lemma ServedExactly(period: nat)
    ensures (forall n: nat | period > 0 :: After(n, period).signals == n / period) <==> period < 0x1_0000
  {
    if 1 <= period < 0x1_0000 {
      forall n: nat
        ensures After(n, period).signals == n / period
      {
        SignalsOncePerPeriod(n, period);
      }
    } else if period >= COUNTER_WRAP {
      UnreachablePeriod(period, period);
      assert After(period, period).signals != period / period;
    }
  }

  class Kernel {
    /** `OSTmrCtr`, an unsigned 16-bit counter. */
    var ctr: nat
    /** The calls of `OSTmrSignal`, counted. */
    var signals: nat
    const period: nat
    /** Ticks since initialisation. */
    ghost var ticks: nat

    constructor (period: nat)
      ensures this.period == period && Valid() && ticks == 0
    {
      this.period := period;
      ctr, signals, ticks := 0, 0, 0;
    }

    ghost predicate Valid()
      reads this
    {
      State(ctr, signals) == After(ticks, period)
    }

    /** `OSInitHookBegin`. */
    method InitHookBegin()
      modifies this
      ensures Valid() && ticks == 0
    {
      ctr, signals, ticks := 0, 0, 0;
    }

    /** `OSTimeTickHook`. */
    method TimeTickHook()
      requires Valid()
      modifies this
      ensures Valid() && ticks == old(ticks) + 1
      ensures 1 <= period < 0x1_0000 ==> ctr == ticks % period && signals == ticks / period
    {
      ctr := (ctr + 1) % COUNTER_WRAP;
      if ctr >= period {
        ctr := 0;
        signals := signals + 1;
      }
      ticks := ticks + 1;
      if 1 <= period < COUNTER_WRAP {
        SignalsOncePerPeriod(ticks, period);
      }
    }
  }
}

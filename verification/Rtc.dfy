/**
 * The real-time clock's 32-bit counter, prescaler and alarm, each accessed as two 16-bit halves while the
 * counter may go on ticking.
 */
module Rtc {

  const HALF: nat := 0x1_0000
  const WRAP: nat := 0x1_0000_0000

  /** The counter `d` ticks later. */
  function Advanced(c: nat, d: nat): (r: nat)
    ensures r < WRAP
  {
    (c + d) % WRAP
  }

  /** A word whose upper half was read `d` ticks after its lower half. */
  function Torn(c: nat, d: nat): nat {
    Advanced(c, d) / HALF * HALF + c % HALF
  }

  /** A word that held `c`: its upper half is written, `d` ticks pass, its lower half is written. */
  function Mended(c: nat, d: nat, v: nat): nat {
    WithLow(Advanced(WithHigh(c, v / HALF), d), v % HALF)
  }

  function WithHigh(c: nat, half: nat): nat {
    half * HALF + c % HALF
  }

  function WithLow(c: nat, half: nat): nat {
    c / HALF * HALF + half
  }

  /** The carries out of the lower half during `d` ticks. */
  function Carries(c: nat, d: nat): nat {
    (c % HALF + d) / HALF
  }

  lemma Split(c: nat)
    ensures c == c / HALF * HALF + c % HALF
  {
  }

  lemma UpperOfSum(c: nat, d: nat)
    ensures (c + d) / HALF == c / HALF + Carries(c, d)
  {
    Split(c);
    assert c + d == c / HALF * HALF + (c % HALF + d);
  }

  /** Taking a word modulo 2^32 takes its upper half modulo 2^16. */
  lemma WrappedUpper(x: nat)
    ensures x % WRAP / HALF == x / HALF % HALF
  {
    Split(x);
    var h, l := x / HALF, x % HALF;
    var q, r := h / HALF, h % HALF;
    assert h == q * HALF + r;
    assert x == q * WRAP + (r * HALF + l);
    assert 0 <= r * HALF + l < WRAP;
    assert x % WRAP == r * HALF + l;
  }

  lemma LowKept(x: nat)
    ensures x % WRAP % HALF == x % HALF
  {
    assert x == x / WRAP * HALF * HALF + x % WRAP;
  }

  /** A whole number of half-words added to a word. */
  lemma HalvesOf(v: nat, k: nat)
    ensures Advanced(v, HALF * k) == (v / HALF + k) % HALF * HALF + v % HALF
  {
    var e := v + HALF * k;
    assert e / HALF == v / HALF + k && e % HALF == v % HALF;
    WrappedUpper(e);
    LowKept(e);
    Split(e % WRAP);
  }

  /** The value read: the first one, plus 2^16 for every carry between the two reads. */
  lemma TornValue(c: nat, d: nat)
    requires c < WRAP
    ensures Torn(c, d) == Advanced(c, HALF * Carries(c, d))
  {
    UpperOfSum(c, d);
    WrappedUpper(c + d);
    HalvesOf(c, Carries(c, d));
  }

  /** It is exact if and only if the number of carries is a multiple of 2^16. */
  lemma TornExact(c: nat, d: nat)
    requires c < WRAP
    ensures Torn(c, d) == c <==> Carries(c, d) % HALF == 0
  {
    UpperOfSum(c, d);
    WrappedUpper(c + d);
    Split(c);
    var h, k := c / HALF, Carries(c, d);
    assert h < HALF;
    assert Torn(c, d) == (h + k) % HALF * HALF + c % HALF;
    SameResidue(h, k);
  }

  lemma SameResidue(h: nat, k: nat)
    requires h < HALF
    ensures (h + k) % HALF == h <==> k % HALF == 0
  {
    var q, r := k / HALF, k % HALF;
    assert h + k == q * HALF + (h + r);
    if h + r < HALF {
      assert (h + k) % HALF == h + r;
    } else {
      assert h + k == (q + 1) * HALF + (h + r - HALF);
      assert (h + k) % HALF == h + r - HALF;
    }
  }

  /** One tick between the two reads of a counter at 0xFFFF gives a value 2^16 too large, never held by the counter. */
  lemma TornAtCarry()
    ensures Torn(0xFFFF, 1) == 0x1_FFFF && Advanced(0xFFFF, 1) == 0x1_0000
  {
  }

  /** With fewer than 2^16 ticks between the reads the result is off by 2^16 or not at all. */
  lemma ShortGap(c: nat, d: nat)
    requires c < WRAP && d < HALF
    ensures Torn(c, d) == if c % HALF + d < HALF then c else Advanced(c, HALF)
  {
    TornValue(c, d);
  }

  /** After a carry the result is a value that the counter did not hold at any moment between the two reads. */
  lemma HeldUnlessCarried(c: nat, d: nat)
    requires c < WRAP && d < HALF
    ensures (exists e: nat | e <= d :: Torn(c, d) == Advanced(c, e)) <==> c % HALF + d < HALF
  {
    ShortGap(c, d);
    if c % HALF + d < HALF {
      assert Torn(c, d) == Advanced(c, 0);
    } else {
      forall e: nat | e <= d
        ensures Torn(c, d) != Advanced(c, e)
      {
        if c + HALF < WRAP {
        } else if c + e < WRAP {
        }
      }
    }
  }

  /** A value written in two halves arrives with 2^16 added for every carry in between. */
  lemma MendedValue(c: nat, d: nat, v: nat)
    requires v < WRAP
    ensures Mended(c, d, v) == Advanced(v, HALF * Carries(c, d))
  {
    var u, k := WithHigh(c, v / HALF), Carries(c, d);
    assert u / HALF == v / HALF && u % HALF == c % HALF;
    UpperOfSum(u, d);
    WrappedUpper(u + d);
    HalvesOf(v, k);
  }

  /** So it arrives exactly if and only if the old lower half did not carry, or carried a multiple of 2^16 times. */
  lemma MendedExact(c: nat, d: nat, v: nat)
    requires v < WRAP
    ensures Mended(c, d, v) == v <==> Carries(c, d) % HALF == 0
  {
    MendedValue(c, d, v);
    HalvesOf(v, Carries(c, d));
    Split(v);
    SameResidue(v / HALF, Carries(c, d));
  }

  /** Setting zero over a counter that stands at 0xFFFF, with one tick in between, leaves 2^16. */
  lemma MendedAtCarry()
    ensures Mended(0xFFFF, 1, 0) == 0x1_0000
  {
  }

  /** Without ticks, what is set is what is read. */
  lemma SetThenGet(c: nat, v: nat)
    requires v < WRAP
    ensures Torn(Mended(c, 0, v), 0) == v
  {
    MendedValue(c, 0, v);
    TornValue(v, 0);
  }

  lemma WholeWord(c: nat, v: nat)
    ensures WithLow(WithHigh(c, v / HALF), v % HALF) == v
  {
  }

  lemma WholePrescaler(c: nat, v: nat)
    ensures WithLow(WithHigh(c, v / HALF % 0x10), v % HALF) == v % 0x10_0000
  {
  }

  // ---- The peripheral ----

  datatype Target = CounterHigh | CounterLow | PrescalerHigh | PrescalerLow | AlarmHigh | AlarmLow

  /** A write of a half-word to a protected register, and whether the configuration flag was set. */
  datatype Write = Write(target: Target, half: nat, configuring: bool)

  /** CNF is bit 4 of CRL. */
  predicate Configuring(crl: bv16) {
    0 < crl & 0x10
  }

  function Entered(crl: bv16): bv16 {
    crl | 0x10
  }

  function Exited(crl: bv16): bv16 {
    crl & 0xFFEF
  }

  lemma EnteredFlag(crl: bv16)
    ensures Configuring(Entered(crl))
  {
  }

  /** Leaving configuration mode clears CNF and undoes nothing else. */
  lemma ExitedFlag(crl: bv16)
    ensures !Configuring(Exited(crl)) && Exited(Entered(crl)) == Exited(crl)
    ensures OnlyCnf(crl, Exited(crl), false) && OnlyCnf(crl, Entered(crl), true)
  {
  }

  /** Bit 4 is as said, and the other fifteen bits are what they were. */
  predicate OnlyCnf(before: bv16, after: bv16, on: bool) {
    (0 < after & 0x10 <==> on) && after & 0xFFEF == before & 0xFFEF
  }

  class RealTimeClock {
    var crl: bv16
    var cnt: nat
    var prl: nat
    var alr: nat
    /** The ticks that pass before the n-th register access. */
    const ticks: nat -> nat
    var clock: nat
    /** Every write to a protected register. */
    ghost var log: seq<Write>

    ghost predicate Valid()
      reads this
    {
      cnt < WRAP && prl < 0x10_0000 && alr < WRAP
    }

    method Access()
      modifies this`cnt, this`clock
      ensures clock == old(clock) + 1 && cnt == Advanced(old(cnt), ticks(old(clock)))
    {
      cnt := Advanced(cnt, ticks(clock));
      clock := clock + 1;
    }

    /** One half-word write to a protected register: the only way to change one of them, and always logged. */
    method Store(target: Target, half: nat)
      modifies this`cnt, this`prl, this`alr, this`clock, this`log
      ensures clock == old(clock) + 1 && log == old(log) + [Write(target, half, Configuring(crl))]
      ensures var c := Advanced(old(cnt), ticks(old(clock)));
              cnt == if target.CounterHigh? then WithHigh(c, half)
                     else if target.CounterLow? then WithLow(c, half) else c
      ensures prl == if target.PrescalerHigh? then WithHigh(old(prl), half)
                     else if target.PrescalerLow? then WithLow(old(prl), half) else old(prl)
      ensures alr == if target.AlarmHigh? then WithHigh(old(alr), half)
                     else if target.AlarmLow? then WithLow(old(alr), half) else old(alr)
    {
      hide Advanced, WithHigh, WithLow, Configuring;
      Access();
      match target {
        case CounterHigh => cnt := WithHigh(cnt, half);
        case CounterLow => cnt := WithLow(cnt, half);
        case PrescalerHigh => prl := WithHigh(prl, half);
        case PrescalerLow => prl := WithLow(prl, half);
        case AlarmHigh => alr := WithHigh(alr, half);
        case AlarmLow => alr := WithLow(alr, half);
      }
      log := log + [Write(target, half, Configuring(crl))];
    }

    /** `RTC_EnterConfigMode`. */
    method EnterConfigMode()
      modifies this`crl, this`cnt, this`clock
      ensures crl == Entered(old(crl)) && OnlyCnf(old(crl), crl, true)
      ensures clock == old(clock) + 1 && cnt == Advanced(old(cnt), ticks(old(clock)))
    {
      Access();
      crl := Entered(crl);
    }

    /** `RTC_ExitConfigMode`. */
    method ExitConfigMode()
      modifies this`crl, this`cnt, this`clock
      ensures crl == Exited(old(crl)) && OnlyCnf(old(crl), crl, false)
      ensures clock == old(clock) + 1 && cnt == Advanced(old(cnt), ticks(old(clock)))
    {
      Access();
      crl := Exited(crl);
    }

    /** `RTC_GetCounter`: the lower half first. */
    method GetCounter() returns (r: nat)
      requires Valid()
      modifies this`cnt, this`clock
      ensures Valid() && clock == old(clock) + 2
      ensures r == Torn(Advanced(old(cnt), ticks(old(clock))), ticks(old(clock) + 1))
    {
      Access();
      var tmp := cnt % HALF;
      Access();
      r := cnt / HALF * HALF + tmp;
    }

    /**
     * `RTC_SetCounter`: both halves are written with CNF set, CNF is clear on return, and the counter holds
     * the value but for carries between the two writes and for the ticks before the last access.
     */
    method SetCounter(v: nat)
      requires Valid() && v < WRAP
      modifies this`crl, this`cnt, this`prl, this`alr, this`clock, this`log
      ensures Valid() && clock == old(clock) + 4 && prl == old(prl) && alr == old(alr)
      ensures var c := Advanced(Advanced(old(cnt), ticks(old(clock))), ticks(old(clock) + 1));
              cnt == Advanced(Mended(c, ticks(old(clock) + 2), v), ticks(old(clock) + 3))
      ensures log == old(log) + [Write(CounterHigh, v / HALF, true)] + [Write(CounterLow, v % HALF, true)]
      ensures OnlyCnf(old(crl), crl, false)
    {
      hide Advanced, WithHigh, WithLow, Configuring, Entered, Exited, OnlyCnf;
      EnteredFlag(crl);
      ExitedFlag(crl);
      EnterConfigMode();
      Store(CounterHigh, v / HALF);
      Store(CounterLow, v % HALF);
      ExitConfigMode();
    }

    /** `RTC_SetPrescaler`: the low twenty bits of the value. */
    method SetPrescaler(v: nat)
      requires Valid() && v < WRAP
      modifies this`crl, this`cnt, this`prl, this`alr, this`clock, this`log
      ensures Valid() && clock == old(clock) + 4 && prl == v % 0x10_0000 && alr == old(alr)
      ensures log == old(log) + [Write(PrescalerHigh, v / HALF % 0x10, true)] + [Write(PrescalerLow, v % HALF, true)]
      ensures OnlyCnf(old(crl), crl, false)
    {
      hide Advanced, WithHigh, WithLow, Configuring, Entered, Exited, OnlyCnf;
      EnteredFlag(crl);
      ExitedFlag(crl);
      WholePrescaler(prl, v);
      EnterConfigMode();
      Store(PrescalerHigh, v / HALF % 0x10);
      Store(PrescalerLow, v % HALF);
      ExitConfigMode();
    }

    /** `RTC_SetAlarm`. */
    method SetAlarm(v: nat)
      requires Valid() && v < WRAP
      modifies this`crl, this`cnt, this`prl, this`alr, this`clock, this`log
      ensures Valid() && clock == old(clock) + 4 && alr == v && prl == old(prl)
      ensures log == old(log) + [Write(AlarmHigh, v / HALF, true)] + [Write(AlarmLow, v % HALF, true)]
      ensures OnlyCnf(old(crl), crl, false)
    {
      hide Advanced, WithHigh, WithLow, Configuring, Entered, Exited, OnlyCnf;
      EnteredFlag(crl);
      ExitedFlag(crl);
      WholeWord(alr, v);
      EnterConfigMode();
      Store(AlarmHigh, v / HALF);
      Store(AlarmLow, v % HALF);
      ExitConfigMode();
    }
  }
}

/**
 * bxCAN mode handshakes: the driver changes MCR and polls MSR a bounded number of times. The hardware
 * is an arbitrary sequence of MSR values, one per read.
 */
module CanModes {
  import opened Bits
  import opened Polling

  /** Reads made by a polling loop before it gives up: the time-out counts 0xFFFF down to 0. */
  const TIMEOUT: nat := 0xFFFF

  /** The verdict comes from one more read, made after the loop. */
  predicate Acknowledged(msr: nat -> bv32, mask: bv32, want: bv32, start: nat) {
    Shows(msr(PollEnd(msr, mask, want, start, TIMEOUT) + 1), mask, want)
  }

  /**
   * For hardware that acknowledges at read `ack` and then stays so, the poll succeeds exactly when
   * that read is among the 65537 the driver may make.
   */
  lemma SteadyHardware(msr: nat -> bv32, mask: bv32, want: bv32, start: nat, ack: nat)
    requires start <= ack
    requires forall j | start <= j :: Shows(msr(j), mask, want) <==> ack <= j
    ensures Acknowledged(msr, mask, want, start) <==> ack < start + 65537
  {
    var e := if ack <= start + TIMEOUT then ack else start + TIMEOUT;
    PollEndUnique(msr, mask, want, start, TIMEOUT, e);
  }

  /** A loop that saw the acknowledgement, first at read `e`, still fails exactly if the next read does not show it. */
  lemma SeenThenJudged(msr: nat -> bv32, mask: bv32, want: bv32, start: nat, e: nat)
    requires start <= e <= start + TIMEOUT && Shows(msr(e), mask, want)
    requires forall j | start <= j < e :: !Shows(msr(j), mask, want)
    ensures Acknowledged(msr, mask, want, start) <==> Shows(msr(e + 1), mask, want)
  {
    PollEndUnique(msr, mask, want, start, TIMEOUT, e);
  }

  /** A loop that timed out still succeeds exactly when the read after it shows the acknowledgement. */
  lemma TimedOutThenJudged(msr: nat -> bv32, mask: bv32, want: bv32, start: nat)
    requires forall j | start <= j <= start + TIMEOUT :: !Shows(msr(j), mask, want)
    ensures Acknowledged(msr, mask, want, start) <==> Shows(msr(start + TIMEOUT + 1), mask, want)
  {
    PollEndUnique(msr, mask, want, start, TIMEOUT, start + TIMEOUT);
  }

  // ---- Operating modes ----

  const INITIALIZATION: bv8 := 0
  const NORMAL: bv8 := 1
  const SLEEP: bv8 := 2

  const FAILED: bv8 := 0
  const SUCCESS: bv8 := 1

  const MODE_MASK: bv32 := 3
  const INAK: bv32 := 1
  const SLAK: bv32 := 2
  const ZERO: bv32 := 0

  const INRQ: bv32 := 0
  const SLEEPRQ: bv32 := 1
  const TXFP: bv32 := 2
  const RFLM: bv32 := 3
  const NART: bv32 := 4
  const AWUM: bv32 := 5
  const ABOM: bv32 := 6
  const TTCM: bv32 := 7

  /** INRQ/SLEEP in MCR and INAK/SLAK in MSR for a mode. */
  function ModeBits(mode: bv8): bv32 {
    if mode == INITIALIZATION then 1 else if mode == NORMAL then 0 else 2
  }

  /** The request bits of MCR, and all its other bits. */
  function LowTwo(mcr: bv32): bv32 {
    mcr & 3
  }

  function HighThirty(mcr: bv32): bv32 {
    mcr & 0xFFFF_FFFC
  }

  /** MCR after the driver has requested `mode`. */
  function RequestMode(mcr: bv32, mode: bv8): bv32 {
    if mode == INITIALIZATION then (mcr & 0xFFFF_FFFD) | 1
    else if mode == NORMAL then mcr & 0xFFFF_FFFC
    else (mcr & 0xFFFF_FFFE) | 2
  }

  /**
   * Mode 0 is initialisation: INRQ (bit 0 of MCR) set, SLEEP (bit 1) clear, and INAK alone awaited in the two low
   * bits of MSR. Mode 1 is normal operation: neither. Mode 2 is sleep: SLEEP alone, and SLAK alone awaited.
   */
  predicate ModeRequested(mode: bv8, before: bv32, mcr: bv32, last: bv32, ok: bool) {
    && mcr & 0xFFFF_FFFC == before & 0xFFFF_FFFC
    && (mode == 0 ==> 0 < mcr & 1 && mcr & 2 <= 0 && (ok <==> 0 < last & 1 && last & 2 <= 0))
    && (mode == 1 ==> mcr & 1 <= 0 && mcr & 2 <= 0 && (ok <==> last & 1 <= 0 && last & 2 <= 0))
    && (mode == 2 ==> mcr & 1 <= 0 && 0 < mcr & 2 && (ok <==> last & 1 <= 0 && 0 < last & 2))
  }

  lemma RequestedBitsMean(mode: bv8, before: bv32, mcr: bv32, last: bv32)
    requires mode <= SLEEP && LowTwo(mcr) == ModeBits(mode) && HighThirty(mcr) == HighThirty(before)
    ensures ModeRequested(mode, before, mcr, last, Shows(last, MODE_MASK, ModeBits(mode)))
  {
  }

  lemma RequestModeBits(mcr: bv32, mode: bv8)
    ensures LowTwo(RequestMode(mcr, mode)) == ModeBits(mode)
    ensures HighThirty(RequestMode(mcr, mode)) == HighThirty(mcr)
  {
    hide LowTwo, HighThirty;
    RequestedWords(mcr);
  }

  lemma RequestedWords(mcr: bv32)
    ensures LowTwo((mcr & 0xFFFF_FFFD) | 1) == (1 as bv32) && LowTwo(mcr & 0xFFFF_FFFC) == (0 as bv32)
    ensures LowTwo((mcr & 0xFFFF_FFFE) | 2) == (2 as bv32)
    ensures HighThirty((mcr & 0xFFFF_FFFD) | 1) == HighThirty(mcr)
    ensures HighThirty(mcr & 0xFFFF_FFFC) == HighThirty(mcr)
    ensures HighThirty((mcr & 0xFFFF_FFFE) | 2) == HighThirty(mcr)
  {
  }

  lemma WokenMcr(mcr: bv32)
    ensures Clear(mcr, SLEEPRQ) == mcr & 0xFFFF_FFFD
  {
  }

  /** `CAN_InitTypeDef`. */
  datatype InitConfig = InitConfig(
    ttcm: bool, abom: bool, awum: bool, nart: bool, rflm: bool, txfp: bool,
    mode: bv8, sjw: bv8, bs1: bv8, bs2: bv8, prescaler: bv16)

  function BitTiming(c: InitConfig): bv32 {
    (c.mode as bv32 << 30) | (c.sjw as bv32 << 24) | (c.bs1 as bv32 << 16) | (c.bs2 as bv32 << 20)
    | (c.prescaler as bv32 - 1)
  }

  /** The five fields of BTR, as the hardware reads them. */
  datatype Timing = Timing(mode: bv32, sjw: bv32, bs1: bv32, bs2: bv32, prescaler: bv32)

  function DecodeTiming(btr: bv32): Timing {
    Timing(btr >> 30, (btr >> 24) & 3, (btr >> 16) & 0xF, (btr >> 20) & 7, (btr & 0x3FF) + 1)
  }

  function RequestedTiming(c: InitConfig): Timing {
    Timing(c.mode as bv32, c.sjw as bv32, c.bs1 as bv32, c.bs2 as bv32, c.prescaler as bv32)
  }

  predicate TimingInRange(c: InitConfig) {
    c.mode <= 3 && c.sjw <= 3 && c.bs1 <= 15 && c.bs2 <= 7 && 1 <= c.prescaler <= 1024
  }

  /** BTR decodes to the request exactly when the request is in the ranges the driver names. */
  lemma TimingRoundTrip(c: InitConfig)
    ensures DecodeTiming(BitTiming(c)) == RequestedTiming(c) <==> TimingInRange(c)
  {
  }

  // ---- The control registers ----

  /** Bit `n` of MCR when `c` has been applied to a register that held `before`. */
  predicate ConfiguredBit(before: bv32, c: InitConfig, n: bv32)
    requires n < 32
  {
    if n == 7 then c.ttcm
    else if n == 6 then c.abom
    else if n == 5 then c.awum
    else if n == 4 then c.nart
    else if n == 3 then c.rflm
    else if n == 2 then c.txfp
    else if n <= 1 then false
    else Has(before, n)
  }

  function ApplyOptions(mcr: bv32, c: InitConfig): bv32 {
    WithBit(WithBit(WithBit(WithBit(WithBit(WithBit(mcr, TTCM, c.ttcm), ABOM, c.abom), AWUM, c.awum),
                            NART, c.nart), RFLM, c.rflm), TXFP, c.txfp)
  }

  /** MCR once initialisation has been requested. */
  function Requested(mcr: bv32): bv32 {
    Set(Clear(mcr, SLEEPRQ), INRQ)
  }

  lemma RequestBits(mcr: bv32)
    ensures forall n: bv32 | n < 32 ::
              Has(Requested(mcr), n) == if n == INRQ then true else if n == SLEEPRQ then false else Has(mcr, n)
  {
    hide Set, Clear, Has;
    forall n: bv32 | n < 32
      ensures Has(Requested(mcr), n) == if n == INRQ then true else if n == SLEEPRQ then false else Has(mcr, n)
    {
      ClearHas(mcr, SLEEPRQ, n);
      SetHas(Clear(mcr, SLEEPRQ), INRQ, n);
    }
  }

  lemma OptionsHas(mcr: bv32, c: InitConfig, n: bv32)
    requires n < 32
    ensures Has(ApplyOptions(mcr, c), n) == if TXFP <= n <= TTCM then ConfiguredBit(mcr, c, n) else Has(mcr, n)
  {
    hide WithBit, Has;
    WithBitHas(mcr, TTCM, c.ttcm, n);
    var m1 := WithBit(mcr, TTCM, c.ttcm);
    WithBitHas(m1, ABOM, c.abom, n);
    var m2 := WithBit(m1, ABOM, c.abom);
    WithBitHas(m2, AWUM, c.awum, n);
    var m3 := WithBit(m2, AWUM, c.awum);
    WithBitHas(m3, NART, c.nart, n);
    var m4 := WithBit(m3, NART, c.nart);
    WithBitHas(m4, RFLM, c.rflm, n);
    WithBitHas(WithBit(m4, RFLM, c.rflm), TXFP, c.txfp, n);
  }

  /** MCR after requesting, setting the options and requesting to leave. */
  lemma OptionBits(mcr: bv32, c: InitConfig)
    ensures forall n: bv32 | n < 32 ::
              Has(Clear(ApplyOptions(Requested(mcr), c), INRQ), n) == ConfiguredBit(mcr, c, n)
  {
    hide Has, ApplyOptions, Clear, Requested;
    RequestBits(mcr);
    forall n: bv32 | n < 32
      ensures Has(Clear(ApplyOptions(Requested(mcr), c), INRQ), n) == ConfiguredBit(mcr, c, n)
    {
      ClearHas(ApplyOptions(Requested(mcr), c), INRQ, n);
      OptionsHas(Requested(mcr), c, n);
    }
  }

  /** The polling loop: one read per evaluation of its condition. Returns the index of its last read. */
  method Wait(msr: nat -> bv32, mask: bv32, want: bv32, start: nat) returns (last: nat)
    ensures last == PollEnd(msr, mask, want, start, TIMEOUT)
  {
    hide Shows;
    last := start;
    var timeout: nat := TIMEOUT;
    while !Shows(msr(last), mask, want) && timeout != 0
      invariant PollEnd(msr, mask, want, start, TIMEOUT) == PollEnd(msr, mask, want, last, timeout)
      decreases timeout
    {
      timeout := timeout - 1;
      last := last + 1;
    }
  }

  class CanControl {
    var mcr: bv32
    var btr: bv32
    const msr: nat -> bv32
    /** MSR reads made so far. */
    var polls: nat

    /** The polling loop, and the read after it that decides. */
    method Poll(mask: bv32, want: bv32) returns (acknowledged: bool)
      modifies this`polls
      ensures polls == PollEnd(msr, mask, want, old(polls), TIMEOUT) + 2
      ensures acknowledged == Acknowledged(msr, mask, want, old(polls))
    {
      var last := Wait(msr, mask, want, polls);
      acknowledged := Shows(msr(last + 1), mask, want);
      polls := last + 2;
    }

    /** `CAN_OperatingModeRequest`. */
    method OperatingModeRequest(mode: bv8) returns (status: bv8)
      modifies this`mcr, this`polls
      ensures mode <= SLEEP ==>
                && old(polls) < polls <= old(polls) + 65537
                && (status == 1) == Acknowledged(msr, MODE_MASK, ModeBits(mode), old(polls))
      ensures mode <= 2 ==> ModeRequested(mode, old(mcr), mcr, msr(polls - 1), status == 1)
      ensures mode > 2 ==> polls == old(polls) && mcr == old(mcr)
      ensures status == 1 || status == 0
      ensures mode > 2 ==> status == 0
    {
      hide Shows, ModeBits, RequestMode, PollEnd, ModeRequested, LowTwo, HighThirty;
      status := FAILED;
      if mode > SLEEP {
        return;
      }
      RequestModeBits(mcr, mode);
      mcr := RequestMode(mcr, mode);
      var acknowledged := Poll(MODE_MASK, ModeBits(mode));
      RequestedBitsMean(mode, old(mcr), mcr, msr(polls - 1));
      if acknowledged {
        status := SUCCESS;
      }
    }

    /** `CAN_WakeUp`. */
    method WakeUp() returns (status: bv8)
      modifies this`mcr, this`polls
      ensures old(polls) < polls <= old(polls) + 65537
      ensures (status == 1) == Acknowledged(msr, 2, 0, old(polls))
      ensures status == 1 || status == 0
      ensures mcr == old(mcr) & 0xFFFF_FFFD
    {
      hide Shows, PollEnd, Clear;
      WokenMcr(mcr);
      status := FAILED;
      mcr := Clear(mcr, SLEEPRQ);
      var acknowledged := Poll(SLAK, ZERO);
      if acknowledged {
        status := SUCCESS;
      }
    }

    /** `CAN_Init`. */
    method Init(c: InitConfig) returns (status: bv8)
      modifies this
      ensures status == 1 || status == 0
      ensures old(polls) < polls <= old(polls) + 131074
      // Initialisation never acknowledged: only the two request bits have changed.
      ensures !Acknowledged(msr, 1, 1, old(polls)) ==>
                && status == 0 && btr == old(btr)
                && forall n: bv32 | n < 32 ::
                  Has(mcr, n) == if n == 0 then true else if n == 1 then false else Has(old(mcr), n)
      // Otherwise the options and the bit timing are the request, whatever the verdict on leaving.
      ensures Acknowledged(msr, 1, 1, old(polls)) ==>
                && btr == BitTiming(c)
                && (forall n: bv32 | n < 32 :: Has(mcr, n) == ConfiguredBit(old(mcr), c, n))
                && (status == 1) ==
                   Acknowledged(msr, 1, 0, PollEnd(msr, 1, 1, old(polls), TIMEOUT) + 2)
    {
      hide Shows, PollEnd, Set, Clear, Acknowledged, ApplyOptions, ConfiguredBit, BitTiming, Has;
      status := FAILED;
      // Exit from sleep mode, and request initialisation.
      mcr := Clear(mcr, SLEEPRQ);
      mcr := Set(mcr, INRQ);
      assert mcr == Requested(old(mcr));
      RequestBits(old(mcr));
      OptionBits(old(mcr), c);
      var acknowledged := Poll(INAK, INAK);
      if acknowledged {
        SetOptions(c);
        btr := BitTiming(c);
        // Request leaving initialisation.
        mcr := Clear(mcr, INRQ);
        acknowledged := Poll(INAK, ZERO);
        if !acknowledged {
          status := FAILED;
        } else {
          status := SUCCESS;
        }
      }
    }

    /** The six option bits, each set or cleared by its own read-modify-write. */
    method SetOptions(c: InitConfig)
      modifies this`mcr
      ensures mcr == ApplyOptions(old(mcr), c)
    {
      mcr := WithBit(mcr, TTCM, c.ttcm);
      mcr := WithBit(mcr, ABOM, c.abom);
      mcr := WithBit(mcr, AWUM, c.awum);
      mcr := WithBit(mcr, NART, c.nart);
      mcr := WithBit(mcr, RFLM, c.rflm);
      mcr := WithBit(mcr, TXFP, c.txfp);
    }
  }
}

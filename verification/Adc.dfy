/**
 * The ADC sequencer: sixteen regular ranks, eighteen sample times and up to four injected ranks, packed
 * over six registers by read-modify-write.
 */
module Adc {
  import opened Bits
  import opened Runs

  datatype Channel = Channel(number: bv32)
  datatype SampleTime = SampleTime(code: bv32)
  datatype Length = Length(field: bv32)

  datatype Regs = Regs(
    cr1: bv32, cr2: bv32, smpr1: bv32, smpr2: bv32, sqr1: bv32, sqr2: bv32, sqr3: bv32, jsqr: bv32)

  // ---- What the registers mean ----

  /** The channel programmed for a regular rank. */
  function Regular(s: Regs, rank: bv32): Channel
    requires 1 <= rank <= 16
  {
    if rank < 7 then Channel(Five(s.sqr3, rank - 1))
    else if rank < 13 then Channel(Five(s.sqr2, rank - 7))
    else Channel(Five(s.sqr1, rank - 13))
  }

  /** The sample time of a channel, shared by the regular and the injected group. */
  function Sample(s: Regs, ch: bv32): SampleTime
    requires ch < 18
  {
    if ch > 9 then SampleTime(Three(s.smpr1, ch - 10)) else SampleTime(Three(s.smpr2, ch))
  }

  /** The L field of SQR1: the regular sequence length minus one. */
  function RegularLength(s: Regs): Length {
    Length((s.sqr1 >> 20) & 0xF)
  }

  // ---- The register updates ----

  /** The part of both channel functions that sets the sample time. */
  function WithSample(s: Regs, ch: bv32, time: bv32): Regs
    requires ch < 18
  {
    if ch > 9 then s.(smpr1 := PutThree(s.smpr1, ch - 10, time))
    else s.(smpr2 := PutThree(s.smpr2, ch, time))
  }

  /** The part of `ADC_RegularChannelConfig` that sets the rank. */
  function WithRank(s: Regs, ch: bv32, rank: bv32): Regs
    requires 1 <= rank <= 16
  {
    if rank < 7 then s.(sqr3 := PutFive(s.sqr3, rank - 1, ch))
    else if rank < 13 then s.(sqr2 := PutFive(s.sqr2, rank - 7, ch))
    else s.(sqr1 := PutFive(s.sqr1, rank - 13, ch))
  }

  lemma SampleSet(s: Regs, ch: bv32, time: bv32, c: bv32)
    requires ch < 18 && c < 18 && time <= 7
    ensures Sample(WithSample(s, ch, time), c) == if c == ch then SampleTime(time) else Sample(s, c)
  {
    hide Three, PutThree;
    if c == ch {
      if ch > 9 {
        ThreePut(s.smpr1, ch - 10, time);
      } else {
        ThreePut(s.smpr2, ch, time);
      }
    } else if c > 9 && ch > 9 {
      ThreeKept(s.smpr1, ch - 10, time, c - 10);
    } else if c <= 9 && ch <= 9 {
      ThreeKept(s.smpr2, ch, time, c);
    }
  }

  lemma RankSet(s: Regs, ch: bv32, rank: bv32, r: bv32)
    requires 1 <= rank <= 16 && 1 <= r <= 16 && ch < 18
    ensures Regular(WithRank(s, ch, rank), r) == if r == rank then Channel(ch) else Regular(s, r)
  {
    hide Five, PutFive;
    if r == rank {
      if rank < 7 {
        FivePut(s.sqr3, rank - 1, ch);
      } else if rank < 13 {
        FivePut(s.sqr2, rank - 7, ch);
      } else {
        FivePut(s.sqr1, rank - 13, ch);
      }
    } else if r < 7 && rank < 7 {
      FiveKept(s.sqr3, rank - 1, ch, r - 1);
    } else if 7 <= r < 13 && 7 <= rank < 13 {
      FiveKept(s.sqr2, rank - 7, ch, r - 7);
    } else if 13 <= r && 13 <= rank {
      FiveKept(s.sqr1, rank - 13, ch, r - 13);
    }
  }

  lemma RankKeepsLength(s: Regs, ch: bv32, rank: bv32)
    requires 1 <= rank <= 16 && ch < 18
    ensures RegularLength(WithRank(s, ch, rank)) == RegularLength(s)
  {
  }

  // ---- ADC_Init ----

  /** `ADC_InitTypeDef`; trigger, alignment and mode are given as their register masks. */
  datatype InitConfig = InitConfig(
    mode: bv32, scan: bool, continuous: bool, trigger: bv32, align: bv32, channels: bv8)
  {
    predicate Valid() {
      && mode & 0xFFF0_FFFF <= 0 && trigger & 0xFFF1_FFFF <= 0 && align & 0xFFFF_F7FF <= 0
      && 1 <= channels <= 16
    }
  }

  function InitCr1(cr1: bv32, c: InitConfig): bv32 {
    (cr1 & 0xFFF0_FEFF) | (c.mode | if c.scan then 0x100 else 0)
  }

  function InitCr2(cr2: bv32, c: InitConfig): bv32 {
    (cr2 & 0xFFF1_F7FD) | (c.align | c.trigger | if c.continuous then 2 else 0)
  }

  function InitSqr1(sqr1: bv32, c: InitConfig): bv32 {
    (sqr1 & 0xFF0F_FFFF) | ((c.channels - 1) as bv32 << 20)
  }

  function WithInit(s: Regs, c: InitConfig): Regs {
    s.(cr1 := InitCr1(s.cr1, c), cr2 := InitCr2(s.cr2, c), sqr1 := InitSqr1(s.sqr1, c))
  }

  /** The length field that `ADC_Init` writes: the requested number of conversions minus one. */
  function RequestedLength(c: InitConfig): Length {
    Length((c.channels - 1) as bv32)
  }

  lemma InitLength(s: Regs, c: InitConfig)
    requires c.Valid()
    ensures RegularLength(WithInit(s, c)) == RequestedLength(c)
  {
    hide InitCr1, InitCr2;
  }

  lemma InitKeepsFive(sqr1: bv32, c: InitConfig, p: bv32)
    requires c.Valid() && p < 4
    ensures Five(InitSqr1(sqr1, c), p) == Five(sqr1, p)
  {
  }

  lemma InitKeepsRanks(s: Regs, c: InitConfig, r: bv32)
    requires c.Valid() && 1 <= r <= 16
    ensures Regular(WithInit(s, c), r) == Regular(s, r)
  {
    hide Five, InitCr1, InitCr2, InitSqr1;
    if 13 <= r {
      InitKeepsFive(s.sqr1, c, r - 13);
    }
  }

  /** Two words agree on the bits of `mask`. */
  predicate Agree(r: bv32, s: bv32, mask: bv32) {
    r & mask == s & mask
  }

  /** The control words get the requested fields and keep every other bit. */
  lemma InitControl(s: Regs, c: InitConfig)
    requires c.Valid()
    ensures var t := WithInit(s, c);
            && t.cr1 & 0x000F_0000 == c.mode && (0 < t.cr1 & 0x100 <==> c.scan)
            && Agree(t.cr1, s.cr1, 0xFFF0_FEFF)
            && t.cr2 & 0x000E_0000 == c.trigger && t.cr2 & 0x800 == c.align && (0 < t.cr2 & 2 <==> c.continuous)
            && Agree(t.cr2, s.cr2, 0xFFF1_F7FD)
  {
    hide InitCr1, InitCr2, InitSqr1, Agree;
    Cr1Requested(s.cr1, c);
    Cr1Kept(s.cr1, c);
    Cr2Requested(s.cr2, c);
    Cr2Continuous(s.cr2, c);
    Cr2Kept(s.cr2, c);
  }

  lemma Cr1Requested(cr1: bv32, c: InitConfig)
    requires c.Valid()
    ensures var t := InitCr1(cr1, c); t & 0x000F_0000 == c.mode && (0 < t & 0x100 <==> c.scan)
  {
  }

  lemma Cr1Kept(cr1: bv32, c: InitConfig)
    requires c.Valid()
    ensures Agree(InitCr1(cr1, c), cr1, 0xFFF0_FEFF)
  {
    Overlay(cr1, 0xFFF0_FEFF, c.mode | if c.scan then 0x100 else 0);
  }

  lemma Cr2Requested(cr2: bv32, c: InitConfig)
    requires c.Valid()
    ensures var t := InitCr2(cr2, c); t & 0x000E_0000 == c.trigger && t & 0x800 == c.align
  {
  }

  lemma Cr2Continuous(cr2: bv32, c: InitConfig)
    requires c.Valid()
    ensures 0 < InitCr2(cr2, c) & 2 <==> c.continuous
  {
  }

  lemma Cr2Kept(cr2: bv32, c: InitConfig)
    requires c.Valid()
    ensures Agree(InitCr2(cr2, c), cr2, 0xFFF1_F7FD)
  {
    Overlay(cr2, 0xFFF1_F7FD, c.align | c.trigger | if c.continuous then 2 else 0);
  }

  lemma Overlay(r: bv32, mask: bv32, fields: bv32)
    requires fields & mask <= 0
    ensures Agree((r & mask) | fields, r, mask)
  {
  }

  // ---- The injected sequence ----

  function JlField(j: bv32): bv32 {
    (j >> 20) & 3
  }

  /** The number of injected conversions, one to four. */
  function InjectedLength(j: bv32): (n: nat)
    ensures 1 <= n <= 4
  {
    var jl := JlField(j);
    if jl < 1 then 1 else if jl < 2 then 2 else if jl < 3 then 3 else 4
  }

  /** The four channel slots JSQ1 to JSQ4. */
  function Slots(j: bv32): (s: seq<Channel>)
    ensures |s| == 4
  {
    [Channel(j & 0x1F), Channel((j >> 5) & 0x1F), Channel((j >> 10) & 0x1F), Channel((j >> 15) & 0x1F)]
  }

  /** The hardware converts the last slots: the list is aligned to JSQ4. */
  function Programmed(j: bv32): (s: seq<Channel>)
    ensures |s| == InjectedLength(j)
  {
    Slots(j)[4 - InjectedLength(j)..]
  }

  /** The slot that `ADC_InjectedChannelConfig` computes for a rank: `(Rank + 3) - (JL + 1)`. */
  function SlotFor(j: bv32, rank: bv32): bv32 {
    (rank + 3 - (JlField(j) + 1)) & 0xFF
  }

  /** JSQR after `ADC_InjectedChannelConfig`. */
  function WithInjected(j: bv32, ch: bv32, rank: bv32): bv32
    requires 1 <= rank <= 4
  {
    PutFive(j, SlotFor(j, rank), ch)
  }

  /** JSQR after `ADC_InjectedSequencerLengthConfig`. */
  function WithLength(j: bv32, length: bv8): bv32 {
    (j & 0xFFCF_FFFF) | ((length - 1) as bv32 << 20)
  }

  function Place(rank: bv32): (i: nat)
    requires 1 <= rank <= 4
    ensures i < 4
  {
    if rank < 2 then 0 else if rank < 3 then 1 else if rank < 4 then 2 else 3
  }

  // ---- Writing one five-bit slot of JSQR ----

  lemma PutSlot0(j: bv32, v: bv32)
    requires v < 32
    ensures Slots(PutFive(j, 0 as bv32, v)) == Slots(j)[0 := Channel(v)]
    ensures JlField(PutFive(j, 0 as bv32, v)) == JlField(j)
  {
  }

  lemma PutSlot1(j: bv32, v: bv32)
    requires v < 32
    ensures Slots(PutFive(j, 1 as bv32, v)) == Slots(j)[1 := Channel(v)]
    ensures JlField(PutFive(j, 1 as bv32, v)) == JlField(j)
  {
  }

  lemma PutSlot2(j: bv32, v: bv32)
    requires v < 32
    ensures Slots(PutFive(j, 2 as bv32, v)) == Slots(j)[2 := Channel(v)]
    ensures JlField(PutFive(j, 2 as bv32, v)) == JlField(j)
  {
  }

  lemma PutSlot3(j: bv32, v: bv32)
    requires v < 32
    ensures Slots(PutFive(j, 3 as bv32, v)) == Slots(j)[3 := Channel(v)]
    ensures JlField(PutFive(j, 3 as bv32, v)) == JlField(j)
  {
  }

  /** The slot above the list is the length field: it takes the channel's two low bits. */
  lemma PutSlot4(j: bv32, v: bv32)
    requires v < 32
    ensures Slots(PutFive(j, 4 as bv32, v)) == Slots(j)
    ensures JlField(PutFive(j, 4 as bv32, v)) == v & 3
  {
  }

  lemma PutSlotBeyond(j: bv32, p: bv32, v: bv32)
    requires 4 < p < 7 && v < 32
    ensures Slots(PutFive(j, p, v)) == Slots(j)
    ensures JlField(PutFive(j, p, v)) == JlField(j)
  {
  }

  /** Slot `i` (counted from zero) is written, or the length field, or nothing that matters. */
  lemma PutSlot(j: bv32, p: bv32, v: bv32, i: nat)
    requires p < 7 && v < 32 && i < 7 && Indexed(p, i)
    ensures i < 4 ==> Slots(PutFive(j, p, v)) == Slots(j)[i := Channel(v)]
    ensures i >= 4 ==> Slots(PutFive(j, p, v)) == Slots(j)
    ensures i != 4 ==> JlField(PutFive(j, p, v)) == JlField(j)
    ensures i == 4 ==> JlField(PutFive(j, p, v)) == v & 3
  {
    hide Slots, PutFive, JlField;
    if i == 0 {
      PutSlot0(j, v);
    } else if i == 1 {
      PutSlot1(j, v);
    } else if i == 2 {
      PutSlot2(j, v);
    } else if i == 3 {
      PutSlot3(j, v);
    } else if i == 4 {
      PutSlot4(j, v);
    } else {
      PutSlotBeyond(j, p, v);
    }
  }

  /** `p` is the register's notation for index `i`. */
  predicate Indexed(p: bv32, i: nat) {
    if i == 0 then p == 0 as bv32
    else if i == 1 then p == 1 as bv32
    else if i == 2 then p == 2 as bv32
    else if i == 3 then p == 3 as bv32
    else if i == 4 then p == 4 as bv32
    else if i == 5 then p == 5 as bv32
    else i == 6 && p == 6 as bv32
  }

  /** Rank `r` of a list of length `n` is slot `r + 3 - n`. */
  lemma SlotIndex(j: bv32, rank: bv32)
    requires 1 <= rank <= 4
    ensures SlotFor(j, rank) < 7
    ensures Indexed(SlotFor(j, rank), Place(rank) + 4 - InjectedLength(j))
  {
  }

  /**
   * `ADC_InjectedChannelConfig` on JSQR. A rank within the list replaces that entry and nothing else;
   * the rank just past the list overwrites the length field with the channel's two low bits; any
   * other rank changes neither the slots nor the length.
   */
  lemma InjectedRank(j: bv32, ch: bv32, rank: bv32)
    requires 1 <= rank <= 4 && ch < 18
    ensures var j', n, k := WithInjected(j, ch, rank), InjectedLength(j), Place(rank);
            && (k < n ==> InjectedLength(j') == n && Programmed(j') == Programmed(j)[k := Channel(ch)])
            && (k == n ==> JlField(j') == ch & 3 && Slots(j') == Slots(j))
            && (k > n ==> JlField(j') == JlField(j) && Slots(j') == Slots(j))
  {
    hide Slots, Programmed, InjectedLength, WithInjected, Place, JlField;
    InjectedSlots(j, ch, rank);
    ListEntry(j, WithInjected(j, ch, rank), Place(rank), Channel(ch));
  }

  lemma InjectedSlots(j: bv32, ch: bv32, rank: bv32)
    requires 1 <= rank <= 4 && ch < 18
    ensures var j', i := WithInjected(j, ch, rank), Place(rank) + 4 - InjectedLength(j);
            && (i < 4 ==> Slots(j') == Slots(j)[i := Channel(ch)])
            && (i >= 4 ==> Slots(j') == Slots(j))
            && (if i == 4 then JlField(j') == ch & 3 else JlField(j') == JlField(j))
  {
    hide Slots, PutFive, JlField, SlotFor, Indexed;
    SlotIndex(j, rank);
    PutSlot(j, SlotFor(j, rank), ch, Place(rank) + 4 - InjectedLength(j));
  }

  /** An entry of the list is a slot that many places before its end. */
  lemma ListEntry(j: bv32, j': bv32, k: nat, c: Channel)
    ensures JlField(j') == JlField(j) ==> InjectedLength(j') == InjectedLength(j)
    ensures k < InjectedLength(j) && JlField(j') == JlField(j) &&
            Slots(j') == Slots(j)[k + 4 - InjectedLength(j) := c] ==>
            Programmed(j') == Programmed(j)[k := c]
  {
    hide Slots, JlField;
    SameLength(j, j');
  }

  lemma SameLength(j: bv32, j': bv32)
    ensures JlField(j') == JlField(j) ==> InjectedLength(j') == InjectedLength(j)
  {
  }

  /** The length survives exactly when the rank is not just past the list, or the channel's low bits equal it. */
  lemma LengthSurvives(j: bv32, ch: bv32, rank: bv32)
    requires 1 <= rank <= 4 && ch < 18
    ensures JlField(WithInjected(j, ch, rank)) == JlField(j) <==>
            Place(rank) != InjectedLength(j) || ch & 3 == JlField(j)
  {
    hide Slots, PutFive, JlField, SlotFor, Indexed;
    SlotIndex(j, rank);
    PutSlot(j, SlotFor(j, rank), ch, Place(rank) + 4 - InjectedLength(j));
  }

  /** A program for a list of two that configures rank 3 with channel 0 is left with a list of one. */
  lemma RankPastTheListShrinksIt(j: bv32)
    requires InjectedLength(j) == 2
    ensures InjectedLength(WithInjected(j, 0, 3)) == 1
  {
    InjectedRank(j, 0, 3);
  }

  lemma LengthWritten(j: bv32, length: bv8)
    requires 1 <= length <= 4
    ensures Slots(WithLength(j, length)) == Slots(j)
    ensures InjectedLength(WithLength(j, length)) == length as int
  {
    LengthKeepsSlots(j, length);
  }

  lemma LengthKeepsSlots(j: bv32, length: bv8)
    requires 1 <= length <= 4
    ensures Slots(WithLength(j, length)) == Slots(j)
  {
  }

  /** Changing the length keeps the slots, so shortening the list leaves a suffix of it, not a prefix. */
  lemma ShorteningKeepsSuffix(j: bv32, length: bv8)
    requires 1 <= length <= 4 && length as int <= InjectedLength(j)
    ensures Programmed(WithLength(j, length)) == Programmed(j)[InjectedLength(j) - length as int..]
  {
    hide Slots, WithLength;
    LengthWritten(j, length);
  }

  /** Lengthening it exposes older slots in front. */
  lemma LengtheningKeepsTail(j: bv32, length: bv8)
    requires InjectedLength(j) <= length as int <= 4
    ensures Programmed(j) == Programmed(WithLength(j, length))[length as int - InjectedLength(j)..]
  {
    hide Slots, WithLength;
    LengthWritten(j, length);
  }

  // ---- Calls, and runs of calls ----

  datatype Call =
    | RegularChannel(ch: bv32, rank: bv32, time: bv32)
    | InjectedChannel(ch: bv32, rank: bv32, time: bv32)
    | InjectedSequencerLength(length: bv8)
    | Init(config: InitConfig)
  {
    /** The ranges of the driver's parameter checks. */
    predicate Valid() {
      match this
      case RegularChannel(ch, rank, time) => ch < 18 && 1 <= rank <= 16 && time <= 7
      case InjectedChannel(ch, rank, time) => ch < 18 && 1 <= rank <= 4 && time <= 7
      case InjectedSequencerLength(length) => 1 <= length <= 4
      case Init(config) => config.Valid()
    }

    /** Sets the sample time of channel `c`. */
    predicate Samples(c: bv32) {
      (RegularChannel? || InjectedChannel?) && ch == c
    }
  }

  /** The registers after a call. */
  function Applied(s: Regs, call: Call): Regs
    requires call.Valid()
  {
    match call
    case RegularChannel(ch, rank, time) => WithRank(WithSample(s, ch, time), ch, rank)
    case InjectedChannel(ch, rank, time) =>
      var t := WithSample(s, ch, time);
      t.(jsqr := WithInjected(t.jsqr, ch, rank))
    case InjectedSequencerLength(length) => s.(jsqr := WithLength(s.jsqr, length))
    case Init(config) => WithInit(s, config)
  }

  lemma AppliedRegular(s: Regs, call: Call, r: bv32)
    requires call.Valid() && 1 <= r <= 16
    ensures Regular(Applied(s, call), r) ==
            if call.RegularChannel? && call.rank == r then Channel(call.ch) else Regular(s, r)
  {
    hide Five, Three, PutThree, PutFive, InitCr1, InitCr2, InitSqr1, WithRank, WithLength, WithInit, WithInjected;
    match call
    case RegularChannel(ch, rank, time) => RankSet(WithSample(s, ch, time), ch, rank, r);
    case InjectedChannel(ch, rank, time) =>
    case InjectedSequencerLength(length) =>
    case Init(config) => InitKeepsRanks(s, config, r);
  }

  lemma AppliedSample(s: Regs, call: Call, c: bv32)
    requires call.Valid() && c < 18
    ensures Sample(Applied(s, call), c) == if call.Samples(c) then SampleTime(call.time) else Sample(s, c)
  {
    hide Three, PutThree, PutFive, InitCr1, InitCr2, InitSqr1, WithLength, WithInjected, WithSample;
    match call
    case RegularChannel(ch, rank, time) => SampleSet(s, ch, time, c);
    case InjectedChannel(ch, rank, time) => SampleSet(s, ch, time, c);
    case InjectedSequencerLength(length) =>
    case Init(config) =>
  }

  lemma AppliedLength(s: Regs, call: Call)
    requires call.Valid()
    ensures RegularLength(Applied(s, call)) ==
            if call.Init? then RequestedLength(call.config) else RegularLength(s)
  {
    hide Three, PutThree, PutFive, InitCr1, InitCr2, InitSqr1, WithLength, WithInjected, WithRank,
         RequestedLength, RegularLength;
    match call
    case RegularChannel(ch, rank, time) =>
      RankKeepsLength(WithSample(s, ch, time), ch, rank);
      SameSequenceWord(s, WithSample(s, ch, time));
    case InjectedChannel(ch, rank, time) => SameSequenceWord(s, Applied(s, call));
    case InjectedSequencerLength(length) => SameSequenceWord(s, Applied(s, call));
    case Init(config) => InitLength(s, config);
  }

  lemma SameSequenceWord(s: Regs, t: Regs)
    requires s.sqr1 == t.sqr1
    ensures RegularLength(s) == RegularLength(t)
  {
  }

  /** The states at the call boundaries of a run. */
  ghost predicate IsRun(trace: seq<Regs>, calls: seq<Call>) {
    && |trace| == |calls| + 1
    && forall i | 0 <= i < |calls| :: calls[i].Valid() && trace[i + 1] == Applied(trace[i], calls[i])
  }

  function Ranks(r: bv32): Call -> bool {
    (c: Call) => c.RegularChannel? && c.rank == r
  }

  function Sampling(ch: bv32): Call -> bool {
    (c: Call) => c.Samples(ch)
  }

  function Initialising(): Call -> bool {
    (c: Call) => c.Init?
  }

  /** After any sequence of calls a regular rank holds the last channel given for it. */
  lemma RegularRankRun(trace: seq<Regs>, calls: seq<Call>, r: bv32)
    requires 1 <= r <= 16 && IsRun(trace, calls)
    ensures Regular(trace[|calls|], r) ==
            match Last(calls, Ranks(r))
            case Some(c) => Channel(c.ch)
            case None => Regular(trace[0], r)
  {
    hide Applied;
    var observe := (s: Regs) => Regular(s, r);
    var written := (c: Call) => if c.RegularChannel? then Channel(c.ch) else Channel(0);
    forall i | 0 <= i < |calls|
      ensures observe(trace[i + 1]) == if Ranks(r)(calls[i]) then written(calls[i]) else observe(trace[i])
    {
      AppliedRegular(trace[i], calls[i], r);
    }
    LastWriterWins(trace, calls, Ranks(r), written, observe);
  }

  /** A channel keeps the last sample time given for it by either group. */
  lemma SampleTimeRun(trace: seq<Regs>, calls: seq<Call>, ch: bv32)
    requires ch < 18 && IsRun(trace, calls)
    ensures Sample(trace[|calls|], ch) ==
            match Last(calls, Sampling(ch))
            case Some(c) => SampleTime(c.time)
            case None => Sample(trace[0], ch)
  {
    hide Applied;
    var observe := (s: Regs) => Sample(s, ch);
    var written := (c: Call) => if c.RegularChannel? || c.InjectedChannel? then SampleTime(c.time) else SampleTime(0);
    forall i | 0 <= i < |calls|
      ensures observe(trace[i + 1]) == if Sampling(ch)(calls[i]) then written(calls[i]) else observe(trace[i])
    {
      AppliedSample(trace[i], calls[i], ch);
    }
    LastWriterWins(trace, calls, Sampling(ch), written, observe);
  }

  /** The regular length field is the last `ADC_Init` value minus one: no channel call can disturb it. */
  lemma RegularLengthRun(trace: seq<Regs>, calls: seq<Call>)
    requires IsRun(trace, calls)
    ensures RegularLength(trace[|calls|]) ==
            match Last(calls, Initialising())
            case Some(c) => RequestedLength(c.config)
            case None => RegularLength(trace[0])
  {
    hide Applied;
    var observe := (s: Regs) => RegularLength(s);
    var written := (c: Call) => if c.Init? then RequestedLength(c.config) else Length(0);
    forall i | 0 <= i < |calls|
      ensures observe(trace[i + 1]) == if Initialising()(calls[i]) then written(calls[i]) else observe(trace[i])
    {
      AppliedLength(trace[i], calls[i]);
    }
    LastWriterWins(trace, calls, Initialising(), written, observe);
  }

  /** A run that sets no injected length and configures only injected ranks within a list of `n`. */
  ghost predicate StaysWithin(calls: seq<Call>, n: nat) {
    forall i | 0 <= i < |calls| ::
      && calls[i].Valid() && !calls[i].InjectedSequencerLength?
      && (calls[i].InjectedChannel? ==> Place(calls[i].rank) < n)
  }

  lemma SampleKeepsInjectedWord(s: Regs, ch: bv32, time: bv32)
    requires ch < 18
    ensures WithSample(s, ch, time).jsqr == s.jsqr
  {
    hide PutThree;
  }

  lemma ChannelCallKeepsInjectedWord(s: Regs, ch: bv32, rank: bv32, time: bv32)
    requires ch < 18 && 1 <= rank <= 16
    ensures WithRank(WithSample(s, ch, time), ch, rank).jsqr == s.jsqr
  {
    hide PutFive, WithSample;
    SampleKeepsInjectedWord(s, ch, time);
  }

  /** One call of such a run, on the injected list. */
  lemma AppliedInjected(s: Regs, call: Call)
    requires call.Valid() && !call.InjectedSequencerLength?
    requires call.InjectedChannel? ==> Place(call.rank) < InjectedLength(s.jsqr)
    ensures Programmed(Applied(s, call).jsqr) ==
            if call.InjectedChannel? then Programmed(s.jsqr)[Place(call.rank) := Channel(call.ch)]
            else Programmed(s.jsqr)
  {
    hide Three, PutThree, PutFive, InitCr1, InitCr2, InitSqr1, WithLength, WithInjected, WithRank, WithSample,
         Programmed, InjectedLength, JlField, Slots, SlotFor, Place;
    match call
    case RegularChannel(ch, rank, time) => ChannelCallKeepsInjectedWord(s, ch, rank, time);
    case InjectedChannel(ch, rank, time) =>
      SampleKeepsInjectedWord(s, ch, time);
      InjectedRank(s.jsqr, ch, rank);
    case Init(config) =>
  }

  function Injecting(k: nat): Call -> bool {
    (c: Call) => c.InjectedChannel? && 1 <= c.rank <= 4 && Place(c.rank) == k
  }

  /** The length never changes along the way. */
  lemma {:induction false} InjectedLengthRun(trace: seq<Regs>, calls: seq<Call>, i: nat)
    requires IsRun(trace, calls) && StaysWithin(calls, InjectedLength(trace[0].jsqr)) && i < |trace|
    ensures InjectedLength(trace[i].jsqr) == InjectedLength(trace[0].jsqr)
  {
    hide Applied, InjectedLength, Place;
    if i > 0 {
      InjectedLengthRun(trace, calls, i - 1);
      assert calls[i - 1].Valid() && trace[i - 1 + 1] == Applied(trace[i - 1], calls[i - 1]);
      AppliedInjected(trace[i - 1], calls[i - 1]);
      assert |Programmed(trace[i].jsqr)| == |Programmed(trace[i - 1].jsqr)|;
    }
  }

  /**
   * Configuring injected ranks within the list, in any order, with repeats, and with any regular calls
   * in between, leaves for each rank the last channel given for it.
   */
  lemma InjectedRun(trace: seq<Regs>, calls: seq<Call>, k: nat)
    requires IsRun(trace, calls) && StaysWithin(calls, InjectedLength(trace[0].jsqr))
    requires k < InjectedLength(trace[0].jsqr)
    ensures InjectedLength(trace[|calls|].jsqr) == InjectedLength(trace[0].jsqr)
    ensures Programmed(trace[|calls|].jsqr)[k] ==
            match Last(calls, Injecting(k))
            case Some(c) => Channel(c.ch)
            case None => Programmed(trace[0].jsqr)[k]
  {
    hide Applied, InjectedLength, Place, Programmed, JlField, Slots;
    var observe := (s: Regs) => if k < |Programmed(s.jsqr)| then Programmed(s.jsqr)[k] else Channel(0);
    var written := (c: Call) => if c.InjectedChannel? then Channel(c.ch) else Channel(0);
    forall i | 0 <= i < |calls|
      ensures observe(trace[i + 1]) == if Injecting(k)(calls[i]) then written(calls[i]) else observe(trace[i])
    {
      InjectedLengthRun(trace, calls, i);
      AppliedInjected(trace[i], calls[i]);
    }
    InjectedLengthRun(trace, calls, |calls|);
    LastWriterWins(trace, calls, Injecting(k), written, observe);
  }

  // ---- The peripheral ----

  class AdcPeripheral {
    var cr1: bv32
    var cr2: bv32
    var smpr1: bv32
    var smpr2: bv32
    var sqr1: bv32
    var sqr2: bv32
    var sqr3: bv32
    var jsqr: bv32

    function View(): Regs
      reads this
    {
      Regs(cr1, cr2, smpr1, smpr2, sqr1, sqr2, sqr3, jsqr)
    }

    /** The sample-time part shared by the two channel functions. */
    method SetSampleTime(ch: bv32, time: bv32)
      requires ch < 18 && time <= 7
      modifies this`smpr1, this`smpr2
      ensures View() == WithSample(old(View()), ch, time)
    {
      hide PutThree;
      if ch > 9 {
        smpr1 := PutThree(smpr1, ch - 10, time);
      } else {
        smpr2 := PutThree(smpr2, ch, time);
      }
    }

    /** `ADC_RegularChannelConfig`. */
    method RegularChannelConfig(ch: bv32, rank: bv32, time: bv32)
      requires Call.RegularChannel(ch, rank, time).Valid()
      modifies this
      ensures View() == Applied(old(View()), RegularChannel(ch, rank, time))
    {
      hide PutFive, WithSample;
      SetSampleTime(ch, time);
      if rank < 7 {
        sqr3 := PutFive(sqr3, rank - 1, ch);
      } else if rank < 13 {
        sqr2 := PutFive(sqr2, rank - 7, ch);
      } else {
        sqr1 := PutFive(sqr1, rank - 13, ch);
      }
    }

    /** `ADC_InjectedChannelConfig`. */
    method InjectedChannelConfig(ch: bv32, rank: bv32, time: bv32)
      requires Call.InjectedChannel(ch, rank, time).Valid()
      modifies this
      ensures View() == Applied(old(View()), InjectedChannel(ch, rank, time))
    {
      hide PutFive, WithSample;
      SetSampleTime(ch, time);
      SlotIndex(jsqr, rank);
      var jl := (jsqr & 0x0030_0000) >> 20;
      JlMasked(jsqr);
      jsqr := PutFive(jsqr, (rank + 3 - (jl + 1)) & 0xFF, ch);
    }

    /** `ADC_InjectedSequencerLengthConfig`. */
    method InjectedSequencerLengthConfig(length: bv8)
      requires 1 <= length <= 4
      modifies this`jsqr
      ensures View() == Applied(old(View()), InjectedSequencerLength(length))
      ensures InjectedLength(jsqr) == length as int && Slots(jsqr) == old(Slots(jsqr))
    {
      LengthWritten(jsqr, length);
      hide Slots, InjectedLength;
      var tmpreg1 := jsqr & 0xFFCF_FFFF;
      jsqr := tmpreg1 | ((length - 1) as bv32 << 20);
    }

    /** `ADC_Init`. */
    method Init(c: InitConfig)
      requires c.Valid()
      modifies this`cr1, this`cr2, this`sqr1
      ensures View() == Applied(old(View()), Call.Init(c))
    {
      hide InitCr1, InitCr2, InitSqr1;
      cr1 := InitCr1(cr1, c);
      cr2 := InitCr2(cr2, c);
      sqr1 := InitSqr1(sqr1, c);
    }
  }

  lemma JlMasked(j: bv32)
    ensures (j & 0x0030_0000) >> 20 == JlField(j)
  {
  }
}

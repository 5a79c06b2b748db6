/**
 * Interrupt priorities: the CMSIS encoder and decoder, the CMSIS setters, and the vendor library's own
 * `NVIC_Init`, which packs the same byte in a different way.
 */
module Nvic {
  import opened Bits
  import opened Runs

  // ---- Widths of the two parts of a priority ----

  /** The pre-emption width for `n` implemented bits. */
  function PreemptBits(n: bv32, group: bv32): (r: bv32)
    requires 1 <= n <= 8
    ensures r <= 7
  {
    var g := group & 7;
    if 7 - g > n then n else 7 - g
  }

  function SubBits(n: bv32, group: bv32): (r: bv32)
    requires 1 <= n <= 8
    ensures r <= 8
  {
    var g := group & 7;
    if g + n < 7 then 0 else g - 7 + n
  }

  /** The two widths share the implemented bits, for every grouping. */
  lemma WidthsShareBits(n: bv32, group: bv32)
    requires 1 <= n <= 8
    ensures PreemptBits(n, group) + SubBits(n, group) == n
  {
  }

  /** `(1 << k) - 1`. */
  function Low(k: bv32): bv32
    requires k <= 8
  {
    ((1 as bv32) << k) - 1
  }

  function Masked(v: bv32, k: bv32): bv32
    requires k <= 8
  {
    v & Low(k)
  }

  function Upper(v: bv32, k: bv32): bv32
    requires k <= 8
  {
    v >> k
  }

  function Pack(sb: bv32, hi: bv32, lo: bv32): bv32
    requires sb <= 8
  {
    (hi << sb) | lo
  }

  // ---- The encoder and the decoder ----

  datatype Priority = Priority(preempt: bv32, sub: bv32)

  function Packed(pb: bv32, sb: bv32, p: Priority): bv32
    requires pb <= 8 && sb <= 8
  {
    Pack(sb, Masked(p.preempt, pb), Masked(p.sub, sb))
  }

  /** `NVIC_EncodePriority` for `n` implemented bits. */
  function Encode(n: bv32, group: bv32, p: Priority): bv32
    requires 1 <= n <= 8
  {
    Packed(PreemptBits(n, group), SubBits(n, group), p)
  }

  /** The two values as far as their widths hold them. */
  function Reduced(n: bv32, group: bv32, p: Priority): Priority
    requires 1 <= n <= 8
  {
    Priority(Masked(p.preempt, PreemptBits(n, group)), Masked(p.sub, SubBits(n, group)))
  }

  /** `NVIC_DecodePriority`: the two values it stores through its pointers. */
  function Decode(n: bv32, group: bv32, priority: bv32): Priority
    requires 1 <= n <= 8
  {
    var pb, sb := PreemptBits(n, group), SubBits(n, group);
    Priority(Masked(Upper(priority, sb), pb), Masked(priority, sb))
  }

  lemma MaskedTwice(v: bv32, k: bv32)
    requires k <= 8
    ensures Masked(Masked(v, k), k) == Masked(v, k)
  {
  }

  lemma UpperOfPack(sb: bv32, hi: bv32, lo: bv32)
    requires sb <= 8 && hi <= 0xFF
    ensures Upper(Pack(sb, hi, Masked(lo, sb)), sb) == hi
  {
  }

  lemma LowerOfPack(sb: bv32, hi: bv32, lo: bv32)
    requires sb <= 8
    ensures Masked(Pack(sb, hi, Masked(lo, sb)), sb) == Masked(lo, sb)
  {
  }

  lemma MaskedIsByte(v: bv32, k: bv32)
    requires k <= 8
    ensures Masked(v, k) <= 0xFF
  {
  }

  lemma Unpack(pb: bv32, sb: bv32, p: Priority)
    requires pb <= 8 && sb <= 8
    ensures Upper(Packed(pb, sb, p), sb) == Masked(p.preempt, pb)
    ensures Masked(Packed(pb, sb, p), sb) == Masked(p.sub, sb)
  {
    hide Low, Masked, Upper, Pack;
    MaskedIsByte(p.preempt, pb);
    UpperOfPack(sb, Masked(p.preempt, pb), p.sub);
    LowerOfPack(sb, Masked(p.preempt, pb), p.sub);
  }

  /** Decoding an encoded pair gives both values, each reduced to its width. */
  lemma DecodeEncode(n: bv32, group: bv32, p: Priority)
    requires 1 <= n <= 8
    ensures Decode(n, group, Encode(n, group, p)) == Reduced(n, group, p)
  {
    hide Low, Masked, Upper, Packed, PreemptBits, SubBits;
    Unpack(PreemptBits(n, group), SubBits(n, group), p);
    MaskedTwice(p.preempt, PreemptBits(n, group));
  }

  lemma Repack(n: bv32, pb: bv32, sb: bv32, x: bv32)
    requires n <= 8 && pb <= 8 && sb <= 8 && pb + sb == n && x <= Low(n)
    ensures Packed(pb, sb, Priority(Masked(Upper(x, sb), pb), Masked(x, sb))) == x
  {
  }

  /** Encoding what was decoded is the identity on every priority the hardware can hold. */
  lemma EncodeDecode(n: bv32, group: bv32, x: bv32)
    requires 1 <= n <= 8 && x <= Low(n)
    ensures Encode(n, group, Decode(n, group, x)) == x
  {
    hide Low, Masked, Upper, Packed, PreemptBits, SubBits;
    WidthsShareBits(n, group);
    Repack(n, PreemptBits(n, group), SubBits(n, group), x);
  }

  // ---- Order ----

  /** Smaller values are more urgent; the sub-priority only breaks ties. */
  predicate Before(p: Priority, q: Priority) {
    Less(p.preempt, q.preempt) || (p.preempt == q.preempt && Less(p.sub, q.sub))
  }

  predicate AtMost(x: bv32, y: bv32) {
    x <= y
  }

  predicate Less(x: bv32, y: bv32) {
    !AtMost(y, x)
  }

  function Byte(x: bv32): bv32 {
    x & 0xFF
  }

  function Parts(sb: bv32, x: bv32): Priority
    requires sb <= 8
  {
    Priority(Upper(x, sb), Masked(x, sb))
  }

  /** A byte is ordered by its upper part first, wherever it is split. */
  lemma BytesOrder(sb: bv32, x: bv32, y: bv32)
    requires sb <= 8
    ensures Less(Byte(x), Byte(y)) <==> Before(Parts(sb, Byte(x)), Parts(sb, Byte(y)))
  {
    hide Byte, Upper, Masked, Less;
    if Less(Byte(x), Byte(y)) {
      SmallerByte(sb, x, y);
    } else if Less(Byte(y), Byte(x)) {
      SmallerByte(sb, y, x);
      Asymmetric(Upper(Byte(y), sb), Upper(Byte(x), sb));
      Asymmetric(Masked(Byte(y), sb), Masked(Byte(x), sb));
    } else {
      EqualBytes(x, y);
      Irreflexive(Upper(Byte(x), sb));
      Irreflexive(Masked(Byte(x), sb));
    }
  }

  lemma Asymmetric(x: bv32, y: bv32)
    ensures Less(x, y) ==> !Less(y, x) && x != y
  {
  }

  lemma Irreflexive(x: bv32)
    ensures !Less(x, x)
  {
  }

  lemma EqualBytes(x: bv32, y: bv32)
    requires !Less(Byte(x), Byte(y)) && !Less(Byte(y), Byte(x))
    ensures Byte(x) == Byte(y)
  {
  }

  lemma SmallerByte(sb: bv32, x: bv32, y: bv32)
    requires sb <= 8 && Less(Byte(x), Byte(y))
    ensures Before(Parts(sb, Byte(x)), Parts(sb, Byte(y)))
  {
    hide Byte, Upper, Masked, Less;
    Asymmetric(Byte(x), Byte(y));
    UpperOrders(sb, x, y);
    if !Less(Upper(Byte(x), sb), Upper(Byte(y), sb)) {
      EqualUppers(sb, x, y);
      LowerOrders(sb, x, y);
      if !Less(Masked(Byte(x), sb), Masked(Byte(y), sb)) {
        EqualLowers(sb, x, y);
        Rejoin(sb, Byte(x), Byte(y));
      }
    }
  }

  lemma UpperOrders(sb: bv32, x: bv32, y: bv32)
    requires sb <= 8 && !Less(Byte(y), Byte(x))
    ensures !Less(Upper(Byte(y), sb), Upper(Byte(x), sb))
  {
    hide Low;
    ShiftedOrderOfBytes(sb, x, y);
  }

  lemma ShiftedOrderOfBytes(sb: bv32, x: bv32, y: bv32)
    requires sb <= 8 && x & 0xFF <= y & 0xFF
    ensures (x & 0xFF) >> sb <= (y & 0xFF) >> sb
  {
  }

  lemma LowerOrders(sb: bv32, x: bv32, y: bv32)
    requires sb <= 8 && !Less(Byte(y), Byte(x)) && Upper(Byte(x), sb) == Upper(Byte(y), sb)
    ensures !Less(Masked(Byte(y), sb), Masked(Byte(x), sb))
  {
    hide Masked, Low;
    MaskedOrderOfBytes(sb, x, y);
  }

  lemma MaskedOrderOfBytes(sb: bv32, x: bv32, y: bv32)
    requires sb <= 8 && x & 0xFF <= y & 0xFF && (x & 0xFF) >> sb == (y & 0xFF) >> sb
    ensures Masked(x & 0xFF, sb) <= Masked(y & 0xFF, sb)
  {
  }

  lemma EqualUppers(sb: bv32, x: bv32, y: bv32)
    requires sb <= 8
    requires !Less(Upper(Byte(x), sb), Upper(Byte(y), sb)) && !Less(Upper(Byte(y), sb), Upper(Byte(x), sb))
    ensures Upper(Byte(x), sb) == Upper(Byte(y), sb)
  {
    hide Byte, Less;
    UpperIsByte(x, sb);
    UpperIsByte(y, sb);
    hide Upper;
    EqualBytes(Upper(Byte(x), sb), Upper(Byte(y), sb));
  }

  lemma UpperIsByte(x: bv32, k: bv32)
    requires k <= 8
    ensures Byte(Upper(Byte(x), k)) == Upper(Byte(x), k)
  {
  }

  lemma EqualLowers(sb: bv32, x: bv32, y: bv32)
    requires sb <= 8
    requires !Less(Masked(Byte(x), sb), Masked(Byte(y), sb)) && !Less(Masked(Byte(y), sb), Masked(Byte(x), sb))
    ensures Masked(Byte(x), sb) == Masked(Byte(y), sb)
  {
  }

  lemma Rejoin(sb: bv32, x: bv32, y: bv32)
    requires sb <= 8 && Upper(x, sb) == Upper(y, sb) && Masked(x, sb) == Masked(y, sb)
    ensures x == y
  {
  }

  lemma PackedIsByte(pb: bv32, sb: bv32, p: Priority)
    requires pb <= 8 && sb <= 8 && pb + sb <= 8
    ensures Byte(Packed(pb, sb, p)) == Packed(pb, sb, p)
  {
  }

  lemma EncodedIsByte(n: bv32, group: bv32, p: Priority)
    requires 1 <= n <= 8
    ensures Byte(Encode(n, group, p)) == Encode(n, group, p)
  {
    hide Packed, Byte, PreemptBits, SubBits;
    WidthsShareBits(n, group);
    PackedIsByte(PreemptBits(n, group), SubBits(n, group), p);
  }

  lemma EncodedParts(n: bv32, group: bv32, p: Priority)
    requires 1 <= n <= 8
    ensures Parts(SubBits(n, group), Encode(n, group, p)) == Reduced(n, group, p)
  {
    hide Packed, Masked, Upper, PreemptBits, SubBits;
    Unpack(PreemptBits(n, group), SubBits(n, group), p);
  }

  /** Encoded priorities compare exactly as their reduced parts do, pre-emption first. */
  lemma EncodeOrders(n: bv32, group: bv32, p: Priority, q: Priority)
    requires 1 <= n <= 8
    ensures Less(Encode(n, group, p), Encode(n, group, q)) <==> Before(Reduced(n, group, p), Reduced(n, group, q))
  {
    hide *;
    EncodedIsByte(n, group, p);
    EncodedIsByte(n, group, q);
    EncodedParts(n, group, p);
    EncodedParts(n, group, q);
    BytesOrder(SubBits(n, group), Encode(n, group, p), Encode(n, group, q));
  }

  // ---- The vendor library's packing ----

  /** `NVIC_Init`'s shift count `0x4 - ((0x700 - (AIRCR & 0x700)) >> 8)`, in 32-bit arithmetic. */
  function InitShift(aircr: bv32): bv32 {
    4 - ((0x700 - (aircr & 0x700)) >> 8)
  }

  function Grouping(aircr: bv32): bv32 {
    (aircr & 0x700) >> 8
  }

  /** The shift is meaningful exactly for groupings three to seven; the reset value zero is not among them. */
  lemma ShiftDefined(aircr: bv32)
    ensures InitShift(aircr) < 32 <==> 3 <= Grouping(aircr)
  {
  }

  /** Under the reset grouping the shift count is minus three. */
  lemma ResetGroupingShift()
    ensures Grouping(0xFA05_0000) == 0 && InitShift(0xFA05_0000) == 0xFFFF_FFFD
  {
  }

  /** The priority byte that `NVIC_Init` computes. */
  function InitByte(aircr: bv32, p: Priority): bv32
    requires 3 <= Grouping(aircr)
  {
    ShiftDefined(aircr);
    var code := (0x700 - (aircr & 0x700)) >> 8;
    var preempt := p.preempt << InitShift(aircr);
    ((preempt | (p.sub & ((0x0F as bv32) >> code))) << 4) & 0xFF
  }

  /** The priority byte that `NVIC_SetPriority` stores. */
  function SetByte(priority: bv32): bv32 {
    (priority << 4) & 0xFF
  }

  /** What `NVIC_GetPriority` returns for a stored byte. */
  function GetByte(b: bv32): bv32 {
    b >> 4
  }

  /**
   * The two libraries agree on every grouping that the first one supports and on all values, although
   * `NVIC_Init` never masks the pre-emption value.
   */
  lemma LibrariesAgree(aircr: bv32, p: Priority)
    requires 3 <= Grouping(aircr)
    ensures InitByte(aircr, p) == SetByte(Encode(4, Grouping(aircr), p))
  {
  }

  // ---- The registers ----

  /** The priority bytes of the 240 external interrupts, their enable bits, and the word that holds the grouping. */
  datatype Regs = Regs(ip: seq<bv8>, enabled: seq<bv32>, aircr: bv32)
  {
    predicate Valid() {
      |ip| == 240 && |enabled| == 8
    }
  }

  /** The register word that holds the enable bit of an interrupt, its bit there, and its priority byte. */
  function WordOf(irq: bv32): (i: nat)
    requires irq < 240
    ensures i < 8
  {
    (irq >> 5) as int
  }

  function Line(irq: bv32): (n: bv32)
    ensures n < 32
  {
    irq & 0x1F
  }

  function ByteOf(irq: bv32): (i: nat)
    requires irq < 240
    ensures i < 240
  {
    irq as int
  }

  lemma SameLine(irq: bv32, other: bv32)
    requires irq < 240 && other < 240 && WordOf(irq) == WordOf(other) && Line(irq) == Line(other)
    ensures irq == other
  {
    assert irq >> 5 == other >> 5;
  }

  lemma DistinctLines(irq: bv32, other: bv32)
    requires irq < 240 && other < 240 && WordOf(irq) == WordOf(other) && irq != other
    ensures Line(irq) != Line(other)
  {
    if Line(irq) == Line(other) {
      SameLine(irq, other);
    }
  }

  lemma SameByte(irq: bv32, other: bv32)
    requires irq < 240 && other < 240 && ByteOf(irq) == ByteOf(other)
    ensures irq == other
  {
  }

  predicate Enabled(s: Regs, irq: bv32)
    requires s.Valid() && irq < 240
  {
    Has(s.enabled[WordOf(irq)], Line(irq))
  }

  function PriorityByte(s: Regs, irq: bv32): bv8
    requires s.Valid() && irq < 240
  {
    s.ip[ByteOf(irq)]
  }

  /** A word cut to the byte register it is stored in. */
  function Stored(x: bv32): bv8 {
    (x & 0xFF) as bv8
  }

  function WithEnabled(s: Regs, irq: bv32, on: bool): Regs
    requires s.Valid() && irq < 240
  {
    s.(enabled := s.enabled[WordOf(irq) := WithBit(s.enabled[WordOf(irq)], Line(irq), on)])
  }

  lemma EnabledSet(s: Regs, irq: bv32, on: bool, other: bv32)
    requires s.Valid() && irq < 240 && other < 240
    ensures Enabled(WithEnabled(s, irq, on), other) == if other == irq then on else Enabled(s, other)
  {
    hide Has, WithBit, WordOf, Line;
    if WordOf(other) == WordOf(irq) {
      WithBitHas(s.enabled[WordOf(irq)], Line(irq), on, Line(other));
      if other != irq {
        DistinctLines(irq, other);
      }
    }
  }

  // ---- Calls, and runs of calls ----

  /** AIRCR after `NVIC_PriorityGroupConfig` with `NVIC_PriorityGroup_k`. */
  function GroupConfigured(k: bv32): bv32
    requires k <= 4
  {
    0x05FA_0000 | ((7 - k) << 8)
  }

  /** AIRCR after `NVIC_SetPriorityGrouping`. */
  function GroupSet(aircr: bv32, group: bv32): bv32 {
    (aircr & 0x0000_F8FF) | 0x05FA_0000 | ((group & 7) << 8)
  }

  datatype Call =
    | Init(irq: bv32, priority: Priority, enable: bool)
    | SetPriority(irq: bv32, code: bv32)
    | EnableIRQ(irq: bv32)
    | DisableIRQ(irq: bv32)
    | PriorityGroupConfig(k: bv32)
    | SetPriorityGrouping(group: bv32)
  {
    /** The call has a meaning under this grouping. */
    predicate Admissible(aircr: bv32) {
      match this
      case Init(irq, _, enable) => irq < 240 && (enable ==> 3 <= Grouping(aircr))
      case PriorityGroupConfig(k) => k <= 4
      case SetPriorityGrouping(_) => true
      case _ => irq < 240
    }

    predicate Regroups() {
      PriorityGroupConfig? || SetPriorityGrouping?
    }

    /** Writes the priority byte of interrupt `n`: a disabling `NVIC_Init` does not. */
    predicate SetsPriority(n: bv32) {
      (SetPriority? || (Init? && enable)) && irq == n
    }

    predicate Switches(n: bv32) {
      (Init? || EnableIRQ? || DisableIRQ?) && irq == n
    }

    function On(): bool {
      EnableIRQ? || (Init? && enable)
    }

    /** The priority byte that the call writes. */
    function Written(aircr: bv32): bv8
      requires Admissible(aircr)
    {
      match this
      case Init(_, p, true) => Stored(InitByte(aircr, p))
      case SetPriority(_, code) => Stored(SetByte(code))
      case _ => 0
    }

    /** The word that the call leaves in AIRCR. */
    function Regrouped(aircr: bv32): bv32
      requires Admissible(aircr)
    {
      match this
      case PriorityGroupConfig(k) => GroupConfigured(k)
      case SetPriorityGrouping(group) => GroupSet(aircr, group)
      case _ => aircr
    }

    /** The grouping that the call asks for. */
    function Group(): bv32 {
      match this
      case PriorityGroupConfig(k) => 7 - k
      case SetPriorityGrouping(group) => group & 7
      case _ => 0
    }
  }

  /** The registers after a call. */
  function Applied(s: Regs, call: Call): Regs
    requires s.Valid() && call.Admissible(s.aircr)
  {
    if call.Regroups() then s.(aircr := call.Regrouped(s.aircr))
    else if call.Switches(call.irq) then WithEnabled(WithByte(s, call), call.irq, call.On())
    else WithByte(s, call)
  }

  /** The priority byte of the call's interrupt, if the call sets it. */
  function WithByte(s: Regs, call: Call): (t: Regs)
    requires s.Valid() && call.Admissible(s.aircr) && !call.Regroups()
    ensures t.Valid() && t.enabled == s.enabled && t.aircr == s.aircr
  {
    if call.SetsPriority(call.irq) then s.(ip := s.ip[ByteOf(call.irq) := call.Written(s.aircr)]) else s
  }

  /** A call, and the word that AIRCR held when it was made. */
  datatype Made = Made(call: Call, aircr: bv32)
  {
    function Byte(): bv8 {
      if call.Admissible(aircr) then call.Written(aircr) else 0
    }
  }

  ghost predicate IsRun(trace: seq<Regs>, made: seq<Made>) {
    && |trace| == |made| + 1
    && (forall i | 0 <= i < |trace| :: trace[i].Valid())
    && (forall i | 0 <= i < |made| :: IsStep(trace[i], made[i], trace[i + 1]))
  }

  predicate IsStep(s: Regs, m: Made, s': Regs)
    requires s.Valid()
  {
    m.aircr == s.aircr && m.call.Admissible(s.aircr) && s' == Applied(s, m.call)
  }

  function Setting(n: bv32): Made -> bool {
    (m: Made) => m.call.SetsPriority(n)
  }

  function Switching(n: bv32): Made -> bool {
    (m: Made) => m.call.Switches(n)
  }

  function Regrouping(): Made -> bool {
    (m: Made) => m.call.Regroups()
  }

  /** An interrupt is enabled after any run exactly if the last call that switches it turned it on. */
  lemma LastSwitchWins(trace: seq<Regs>, made: seq<Made>, n: bv32)
    requires n < 240 && IsRun(trace, made)
    ensures Enabled(trace[|made|], n) ==
            match Last(made, Switching(n))
            case Some(m) => m.call.On()
            case None => Enabled(trace[0], n)
  {
    hide Has, Applied, Enabled, Grouping;
    var observe := (s: Regs) => s.Valid() && Enabled(s, n);
    var written := (m: Made) => m.call.On();
    forall i | 0 <= i < |made|
      ensures observe(trace[i + 1]) == if Switching(n)(made[i]) then written(made[i]) else observe(trace[i])
    {
      assert IsStep(trace[i], made[i], trace[i + 1]);
      AppliedEnabled(trace[i], made[i].call, n);
    }
    LastWriterWins(trace, made, Switching(n), written, observe);
  }

  lemma AppliedEnabled(s: Regs, call: Call, n: bv32)
    requires s.Valid() && call.Admissible(s.aircr) && n < 240
    ensures Applied(s, call).Valid()
    ensures Enabled(Applied(s, call), n) == if call.Switches(n) then call.On() else Enabled(s, n)
  {
    hide Enabled, WithEnabled, WithByte, Grouping, GroupConfigured, GroupSet;
    if call.Regroups() {
      SameEnabled(s, Applied(s, call), n);
    } else {
      var t := WithByte(s, call);
      SameEnabled(s, t, n);
      SwitchedEnabled(t, call.irq, call.On(), n);
    }
  }

  lemma SwitchedEnabled(s: Regs, irq: bv32, on: bool, n: bv32)
    requires s.Valid() && irq < 240 && n < 240
    ensures WithEnabled(s, irq, on).Valid()
    ensures Enabled(WithEnabled(s, irq, on), n) == if n == irq then on else Enabled(s, n)
  {
    hide Has, WithBit, WordOf, Line, Enabled;
    EnabledSet(s, irq, on, n);
  }

  lemma SameEnabled(s: Regs, t: Regs, n: bv32)
    requires s.Valid() && t.Valid() && n < 240 && s.enabled == t.enabled
    ensures Enabled(s, n) == Enabled(t, n)
  {
  }

  lemma AppliedPriority(s: Regs, call: Call, n: bv32)
    requires s.Valid() && call.Admissible(s.aircr) && n < 240
    ensures Applied(s, call).Valid()
    ensures PriorityByte(Applied(s, call), n) ==
            if call.SetsPriority(n) then call.Written(s.aircr) else PriorityByte(s, n)
  {
    hide Has, WithBit, InitByte, SetByte, Stored, Grouping, Line, WordOf, ByteOf, GroupConfigured, GroupSet;
    if !call.Regroups() && ByteOf(call.irq) == ByteOf(n) {
      SameByte(call.irq, n);
    }
  }

  /**
   * An interrupt's priority byte is the one the last setting call wrote, whichever library it came from, computed
   * under the grouping at the time of that call: a later change of the grouping does not convert it.
   */
  lemma LastPriorityWins(trace: seq<Regs>, made: seq<Made>, n: bv32)
    requires n < 240 && IsRun(trace, made)
    ensures match Last(made, Setting(n))
            case Some(m) => m.call.Admissible(m.aircr) && PriorityByte(trace[|made|], n) == m.call.Written(m.aircr)
            case None => PriorityByte(trace[|made|], n) == PriorityByte(trace[0], n)
  {
    hide Has, Applied, PriorityByte, Grouping, InitByte, SetByte, Stored;
    var observe := (s: Regs) => if s.Valid() then PriorityByte(s, n) else PriorityByte(trace[0], n);
    var written := (m: Made) => m.Byte();
    forall i | 0 <= i < |made|
      ensures observe(trace[i + 1]) == if Setting(n)(made[i]) then written(made[i]) else observe(trace[i])
    {
      assert IsStep(trace[i], made[i], trace[i + 1]);
      AppliedPriority(trace[i], made[i].call, n);
    }
    LastWriterWins(trace, made, Setting(n), written, observe);
    if m :| Last(made, Setting(n)) == Some(m) {
      var i :| 0 <= i < |made| && made[i] == m;
      assert IsStep(trace[i], made[i], trace[i + 1]);
    }
  }

  /** The grouping is the one that the last regrouping call of either library asked for. */
  lemma LastGroupingWins(trace: seq<Regs>, made: seq<Made>)
    requires IsRun(trace, made)
    ensures Grouping(trace[|made|].aircr) ==
            match Last(made, Regrouping())
            case Some(m) => m.call.Group()
            case None => Grouping(trace[0].aircr)
  {
    hide Applied, Grouping;
    var observe := (s: Regs) => Grouping(s.aircr);
    var written := (m: Made) => m.call.Group();
    forall i | 0 <= i < |made|
      ensures observe(trace[i + 1]) == if Regrouping()(made[i]) then written(made[i]) else observe(trace[i])
    {
      assert IsStep(trace[i], made[i], trace[i + 1]);
      AppliedGrouping(trace[i], made[i].call);
    }
    LastWriterWins(trace, made, Regrouping(), written, observe);
  }

  lemma AppliedGrouping(s: Regs, call: Call)
    requires s.Valid() && call.Admissible(s.aircr)
    ensures Grouping(Applied(s, call).aircr) == if call.Regroups() then call.Group() else Grouping(s.aircr)
  {
    hide InitByte, SetByte, Stored, Grouping, WithEnabled, GroupConfigured, GroupSet;
    match call
    case PriorityGroupConfig(k) => ConfiguredGrouping(k);
    case SetPriorityGrouping(group) => SetGrouping(s.aircr, group);
    case _ => WithEnabledKeeps(s, call);
  }

  lemma WithEnabledKeeps(s: Regs, call: Call)
    requires s.Valid() && call.Admissible(s.aircr) && !call.Regroups()
    ensures Applied(s, call).aircr == s.aircr
  {
    hide InitByte, SetByte, Stored, Grouping, WithBit;
  }

  lemma ConfiguredGrouping(k: bv32)
    requires k <= 4
    ensures Grouping(GroupConfigured(k)) == 7 - k
  {
  }

  lemma SetGrouping(aircr: bv32, group: bv32)
    ensures Grouping(GroupSet(aircr, group)) == group & 7
  {
  }

  /** The word written: the key without which the hardware ignores it, and the grouping in bits 8 to 10. */
  lemma KeyedGroup(k: bv32)
    requires k <= 4
    ensures var w := GroupConfigured(k); w & 0xFFFF_F8FF == 0x05FA_0000 && (w >> 8) & 7 == 7 - k
  {
  }

  /** The same for `NVIC_SetPriorityGrouping`, which keeps the other bits of the lower half. */
  lemma KeyedSet(aircr: bv32, group: bv32)
    ensures var w := GroupSet(aircr, group);
            w & 0xFFFF_0000 == 0x05FA_0000 && (w >> 8) & 7 == group & 7 && w & 0xF8FF == aircr & 0xF8FF
  {
  }

  // ---- From the call to the priority the hardware compares ----

  /** `NVIC_GetPriority` reads back what `NVIC_SetPriority` was given, cut to four bits. */
  lemma GetAfterSet(code: bv32)
    ensures GetByte(Stored(SetByte(code)) as bv32) == Masked(code, 4)
  {
  }

  lemma EncodedInFourBits(group: bv32, p: Priority)
    ensures Masked(Encode(4, group, p), 4) == Encode(4, group, p)
  {
  }

  /** What `NVIC_Init` sets is read back and decoded to the two values, as far as the grouping holds them. */
  lemma InitReadsBack(aircr: bv32, p: Priority)
    requires 3 <= Grouping(aircr)
    ensures Decode(4, Grouping(aircr), GetByte(Stored(InitByte(aircr, p)) as bv32)) == Reduced(4, Grouping(aircr), p)
  {
    hide *;
    LibrariesAgree(aircr, p);
    GetAfterSet(Encode(4, Grouping(aircr), p));
    EncodedInFourBits(Grouping(aircr), p);
    DecodeEncode(4, Grouping(aircr), p);
  }

  /** The bytes two `NVIC_Init` calls store compare as the requested pairs do. */
  lemma InitOrders(aircr: bv32, p: Priority, q: Priority)
    requires 3 <= Grouping(aircr)
    ensures Stored(InitByte(aircr, p)) < Stored(InitByte(aircr, q)) <==>
            Before(Reduced(4, Grouping(aircr), p), Reduced(4, Grouping(aircr), q))
  {
    hide *;
    LibrariesAgree(aircr, p);
    LibrariesAgree(aircr, q);
    EncodedInFourBits(Grouping(aircr), p);
    EncodedInFourBits(Grouping(aircr), q);
    ShiftedOrder(Encode(4, Grouping(aircr), p), Encode(4, Grouping(aircr), q));
    EncodeOrders(4, Grouping(aircr), p, q);
  }

  lemma ShiftedOrder(x: bv32, y: bv32)
    requires Masked(x, 4) == x && Masked(y, 4) == y
    ensures Stored(SetByte(x)) < Stored(SetByte(y)) <==> Less(x, y)
  {
  }

  /** Grouping as the library names it: `NVIC_PriorityGroup_k` has `k` bits of pre-emption priority. */
  lemma LibraryGroups(k: bv32)
    requires k <= 4
    ensures var aircr := GroupConfigured(k);
            && Grouping(aircr) == 7 - k
            && PreemptBits(4, Grouping(aircr)) == k && SubBits(4, Grouping(aircr)) == 4 - k
  {
  }

  /** Setting `code` would store the implemented bits of `b`; if setting `x` stored `b`, `code` is `x` in four bits. */
  ghost predicate IsCodeOf(code: bv32, b: bv8) {
    && SetByte(code) == (b as bv32) & 0xF0
    && forall x: bv32 | Stored(SetByte(x)) == b :: code == Masked(x, 4)
  }

  lemma GotCode(b: bv8)
    ensures GetByte(b as bv32) <= 0xF && IsCodeOf(GetByte(b as bv32), b)
  {
    GotBits(b);
    forall x: bv32 | Stored(SetByte(x)) == b
      ensures GetByte(b as bv32) == Masked(x, 4)
    {
      GetAfterSet(x);
    }
  }

  lemma GotBits(b: bv8)
    ensures GetByte(b as bv32) <= 0xF && SetByte(GetByte(b as bv32)) == (b as bv32) & 0xF0
  {
  }

  /** The interrupt's bit in its word, as a remainder. */
  function EnableBit(irq: bv32): bv32
    requires irq < 240
  {
    (1 as bv32) << (irq % 32)
  }

  /** Thirty-two enable bits to a word, and one priority byte to an interrupt. */
  lemma RegisterPlaces(irq: bv32)
    requires irq < 240
    ensures WordOf(irq) == irq as int / 32 < 8 && ByteOf(irq) == irq as int
  {
  }

  /** `w | bit` or `w & ~bit`. */
  function Switched(w: bv32, bit: bv32, on: bool): bv32 {
    if on then w | bit else w & !bit
  }

  lemma SwitchedWord(w: bv32, irq: bv32, on: bool)
    requires irq < 240
    ensures WithBit(w, Line(irq), on) == Switched(w, EnableBit(irq), on)
  {
    SameBit(irq);
    SwitchedBy(w, Line(irq), on);
    hide Bit, Line, EnableBit, Switched, WithBit;
  }

  lemma SwitchedBy(w: bv32, n: bv32, on: bool)
    requires n < 32
    ensures WithBit(w, n, on) == Switched(w, Bit(n), on)
  {
    hide Bit;
  }

  lemma SameBit(irq: bv32)
    requires irq < 240
    ensures Bit(Line(irq)) == EnableBit(irq)
  {
    assert Line(irq) == irq % 32;
  }

  lemma EnabledWord(s: Regs, irq: bv32, on: bool)
    requires s.Valid() && irq < 240
    ensures irq as int / 32 < 8
    ensures var i := irq as int / 32;
            WithEnabled(s, irq, on) == s.(enabled := s.enabled[i := Switched(s.enabled[i], EnableBit(irq), on)])
  {
    RegisterPlaces(irq);
    SwitchedWord(s.enabled[WordOf(irq)], irq, on);
    hide WithBit, Line, WordOf, EnableBit, Switched;
  }

  /** System handler `IRQn`, from minus twelve on, has byte `IRQn + 12`. */
  lemma HandlerPlaces(irq: bv32)
    requires irq >= 0xFFFF_FFF4
    ensures HandlerOf(irq) == irq as int - 0xFFFF_FFF4 < 12
  {
  }

  /** The stored byte is sixteen times the value cut to four bits. */
  lemma StoredValue(code: bv32)
    ensures Stored(SetByte(code)) == ((code & 0xF) as bv8) * 16
  {
  }

  // ---- The interrupt controller ----

  class Controller {
    const ip: array<bv8>
    /** The enable bits, as the set-enable and clear-enable registers read. */
    const enabled: array<bv32>
    /** The priority bytes of the system handlers. */
    const shp: array<bv8>
    var aircr: bv32

    constructor ()
      ensures Valid() && fresh(ip) && fresh(enabled) && fresh(shp)
    {
      ip := new bv8[240];
      enabled := new bv32[8];
      shp := new bv8[12];
    }

    ghost predicate Valid() {
      ip.Length == 240 && enabled.Length == 8 && shp.Length == 12 && ip != shp
    }

    ghost function View(): (s: Regs)
      requires Valid()
      reads this, ip, enabled
      ensures s.Valid()
    {
      Regs(ip[..], enabled[..], aircr)
    }

    /** A write to a set-enable register: ones set, zeros change nothing. */
    method WriteIser(i: nat, v: bv32)
      requires Valid() && i < 8
      modifies enabled
      ensures enabled[..] == old(enabled[..])[i := Switched(old(enabled[i]), v, true)]
    {
      enabled[i] := enabled[i] | v;
    }

    /** A write to a clear-enable register: ones clear. */
    method WriteIcer(i: nat, v: bv32)
      requires Valid() && i < 8
      modifies enabled
      ensures enabled[..] == old(enabled[..])[i := Switched(old(enabled[i]), v, false)]
    {
      enabled[i] := enabled[i] & !v;
    }

    method WriteIp(irq: bv32, b: bv8)
      requires Valid() && irq < 240
      modifies ip
      ensures ip[..] == old(ip[..])[ByteOf(irq) := b]
    {
      ip[ByteOf(irq)] := b;
    }

    /** `NVIC_PriorityGroupConfig` with `NVIC_PriorityGroup_k`. */
    method PriorityGroupConfig(k: bv32)
      requires Valid() && k <= 4
      modifies this`aircr
      ensures View() == Applied(old(View()), Call.PriorityGroupConfig(k))
      ensures PreemptBits(4, Grouping(aircr)) == k && SubBits(4, Grouping(aircr)) == 4 - k
      ensures aircr & 0xFFFF_F8FF == 0x05FA_0000 && (aircr >> 8) & 7 == 7 - k
    {
      KeyedGroup(k);
      hide GroupConfigured, Grouping, PreemptBits, SubBits;
      LibraryGroups(k);
      aircr := GroupConfigured(k);
    }

    /** `NVIC_SetPriorityGrouping`. */
    method SetPriorityGrouping(group: bv32)
      requires Valid()
      modifies this`aircr
      ensures View() == Applied(old(View()), Call.SetPriorityGrouping(group))
      ensures Grouping(aircr) == group & 7
      ensures aircr & 0xFFFF_0000 == 0x05FA_0000 && (aircr >> 8) & 7 == group & 7
      ensures aircr & 0xF8FF == old(aircr) & 0xF8FF
    {
      SetGrouping(aircr, group);
      KeyedSet(aircr, group);
      hide GroupSet, Grouping;
      aircr := GroupSet(aircr, group);
    }

    /** `NVIC_EnableIRQ`. */
    method Enable(irq: bv32)
      requires Valid() && irq < 240
      modifies enabled
      ensures View() == WithEnabled(old(View()), irq, true)
      ensures irq as int / 32 < 8
      ensures enabled[..] == old(enabled[..])[
                irq as int / 32 := Switched(old(enabled[irq as int / 32]), EnableBit(irq), true)]
    {
      EnabledWord(View(), irq, true);
      SwitchedBy(enabled[WordOf(irq)], Line(irq), true);
      hide Bit, Line, WordOf, EnableBit, Switched, WithBit;
      WriteIser(WordOf(irq), Bit(Line(irq)));
    }

    /** `NVIC_DisableIRQ`. */
    method Disable(irq: bv32)
      requires Valid() && irq < 240
      modifies enabled
      ensures View() == WithEnabled(old(View()), irq, false)
      ensures irq as int / 32 < 8
      ensures enabled[..] == old(enabled[..])[
                irq as int / 32 := Switched(old(enabled[irq as int / 32]), EnableBit(irq), false)]
    {
      EnabledWord(View(), irq, false);
      SwitchedBy(enabled[WordOf(irq)], Line(irq), false);
      hide Bit, Line, WordOf, EnableBit, Switched, WithBit;
      WriteIcer(WordOf(irq), Bit(Line(irq)));
    }

    /** `NVIC_SetPriority`; a negative number (two's complement) names a system handler from minus twelve on. */
    method SetPriority(irq: bv32, code: bv32)
      requires Valid() && (irq < 240 || irq >= 0xFFFF_FFF4)
      modifies ip, shp
      ensures irq < 240 ==> shp[..] == old(shp[..]) && ip[..] == old(ip[..])[irq as int := Stored(SetByte(code))]
      ensures irq >= 240 ==>
                ip[..] == old(ip[..]) && shp[..] == old(shp[..])[irq as int - 0xFFFF_FFF4 := Stored(SetByte(code))]
    {
      if irq >= 0x8000_0000 {
        shp[HandlerOf(irq)] := Stored(SetByte(code));
      } else {
        ip[ByteOf(irq)] := Stored(SetByte(code));
      }
    }

    /** `NVIC_GetPriority`: the four implemented bits, which is what was set, cut to four bits. */
    method GetPriority(irq: bv32) returns (code: bv32)
      requires Valid() && (irq < 240 || irq >= 0xFFFF_FFF4)
      ensures code <= 0xF
      ensures irq < 240 ==> IsCodeOf(code, ip[irq as int])
      ensures irq >= 240 ==> IsCodeOf(code, shp[irq as int - 0xFFFF_FFF4])
    {
      if irq < 240 {
        RegisterPlaces(irq);
      } else {
        HandlerPlaces(irq);
      }
      hide IsCodeOf, ByteOf, HandlerOf, GetByte;
      if irq >= 0x8000_0000 {
        code := GetByte(shp[HandlerOf(irq)] as bv32);
        GotCode(shp[HandlerOf(irq)]);
      } else {
        code := GetByte(ip[ByteOf(irq)] as bv32);
        GotCode(ip[ByteOf(irq)]);
      }
    }

    /** The enabling branch of `NVIC_Init`. */
    method Configure(irq: bv32, p: Priority)
      requires Valid() && irq < 240 && 3 <= Grouping(aircr)
      modifies ip, enabled
      ensures View() == Applied(old(View()), Call.Init(irq, p, true))
      ensures ip[..] == old(ip[..])[irq as int := Stored(InitByte(aircr, p))]
      ensures irq as int / 32 < 8
      ensures enabled[..] == old(enabled[..])[
                irq as int / 32 := Switched(old(enabled[irq as int / 32]), EnableBit(irq), true)]
    {
      RegisterPlaces(irq);
      hide Stored, InitByte, Grouping, ByteOf, EnableBit, Switched;
      WriteIp(irq, Stored(InitByte(aircr, p)));
      Enable(irq);
    }

    /**
     * `NVIC_Init`. Enabling needs a grouping for which its shift is defined; disabling leaves the priority
     * alone. Its writes to the enable registers are those of the two methods above.
     */
    method Init(irq: bv32, p: Priority, enable: bool)
      requires Valid() && irq < 240 && (enable ==> 3 <= Grouping(aircr))
      modifies ip, enabled
      ensures enable ==> View() == Applied(old(View()), Call.Init(irq, p, true))
      ensures !enable ==> View() == WithEnabled(old(View()), irq, false)
      ensures ip[..] == if enable then old(ip[..])[irq as int := Stored(InitByte(aircr, p))] else old(ip[..])
      ensures irq as int / 32 < 8
      ensures var word := old(enabled[irq as int / 32]);
              enabled[..] == old(enabled[..])[
                irq as int / 32 := Switched(word, EnableBit(irq), enable)]
    {
      hide WithEnabled, Applied, EnableBit, Switched, Grouping, InitByte, Stored, WordOf, Line;
      if enable {
        Configure(irq, p);
      } else {
        Disable(irq);
      }
    }

    /** The vendor call is the CMSIS pair: encode and set the priority, then enable. */
    method InitByCmsis(irq: bv32, p: Priority)
      requires Valid() && irq < 240 && 3 <= Grouping(aircr)
      modifies ip, shp, enabled
      ensures View() == Applied(old(View()), Call.Init(irq, p, true))
      ensures shp[..] == old(shp[..])
    {
      LibrariesAgree(aircr, p);
      SetPriority(irq, Encode(4, Grouping(aircr), p));
      Enable(irq);
    }
  }

  /** `(IRQn & 0xF) - 4`. */
  function HandlerOf(irq: bv32): (i: nat)
    requires irq >= 0xFFFF_FFF4
    ensures i < 12
  {
    ((irq & 0xF) - 4) as int
  }
}

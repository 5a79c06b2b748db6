/** GPIO port configuration: two bit-scanning loops over packed nibbles, as one per-pin map update. */
module Gpio {
  import opened Bits
  import opened Runs

  datatype Mode = AIN | IN_FLOATING | IPD | IPU | Out_OD | Out_PP | AF_OD | AF_PP {
    /** The values of `GPIOMode_TypeDef`. */
    function Code(): bv32 {
      match this
      case AIN => 0x00
      case IN_FLOATING => 0x04
      case IPD => 0x28
      case IPU => 0x48
      case Out_OD => 0x14
      case Out_PP => 0x10
      case AF_OD => 0x1C
      case AF_PP => 0x18
    }

    predicate Pulls() {
      IPD? || IPU?
    }

    predicate IsOutput() {
      Out_OD? || Out_PP? || AF_OD? || AF_PP?
    }
  }

  datatype Speed = Speed10MHz | Speed2MHz | Speed50MHz {
    function Code(): bv32 {
      match this
      case Speed10MHz => 1
      case Speed2MHz => 2
      case Speed50MHz => 3
    }
  }

  /** `GPIO_InitTypeDef`. */
  datatype Config = Config(pins: bv16, speed: Speed, mode: Mode) {
    predicate Selects(p: bv32)
      requires p < 16
    {
      Has(pins as bv32, p)
    }

    predicate Pulls(p: bv32)
      requires p < 16
    {
      Selects(p) && mode.Pulls()
    }
  }

  /** The CNF/MODE nibble of pin `p`. */
  function PortMode(crl: bv32, crh: bv32, p: bv32): bv32
    requires p < 16
  {
    if p < 8 then Nibble(crl, p) else Nibble(crh, p - 8)
  }

  datatype Regs = Regs(crl: bv32, crh: bv32, odr: bv32) {
    /** The CNF/MODE nibble of pin `p`. */
    function Nibble(p: bv32): bv32
      requires p < 16
    {
      PortMode(crl, crh, p)
    }

    predicate Output(p: bv32)
      requires p < 16
    {
      Has(odr, p)
    }
  }

  /** `currentmode` as `GPIO_Init` computes it before its loops. */
  function ModeBits(mode: Mode, speed: Speed): (r: bv32)
    ensures r <= 0xF
  {
    if mode.Code() & 0x10 != 0 then (mode.Code() & 0xF) | speed.Code() else mode.Code() & 0xF
  }

  /** Pin `p`'s nibble is the new mode when selected, and otherwise what it was. */
  ghost predicate NibbleUpdated(lo: bv32, hi: bv32, pins: bv32, m: bv32, lo': bv32, hi': bv32, p: bv32)
    requires p < 16
  {
    if Has(pins, p) then PortMode(lo', hi', p) == m else PortMode(lo', hi', p) == PortMode(lo, hi, p)
  }

  /** Pin `p`'s output bit is pulled to `level` when selected, and otherwise what it was. */
  ghost predicate OutputUpdated(o: bv32, pins: bv32, pull: bool, level: bool, o': bv32, p: bv32)
    requires p < 16
  {
    Has(o', p) == if pull && Has(pins, p) then level else Has(o, p)
  }

  /** What one call means for pin `p`. */
  ghost predicate ConfiguredAt(before: Regs, c: Config, after: Regs, p: bv32)
    requires p < 16
  {
    && NibbleUpdated(before.crl, before.crh, c.pins as bv32, ModeBits(c.mode, c.speed), after.crl, after.crh, p)
    && OutputUpdated(before.odr, c.pins as bv32, c.mode.Pulls(), c.mode.IPU?, after.odr, p)
  }

  /** The per-pin meaning of one call: the specification the two loops refine. */
  ghost predicate Configured(before: Regs, c: Config, after: Regs) {
    forall p: bv32 | p < 16 :: ConfiguredAt(before, c, after, p)
  }

  // ---- The loops, as folds over the pins scanned so far ----

  /** A control register after the loop has visited pins `base .. base + k`. */
  function ScanMode(r: bv32, pins: bv32, base: bv32, m: bv32, k: bv32): bv32
    requires k <= 8 && base <= 8
    decreases k
  {
    if k == 0 then r
    else
      var s := ScanMode(r, pins, base, m, k - 1);
      if Has(pins, base + (k - 1)) then PutNibble(s, k - 1, m) else s
  }

  /** The output register after the loop has visited pins `base .. base + k`. */
  function ScanOutput(r: bv32, pins: bv32, base: bv32, pull: bool, level: bool, k: bv32): bv32
    requires k <= 8 && base <= 8
    decreases k
  {
    if k == 0 then r
    else
      var s := ScanOutput(r, pins, base, pull, level, k - 1);
      if !pull || !Has(pins, base + (k - 1)) then s
      else if level then Set(s, base + (k - 1))
      else Clear(s, base + (k - 1))
  }

  lemma {:induction false} ScanNibble(r: bv32, pins: bv32, base: bv32, m: bv32, k: bv32, q: bv32)
    requires k <= 8 && base <= 8 && m <= 0xF && q < 8
    ensures if q < k && Has(pins, base + q) then Nibble(ScanMode(r, pins, base, m, k), q) == m
            else Nibble(ScanMode(r, pins, base, m, k), q) == Nibble(r, q)
    decreases k
  {
    if k != 0 {
      ScanNibble(r, pins, base, m, k - 1, q);
      if q == k - 1 {
        NibblePut(ScanMode(r, pins, base, m, k - 1), q, m);
      } else {
        NibbleKept(ScanMode(r, pins, base, m, k - 1), k - 1, m, q);
      }
    }
  }

  lemma {:induction false} ScanOutputAt(
    r: bv32, pins: bv32, base: bv32, pull: bool, level: bool, k: bv32, q: bv32)
    requires k <= 8 && base <= 8 && q < 16
    ensures Has(ScanOutput(r, pins, base, pull, level, k), q) ==
            if pull && base <= q < base + k && Has(pins, q) then level else Has(r, q)
    decreases k
  {
    if k != 0 {
      ScanOutputAt(r, pins, base, pull, level, k - 1, q);
      var s := ScanOutput(r, pins, base, pull, level, k - 1);
      SetHas(s, base + (k - 1), q);
      ClearHas(s, base + (k - 1), q);
    }
  }

  /** One iteration extends both folds by its pin. */
  lemma ScanStep(r: bv32, o: bv32, pins: bv32, base: bv32, mode: Mode, m: bv32, k: bv32)
    requires k < 8 && base <= 8
    ensures var s, t := ScanMode(r, pins, base, m, k), ScanMode(r, pins, base, m, k + 1);
            t == if Has(pins, base + k) then PutNibble(s, k, m) else s
    ensures var pull, level := mode.Pulls(), mode.IPU?;
            var s, t := ScanOutput(o, pins, base, pull, level, k), ScanOutput(o, pins, base, pull, level, k + 1);
            t == if !pull || !Has(pins, base + k) then s else if level then Set(s, base + k) else Clear(s, base + k)
  {
    assert k + 1 - 1 == k;
  }

  /** What a loop does to its control register: `base` is the port pin of its first nibble. */
  ghost predicate ModeLoop(r: bv32, pins: bv32, base: bv32, m: bv32, r': bv32)
    requires base <= 8
  {
    forall q: bv32 | q < 8 :: if Has(pins, base + q) then Nibble(r', q) == m else Nibble(r', q) == Nibble(r, q)
  }

  /** What a loop does to the output register when the mode pulls its pins to `level`. */
  ghost predicate OutputLoop(o: bv32, pins: bv32, base: bv32, pull: bool, level: bool, o': bv32)
    requires base <= 8
  {
    forall p: bv32 | p < 16 :: Has(o', p) == if pull && base <= p < base + 8 && Has(pins, p) then level else Has(o, p)
  }

  lemma ModeLoopEnds(r: bv32, pins: bv32, base: bv32, m: bv32, k: bv32)
    requires k == 8 && base <= 8 && m <= 0xF
    ensures ModeLoop(r, pins, base, m, ScanMode(r, pins, base, m, k))
  {
    forall q: bv32 | q < 8
      ensures if Has(pins, base + q) then Nibble(ScanMode(r, pins, base, m, k), q) == m
              else Nibble(ScanMode(r, pins, base, m, k), q) == Nibble(r, q)
    {
      ScanNibble(r, pins, base, m, k, q);
    }
  }

  lemma OutputLoopEnds(o: bv32, pins: bv32, base: bv32, pull: bool, level: bool, k: bv32)
    requires k == 8 && base <= 8
    ensures OutputLoop(o, pins, base, pull, level, ScanOutput(o, pins, base, pull, level, k))
  {
    forall p: bv32 | p < 16
      ensures Has(ScanOutput(o, pins, base, pull, level, k), p) ==
              if pull && base <= p < base + 8 && Has(pins, p) then level else Has(o, p)
    {
      ScanOutputAt(o, pins, base, pull, level, k, p);
    }
  }

  /** A half with no selected pin may as well have been scanned. */
  lemma SkippedHalf(r: bv32, o: bv32, pins: bv32, base: bv32, m: bv32, pull: bool, level: bool)
    requires (base == 0 && pins & 0xFF < 1) || (base == 8 && pins <= 0xFF)
    ensures ModeLoop(r, pins, base, m, r) && OutputLoop(o, pins, base, pull, level, o)
  {
    forall q: bv32 | q < 8
      ensures Nibble(r, q) == if Has(pins, base + q) then m else Nibble(r, q)
    {
      assert !Has(pins, base + q);
    }
  }

  lemma NibbleOfHalves(lo: bv32, hi: bv32, pins: bv32, m: bv32, lo': bv32, hi': bv32, p: bv32)
    requires p < 16 && ModeLoop(lo, pins, 0, m, lo') && ModeLoop(hi, pins, 8, m, hi')
    ensures NibbleUpdated(lo, hi, pins, m, lo', hi', p)
  {
    if p < 8 {
      assert Has(pins, 0 + p) == Has(pins, p);
    } else {
      assert Has(pins, 8 + (p - 8)) == Has(pins, p);
    }
  }

  lemma OutputOfHalves(o: bv32, pins: bv32, pull: bool, level: bool, o': bv32, o'': bv32, p: bv32)
    requires p < 16 && OutputLoop(o, pins, 0, pull, level, o') && OutputLoop(o', pins, 8, pull, level, o'')
    ensures OutputUpdated(o, pins, pull, level, o'', p)
  {
    assert Has(o', p) == if pull && 0 <= p < 0 + 8 && Has(pins, p) then level else Has(o, p);
  }

  /** The two loops together do to each pin exactly what the call asks. */
  lemma HalvesConfigure(before: Regs, c: Config, pins: bv32, m: bv32, middle: bv32, after: Regs)
    requires pins == c.pins as bv32 && m == ModeBits(c.mode, c.speed)
    requires ModeLoop(before.crl, pins, 0, m, after.crl) && ModeLoop(before.crh, pins, 8, m, after.crh)
    requires OutputLoop(before.odr, pins, 0, c.mode.Pulls(), c.mode.IPU?, middle)
    requires OutputLoop(middle, pins, 8, c.mode.Pulls(), c.mode.IPU?, after.odr)
    ensures Configured(before, c, after)
  {
    forall p: bv32 | p < 16
      ensures ConfiguredAt(before, c, after, p)
    {
      NibbleOfHalves(before.crl, before.crh, pins, m, after.crl, after.crh, p);
      OutputOfHalves(before.odr, pins, c.mode.Pulls(), c.mode.IPU?, middle, after.odr, p);
    }
  }

  // ---- Runs of calls, and reading the configuration back ----

  /** A pin's mode, with its speed when it is an output. */
  datatype PinMode = PinMode(mode: Mode, speed: Option<Speed>)

  /** The mode that a pin's nibble and output bit stand for; CNF = 3 with MODE = 0 is reserved. */
  function DecodePin(nibble: bv32, output: bool): Option<PinMode> {
    var cnf := nibble >> 2;
    if nibble & 3 == 0 then
      if cnf == 0 then Some(PinMode(AIN, None))
      else if cnf == 1 then Some(PinMode(IN_FLOATING, None))
      else if cnf == 2 then Some(PinMode(if output then IPU else IPD, None))
      else None
    else
      var speed := if nibble & 3 == 1 then Speed10MHz else if nibble & 3 == 2 then Speed2MHz else Speed50MHz;
      var mode := if cnf == 0 then Out_PP else if cnf == 1 then Out_OD else if cnf == 2 then AF_PP else AF_OD;
      Some(PinMode(mode, Some(speed)))
  }

  /** The configuration a call asks for. */
  function Requested(c: Config): PinMode {
    PinMode(c.mode, if c.mode.IsOutput() then Some(c.speed) else None)
  }

  /** Nibble and pull bit identify the mode, and the speed of an output, although IPU and IPD share a nibble. */
  lemma RequestDecodes(c: Config, output: bool)
    requires c.mode.Pulls() ==> output == c.mode.IPU?
    ensures DecodePin(ModeBits(c.mode, c.speed), output) == Some(Requested(c))
  {
    match c.speed
    case Speed10MHz =>
    case Speed2MHz =>
    case Speed50MHz =>
  }

  /** A run of `GPIO_Init` calls on one port, seen at the call boundaries. */
  ghost predicate IsRun(trace: seq<Regs>, calls: seq<Config>) {
    && |trace| == |calls| + 1
    && forall i | 0 <= i < |calls| :: Configured(trace[i], calls[i], trace[i + 1])
  }

  function Selecting(p: bv32): Config -> bool
    requires p < 16
  {
    (c: Config) => c.Selects(p)
  }

  function Pulling(p: bv32): Config -> bool
    requires p < 16
  {
    (c: Config) => c.Pulls(p)
  }

  lemma RunNibble(trace: seq<Regs>, calls: seq<Config>, p: bv32)
    requires p < 16 && IsRun(trace, calls)
    ensures trace[|calls|].Nibble(p) ==
            match Last(calls, Selecting(p))
            case Some(c) => ModeBits(c.mode, c.speed)
            case None => trace[0].Nibble(p)
  {
    var observe := (s: Regs) => s.Nibble(p);
    var written := (c: Config) => ModeBits(c.mode, c.speed);
    forall i | 0 <= i < |calls|
      ensures observe(trace[i + 1]) == if Selecting(p)(calls[i]) then written(calls[i]) else observe(trace[i])
    {
      assert ConfiguredAt(trace[i], calls[i], trace[i + 1], p);
    }
    LastWriterWins(trace, calls, Selecting(p), written, observe);
  }

  lemma RunOutput(trace: seq<Regs>, calls: seq<Config>, p: bv32)
    requires p < 16 && IsRun(trace, calls)
    ensures trace[|calls|].Output(p) ==
            match Last(calls, Pulling(p))
            case Some(c) => c.mode.IPU?
            case None => trace[0].Output(p)
  {
    var observe := (s: Regs) => s.Output(p);
    var written := (c: Config) => c.mode.IPU?;
    forall i | 0 <= i < |calls|
      ensures observe(trace[i + 1]) == if Pulling(p)(calls[i]) then written(calls[i]) else observe(trace[i])
    {
      assert ConfiguredAt(trace[i], calls[i], trace[i + 1], p);
    }
    LastWriterWins(trace, calls, Pulling(p), written, observe);
  }

  /**
   * After any sequence of calls, a pin that some call selected decodes to exactly the mode (and
   * output speed) of the last call that selected it; any other pin is as it was before the run.
   */
  lemma LastConfigurationWins(trace: seq<Regs>, calls: seq<Config>, p: bv32)
    requires p < 16 && IsRun(trace, calls)
    ensures match Last(calls, Selecting(p))
            case Some(c) => DecodePin(trace[|calls|].Nibble(p), trace[|calls|].Output(p)) == Some(Requested(c))
            case None =>
              trace[|calls|].Nibble(p) == trace[0].Nibble(p) && trace[|calls|].Output(p) == trace[0].Output(p)
  {
    RunNibble(trace, calls, p);
    RunOutput(trace, calls, p);
    match Last(calls, Selecting(p))
    case Some(c) =>
      if c.mode.Pulls() {
        LastOfNarrower(calls, Selecting(p), Pulling(p));
      }
      RequestDecodes(c, trace[|calls|].Output(p));
    case None =>
  }

  class Port {
    var crl: bv32
    var crh: bv32
    var odr: bv32

    function View(): Regs
      reads this
    {
      Regs(crl, crh, odr)
    }

    /** A write to BSRR sets the output bits that are 1 in the value; BRR clears them. */
    method WriteBsrr(n: bv32)
      requires n < 16
      modifies this`odr
      ensures odr == Set(old(odr), n)
    {
      odr := Set(odr, n);
    }

    method WriteBrr(n: bv32)
      requires n < 16
      modifies this`odr
      ensures odr == Clear(old(odr), n)
    {
      odr := Clear(odr, n);
    }

    /** The first loop of `GPIO_Init`: CRL and the pull bits of the eight low pins. */
    method ConfigureLow(pins: bv32, mode: Mode, currentMode: bv32)
      requires currentMode <= 0xF
      modifies this
      ensures crh == old(crh)
      ensures ModeLoop(old(crl), pins, 0, currentMode, crl)
      ensures OutputLoop(old(odr), pins, 0, mode.Pulls(), mode.IPU?, odr)
    {
      var tmpreg := crl;
      var pinpos: bv32 := 0;
      while pinpos < 8
        invariant pinpos <= 8 && crl == old(crl) && crh == old(crh)
        invariant tmpreg == ScanMode(crl, pins, 0, currentMode, pinpos)
        invariant odr == ScanOutput(old(odr), pins, 0, mode.Pulls(), mode.IPU?, pinpos)
        decreases 8 - pinpos
      {
        hide Set, Clear, Has, Bit, PutNibble;
        MaskTest(pins, pinpos);
        ScanStep(crl, old(odr), pins, 0, mode, currentMode, pinpos);
        if pins & Bit(pinpos) == Bit(pinpos) {
          tmpreg := PutNibble(tmpreg, pinpos, currentMode);
          if mode.IPD? {
            WriteBrr(pinpos);
          } else if mode.IPU? {
            WriteBsrr(pinpos);
          }
        }
        pinpos := pinpos + 1;
      }
      ModeLoopEnds(crl, pins, 0, currentMode, pinpos);
      OutputLoopEnds(old(odr), pins, 0, mode.Pulls(), mode.IPU?, pinpos);
      crl := tmpreg;
    }

    /** The second loop of `GPIO_Init`: CRH and the pull bits of the eight high pins. */
    method ConfigureHigh(pins: bv32, mode: Mode, currentMode: bv32)
      requires currentMode <= 0xF
      modifies this
      ensures crl == old(crl)
      ensures ModeLoop(old(crh), pins, 8, currentMode, crh)
      ensures OutputLoop(old(odr), pins, 8, mode.Pulls(), mode.IPU?, odr)
    {
      var tmpreg := crh;
      var pinpos: bv32 := 0;
      while pinpos < 8
        invariant pinpos <= 8 && crl == old(crl) && crh == old(crh)
        invariant tmpreg == ScanMode(crh, pins, 8, currentMode, pinpos)
        invariant odr == ScanOutput(old(odr), pins, 8, mode.Pulls(), mode.IPU?, pinpos)
        decreases 8 - pinpos
      {
        hide Set, Clear, Has, Bit, PutNibble;
        MaskTest(pins, 8 + pinpos);
        ScanStep(crh, old(odr), pins, 8, mode, currentMode, pinpos);
        if pins & Bit(8 + pinpos) == Bit(8 + pinpos) {
          tmpreg := PutNibble(tmpreg, pinpos, currentMode);
          if mode.IPD? {
            WriteBrr(8 + pinpos);
          }
          if mode.IPU? {
            WriteBsrr(8 + pinpos);
          }
        }
        pinpos := pinpos + 1;
      }
      ModeLoopEnds(crh, pins, 8, currentMode, pinpos);
      OutputLoopEnds(old(odr), pins, 8, mode.Pulls(), mode.IPU?, pinpos);
      crh := tmpreg;
    }

    /** `GPIO_Init`. A half none of whose pins is selected is skipped. */
    method Init(c: Config)
      modifies this
      ensures Configured(old(View()), c, View())
      ensures ModeLoop(old(crl), c.pins as bv32, 0, ModeBits(c.mode, c.speed), crl)
      ensures ModeLoop(old(crh), c.pins as bv32, 8, ModeBits(c.mode, c.speed), crh)
    {
      var pins := c.pins as bv32;
      var currentMode := ModeBits(c.mode, c.speed);
      if 0 < pins & 0xFF {
        ConfigureLow(pins, c.mode, currentMode);
      } else {
        SkippedHalf(crl, odr, pins, 0, currentMode, c.mode.Pulls(), c.mode.IPU?);
      }
      ghost var middle := odr;
      if pins > 0xFF {
        ConfigureHigh(pins, c.mode, currentMode);
      } else {
        SkippedHalf(crh, odr, pins, 8, currentMode, c.mode.Pulls(), c.mode.IPU?);
      }
      HalvesConfigure(old(View()), c, pins, currentMode, middle, View());
    }
  }

  // ---- External interrupt routing ----

  /** The port routed to EXTI line `line` by the four EXTICR registers. */
  function SourceOf(exticr: seq<bv32>, line: bv32): bv32
    requires |exticr| == 4 && line < 16
  {
    Nibble(exticr[line as int / 4], line % 4)
  }

  /** The register index `line >> 2`. */
  function WordOf(line: bv32): (i: nat)
    requires line < 16
    ensures i < 4
  {
    (line >> 2) as int
  }

  lemma SameWord(line: bv32, other: bv32)
    requires line < 16 && other < 16 && line != other
    ensures WordOf(line) == WordOf(other) ==> line & 3 != other & 3
  {
    assert line >> 2 == other >> 2 ==> line & 3 != other & 3;
  }

  lemma RoutedSource(before: seq<bv32>, line: bv32, port: bv32, other: bv32)
    requires |before| == 4 && line < 16 && other < 16 && port <= 0xF
    ensures SourceOf(before[WordOf(line) := PutNibble(before[WordOf(line)], line & 3, port)], other) ==
            if other == line then port else SourceOf(before, other)
  {
    if other == line {
      NibblePut(before[WordOf(line)], line & 3, port);
    } else {
      SameWord(line, other);
      if WordOf(line) == WordOf(other) {
        NibbleKept(before[WordOf(line)], line & 3, port, other & 3);
      }
    }
  }

  lemma RoutedSources(before: seq<bv32>, line: bv32, port: bv32, after: seq<bv32>)
    requires |before| == 4 && line < 16 && port <= 0xF
    requires after == before[WordOf(line) := PutNibble(before[WordOf(line)], line & 3, port)]
    ensures forall q: bv32 | q < 16 :: SourceOf(after, q) == if q == line then port else SourceOf(before, q)
  {
    forall q: bv32 | q < 16
      ensures SourceOf(after, q) == if q == line then port else SourceOf(before, q)
    {
      RoutedSource(before, line, port, q);
    }
  }

  class Afio {
    const exticr: array<bv32>

    constructor ()
      ensures exticr.Length == 4 && fresh(exticr)
    {
      exticr := new bv32[4];
    }

    /** `GPIO_EXTILineConfig`. */
    method EXTILineConfig(portSource: bv32, pinSource: bv32)
      requires exticr.Length == 4 && portSource <= 0xF && pinSource < 16
      modifies exticr
      ensures forall line: bv32 | line < 16 ::
                SourceOf(exticr[..], line) == if line == pinSource then portSource else old(SourceOf(exticr[..], line))
    {
      ghost var before := exticr[..];
      var w := WordOf(pinSource);
      exticr[w] := ClearNibble(exticr[w], pinSource & 3);
      exticr[w] := OrNibble(exticr[w], pinSource & 3, portSource);
      RoutedSources(before, pinSource, portSource, exticr[..]);
    }
  }
}

/** `CAN_FilterInit`: fourteen filter banks spread over one-bit-per-bank registers and two word arrays. */
module CanFilters {
  import opened Bits
  import opened Runs

  const BANKS: nat := 14
  const FINIT: bv32 := 0

  /** `CAN_FilterInitTypeDef`, with the two-valued parameters as flags. */
  datatype Config = Config(
    number: bv32, wide: bool, list: bool, fifo1: bool, enable: bool,
    idHigh: bv16, idLow: bv16, maskHigh: bv16, maskLow: bv16)
  {
    predicate Valid() {
      number < 14
    }
  }

  datatype Regs = Regs(
    fmr: bv32, fa1r: bv32, fs1r: bv32, fm1r: bv32, ffa1r: bv32, fr1: seq<bv32>, fr2: seq<bv32>)
  {
    predicate Shaped() {
      |fr1| == BANKS && |fr2| == BANKS
    }
  }

  /** What the registers say about one bank. */
  datatype Bank = Bank(active: bool, setup: Setup)
  datatype Setup = Setup(wide: bool, list: bool, fifo1: bool, fr1: bv32, fr2: bv32)

  function Index(b: bv32): (i: nat)
    requires b < 14
    ensures i < BANKS
  {
    b as int
  }

  lemma IndexInjective(b: bv32, c: bv32)
    requires b < 14 && c < 14 && b != c
    ensures Index(b) != Index(c)
  {
  }

  function SetupOf(s: Regs, b: bv32): Setup
    requires s.Shaped() && b < 14
  {
    Setup(Has(s.fs1r, b), Has(s.fm1r, b), Has(s.ffa1r, b), s.fr1[b as int], s.fr2[b as int])
  }

  function BankOf(s: Regs, b: bv32): Bank
    requires s.Shaped() && b < 14
  {
    Bank(Has(s.fa1r, b), SetupOf(s, b))
  }

  function Join(high: bv16, low: bv16): bv32 {
    (high as bv32 << 16) | (low as bv32)
  }

  /** The setup a call asks for: the layout of the two words depends on the scale. */
  function RequestedSetup(c: Config): Setup {
    if c.wide then Setup(true, c.list, c.fifo1, Join(c.idHigh, c.idLow), Join(c.maskHigh, c.maskLow))
    else Setup(false, c.list, c.fifo1, Join(c.maskLow, c.idLow), Join(c.maskHigh, c.idHigh))
  }

  // ---- Reading a setup back ----

  function HighHalf(w: bv32): bv16 {
    (w >> 16) as bv16
  }

  function LowHalf(w: bv32): bv16 {
    (w & 0xFFFF) as bv16
  }

  /** The configuration that a bank's contents stand for. */
  function Decode(number: bv32, b: Bank): Config {
    var s := b.setup;
    if s.wide then
      Config(number, true, s.list, s.fifo1, b.active, HighHalf(s.fr1), LowHalf(s.fr1), HighHalf(s.fr2), LowHalf(s.fr2))
    else
      Config(number, false, s.list, s.fifo1, b.active, LowHalf(s.fr2), LowHalf(s.fr1), HighHalf(s.fr2), HighHalf(s.fr1))
  }

  lemma JoinHalves(high: bv16, low: bv16)
    ensures HighHalf(Join(high, low)) == high && LowHalf(Join(high, low)) == low
  {
  }

  /** In either layout the bank's contents identify the whole request. */
  lemma RequestDecodes(c: Config)
    ensures Decode(c.number, Bank(c.enable, RequestedSetup(c))) == c
  {
    hide Join, HighHalf, LowHalf;
    JoinHalves(c.idHigh, c.idLow);
    JoinHalves(c.maskHigh, c.maskLow);
    JoinHalves(c.maskLow, c.idLow);
    JoinHalves(c.maskHigh, c.idHigh);
  }

  // ---- One call, register write by register write ----

  /** The nine register writes of a call, in order. */
  function Write(s: Regs, c: Config, step: nat): (s': Regs)
    requires s.Shaped() && c.Valid()
    ensures s'.Shaped()
  {
    match step
    case 0 => s.(fmr := WithBit(s.fmr, FINIT, true))
    case 1 => s.(fa1r := WithBit(s.fa1r, c.number, false))
    case 2 => s.(fs1r := WithBit(s.fs1r, c.number, c.wide))
    case 3 => s.(fr1 := s.fr1[Index(c.number) := RequestedSetup(c).fr1])
    case 4 => s.(fr2 := s.fr2[Index(c.number) := RequestedSetup(c).fr2])
    case 5 => s.(fm1r := WithBit(s.fm1r, c.number, c.list))
    case 6 => s.(ffa1r := WithBit(s.ffa1r, c.number, c.fifo1))
    case 7 => if c.enable then s.(fa1r := WithBit(s.fa1r, c.number, true)) else s
    case 8 => s.(fmr := WithBit(s.fmr, FINIT, false))
    case _ => s
  }

  /** The registers after the first `k` writes of a call that starts in `s`. */
  function After(s: Regs, c: Config, k: nat): (s': Regs)
    requires s.Shaped() && c.Valid()
    ensures s'.Shaped()
  {
    if k == 0 then s else Write(After(s, c, k - 1), c, k - 1)
  }

  /** What a write does to the bank it is for. */
  function BankWrite(b: Bank, c: Config, step: nat): Bank {
    match step
    case 1 => b.(active := false)
    case 2 => b.(setup := b.setup.(wide := c.wide))
    case 3 => b.(setup := b.setup.(fr1 := RequestedSetup(c).fr1))
    case 4 => b.(setup := b.setup.(fr2 := RequestedSetup(c).fr2))
    case 5 => b.(setup := b.setup.(list := c.list))
    case 6 => b.(setup := b.setup.(fifo1 := c.fifo1))
    case 7 => b.(active := b.active || c.enable)
    case _ => b
  }

  function BankAfter(b: Bank, c: Config, k: nat): Bank {
    if k == 0 then b else BankWrite(BankAfter(b, c, k - 1), c, k - 1)
  }

  /**
   * A write is safe when it touches only bank `n`, and touches that bank's setup only while filter
   * initialisation is on and the bank is inactive.
   */
  ghost predicate SafeWrite(s: Regs, s': Regs, n: bv32) {
    && s.Shaped() && s'.Shaped()
    && forall b: bv32 | b < 14 :: SafeFor(s, s', n, b)
  }

  ghost predicate SafeFor(s: Regs, s': Regs, n: bv32, b: bv32)
    requires s.Shaped() && s'.Shaped() && b < 14
  {
    && (b != n ==> BankOf(s', b) == BankOf(s, b))
    && (SetupOf(s', b) != SetupOf(s, b) ==> Has(s.fmr, 0) && !Has(s.fa1r, b))
  }

  // ---- What each register write does to one bank ----

  lemma WriteActive(s: Regs, n: bv32, on: bool, b: bv32)
    requires s.Shaped() && n < 14 && b < 14
    ensures BankOf(s.(fa1r := WithBit(s.fa1r, n, on)), b) ==
            if b == n then BankOf(s, b).(active := on) else BankOf(s, b)
  {
    hide Has, WithBit;
    WithBitHas(s.fa1r, n, on, b);
  }

  lemma WriteScale(s: Regs, n: bv32, v: bool, b: bv32)
    requires s.Shaped() && n < 14 && b < 14
    ensures BankOf(s.(fs1r := WithBit(s.fs1r, n, v)), b) ==
            if b == n then BankOf(s, b).(setup := BankOf(s, b).setup.(wide := v)) else BankOf(s, b)
  {
    hide Has, WithBit;
    WithBitHas(s.fs1r, n, v, b);
  }

  lemma WriteMode(s: Regs, n: bv32, v: bool, b: bv32)
    requires s.Shaped() && n < 14 && b < 14
    ensures BankOf(s.(fm1r := WithBit(s.fm1r, n, v)), b) ==
            if b == n then BankOf(s, b).(setup := BankOf(s, b).setup.(list := v)) else BankOf(s, b)
  {
    hide Has, WithBit;
    WithBitHas(s.fm1r, n, v, b);
  }

  lemma WriteFifo(s: Regs, n: bv32, v: bool, b: bv32)
    requires s.Shaped() && n < 14 && b < 14
    ensures BankOf(s.(ffa1r := WithBit(s.ffa1r, n, v)), b) ==
            if b == n then BankOf(s, b).(setup := BankOf(s, b).setup.(fifo1 := v)) else BankOf(s, b)
  {
    hide Has, WithBit;
    WithBitHas(s.ffa1r, n, v, b);
  }

  lemma WriteFr1(s: Regs, n: bv32, v: bv32, b: bv32)
    requires s.Shaped() && n < 14 && b < 14
    ensures BankOf(s.(fr1 := s.fr1[Index(n) := v]), b) ==
            if b == n then BankOf(s, b).(setup := BankOf(s, b).setup.(fr1 := v)) else BankOf(s, b)
  {
    hide Has;
    if b != n {
      IndexInjective(b, n);
    }
  }

  lemma WriteFr2(s: Regs, n: bv32, v: bv32, b: bv32)
    requires s.Shaped() && n < 14 && b < 14
    ensures BankOf(s.(fr2 := s.fr2[Index(n) := v]), b) ==
            if b == n then BankOf(s, b).(setup := BankOf(s, b).setup.(fr2 := v)) else BankOf(s, b)
  {
    hide Has;
    if b != n {
      IndexInjective(b, n);
    }
  }

  /** Entering or leaving filter initialisation. */
  lemma WriteInit(s: Regs, on: bool)
    requires s.Shaped()
    ensures var s' := s.(fmr := WithBit(s.fmr, FINIT, on));
            && Has(s'.fmr, FINIT) == on
            && (forall m: bv32 | 0 < m < 32 :: Has(s'.fmr, m) == Has(s.fmr, m))
            && forall b: bv32 | b < 14 :: BankOf(s', b) == BankOf(s, b)
  {
    hide Has, WithBit, Index;
    forall m: bv32 | m < 32
      ensures Has(WithBit(s.fmr, FINIT, on), m) == if m == FINIT then on else Has(s.fmr, m)
    {
      WithBitHas(s.fmr, FINIT, on, m);
    }
  }

  // ---- The whole call ----

  lemma WriteBank(s: Regs, c: Config, step: nat, b: bv32)
    requires s.Shaped() && c.Valid() && b < 14 && step < 9
    ensures BankOf(Write(s, c, step), b) == if b == c.number then BankWrite(BankOf(s, b), c, step) else BankOf(s, b)
  {
    hide BankOf, Write, BankWrite;
    if step < 3 {
      WriteBankFirst(s, c, step, b);
    } else if step < 6 {
      WriteBankMiddle(s, c, step, b);
    } else {
      WriteBankLast(s, c, step, b);
    }
  }

  lemma WriteBankFirst(s: Regs, c: Config, step: nat, b: bv32)
    requires s.Shaped() && c.Valid() && b < 14 &&  step < 3
    ensures BankOf(Write(s, c, step), b) == if b == c.number then BankWrite(BankOf(s, b), c, step) else BankOf(s, b)
  {
    hide Has, WithBit, Index, RequestedSetup, BankOf, SetupOf;
    match step
    case 0 => WriteInit(s, true);
    case 1 => WriteActive(s, c.number, false, b);
    case 2 => WriteScale(s, c.number, c.wide, b);
  }

  lemma WriteBankMiddle(s: Regs, c: Config, step: nat, b: bv32)
    requires s.Shaped() && c.Valid() && b < 14 && 3 <= step < 6
    ensures BankOf(Write(s, c, step), b) == if b == c.number then BankWrite(BankOf(s, b), c, step) else BankOf(s, b)
  {
    hide Has, WithBit, Index, RequestedSetup, BankOf, SetupOf;
    match step
    case 3 => WriteFr1(s, c.number, RequestedSetup(c).fr1, b);
    case 4 => WriteFr2(s, c.number, RequestedSetup(c).fr2, b);
    case 5 => WriteMode(s, c.number, c.list, b);
  }

  lemma WriteBankLast(s: Regs, c: Config, step: nat, b: bv32)
    requires s.Shaped() && c.Valid() && b < 14 && 6 <= step < 9
    ensures BankOf(Write(s, c, step), b) == if b == c.number then BankWrite(BankOf(s, b), c, step) else BankOf(s, b)
  {
    hide Has, WithBit, Index, RequestedSetup, BankOf, SetupOf;
    match step
    case 6 => WriteFifo(s, c.number, c.fifo1, b);
    case 7 => WriteActive(s, c.number, true, b);
    case 8 => WriteInit(s, false);
  }

  /** Every bank at every point of a call. */
  lemma {:induction false} BankThroughCall(s: Regs, c: Config, k: nat, b: bv32)
    requires s.Shaped() && c.Valid() && b < 14 && k <= 9
    ensures BankOf(After(s, c, k), b) == if b == c.number then BankAfter(BankOf(s, b), c, k) else BankOf(s, b)
  {
    hide Write, BankWrite, BankOf;
    if k > 0 {
      BankThroughCall(s, c, k - 1, b);
      WriteBank(After(s, c, k - 1), c, k - 1, b);
    }
  }

  /** After the call the bank holds exactly the request, and every other bank what it held before. */
  lemma CallConfigures(s: Regs, c: Config, b: bv32)
    requires s.Shaped() && c.Valid() && b < 14
    ensures BankOf(After(s, c, 9), b) == if b == c.number then Bank(c.enable, RequestedSetup(c)) else BankOf(s, b)
  {
    hide BankOf, After, RequestedSetup;
    BankThroughCall(s, c, 9, b);
    BankActivity(BankOf(s, b), c, 9);
    BankProgress(BankOf(s, b), c, 9);
    RequestedFlags(c);
  }

  /** When the bank is active during a call. */
  lemma {:induction false} BankActivity(b: Bank, c: Config, k: nat)
    requires k <= 9
    ensures 2 <= k <= 7 ==> !BankAfter(b, c, k).active
    ensures 8 <= k ==> BankAfter(b, c, k).active == c.enable
  {
    hide RequestedSetup;
    if k > 0 {
      BankActivity(b, c, k - 1);
    }
  }

  /** Which parts of the bank have been written after `k` writes. */
  lemma {:induction false} BankProgress(b: Bank, c: Config, k: nat)
    requires k <= 9
    ensures 3 <= k ==> BankAfter(b, c, k).setup.wide == c.wide
    ensures 4 <= k ==> BankAfter(b, c, k).setup.fr1 == RequestedSetup(c).fr1
    ensures 5 <= k ==> BankAfter(b, c, k).setup.fr2 == RequestedSetup(c).fr2
    ensures 6 <= k ==> BankAfter(b, c, k).setup.list == c.list
    ensures 7 <= k ==> BankAfter(b, c, k).setup.fifo1 == c.fifo1
  {
    hide RequestedSetup;
    if k > 0 {
      BankProgress(b, c, k - 1);
    }
  }

  lemma RequestedFlags(c: Config)
    ensures RequestedSetup(c).wide == c.wide && RequestedSetup(c).list == c.list && RequestedSetup(c).fifo1 == c.fifo1
  {
  }

  /** Filter initialisation is on from the first write to the last, and off afterwards. */
  lemma {:induction false} InitThroughCall(s: Regs, c: Config, k: nat, m: bv32)
    requires s.Shaped() && c.Valid() && 1 <= k <= 9 && m < 32
    ensures Has(After(s, c, k).fmr, m) == if m == 0 then k < 9 else Has(s.fmr, m)
  {
    hide Has, WithBit, Index, RequestedSetup;
    if k == 1 {
      assert After(s, c, 0) == s;
      WithBitHas(s.fmr, FINIT, true, m);
    } else {
      InitThroughCall(s, c, k - 1, m);
      if k == 9 {
        WithBitHas(After(s, c, 8).fmr, FINIT, false, m);
      }
    }
  }

  /**
   * Every write of the call is safe: it touches no other bank, and it touches FR1, FR2, scale, mode
   * and FIFO of its own bank only with FINIT set and the bank inactive.
   */
  lemma CallIsSafe(s: Regs, c: Config, k: nat)
    requires s.Shaped() && c.Valid() && k < 9
    ensures SafeWrite(After(s, c, k), After(s, c, k + 1), c.number)
  {
    hide BankOf, SetupOf, After, BankAfter, Has;
    var now, next := After(s, c, k), After(s, c, k + 1);
    forall b: bv32 | b < 14
      ensures SafeFor(now, next, c.number, b)
    {
      WriteIsSafe(s, c, k, b);
    }
  }

  lemma WriteIsSafe(s: Regs, c: Config, k: nat, b: bv32)
    requires s.Shaped() && c.Valid() && k < 9 && b < 14
    ensures SafeFor(After(s, c, k), After(s, c, k + 1), c.number, b)
  {
    hide After, BankAfter, Has, RequestedSetup, Index;
    BankThroughCall(s, c, k, b);
    BankThroughCall(s, c, k + 1, b);
    if b == c.number {
      BankActivity(BankOf(s, b), c, k);
      SetupSteps(BankOf(s, b), c, k);
      if 2 <= k <= 7 {
        InitThroughCall(s, c, k, FINIT);
      }
    }
  }

  /** Only the third to the eighth write change the setup. */
  lemma SetupSteps(b: Bank, c: Config, k: nat)
    ensures !(2 <= k <= 7) ==> BankAfter(b, c, k + 1).setup == BankAfter(b, c, k).setup
  {
  }

  /** What a call guarantees to its caller. */
  ghost predicate Called(before: Regs, c: Config, after: Regs) {
    && before.Shaped() && after.Shaped() && c.Valid()
    && (forall b: bv32 | b < 14 ::
          BankOf(after, b) == if b == c.number then Bank(c.enable, RequestedSetup(c)) else BankOf(before, b))
    && (forall m: bv32 | m < 32 :: Has(after.fmr, m) == if m == 0 then false else Has(before.fmr, m))
  }

  lemma CallDelivers(s: Regs, c: Config)
    requires s.Shaped() && c.Valid()
    ensures Called(s, c, After(s, c, 9))
  {
    hide BankOf, After, RequestedSetup, Has;
    forall b: bv32 | b < 14
      ensures BankOf(After(s, c, 9), b) == if b == c.number then Bank(c.enable, RequestedSetup(c)) else BankOf(s, b)
    {
      CallConfigures(s, c, b);
    }
    forall m: bv32 | m < 32
      ensures Has(After(s, c, 9).fmr, m) == if m == FINIT then false else Has(s.fmr, m)
    {
      InitThroughCall(s, c, 9, m);
    }
  }

  // ---- Runs of calls ----

  ghost predicate IsRun(trace: seq<Regs>, calls: seq<Config>) {
    && |trace| == |calls| + 1
    && trace[0].Shaped()
    && forall i | 0 <= i < |calls| :: Called(trace[i], calls[i], trace[i + 1])
  }

  function Numbered(b: bv32): Config -> bool {
    (c: Config) => c.number == b
  }

  lemma RunShaped(trace: seq<Regs>, calls: seq<Config>, i: nat)
    requires IsRun(trace, calls) && i < |trace|
    ensures trace[i].Shaped()
  {
    if i > 0 {
      assert Called(trace[i - 1], calls[i - 1], trace[i - 1 + 1]);
    }
  }

  /** A bank's contents in a state that may be ill-shaped. */
  function Observed(b: bv32): Regs -> Option<Bank> {
    (s: Regs) => if s.Shaped() && b < 14 then Some(BankOf(s, b)) else None
  }

  /** After any sequence of calls each bank decodes to the last request made for it, or is untouched. */
  lemma LastRequestWins(trace: seq<Regs>, calls: seq<Config>, b: bv32)
    requires b < 14 && IsRun(trace, calls)
    ensures trace[|calls|].Shaped()
    ensures match Last(calls, Numbered(b))
            case Some(c) => Decode(b, BankOf(trace[|calls|], b)) == c
            case None => BankOf(trace[|calls|], b) == BankOf(trace[0], b)
  {
    hide BankOf, RequestedSetup, Decode;
    RunShaped(trace, calls, |calls|);
    var written := (c: Config) => Some(Bank(c.enable, RequestedSetup(c)));
    forall i | 0 <= i < |calls|
      ensures Observed(b)(trace[i + 1]) == if Numbered(b)(calls[i]) then written(calls[i]) else Observed(b)(trace[i])
    {
      assert Called(trace[i], calls[i], trace[i + 1]);
    }
    LastWriterWins(trace, calls, Numbered(b), written, Observed(b));
    match Last(calls, Numbered(b))
    case Some(c) => RequestDecodes(c);
    case None =>
  }

  // ---- The registers themselves ----

  /** The number of register writes of a call: a bank that is not activated is not written in the eighth. */
  function Writes(c: Config): nat {
    if c.enable then 9 else 8
  }

  /** The point of the nine-step description that the `j`-th register write of a call reaches. */
  function Stage(c: Config, j: nat): nat {
    if c.enable || j < 8 then j else j + 1
  }

  class CanFilterBank {
    var fmr: bv32
    var fa1r: bv32
    var fs1r: bv32
    var fm1r: bv32
    var ffa1r: bv32
    const fr1: array<bv32>
    const fr2: array<bv32>
    /** Every state of the registers: one is added by each register write, and by nothing else. */
    ghost var trace: seq<Regs>

    ghost predicate Valid()
      reads this, fr1, fr2
    {
      && fr1.Length == BANKS && fr2.Length == BANKS && fr1 != fr2
      && |trace| > 0 && trace[|trace| - 1] == View()
    }

    ghost function View(): Regs
      reads this, fr1, fr2
    {
      Regs(fmr, fa1r, fs1r, fm1r, ffa1r, fr1[..], fr2[..])
    }

    constructor ()
      ensures Valid() && fresh(fr1) && fresh(fr2) && fr1.Length == fr2.Length == 14
    {
      fr1 := new bv32[BANKS];
      fr2 := new bv32[BANKS];
      new;
      trace := [View()];
    }

    // ---- Single register writes ----

    method StoreFmr(v: bv32)
      requires Valid()
      modifies this`fmr, this`trace
      ensures Valid() && View() == old(View()).(fmr := v) && trace == old(trace) + [View()]
    {
      fmr := v;
      trace := trace + [View()];
    }

    method StoreFa1r(v: bv32)
      requires Valid()
      modifies this`fa1r, this`trace
      ensures Valid() && View() == old(View()).(fa1r := v) && trace == old(trace) + [View()]
    {
      fa1r := v;
      trace := trace + [View()];
    }

    method StoreFs1r(v: bv32)
      requires Valid()
      modifies this`fs1r, this`trace
      ensures Valid() && View() == old(View()).(fs1r := v) && trace == old(trace) + [View()]
    {
      fs1r := v;
      trace := trace + [View()];
    }

    method StoreFm1r(v: bv32)
      requires Valid()
      modifies this`fm1r, this`trace
      ensures Valid() && View() == old(View()).(fm1r := v) && trace == old(trace) + [View()]
    {
      fm1r := v;
      trace := trace + [View()];
    }

    method StoreFfa1r(v: bv32)
      requires Valid()
      modifies this`ffa1r, this`trace
      ensures Valid() && View() == old(View()).(ffa1r := v) && trace == old(trace) + [View()]
    {
      ffa1r := v;
      trace := trace + [View()];
    }

    method StoreFr1(n: bv32, v: bv32)
      requires Valid() && n < 14
      modifies fr1, this`trace
      ensures Valid() && View() == old(View()).(fr1 := old(fr1[..])[Index(n) := v]) && trace == old(trace) + [View()]
    {
      fr1[Index(n)] := v;
      trace := trace + [View()];
    }

    method StoreFr2(n: bv32, v: bv32)
      requires Valid() && n < 14
      modifies fr2, this`trace
      ensures Valid() && View() == old(View()).(fr2 := old(fr2[..])[Index(n) := v]) && trace == old(trace) + [View()]
    {
      fr2[Index(n)] := v;
      trace := trace + [View()];
    }

    // ---- CAN_FilterInit ----

    /** `CAN_FilterInit`: the result of the call, and each state that its register writes pass through. */
    method FilterInit(c: Config)
      requires Valid() && c.Valid()
      modifies this, fr1, fr2
      ensures Valid() && Called(old(View()), c, View()) && old(trace) <= trace
      ensures Follows(trace, |old(trace)| - 1, old(View()), c)
      ensures forall k | |old(trace)| - 1 <= k < |trace| - 1 :: SafeWrite(trace[k], trace[k + 1], c.number)
    {
      hide After, BankOf, Called, Has, SafeWrite, Index, Follows;
      ghost var s, start := View(), |trace| - 1;
      Enter(c, s);
      Layout(c, s);
      Leave(c, s);
      CallDelivers(s, c);
      StagesFollow(trace, start, s, c);
      FollowsSafely(trace, start, s, c);
    }

    /** Enter filter initialisation and deactivate the bank. */
    method Enter(c: Config, ghost s: Regs)
      requires Valid() && c.Valid() && s == View()
      modifies this
      ensures Valid() && View() == After(s, c, 2)
      ensures trace == old(trace) + [After(s, c, 1), After(s, c, 2)]
    {
      hide WithBit, After, Index, Write;
      EnterStages(s, c);
      StoreFmr(WithBit(fmr, FINIT, true));
      StoreFa1r(WithBit(fa1r, c.number, false));
    }

    /** The scale and the two filter words, laid out by scale. */
    method Layout(c: Config, ghost s: Regs)
      requires Valid() && c.Valid() && s.Shaped() && View() == After(s, c, 2)
      modifies this, fr1, fr2
      ensures Valid() && View() == After(s, c, 5)
      ensures trace == old(trace) + [After(s, c, 3), After(s, c, 4), After(s, c, 5)]
    {
      hide *;
      if !c.wide {
        LayoutNarrow(c, s);
      }
      if c.wide {
        LayoutWide(c, s);
      }
    }

    method LayoutNarrow(c: Config, ghost s: Regs)
      requires Valid() && c.Valid() && s.Shaped() && View() == After(s, c, 2) && !c.wide
      modifies this, fr1, fr2
      ensures Valid() && View() == After(s, c, 5)
      ensures trace == old(trace) + [After(s, c, 3), After(s, c, 4), After(s, c, 5)]
    {
      hide Set, Clear, After, Join, Index, Write, WithBit;
      NarrowStages(s, c);
      StoreFs1r(Clear(fs1r, c.number));
      StoreFr1(c.number, Join(c.maskLow, c.idLow));
      StoreFr2(c.number, Join(c.maskHigh, c.idHigh));
    }

    method LayoutWide(c: Config, ghost s: Regs)
      requires Valid() && c.Valid() && s.Shaped() && View() == After(s, c, 2) && c.wide
      modifies this, fr1, fr2
      ensures Valid() && View() == After(s, c, 5)
      ensures trace == old(trace) + [After(s, c, 3), After(s, c, 4), After(s, c, 5)]
    {
      hide Set, Clear, After, Join, Index, Write, WithBit;
      WideStages(s, c);
      StoreFs1r(Set(fs1r, c.number));
      StoreFr1(c.number, Join(c.idHigh, c.idLow));
      StoreFr2(c.number, Join(c.maskHigh, c.maskLow));
    }

    /** Mode, FIFO, activation; leave filter initialisation. */
    method Leave(c: Config, ghost s: Regs)
      requires Valid() && c.Valid() && s.Shaped() && View() == After(s, c, 5)
      modifies this
      ensures Valid() && View() == After(s, c, 9)
      ensures c.enable ==> trace == old(trace) + [After(s, c, 6), After(s, c, 7), After(s, c, 8), After(s, c, 9)]
      ensures !c.enable ==> trace == old(trace) + [After(s, c, 6), After(s, c, 7), After(s, c, 9)]
    {
      hide *;
      SetMode(c, s);
      Finish(c, s);
    }

    method SetMode(c: Config, ghost s: Regs)
      requires Valid() && c.Valid() && s.Shaped() && View() == After(s, c, 5)
      modifies this
      ensures Valid() && View() == After(s, c, 7)
      ensures trace == old(trace) + [After(s, c, 6), After(s, c, 7)]
    {
      hide WithBit, After, RequestedSetup, Index, Write;
      ModeStages(s, c);
      StoreFm1r(WithBit(fm1r, c.number, c.list));
      StoreFfa1r(WithBit(ffa1r, c.number, c.fifo1));
    }

    /** The end of the call: activation, if asked for, and the end of filter initialisation. */
    method Finish(c: Config, ghost s: Regs)
      requires Valid() && c.Valid() && s.Shaped() && View() == After(s, c, 7)
      modifies this
      ensures Valid() && View() == After(s, c, 9)
      ensures c.enable ==> trace == old(trace) + [After(s, c, 8), After(s, c, 9)]
      ensures !c.enable ==> trace == old(trace) + [After(s, c, 9)]
    {
      hide WithBit, After, RequestedSetup, Index, Write;
      FinishStages(s, c);
      if c.enable {
        StoreFa1r(WithBit(fa1r, c.number, true));
      }
      StoreFmr(WithBit(fmr, FINIT, false));
    }
  }

  lemma AfterStart(s: Regs, c: Config)
    requires s.Shaped() && c.Valid()
    ensures After(s, c, 0) == s
  {
  }

  lemma AfterNext(s: Regs, c: Config, k: nat)
    requires s.Shaped() && c.Valid()
    ensures After(s, c, k + 1) == Write(After(s, c, k), c, k)
  {
    hide Write;
  }

  // ---- The stages of the description as single updates ----

  lemma EnterStages(s: Regs, c: Config)
    requires s.Shaped() && c.Valid()
    ensures After(s, c, 1) == s.(fmr := WithBit(s.fmr, FINIT, true))
    ensures var t := After(s, c, 1); After(s, c, 2) == t.(fa1r := WithBit(t.fa1r, c.number, false))
  {
    hide WithBit, After;
    AfterStart(s, c);
    AfterNext(s, c, 0);
    AfterNext(s, c, 1);
  }

  lemma NarrowStages(s: Regs, c: Config)
    requires s.Shaped() && c.Valid() && !c.wide
    ensures var t := After(s, c, 2); After(s, c, 3) == t.(fs1r := Clear(t.fs1r, c.number))
    ensures var t := After(s, c, 3); After(s, c, 4) == t.(fr1 := t.fr1[Index(c.number) := Join(c.maskLow, c.idLow)])
    ensures var t := After(s, c, 4); After(s, c, 5) == t.(fr2 := t.fr2[Index(c.number) := Join(c.maskHigh, c.idHigh)])
  {
    hide Set, Clear, After, Join, Index;
    AfterNext(s, c, 2);
    AfterNext(s, c, 3);
    AfterNext(s, c, 4);
  }

  lemma WideStages(s: Regs, c: Config)
    requires s.Shaped() && c.Valid() && c.wide
    ensures var t := After(s, c, 2); After(s, c, 3) == t.(fs1r := Set(t.fs1r, c.number))
    ensures var t := After(s, c, 3); After(s, c, 4) == t.(fr1 := t.fr1[Index(c.number) := Join(c.idHigh, c.idLow)])
    ensures var t := After(s, c, 4); After(s, c, 5) == t.(fr2 := t.fr2[Index(c.number) := Join(c.maskHigh, c.maskLow)])
  {
    hide Set, Clear, After, Join, Index;
    AfterNext(s, c, 2);
    AfterNext(s, c, 3);
    AfterNext(s, c, 4);
  }

  lemma ModeStages(s: Regs, c: Config)
    requires s.Shaped() && c.Valid()
    ensures var t := After(s, c, 5); After(s, c, 6) == t.(fm1r := WithBit(t.fm1r, c.number, c.list))
    ensures var t := After(s, c, 6); After(s, c, 7) == t.(ffa1r := WithBit(t.ffa1r, c.number, c.fifo1))
  {
    hide WithBit, After;
    AfterNext(s, c, 5);
    AfterNext(s, c, 6);
  }

  lemma FinishStages(s: Regs, c: Config)
    requires s.Shaped() && c.Valid()
    ensures var t := After(s, c, 7);
            After(s, c, 8) == if c.enable then t.(fa1r := WithBit(t.fa1r, c.number, true)) else t
    ensures var t := After(s, c, 8); After(s, c, 9) == t.(fmr := WithBit(t.fmr, FINIT, false))
  {
    hide WithBit, After;
    AfterNext(s, c, 7);
    AfterNext(s, c, 8);
  }

  // ---- The recorded states ----

  /** The states recorded from index `start` on are those of one call that starts in `s`. */
  ghost predicate Follows(trace: seq<Regs>, start: nat, s: Regs, c: Config) {
    && s.Shaped() && c.Valid()
    && |trace| == start + Writes(c) + 1
    && forall k | start <= k < |trace| :: trace[k] == After(s, c, Stage(c, k - start))
  }

  lemma StagesFollow(trace: seq<Regs>, start: nat, s: Regs, c: Config)
    requires s.Shaped() && c.Valid() && |trace| == start + Writes(c) + 1
    requires trace[start] == s && trace[start + 1] == After(s, c, 1) && trace[start + 2] == After(s, c, 2)
    requires trace[start + 3] == After(s, c, 3) && trace[start + 4] == After(s, c, 4)
    requires trace[start + 5] == After(s, c, 5) && trace[start + 6] == After(s, c, 6)
    requires trace[start + 7] == After(s, c, 7)
    requires if c.enable then trace[start + 8] == After(s, c, 8) && trace[start + 9] == After(s, c, 9)
             else trace[start + 8] == After(s, c, 9)
    ensures Follows(trace, start, s, c)
  {
    hide After;
    AfterStart(s, c);
  }

  /** Each recorded register write of a call is safe, also where the activation is skipped. */
  lemma FollowsSafely(trace: seq<Regs>, start: nat, s: Regs, c: Config)
    requires Follows(trace, start, s, c)
    ensures forall k | start <= k < |trace| - 1 :: SafeWrite(trace[k], trace[k + 1], c.number)
  {
    hide SafeWrite, After, RequestedSetup;
    forall k | start <= k < |trace| - 1
      ensures SafeWrite(trace[k], trace[k + 1], c.number)
    {
      StageIsSafe(s, c, k - start);
    }
  }

  lemma StageIsSafe(s: Regs, c: Config, j: nat)
    requires s.Shaped() && c.Valid() && j < Writes(c)
    ensures SafeWrite(After(s, c, Stage(c, j)), After(s, c, Stage(c, j + 1)), c.number)
  {
    hide SafeWrite, After, RequestedSetup, WithBit;
    if !c.enable && j == 7 {
      FinishStages(s, c);
      CallIsSafe(s, c, 8);
    } else {
      CallIsSafe(s, c, Stage(c, j));
    }
  }
}

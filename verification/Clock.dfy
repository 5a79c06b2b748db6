/**
 * Clock start-up: `SystemInit` brings the chip from any register contents to 72 MHz, and
 * `SystemCoreClockUpdate` computes the frequency that the registers describe. The hardware owns the
 * ready flags and the switch status; it may change them before every register access.
 */
module Clock {
  import opened Polling

  const SWS: bv32 := 0xC
  const SWS_PLL: bv32 := 0x8
  const HSERDY: bv32 := 0x0002_0000
  const PLLRDY: bv32 := 0x0200_0000

  const ALL: bv32 := 0xFFFF_FFFF
  const NOTHING: bv32 := 0

  /** CR and CFGR with the hardware's bits taken from `env`. */
  function LatchCr(cr: bv32, env: bv32): bv32 {
    (cr & 0xFDFD_FFFD) | (env & 0x0202_0002)
  }

  function LatchCfgr(cfgr: bv32, env: bv32): bv32 {
    (cfgr & 0xFFFF_FFF3) | (env & 0xC)
  }

  /** A read-modify-write of the control bits; the hardware's bits ignore it. */
  function ModifiedCr(cr: bv32, keep: bv32, bits: bv32): bv32 {
    LatchCr((cr & keep) | bits, cr)
  }

  function ModifiedCfgr(cfgr: bv32, keep: bv32, bits: bv32): bv32 {
    LatchCfgr((cfgr & keep) | bits, cfgr)
  }

  function ModifiedAcr(acr: bv32, keep: bv32, bits: bv32): bv32 {
    (acr & keep) | bits
  }

  function Together(fields: bv32, bits: bv32): bv32 {
    fields | bits
  }

  // ---- The fields that matter ----

  /** The requested system clock: HSI, HSE or PLL. */
  function Switch(cfgr: bv32): bv32 {
    cfgr & 3
  }

  /** PLLSRC, PLLXTPRE and PLLMULL. */
  function PllConfig(cfgr: bv32): bv32 {
    cfgr & 0x003F_0000
  }

  /** HPRE, PPRE1 and PPRE2. */
  function Prescalers(cfgr: bv32): bv32 {
    cfgr & 0x3FF0
  }

  /** The rest of CFGR: ADCPRE and MCO, USBPRE, and the reserved bits. */
  datatype CfgrBits = CfgrBits(outputs: bv32, usb: bool, reserved: bv32)

  function CfgrRest(cfgr: bv32): CfgrBits {
    CfgrBits(cfgr & 0x0700_C000, 0 < cfgr & 0x0040_0000, cfgr & 0xF880_0000)
  }

  predicate PllOn(cr: bv32) {
    0 < cr & 0x0100_0000
  }

  /** HSEON. */
  predicate CrystalOn(cr: bv32) {
    0 < cr & 0x0001_0000
  }

  /** The software's other bits of CR: HSION, HSEBYP, CSSON, and the trimming value with the reserved bits. */
  datatype CrBits = CrBits(hsiOn: bool, bypass: bool, security: bool, trim: bv32)

  function CrRest(cr: bv32): CrBits {
    CrBits(0 < cr & 1, 0 < cr & 0x0004_0000, 0 < cr & 0x0008_0000, cr & 0xFCF0_FFFC)
  }

  function Latency(acr: bv32): bv32 {
    acr & 3
  }

  /** The rest of the flash register: the prefetch enable and the other bits. */
  datatype AcrBits = AcrBits(prefetch: bool, reserved: bv32)

  function AcrRest(acr: bv32): AcrBits {
    AcrBits(0 < acr & 0x10, acr & 0xFFFF_FFEC)
  }

  predicate IsHsi(switch: bv32) {
    switch <= 0
  }

  predicate IsPll(switch: bv32) {
    switch == 2
  }

  predicate IsTwo(latency: bv32) {
    latency == 2
  }

  /** PLL input HSE, not halved, times nine. */
  const HSE_TIMES_9: bv32 := 0x001D_0000

  /**
   * The decoded control fields and all other bits of the software, and whether crystal and PLL were read as
   * ready since they were last turned on.
   */
  datatype Fields = Fields(
    switch: bv32, config: bv32, prescalers: bv32, cfgrRest: CfgrBits,
    pllOn: bool, crystalOn: bool, crRest: CrBits, latency: bv32, acrRest: AcrBits, ready: bool, seen: bool)

  function FieldsOf(cr: bv32, cfgr: bv32, acr: bv32, ready: bool, seen: bool): Fields {
    Fields(Switch(cfgr), PllConfig(cfgr), Prescalers(cfgr), CfgrRest(cfgr),
           PllOn(cr), CrystalOn(cr), CrRest(cr), Latency(acr), AcrRest(acr), ready, seen)
  }

  lemma LatchedCfgr(cfgr: bv32, env: bv32)
    ensures var t := LatchCfgr(cfgr, env);
            && Switch(t) == Switch(cfgr) && PllConfig(t) == PllConfig(cfgr) && Prescalers(t) == Prescalers(cfgr)
            && CfgrRest(t) == CfgrRest(cfgr)
    ensures LatchCfgr(cfgr, env) & SWS == SWS_PLL <==> Shows(env, SWS, SWS_PLL)
  {
  }

  lemma LatchedCr(cr: bv32, env: bv32)
    ensures var t := LatchCr(cr, env);
            PllOn(t) == PllOn(cr) && CrystalOn(t) == CrystalOn(cr) && CrRest(t) == CrRest(cr)
    ensures 0 < LatchCr(cr, env) & HSERDY <==> Shows(env, HSERDY, HSERDY)
    ensures 0 < LatchCr(cr, env) & PLLRDY <==> Shows(env, PLLRDY, PLLRDY)
  {
  }

  // ---- What each write does to the fields ----

  /** `CR |= HSEON`. */
  lemma CrystalSwitch(cr: bv32)
    ensures var t := ModifiedCr(cr, ALL, 0x0001_0000);
            CrystalOn(t) && PllOn(t) == PllOn(cr) && CrRest(t) == CrRest(cr)
  {
  }

  /** `CR |= PLLON`. */
  lemma PllSwitch(cr: bv32)
    ensures var t := ModifiedCr(cr, ALL, 0x0100_0000);
            PllOn(t) && CrystalOn(t) == CrystalOn(cr) && CrRest(t) == CrRest(cr)
  {
  }

  /** `CR |= HSION`. */
  lemma SetHsion(cr: bv32)
    ensures var t := ModifiedCr(cr, ALL, 1);
            PllOn(t) == PllOn(cr) && CrystalOn(t) == CrystalOn(cr) && CrRest(t) == CrRest(cr).(hsiOn := true)
  {
    hide PllOn, CrystalOn, CrRest, ModifiedCr;
    HsionFlags(cr);
    HsionRest(cr);
  }

  lemma HsionFlags(cr: bv32)
    ensures var t := ModifiedCr(cr, ALL, 1); PllOn(t) == PllOn(cr) && CrystalOn(t) == CrystalOn(cr)
  {
  }

  lemma HsionRest(cr: bv32)
    ensures CrRest(ModifiedCr(cr, ALL, 1)) == CrRest(cr).(hsiOn := true)
  {
  }

  /** `CR &= 0xFFFBFFFF`: HSEBYP off. */
  lemma ClearBypass(cr: bv32)
    ensures var t := ModifiedCr(cr, 0xFFFB_FFFF, NOTHING);
            && PllOn(t) == PllOn(cr) && CrystalOn(t) == CrystalOn(cr)
            && CrRest(t) == CrRest(cr).(bypass := false)
  {
    hide PllOn, CrystalOn, CrRest, ModifiedCr;
    BypassFlags(cr);
    BypassRest(cr);
  }

  lemma BypassFlags(cr: bv32)
    ensures var t := ModifiedCr(cr, 0xFFFB_FFFF, NOTHING); PllOn(t) == PllOn(cr) && CrystalOn(t) == CrystalOn(cr)
  {
  }

  lemma BypassRest(cr: bv32)
    ensures CrRest(ModifiedCr(cr, 0xFFFB_FFFF, NOTHING)) == CrRest(cr).(bypass := false)
  {
  }

  /** `CR &= 0xFEF6FFFF`: HSEON, CSSON and PLLON off. */
  lemma ResetCr(cr: bv32)
    ensures var t := ModifiedCr(cr, 0xFEF6_FFFF, NOTHING);
            !PllOn(t) && !CrystalOn(t) && CrRest(t) == CrRest(cr).(security := false)
  {
    hide PllOn, CrystalOn, CrRest, ModifiedCr;
    ResetFlags(cr);
    ResetRest(cr);
  }

  lemma ResetFlags(cr: bv32)
    ensures var t := ModifiedCr(cr, 0xFEF6_FFFF, NOTHING); !PllOn(t) && !CrystalOn(t)
  {
  }

  lemma ResetRest(cr: bv32)
    ensures CrRest(ModifiedCr(cr, 0xFEF6_FFFF, NOTHING)) == CrRest(cr).(security := false)
  {
  }

  /** `CFGR &= 0xF8FF0000`: back to HSI, no prescalers. */
  lemma ResetSwitch(cfgr: bv32)
    ensures var t := ModifiedCfgr(cfgr, 0xF8FF_0000, NOTHING);
            && IsHsi(Switch(t)) && Prescalers(t) <= 0 && PllConfig(t) == PllConfig(cfgr)
            && CfgrRest(t) == CfgrRest(cfgr).(outputs := NOTHING)
  {
  }

  /** `CFGR &= 0xFF80FFFF`: default PLL input and factor. */
  lemma ResetConfig(cfgr: bv32)
    ensures var t := ModifiedCfgr(cfgr, 0xFF80_FFFF, NOTHING);
            && Switch(t) == Switch(cfgr) && Prescalers(t) == Prescalers(cfgr) && PllConfig(t) <= 0
            && CfgrRest(t) == CfgrRest(cfgr).(usb := false)
  {
    hide Switch, PllConfig, Prescalers, CfgrRest, ModifiedCfgr;
    ResetConfigKeeps(cfgr);
    ResetConfigRest(cfgr);
  }

  lemma ResetConfigKeeps(cfgr: bv32)
    ensures var t := ModifiedCfgr(cfgr, 0xFF80_FFFF, NOTHING);
            Switch(t) == Switch(cfgr) && Prescalers(t) == Prescalers(cfgr) && PllConfig(t) <= 0
  {
  }

  lemma ResetConfigRest(cfgr: bv32)
    ensures CfgrRest(ModifiedCfgr(cfgr, 0xFF80_FFFF, NOTHING)) == CfgrRest(cfgr).(usb := false)
  {
  }

  predicate OnlyPrescalers(bits: bv32) {
    bits & 0xFFFF_C00F <= 0
  }

  lemma OrNothing(fields: bv32)
    ensures Together(fields, NOTHING) == fields
    ensures OnlyPrescalers(NOTHING) && OnlyPrescalers(0x400)
  {
  }

  /** Bits or-ed into the prescaler fields. */
  lemma WritePrescalers(cfgr: bv32, bits: bv32)
    requires OnlyPrescalers(bits)
    ensures var t := ModifiedCfgr(cfgr, ALL, bits);
            && Switch(t) == Switch(cfgr) && PllConfig(t) == PllConfig(cfgr)
            && Prescalers(t) == Together(Prescalers(cfgr), bits) && CfgrRest(t) == CfgrRest(cfgr)
  {
    hide Switch, Prescalers, Together, PllConfig, CfgrRest, ModifiedCfgr;
    PrescalersJoin(cfgr, bits);
    PrescalersApart(cfgr, bits);
  }

  lemma PrescalersJoin(cfgr: bv32, bits: bv32)
    requires OnlyPrescalers(bits)
    ensures Prescalers(ModifiedCfgr(cfgr, ALL, bits)) == Together(Prescalers(cfgr), bits)
  {
  }

  lemma PrescalersApart(cfgr: bv32, bits: bv32)
    requires OnlyPrescalers(bits)
    ensures Switch(ModifiedCfgr(cfgr, ALL, bits)) == Switch(cfgr)
    ensures PllConfig(ModifiedCfgr(cfgr, ALL, bits)) == PllConfig(cfgr)
    ensures CfgrRest(ModifiedCfgr(cfgr, ALL, bits)) == CfgrRest(cfgr)
  {
  }

  lemma ClearConfig(cfgr: bv32)
    ensures var t := ModifiedCfgr(cfgr, 0xFFC0_FFFF, NOTHING);
            && Switch(t) == Switch(cfgr) && Prescalers(t) == Prescalers(cfgr) && PllConfig(t) <= 0
            && CfgrRest(t) == CfgrRest(cfgr)
  {
  }

  /** HSE times nine. */
  lemma WriteConfig(cfgr: bv32)
    requires PllConfig(cfgr) <= 0
    ensures var t := ModifiedCfgr(cfgr, ALL, 0x001D_0000);
            && Switch(t) == Switch(cfgr) && Prescalers(t) == Prescalers(cfgr) && PllConfig(t) == HSE_TIMES_9
            && CfgrRest(t) == CfgrRest(cfgr)
  {
  }

  lemma ClearSwitch(cfgr: bv32)
    ensures var t := ModifiedCfgr(cfgr, 0xFFFF_FFFC, NOTHING);
            && IsHsi(Switch(t)) && Prescalers(t) == Prescalers(cfgr) && PllConfig(t) == PllConfig(cfgr)
            && CfgrRest(t) == CfgrRest(cfgr)
  {
  }

  lemma SelectPll(cfgr: bv32)
    requires IsHsi(Switch(cfgr))
    ensures var t := ModifiedCfgr(cfgr, ALL, 2);
            && IsPll(Switch(t)) && Prescalers(t) == Prescalers(cfgr) && PllConfig(t) == PllConfig(cfgr)
            && CfgrRest(t) == CfgrRest(cfgr)
  {
  }

  /** The prefetch enable, then the two writes of the wait states. */
  lemma WaitStates(acr: bv32)
    ensures var t := ModifiedAcr(ModifiedAcr(ModifiedAcr(acr, ALL, 0x10), 0xFFFF_FFFC, NOTHING), ALL, 2);
            IsTwo(Latency(t)) && AcrRest(t) == AcrRest(acr).(prefetch := true)
  {
    hide Latency, AcrRest, ModifiedAcr, IsTwo;
    var a := ModifiedAcr(acr, ALL, 0x10);
    Prefetch(acr);
    TwoWaitStates(a);
  }

  lemma Prefetch(acr: bv32)
    ensures AcrRest(ModifiedAcr(acr, ALL, 0x10)) == AcrRest(acr).(prefetch := true)
  {
  }

  lemma TwoWaitStates(acr: bv32)
    ensures var t := ModifiedAcr(ModifiedAcr(acr, 0xFFFF_FFFC, NOTHING), ALL, 2);
            IsTwo(Latency(t)) && AcrRest(t) == AcrRest(acr)
  {
  }

  lemma OneSwitch(switch: bv32)
    ensures IsHsi(switch) ==> !IsPll(switch)
  {
  }

  /** Status bits do not disturb what a write does to the control fields. */
  lemma LatchedThenModified(cfgr: bv32, env: bv32, keep: bv32, bits: bv32)
    ensures var t, u := ModifiedCfgr(LatchCfgr(cfgr, env), keep, bits), ModifiedCfgr(cfgr, keep, bits);
            && Switch(t) == Switch(u) && PllConfig(t) == PllConfig(u) && Prescalers(t) == Prescalers(u)
            && CfgrRest(t) == CfgrRest(u)
  {
    hide *;
    LatchedCfgr(cfgr, env);
    SwitchDetermined(LatchCfgr(cfgr, env), cfgr, keep, bits);
    ConfigDetermined(LatchCfgr(cfgr, env), cfgr, keep, bits);
    PrescalersDetermined(LatchCfgr(cfgr, env), cfgr, keep, bits);
    RestDetermined(LatchCfgr(cfgr, env), cfgr, keep, bits);
  }

  lemma RestDetermined(c: bv32, d: bv32, keep: bv32, bits: bv32)
    requires CfgrRest(c) == CfgrRest(d)
    ensures CfgrRest(ModifiedCfgr(c, keep, bits)) == CfgrRest(ModifiedCfgr(d, keep, bits))
  {
  }

  lemma SwitchDetermined(c: bv32, d: bv32, keep: bv32, bits: bv32)
    requires Switch(c) == Switch(d)
    ensures Switch(ModifiedCfgr(c, keep, bits)) == Switch(ModifiedCfgr(d, keep, bits))
  {
  }

  lemma ConfigDetermined(c: bv32, d: bv32, keep: bv32, bits: bv32)
    requires PllConfig(c) == PllConfig(d)
    ensures PllConfig(ModifiedCfgr(c, keep, bits)) == PllConfig(ModifiedCfgr(d, keep, bits))
  {
  }

  lemma PrescalersDetermined(c: bv32, d: bv32, keep: bv32, bits: bv32)
    requires Prescalers(c) == Prescalers(d)
    ensures Prescalers(ModifiedCfgr(c, keep, bits)) == Prescalers(ModifiedCfgr(d, keep, bits))
  {
  }

  lemma LatchedThenModifiedCr(cr: bv32, env: bv32, keep: bv32, bits: bv32)
    ensures var t, u := ModifiedCr(LatchCr(cr, env), keep, bits), ModifiedCr(cr, keep, bits);
            PllOn(t) == PllOn(u) && CrystalOn(t) == CrystalOn(u) && CrRest(t) == CrRest(u)
  {
    hide *;
    LatchedCr(cr, env);
    FlagsDetermined(LatchCr(cr, env), cr, keep, bits);
    CrRestDetermined(LatchCr(cr, env), cr, keep, bits);
  }

  lemma FlagsDetermined(c: bv32, d: bv32, keep: bv32, bits: bv32)
    requires PllOn(c) == PllOn(d) && CrystalOn(c) == CrystalOn(d)
    ensures var t, u := ModifiedCr(c, keep, bits), ModifiedCr(d, keep, bits);
            PllOn(t) == PllOn(u) && CrystalOn(t) == CrystalOn(u)
  {
  }

  lemma CrRestDetermined(c: bv32, d: bv32, keep: bv32, bits: bv32)
    requires CrRest(c) == CrRest(d)
    ensures CrRest(ModifiedCr(c, keep, bits)) == CrRest(ModifiedCr(d, keep, bits))
  {
  }

  // ---- What `SystemInit` makes of the other bits ----

  function ResetCrRest(rest: CrBits): CrBits {
    rest.(hsiOn := true, security := false, bypass := false)
  }

  function ResetCfgrRest(rest: CfgrBits): CfgrBits {
    rest.(outputs := NOTHING, usb := false)
  }

  /** The bits of `mask` are what they were. */
  predicate Kept(r: bv32, before: bv32, mask: bv32) {
    r & mask == before & mask
  }

  lemma FinalCr(cr: bv32, before: bv32)
    requires CrystalOn(cr) && CrRest(cr) == ResetCrRest(CrRest(before))
    ensures Shows(cr, 0x000D_0001, 0x0001_0001) && Kept(cr, before, 0xFCF0_FFFC)
  {
  }

  lemma FinalCfgr(cfgr: bv32, before: bv32)
    requires CfgrRest(cfgr) == ResetCfgrRest(CfgrRest(before))
    ensures Shows(cfgr, 0x0740_C000, 0) && Kept(cfgr, before, 0xF880_0000)
  {
  }

  /** On the PLL: HSE times nine, PCLK1 halved, nothing else divided. */
  lemma FinalPll(cr: bv32, cfgr: bv32)
    requires PllOn(cr) && IsPll(Switch(cfgr)) && PllConfig(cfgr) == HSE_TIMES_9 && Prescalers(cfgr) == PCLK1_HALVED
    requires Shows(cfgr, SWS, SWS_PLL)
    ensures Shows(cfgr, 0x003F_3FFF, 0x001D_040A) && Shows(cr, 0x0100_0000, 0x0100_0000)
  {
  }

  lemma FinalHsi(cr: bv32, cfgr: bv32)
    requires !PllOn(cr) && IsHsi(Switch(cfgr)) && PllConfig(cfgr) <= 0 && Prescalers(cfgr) <= 0
    ensures Shows(cfgr, 0x003F_3FF3, 0) && Shows(cr, 0x0100_0000, 0)
  {
  }

  lemma FinalAcr(acr: bv32, before: bv32)
    ensures IsTwo(Latency(acr)) && AcrRest(acr) == AcrRest(before).(prefetch := true) ==>
              acr == (before & 0xFFFF_FFFC) | 0x12
    ensures Latency(acr) == Latency(before) && AcrRest(acr) == AcrRest(before) ==> acr == before
  {
  }

  // ---- Rules for every step and every state ----

  /**
   * Running from the PLL needs two flash wait states, a crystal that is on and was seen ready, and a PLL that is on
   * and was seen locked as configured.
   */
  predicate Safe(f: Fields) {
    IsPll(f.switch) ==>
      IsTwo(f.latency) && f.crystalOn && f.ready && f.pllOn && f.seen && f.config == HSE_TIMES_9
  }

  /** What one step may do: the hardware's rules for changing crystal, PLL, wait states and switch. */
  predicate Lawful(f: Fields, g: Fields) {
    && (g.config != f.config ==> !f.pllOn && !g.pllOn)
    && (g.latency != f.latency ==> !IsPll(f.switch) && !IsPll(g.switch))
    && (g.prescalers != f.prescalers ==> !IsPll(g.switch))
    && (f.pllOn && !g.pllOn ==> !IsPll(f.switch) && !IsPll(g.switch))
    && (g.seen && !f.seen ==> f.pllOn && g.pllOn)
    && (g.ready && !f.ready ==> f.crystalOn && g.crystalOn)
    && (f.crystalOn && !g.crystalOn ==> !IsPll(f.switch) && !IsPll(g.switch))
    && (g.pllOn && !f.pllOn ==> f.crystalOn && f.ready)
    && (IsPll(g.switch) && !IsPll(f.switch) ==> f.pllOn && f.seen && IsTwo(f.latency))
  }

  ghost predicate Sound(t: seq<Fields>, start: nat) {
    && (forall i | 0 <= i < |t| - 1 :: Lawful(t[i], t[i + 1]))
    && (forall i | start <= i < |t| :: Safe(t[i]))
  }

  lemma Extend(t: seq<Fields>, f: Fields, start: nat)
    requires Sound(t, start) && |t| > 0 && Lawful(t[|t| - 1], f) && (start <= |t| ==> Safe(f))
    ensures Sound(t + [f], start)
  {
    hide Safe, Lawful;
    var u := t + [f];
    assert forall i | 0 <= i < |t| :: u[i] == t[i];
    assert u[|t|] == f;
    forall i | 0 <= i < |u| - 1
      ensures Lawful(u[i], u[i + 1])
    {
      if i + 1 < |t| {
        assert Lawful(t[i], t[i + 1]);
      }
    }
    forall i | start <= i < |u|
      ensures Safe(u[i])
    {
    }
  }

  // ---- The course of `SetSysClockTo72`, from the hardware's words alone ----

  /** On the PLL, given up because the crystal did not start, or still in one of the two endless waits. */
  datatype Outcome = OnPll | NoCrystal | Waiting

  function CrystalEnd(crEnv: nat -> bv32, first: nat): nat {
    PollEnd(crEnv, HSERDY, HSERDY, first + 1, 0x4FF)
  }

  /** Nine writes lie between the crystal's verdict and the PLL wait. */
  function LockEnd(crEnv: nat -> bv32, first: nat, patience: nat): nat {
    PollEnd(crEnv, PLLRDY, PLLRDY, CrystalEnd(crEnv, first) + 11, patience)
  }

  function SwitchEnd(crEnv: nat -> bv32, cfgrEnv: nat -> bv32, first: nat, patience: nat): nat {
    PollEnd(cfgrEnv, SWS, SWS_PLL, LockEnd(crEnv, first, patience) + 3, patience)
  }

  /**
   * The crystal is judged by the read after its poll, whatever the poll saw; each of the two later
   * waits ends if its flag appears within `patience` further polls.
   */
  function Course(crEnv: nat -> bv32, cfgrEnv: nat -> bv32, first: nat, patience: nat): Outcome {
    if !Shows(crEnv(CrystalEnd(crEnv, first) + 1), HSERDY, HSERDY) then NoCrystal
    else if !Shows(crEnv(LockEnd(crEnv, first, patience)), PLLRDY, PLLRDY) then Waiting
    else if !Shows(cfgrEnv(SwitchEnd(crEnv, cfgrEnv, first, patience)), SWS, SWS_PLL) then Waiting
    else OnPll
  }

  /** A wait ends exactly if its flag is shown by one of the reads it may make. */
  lemma WaitEnds(reg: nat -> bv32, mask: bv32, want: bv32, start: nat, patience: nat)
    ensures Shows(reg(PollEnd(reg, mask, want, start, patience)), mask, want) <==>
            exists n | start <= n <= start + patience :: Shows(reg(n), mask, want)
  {
    hide Shows;
    var e := PollEnd(reg, mask, want, start, patience);
    if Shows(reg(e), mask, want) {
      assert start <= e <= start + patience;
    }
  }

  /** The crystal's poll makes at most 0x500 reads, up to the first that shows bit 17. */
  lemma CrystalWindow(crEnv: nat -> bv32, first: nat)
    ensures var e := CrystalEnd(crEnv, first);
            && first + 1 <= e <= first + 0x500
            && (forall j | first + 1 <= j < e :: !Shows(crEnv(j), 0x0002_0000, 0x0002_0000))
            && (Shows(crEnv(e), 0x0002_0000, 0x0002_0000) || e == first + 0x500)
  {
  }

  /** When `SetSysClockTo72` reaches the PLL: a crystal verdict, a lock and a switch, each in its window. */
  lemma ReachesPll(crEnv: nat -> bv32, cfgrEnv: nat -> bv32, first: nat, patience: nat)
    ensures var verdict := CrystalEnd(crEnv, first) + 1;
            var lock := LockEnd(crEnv, first, patience);
            Course(crEnv, cfgrEnv, first, patience).OnPll? <==>
              && Shows(crEnv(verdict), 0x0002_0000, 0x0002_0000)
              && (exists n |
                    verdict + 10 <= n <= verdict + 10 + patience :: Shows(crEnv(n), 0x0200_0000, 0x0200_0000))
              && (exists n | lock + 3 <= n <= lock + 3 + patience :: Shows(cfgrEnv(n), 0xC, 0x8))
  {
    hide Shows, PollEnd;
    WaitEnds(crEnv, PLLRDY, PLLRDY, CrystalEnd(crEnv, first) + 11, patience);
    WaitEnds(cfgrEnv, SWS, SWS_PLL, LockEnd(crEnv, first, patience) + 3, patience);
  }

  // ---- The frequency the registers describe ----

  const HSI_VALUE: nat := 8_000_000
  const HSE_VALUE: nat := 8_000_000
  const AHB_PRESC_TABLE: seq<nat> := [0, 0, 0, 0, 0, 0, 0, 0, 1, 2, 3, 4, 6, 7, 8, 9]

  function PllFactor(cfgr: bv32): nat {
    (((cfgr & 0x003C_0000) >> 18) + 2) as int
  }

  function AhbShift(cfgr: bv32): (n: nat)
    ensures n <= 9
  {
    AHB_PRESC_TABLE[((cfgr & 0xF0) >> 4) as int]
  }

  function Pow2(n: nat): (p: nat)
    ensures p > 0
  {
    if n == 0 then 1 else 2 * Pow2(n - 1)
  }

  /** What `SystemCoreClockUpdate` computes from one CFGR word. */
  function CoreClock(cfgr: bv32): nat {
    SystemClock(cfgr) / Pow2(AhbShift(cfgr))
  }

  function SystemClock(cfgr: bv32): nat {
    if Shows(cfgr, SWS, 0x4) then HSE_VALUE
    else if Shows(cfgr, SWS, SWS_PLL) then PllInput(cfgr) * PllFactor(cfgr)
    else HSI_VALUE
  }

  function PllInput(cfgr: bv32): nat {
    if !FromCrystal(cfgr) then HSI_VALUE / 2
    else if CrystalHalved(cfgr) then HSE_VALUE / 2
    else HSE_VALUE
  }

  predicate FromCrystal(cfgr: bv32) {
    0 < cfgr & 0x0001_0000
  }

  predicate CrystalHalved(cfgr: bv32) {
    0 < cfgr & 0x0002_0000
  }

  lemma LatchedTree(cfgr: bv32, env: bv32)
    ensures var t := LatchCfgr(cfgr, env);
            && PllFactor(t) == PllFactor(cfgr) && AhbShift(t) == AhbShift(cfgr)
            && FromCrystal(t) == FromCrystal(cfgr) && CrystalHalved(t) == CrystalHalved(cfgr)
  {
  }

  /** With the PLL at HSE times nine the result is 72 MHz exactly if HPRE's top bit is clear. */
  lemma SeventyTwo(cfgr: bv32)
    requires Shows(cfgr, SWS, SWS_PLL) && PllConfig(cfgr) == HSE_TIMES_9
    ensures CoreClock(cfgr) == 72_000_000 <==> Prescalers(cfgr) & 0x80 <= 0
  {
    NineTimes(cfgr);
    UndividedAhb(cfgr);
    Halved(AhbShift(cfgr));
  }

  /**
   * `SetSysClockTo72` only ors into the prescalers: called without the reset writes it reaches 72 MHz
   * exactly if the AHB prescaler's top bit was clear before the call.
   */
  lemma WithoutReset(before: bv32, cfgr: bv32)
    requires Shows(cfgr, SWS, SWS_PLL) && PllConfig(cfgr) == HSE_TIMES_9
    requires Prescalers(cfgr) == Together(Prescalers(before), 0x400)
    ensures CoreClock(cfgr) == 72_000_000 <==> before & 0x80 <= 0
  {
    hide CoreClock, Shows, PllConfig;
    SeventyTwo(cfgr);
    assert Together(Prescalers(before), 0x400) & 0x80 <= 0 <==> before & 0x80 <= 0;
  }

  lemma NineTimes(cfgr: bv32)
    requires PllConfig(cfgr) == HSE_TIMES_9
    ensures PllInput(cfgr) == HSE_VALUE && PllFactor(cfgr) == 9
  {
  }

  lemma UndividedAhb(cfgr: bv32)
    ensures AhbShift(cfgr) == 0 <==> Prescalers(cfgr) & 0x80 <= 0
  {
    assert ((cfgr & 0xF0) >> 4) as int < 8 <==> Prescalers(cfgr) & 0x80 <= 0;
  }

  lemma Halved(n: nat)
    ensures 72_000_000 / Pow2(n) == 72_000_000 <==> n == 0
  {
    if n > 0 {
      assert Pow2(n) >= 2;
      assert 72_000_000 / Pow2(n) <= 36_000_000;
    }
  }

  lemma DescribesSeventyTwo(cfgr: bv32, before: bv32)
    requires PllConfig(cfgr) == HSE_TIMES_9 && before <= 0 && Prescalers(cfgr) == Together(before, 0x400)
    ensures Prescalers(cfgr) == PCLK1_HALVED
    ensures forall env: bv32 | Shows(env, SWS, SWS_PLL) :: CoreClock(LatchCfgr(cfgr, env)) == 72_000_000
  {
    hide PllConfig, CoreClock, Shows, LatchCfgr;
    forall env: bv32 | Shows(env, SWS, SWS_PLL)
      ensures CoreClock(LatchCfgr(cfgr, env)) == 72_000_000
    {
      LatchedCfgr(cfgr, env);
      SeventyTwo(LatchCfgr(cfgr, env));
    }
  }

  lemma DescribesHsi(cfgr: bv32)
    requires Prescalers(cfgr) <= 0
    ensures forall env: bv32 | Shows(env, SWS, NOTHING) :: CoreClock(LatchCfgr(cfgr, env)) == HSI_VALUE
  {
    forall env: bv32 | Shows(env, SWS, NOTHING)
      ensures CoreClock(LatchCfgr(cfgr, env)) == HSI_VALUE
    {
      HsiShown(cfgr, env);
      UndividedAhb(LatchCfgr(cfgr, env));
    }
  }

  lemma HsiShown(cfgr: bv32, env: bv32)
    requires Prescalers(cfgr) <= 0 && Shows(env, SWS, NOTHING)
    ensures SystemClock(LatchCfgr(cfgr, env)) == HSI_VALUE
    ensures Prescalers(LatchCfgr(cfgr, env)) & 0x80 <= 0
  {
    hide PllInput, PllFactor;
  }

  // ---- The clock tree as the register header names it ----

  datatype Input = HsiHalf | Hse | HseHalf

  datatype Source = Internal | External | Pll(input: Input, factor: nat)
  {
    function Frequency(): nat {
      match this
      case Internal => HSI_VALUE
      case External => HSE_VALUE
      case Pll(HsiHalf, n) => HSI_VALUE / 2 * n
      case Pll(Hse, n) => HSE_VALUE * n
      case Pll(HseHalf, n) => HSE_VALUE / 2 * n
    }
  }

  /** `RCC_CFGR_PLLMULLn`. */
  function FactorWord(n: nat): bv32
    requires 2 <= n <= 16
  {
    match n
    case 2 => 0
    case 3 => 0x0004_0000
    case 4 => 0x0008_0000
    case 5 => 0x000C_0000
    case 6 => 0x0010_0000
    case 7 => 0x0014_0000
    case 8 => 0x0018_0000
    case 9 => 0x001C_0000
    case 10 => 0x0020_0000
    case 11 => 0x0024_0000
    case 12 => 0x0028_0000
    case 13 => 0x002C_0000
    case 14 => 0x0030_0000
    case 15 => 0x0034_0000
    case 16 => 0x0038_0000
  }

  predicate IsDivider(d: nat) {
    d in {1, 2, 4, 8, 16, 64, 128, 256, 512}
  }

  /** `RCC_CFGR_HPRE_DIVd`; there is no division by 32. */
  function DividerWord(d: nat): bv32
    requires IsDivider(d)
  {
    if d == 1 then 0
    else if d == 2 then 0x80
    else if d == 4 then 0x90
    else if d == 8 then 0xA0
    else if d == 16 then 0xB0
    else if d == 64 then 0xC0
    else if d == 128 then 0xD0
    else if d == 256 then 0xE0
    else 0xF0
  }

  predicate Selects(cfgr: bv32, input: Input) {
    match input
    case HsiHalf => Shows(cfgr, 0x0001_0000, 0)
    case Hse => Shows(cfgr, 0x0003_0000, 0x0001_0000)
    case HseHalf => Shows(cfgr, 0x0003_0000, 0x0003_0000)
  }

  /** The CFGR word holds the named constants of this clock source. */
  predicate Names(cfgr: bv32, s: Source) {
    match s
    case Internal => Shows(cfgr, 0xC, 0)
    case External => Shows(cfgr, 0xC, 0x4)
    case Pll(input, n) =>
      && Shows(cfgr, 0xC, 0x8) && Selects(cfgr, input)
      && 2 <= n <= 16 && Shows(cfgr, 0x003C_0000, FactorWord(n))
  }

  /** For every clock tree that the header names, the computed frequency is the tree's, whatever the other bits hold. */
  lemma ComputesNamedTree(cfgr: bv32, s: Source, d: nat)
    requires Names(cfgr, s) && IsDivider(d) && Shows(cfgr, 0xF0, DividerWord(d))
    ensures CoreClock(cfgr) == s.Frequency() / d
  {
    hide Shows, Selects, FactorWord, DividerWord, AhbShift, PllFactor, PllInput, Pow2;
    DividerRead(cfgr, d);
    match s
    case Internal => OneStatus(cfgr, 0);
    case External => OneStatus(cfgr, 0x4);
    case Pll(input, n) =>
      OneStatus(cfgr, SWS_PLL);
      FactorRead(cfgr, n);
      InputRead(cfgr, input);
  }

  /**
   * The names leave out nothing but a factor field of all ones, and the AHB fields from 1 to 7, which divide by one
   * like the field 0.
   */
  lemma NamesAreComplete(cfgr: bv32)
    ensures (exists n | 2 <= n <= 16 :: Shows(cfgr, 0x003C_0000, FactorWord(n))) <==> PllFactor(cfgr) <= 16
    ensures (exists d | IsDivider(d) :: Shows(cfgr, 0xF0, DividerWord(d))) <==> cfgr & 0x80 != 0 || cfgr & 0x70 == 0
    ensures exists input :: Selects(cfgr, input)
  {
    hide Shows, FactorWord, DividerWord, Selects;
    FactorNamed(cfgr);
    DividerNamed(cfgr);
    InputNamed(cfgr);
  }

  lemma FactorNamed(cfgr: bv32)
    ensures (exists n | 2 <= n <= 16 :: Shows(cfgr, 0x003C_0000, FactorWord(n))) <==> PllFactor(cfgr) <= 16
  {
    var n := PllFactor(cfgr);
    if n <= 16 {
      assert Shows(cfgr, 0x003C_0000, FactorWord(n));
    } else if n == 17 {
      UnnamedFactor(cfgr);
    }
  }

  lemma DividerNamed(cfgr: bv32)
    ensures (exists d | IsDivider(d) :: Shows(cfgr, 0xF0, DividerWord(d))) <==> cfgr & 0x80 != 0 || cfgr & 0x70 == 0
  {
    assert cfgr & 0xF0 == 0 ==> Shows(cfgr, 0xF0, DividerWord(1));
    assert cfgr & 0xF0 == 0x80 ==> Shows(cfgr, 0xF0, DividerWord(2));
    assert cfgr & 0xF0 == 0x90 ==> Shows(cfgr, 0xF0, DividerWord(4));
    assert cfgr & 0xF0 == 0xA0 ==> Shows(cfgr, 0xF0, DividerWord(8));
    assert cfgr & 0xF0 == 0xB0 ==> Shows(cfgr, 0xF0, DividerWord(16));
    assert cfgr & 0xF0 == 0xC0 ==> Shows(cfgr, 0xF0, DividerWord(64));
    assert cfgr & 0xF0 == 0xD0 ==> Shows(cfgr, 0xF0, DividerWord(128));
    assert cfgr & 0xF0 == 0xE0 ==> Shows(cfgr, 0xF0, DividerWord(256));
    assert cfgr & 0xF0 == 0xF0 ==> Shows(cfgr, 0xF0, DividerWord(512));
  }

  lemma InputNamed(cfgr: bv32)
    ensures exists input :: Selects(cfgr, input)
  {
    assert Selects(cfgr, HsiHalf) || Selects(cfgr, Hse) || Selects(cfgr, HseHalf);
  }

  lemma OneStatus(cfgr: bv32, want: bv32)
    requires Shows(cfgr, SWS, want)
    ensures Shows(cfgr, SWS, 0x4) == (want == 0x4) && Shows(cfgr, SWS, SWS_PLL) == (want == SWS_PLL)
  {
  }

  lemma FactorRead(cfgr: bv32, n: nat)
    requires 2 <= n <= 16 && Shows(cfgr, 0x003C_0000, FactorWord(n))
    ensures PllFactor(cfgr) == n
  {
  }

  lemma InputRead(cfgr: bv32, input: Input)
    requires Selects(cfgr, input)
    ensures PllInput(cfgr) == match input
            case HsiHalf => HSI_VALUE / 2
            case Hse => HSE_VALUE
            case HseHalf => HSE_VALUE / 2
  {
  }

  lemma DividerRead(cfgr: bv32, d: nat)
    requires IsDivider(d) && Shows(cfgr, 0xF0, DividerWord(d))
    ensures Pow2(AhbShift(cfgr)) == d
  {
    DividerShift(cfgr, d);
    Powers();
  }

  lemma DividerShift(cfgr: bv32, d: nat)
    requires IsDivider(d) && Shows(cfgr, 0xF0, DividerWord(d))
    ensures AhbShift(cfgr) == match d
            case 1 => 0 case 2 => 1 case 4 => 2 case 8 => 3 case 16 => 4
            case 64 => 6 case 128 => 7 case 256 => 8 case _ => 9
  {
  }

  lemma Powers()
    ensures Pow2(0) == 1 && Pow2(1) == 2 && Pow2(2) == 4 && Pow2(3) == 8 && Pow2(4) == 16
    ensures Pow2(6) == 64 && Pow2(7) == 128 && Pow2(8) == 256 && Pow2(9) == 512
  {
    assert Pow2(5) == 32;
  }

  /** The one factor field the header does not name is taken as seventeen. */
  lemma UnnamedFactor(cfgr: bv32)
    requires Shows(cfgr, 0x003C_0000, 0x003C_0000)
    ensures PllFactor(cfgr) == 17 && forall n | 2 <= n <= 16 :: !Shows(cfgr, 0x003C_0000, FactorWord(n))
  {
  }

  class Rcc {
    var cr: bv32
    var cfgr: bv32
    var cir: bv32
    var acr: bv32
    /** The words the hardware shows at the n-th register access; only its own bits are taken from them. */
    const crEnv: nat -> bv32
    const cfgrEnv: nat -> bv32
    var clock: nat
    /** `SystemCoreClock`. */
    var coreClock: nat
    /** HSERDY has been read since HSEON was set, and PLLRDY since PLLON was. */
    ghost var ready: bool
    ghost var seen: bool
    ghost var trace: seq<Fields>

    ghost function Now(): Fields
      reads this
    {
      FieldsOf(cr, cfgr, acr, ready, seen)
    }

    ghost predicate Recorded()
      reads this
    {
      |trace| > 0 && trace[|trace| - 1] == Now() && (seen ==> Now().pllOn) && (ready ==> Now().crystalOn)
    }

    /** The hardware sets its bits before an access. */
    method Hardware()
      modifies this`cr, this`cfgr, this`clock
      ensures clock == old(clock) + 1 && Now() == old(Now())
      ensures cr == LatchCr(old(cr), crEnv(old(clock)))
      ensures cfgr == LatchCfgr(old(cfgr), cfgrEnv(old(clock)))
    {
      LatchedCr(cr, crEnv(clock));
      LatchedCfgr(cfgr, cfgrEnv(clock));
      hide Switch, PllConfig, Prescalers, CfgrRest, PllOn, CrystalOn, CrRest, Latency, AcrRest;
      hide LatchCr, LatchCfgr;
      cr := LatchCr(cr, crEnv(clock));
      cfgr := LatchCfgr(cfgr, cfgrEnv(clock));
      clock := clock + 1;
    }

    ghost method Record()
      modifies this`trace
      ensures trace == old(trace) + [Now()]
    {
      trace := trace + [Now()];
    }

    method ModifyCr(keep: bv32, bits: bv32)
      modifies this`cr, this`cfgr, this`clock, this`ready, this`seen, this`trace
      ensures clock == old(clock) + 1 && trace == old(trace) + [Now()]
      ensures var f, t := old(Now()), ModifiedCr(old(cr), keep, bits);
              Now() == f.(pllOn := PllOn(t), crystalOn := CrystalOn(t), crRest := CrRest(t),
                          ready := CrystalOn(t) && f.ready, seen := PllOn(t) && f.seen)
    {
      hide Switch, PllConfig, Prescalers, CfgrRest, PllOn, CrystalOn, CrRest, Latency, AcrRest;
      hide LatchCr, LatchCfgr, ModifiedCr;
      LatchedThenModifiedCr(cr, crEnv(clock), keep, bits);
      Hardware();
      WriteCr(ModifiedCr(cr, keep, bits));
      Record();
    }

    /** The write of CR; what was seen of a source that it turns off is forgotten. */
    method WriteCr(value: bv32)
      modifies this`cr, this`ready, this`seen
      ensures cr == value
      ensures Now() == old(Now()).(pllOn := PllOn(value), crystalOn := CrystalOn(value), crRest := CrRest(value),
                                   ready := CrystalOn(value) && old(Now()).ready,
                                   seen := PllOn(value) && old(Now()).seen)
    {
      hide Switch, PllConfig, Prescalers, CfgrRest, PllOn, CrystalOn, CrRest, Latency, AcrRest;
      cr := value;
      seen := PllOn(cr) && seen;
      ready := CrystalOn(cr) && ready;
    }

    method ModifyCfgr(keep: bv32, bits: bv32)
      modifies this`cr, this`cfgr, this`clock, this`trace
      ensures clock == old(clock) + 1 && trace == old(trace) + [Now()]
      ensures var f, t := old(Now()), ModifiedCfgr(old(cfgr), keep, bits);
              Now() == f.(switch := Switch(t), config := PllConfig(t), prescalers := Prescalers(t),
                          cfgrRest := CfgrRest(t))
    {
      Hardware();
      LatchedThenModified(old(cfgr), cfgrEnv(old(clock)), keep, bits);
      hide *;
      cfgr := ModifiedCfgr(cfgr, keep, bits);
      Record();
    }

    method ModifyAcr(keep: bv32, bits: bv32)
      modifies this`cr, this`cfgr, this`acr, this`clock, this`trace
      ensures clock == old(clock) + 1 && trace == old(trace) + [Now()]
      ensures acr == ModifiedAcr(old(acr), keep, bits)
      ensures Now() == old(Now()).(latency := Latency(acr), acrRest := AcrRest(acr))
    {
      Hardware();
      hide *;
      acr := ModifiedAcr(acr, keep, bits);
      Record();
    }

    ghost predicate Steady(start: nat)
      reads this
    {
      Recorded() && Sound(trace, start)
    }

    method CrystalFlag() returns (on: bool)
      modifies this`cr, this`cfgr, this`clock
      ensures clock == old(clock) + 1 && Now() == old(Now())
      ensures on == Shows(crEnv(old(clock)), HSERDY, HSERDY)
    {
      LatchedCr(cr, crEnv(clock));
      Hardware();
      on := 0 < cr & HSERDY;
    }

    /** Reading the crystal as ready while it is on is what `ready` remembers. */
    method CrystalReady() returns (on: bool)
      modifies this`cr, this`cfgr, this`clock, this`ready, this`trace
      ensures clock == old(clock) + 1 && trace == old(trace) + [Now()]
      ensures Now() == old(Now()).(ready := ready)
      ensures on == Shows(crEnv(old(clock)), HSERDY, HSERDY)
      ensures ready == (old(ready) || (on && old(Now()).crystalOn))
    {
      hide Switch, PllConfig, Prescalers, CfgrRest, PllOn, CrystalOn, CrRest, Latency, AcrRest;
      hide LatchCr, LatchCfgr, Shows;
      on := CrystalFlag();
      ready := ready || (on && CrystalOn(cr));
      Record();
    }

    method PllFlag() returns (on: bool)
      modifies this`cr, this`cfgr, this`clock
      ensures clock == old(clock) + 1 && Now() == old(Now())
      ensures on == Shows(crEnv(old(clock)), PLLRDY, PLLRDY)
    {
      LatchedCr(cr, crEnv(clock));
      Hardware();
      on := 0 < cr & PLLRDY;
    }

    /** Reading the PLL as ready while it is on is what `seen` remembers. */
    method PllReady() returns (on: bool)
      modifies this`cr, this`cfgr, this`clock, this`seen, this`trace
      ensures clock == old(clock) + 1 && trace == old(trace) + [Now()]
      ensures Now() == old(Now()).(seen := seen)
      ensures on == Shows(crEnv(old(clock)), PLLRDY, PLLRDY)
      ensures seen == (old(seen) || (on && old(Now()).pllOn))
    {
      hide Switch, PllConfig, Prescalers, CfgrRest, PllOn, CrystalOn, CrRest, Latency, AcrRest;
      hide LatchCr, LatchCfgr, Shows;
      on := PllFlag();
      seen := seen || (on && PllOn(cr));
      Record();
    }

    method RunsOnPll() returns (on: bool)
      modifies this`cr, this`cfgr, this`clock
      ensures clock == old(clock) + 1 && Now() == old(Now())
      ensures on == Shows(cfgrEnv(old(clock)), SWS, SWS_PLL) == Shows(cfgr, SWS, SWS_PLL)
    {
      LatchedCfgr(cfgr, cfgrEnv(clock));
      Hardware();
      on := cfgr & SWS == SWS_PLL;
    }

    /** Wait for the crystal, which is on, at most 0x500 reads; a further read decides. */
    method WaitForCrystal(ghost start: nat) returns (verdict: bool)
      requires Steady(start) && !IsPll(Now().switch) && Now().crystalOn
      modifies this`cr, this`cfgr, this`clock, this`ready, this`trace
      ensures old(trace) <= trace
      ensures Steady(start) && Now() == old(Now()).(ready := ready)
      ensures clock == PollEnd(crEnv, HSERDY, HSERDY, old(clock), 0x4FF) + 2
      ensures verdict == Shows(crEnv(clock - 1), HSERDY, HSERDY)
      ensures verdict ==> ready
    {
      hide Switch, PllConfig, Prescalers, CfgrRest, PllOn, CrystalOn, CrRest, Latency, AcrRest;
      hide IsPll, IsTwo, Shows, PollEnd;
      var counter := 0;
      var status := false;
      while !status && counter != 0x500
        invariant 0 <= counter <= 0x500 && clock == old(clock) + counter
        invariant forall j | old(clock) <= j < old(clock) + counter - 1 :: !Shows(crEnv(j), HSERDY, HSERDY)
        invariant if counter > 0 then status == Shows(crEnv(clock - 1), HSERDY, HSERDY) else !status
        invariant old(trace) <= trace
        invariant Steady(start) && Now() == old(Now()).(ready := ready)
        decreases 0x500 - counter
      {
        status := PollCrystal(start);
        counter := counter + 1;
      }
      PollEndUnique(crEnv, HSERDY, HSERDY, old(clock), 0x4FF, clock - 1);
      verdict := PollCrystal(start);
    }

    /** One read of the crystal's flag. */
    method PollCrystal(ghost start: nat) returns (on: bool)
      requires Steady(start) && !IsPll(Now().switch) && Now().crystalOn
      modifies this`cr, this`cfgr, this`clock, this`ready, this`trace
      ensures old(trace) <= trace && clock == old(clock) + 1
      ensures Steady(start) && Now() == old(Now()).(ready := ready)
      ensures on == Shows(crEnv(old(clock)), HSERDY, HSERDY) && (on ==> ready)
    {
      hide Switch, PllConfig, Prescalers, CfgrRest, PllOn, CrystalOn, CrRest, Latency, AcrRest;
      hide IsPll, IsTwo, Shows;
      ghost var before := trace;
      on := CrystalReady();
      Extend(before, Now(), start);
    }

    /** `CR |= HSEON`: the first write of `SetSysClockTo72`. */
    method TurnOnCrystal(ghost start: nat)
      requires Steady(start) && !IsPll(Now().switch)
      modifies this`cr, this`cfgr, this`clock, this`ready, this`seen, this`trace
      ensures trace == old(trace) + [Now()]
      ensures Steady(start) && Now() == old(Now()).(crystalOn := true) && clock == old(clock) + 1
    {
      hide Switch, PllConfig, Prescalers, CfgrRest, PllOn, CrystalOn, CrRest, Latency, AcrRest;
      hide ModifiedCr;
      CrystalSwitch(cr);
      Extend(trace, Now().(crystalOn := true), start);
      ModifyCr(ALL, 0x0001_0000);
    }

    /** A write to the flash register while the PLL does not drive the system. */
    method StepAcr(ghost start: nat, keep: bv32, bits: bv32)
      requires Steady(start) && !IsPll(Now().switch)
      modifies this`cr, this`cfgr, this`acr, this`clock, this`trace
      ensures old(trace) <= trace
      ensures Steady(start) && clock == old(clock) + 1 && acr == ModifiedAcr(old(acr), keep, bits)
      ensures Now() == old(Now()).(latency := Latency(acr), acrRest := AcrRest(acr))
    {
      hide Switch, PllConfig, Prescalers, CfgrRest, PllOn, CrystalOn, CrRest, Latency, AcrRest;
      hide IsPll, IsTwo, ModifiedAcr;
      ghost var t := ModifiedAcr(acr, keep, bits);
      Extend(trace, Now().(latency := Latency(t), acrRest := AcrRest(t)), start);
      ModifyAcr(keep, bits);
    }

    /** Prefetch on, two wait states. */
    method SetWaitStates(ghost start: nat)
      requires Steady(start) && !IsPll(Now().switch)
      modifies this`cr, this`cfgr, this`acr, this`clock, this`trace
      ensures old(trace) <= trace
      ensures Steady(start) && clock == old(clock) + 3 && IsTwo(Latency(acr))
      ensures Now() == old(Now()).(latency := Latency(acr), acrRest := old(Now()).acrRest.(prefetch := true))
    {
      hide Switch, PllConfig, Prescalers, CfgrRest, PllOn, CrystalOn, CrRest, Latency, AcrRest;
      hide IsPll, IsTwo, ModifiedAcr, Sound;
      WaitStates(acr);
      StepAcr(start, ALL, 0x10);
      StepAcr(start, 0xFFFF_FFFC, NOTHING);
      StepAcr(start, ALL, 2);
    }

    /** A write to the prescalers while the PLL does not drive the system. */
    method StepPrescalers(ghost start: nat, bits: bv32)
      requires Steady(start) && !IsPll(Now().switch) && OnlyPrescalers(bits)
      modifies this`cr, this`cfgr, this`clock, this`trace
      ensures old(trace) <= trace
      ensures Steady(start) && clock == old(clock) + 1
      ensures Now() == old(Now()).(prescalers := Together(old(Now()).prescalers, bits))
    {
      hide Switch, PllConfig, Prescalers, CfgrRest, PllOn, CrystalOn, CrRest, Latency, AcrRest;
      hide IsPll, IsTwo, ModifiedCfgr, OnlyPrescalers, Together;
      WritePrescalers(cfgr, bits);
      Extend(trace, Now().(prescalers := Together(Now().prescalers, bits)), start);
      ModifyCfgr(ALL, bits);
    }

    /** HCLK and PCLK2 undivided, PCLK1 halved: or-ed into whatever the fields held. */
    method SetPrescalers(ghost start: nat)
      requires Steady(start) && !IsPll(Now().switch)
      modifies this`cr, this`cfgr, this`clock, this`trace
      ensures old(trace) <= trace
      ensures Steady(start) && clock == old(clock) + 3
      ensures Now() == old(Now()).(prescalers := Together(old(Now()).prescalers, 0x400))
    {
      hide Switch, PllConfig, Prescalers, CfgrRest, PllOn, CrystalOn, CrRest, Latency, AcrRest;
      hide IsPll, Steady, OnlyPrescalers, Together;
      OrNothing(Now().prescalers);
      StepPrescalers(start, NOTHING);
      StepPrescalers(start, NOTHING);
      StepPrescalers(start, 0x400);
    }

    /** HSE times nine, while the PLL is off. */
    method ConfigurePll(ghost start: nat)
      requires Steady(start) && !IsPll(Now().switch) && !Now().pllOn
      modifies this`cr, this`cfgr, this`clock, this`trace
      ensures old(trace) <= trace
      ensures Steady(start) && clock == old(clock) + 2
      ensures Now() == old(Now()).(config := HSE_TIMES_9)
    {
      hide Switch, PllConfig, Prescalers, CfgrRest, PllOn, CrystalOn, CrRest, Latency, AcrRest;
      hide IsPll, IsTwo, ModifiedCfgr;
      ClearConfig(cfgr);
      Extend(trace, Now().(config := PllConfig(ModifiedCfgr(cfgr, 0xFFC0_FFFF, NOTHING))), start);
      ModifyCfgr(0xFFC0_FFFF, NOTHING);
      WriteConfig(cfgr);
      Extend(trace, Now().(config := HSE_TIMES_9), start);
      ModifyCfgr(ALL, 0x001D_0000);
    }

    method TurnOnPll(ghost start: nat)
      requires Steady(start) && !IsPll(Now().switch) && Now().crystalOn && Now().ready
      modifies this`cr, this`cfgr, this`clock, this`ready, this`seen, this`trace
      ensures old(trace) <= trace
      ensures Steady(start) && clock == old(clock) + 1 && Now() == old(Now()).(pllOn := true)
    {
      hide Switch, PllConfig, Prescalers, CfgrRest, PllOn, CrystalOn, CrRest, Latency, AcrRest;
      hide IsPll, IsTwo, ModifiedCr;
      PllSwitch(cr);
      Extend(trace, Now().(pllOn := true), start);
      ModifyCr(ALL, 0x0100_0000);
    }

    /** Wait until the PLL is read as ready, here for at most `patience` more polls than one. */
    method WaitForPll(ghost start: nat, patience: nat) returns (locked: bool)
      requires Steady(start) && !IsPll(Now().switch) && Now().pllOn
      modifies this`cr, this`cfgr, this`clock, this`seen, this`trace
      ensures old(trace) <= trace
      ensures Steady(start) && Now() == old(Now()).(seen := seen)
      ensures clock == PollEnd(crEnv, PLLRDY, PLLRDY, old(clock), patience) + 1
      ensures locked == Shows(crEnv(clock - 1), PLLRDY, PLLRDY)
      ensures locked ==> seen
    {
      hide Switch, PllConfig, Prescalers, CfgrRest, PllOn, CrystalOn, CrRest, Latency, AcrRest;
      hide IsPll, IsTwo, Shows, PollEnd;
      locked := false;
      var polls := 0;
      while !locked && polls <= patience
        invariant 0 <= polls <= patience + 1 && clock == old(clock) + polls
        invariant forall j | old(clock) <= j < old(clock) + polls - 1 :: !Shows(crEnv(j), PLLRDY, PLLRDY)
        invariant if polls > 0 then locked == Shows(crEnv(clock - 1), PLLRDY, PLLRDY) else !locked
        invariant locked ==> seen
        invariant old(trace) <= trace
        invariant Steady(start) && Now() == old(Now()).(seen := seen)
        decreases patience + 1 - polls
      {
        locked := PollPll(start);
        polls := polls + 1;
      }
      PollEndUnique(crEnv, PLLRDY, PLLRDY, old(clock), patience, clock - 1);
    }

    /** One read of the PLL's flag. */
    method PollPll(ghost start: nat) returns (on: bool)
      requires Steady(start) && !IsPll(Now().switch) && Now().pllOn
      modifies this`cr, this`cfgr, this`clock, this`seen, this`trace
      ensures old(trace) <= trace && clock == old(clock) + 1
      ensures Steady(start) && Now() == old(Now()).(seen := seen)
      ensures on == Shows(crEnv(old(clock)), PLLRDY, PLLRDY) && (on ==> seen)
    {
      hide Switch, PllConfig, Prescalers, CfgrRest, PllOn, CrystalOn, CrRest, Latency, AcrRest;
      hide IsPll, IsTwo, Shows;
      ghost var before := trace;
      on := PllReady();
      Extend(before, Now(), start);
    }

    /** Select the PLL once it is locked and the wait states are set. */
    method SelectPllClock(ghost start: nat)
      requires Steady(start) && !IsPll(Now().switch)
      requires Now().crystalOn && Now().ready && Now().pllOn && seen
      requires IsTwo(Now().latency) && Now().config == HSE_TIMES_9
      modifies this`cr, this`cfgr, this`clock, this`trace
      ensures old(trace) <= trace
      ensures Steady(start) && clock == old(clock) + 2
      ensures Now() == old(Now()).(switch := Now().switch) && IsPll(Now().switch)
    {
      hide Switch, PllConfig, Prescalers, CfgrRest, PllOn, CrystalOn, CrRest, Latency, AcrRest;
      hide IsPll, IsHsi, IsTwo, ModifiedCfgr;
      ClearSwitch(cfgr);
      ghost var cleared := Switch(ModifiedCfgr(cfgr, 0xFFFF_FFFC, NOTHING));
      OneSwitch(cleared);
      Extend(trace, Now().(switch := cleared), start);
      ModifyCfgr(0xFFFF_FFFC, NOTHING);
      SelectPll(cfgr);
      Extend(trace, Now().(switch := Switch(ModifiedCfgr(cfgr, ALL, 2))), start);
      ModifyCfgr(ALL, 2);
    }

    /** Wait until the switch status shows the PLL, again for at most `patience` more polls than one. */
    method WaitForSwitch(ghost start: nat, patience: nat) returns (done: bool)
      requires Steady(start)
      modifies this`cr, this`cfgr, this`clock
      ensures Steady(start) && Now() == old(Now())
      ensures clock == PollEnd(cfgrEnv, SWS, SWS_PLL, old(clock), patience) + 1
      ensures done == Shows(cfgrEnv(clock - 1), SWS, SWS_PLL) == Shows(cfgr, SWS, SWS_PLL)
    {
      hide Now, Shows, PollEnd;
      var first := clock;
      done := RunsOnPll();
      while !done && clock <= first + patience
        invariant old(clock) == first < clock <= old(clock) + patience + 1
        invariant forall j | old(clock) <= j < clock - 1 :: !Shows(cfgrEnv(j), SWS, SWS_PLL)
        invariant done == Shows(cfgrEnv(clock - 1), SWS, SWS_PLL) == Shows(cfgr, SWS, SWS_PLL)
        invariant Now() == old(Now())
        decreases old(clock) + patience + 1 - clock
      {
        done := RunsOnPll();
      }
      PollEndUnique(cfgrEnv, SWS, SWS_PLL, old(clock), patience, clock - 1);
    }

    /** The nine writes between the crystal's verdict and the PLL wait. */
    method Prepare(ghost start: nat)
      requires Steady(start) && !IsPll(Now().switch) && !Now().pllOn && Now().crystalOn && Now().ready
      modifies this`cr, this`cfgr, this`acr, this`clock, this`ready, this`seen, this`trace
      ensures old(trace) <= trace
      ensures Steady(start) && clock == old(clock) + 9 && IsTwo(Now().latency)
      ensures Now() == old(Now()).(
                latency := Now().latency, acrRest := old(Now()).acrRest.(prefetch := true),
                prescalers := Together(old(Now()).prescalers, 0x400), config := HSE_TIMES_9, pllOn := true)
    {
      hide FieldsOf, IsPll, IsTwo, Steady, Together, Safe, Sound, Latency;
      SetWaitStates(start);
      SetPrescalers(start);
      ConfigurePll(start);
      TurnOnPll(start);
    }

    /** The part of `SetSysClockTo72` that follows a successful start of the crystal. */
    method RunFromPll(ghost start: nat, patience: nat) returns (done: bool)
      requires Steady(start) && !IsPll(Now().switch) && !Now().pllOn && Now().crystalOn && Now().ready
      modifies this`cr, this`cfgr, this`acr, this`clock, this`ready, this`seen, this`trace
      ensures old(trace) <= trace
      ensures Steady(start)
      ensures var lock := PollEnd(crEnv, PLLRDY, PLLRDY, old(clock) + 9, patience);
              done == (&& Shows(crEnv(lock), PLLRDY, PLLRDY)
                       && Shows(cfgrEnv(PollEnd(cfgrEnv, SWS, SWS_PLL, lock + 3, patience)), SWS, SWS_PLL))
      ensures done ==> Complete(old(Now()))
      ensures Now().crystalOn && Now().crRest == old(Now()).crRest && Now().cfgrRest == old(Now()).cfgrRest
    {
      hide FieldsOf, IsPll, IsTwo, Shows, PollEnd, Steady, Together, Safe, Sound, Latency;
      Prepare(start);
      done := WaitForPll(start, patience);
      if done {
        SelectPllClock(start);
        done := WaitForSwitch(start, patience);
      }
    }

    /** On the PLL, with everything as `SetSysClockTo72` is meant to leave it, and nothing else changed. */
    ghost predicate Complete(before: Fields)
      reads this
    {
      && IsPll(Now().switch) && IsTwo(Now().latency) && Shows(cfgr, SWS, SWS_PLL)
      && Now() == before.(
           switch := Now().switch, config := HSE_TIMES_9, prescalers := Together(before.prescalers, 0x400),
           pllOn := true, crystalOn := true, ready := true, seen := true,
           latency := Now().latency, acrRest := before.acrRest.(prefetch := true))
    }

    /**
     * `SetSysClockTo72`, to be used while the PLL is off and does not drive the system. The first thing it does is
     * to switch the crystal on, and it stays on in every outcome.
     */
    method SetSysClockTo72(ghost start: nat, patience: nat) returns (outcome: Outcome)
      requires Steady(start) && !IsPll(Now().switch) && !Now().pllOn
      modifies this`cr, this`cfgr, this`acr, this`clock, this`ready, this`seen, this`trace
      ensures old(trace) < trace && trace[|old(trace)|] == old(Now()).(crystalOn := true)
      ensures Steady(start) && 0 < cr & 0x0001_0000
      ensures outcome == Course(crEnv, cfgrEnv, old(clock), patience)
      ensures outcome.NoCrystal? ==> Now() == old(Now()).(crystalOn := true, ready := ready)
      ensures outcome.OnPll? ==> Complete(old(Now()))
      ensures Now().crRest == old(Now()).crRest && Now().cfgrRest == old(Now()).cfgrRest
    {
      hide FieldsOf, IsPll, Shows, PollEnd, Steady;
      TurnOnCrystal(start);
      outcome := NoCrystal;
      var verdict := WaitForCrystal(start);
      if verdict {
        var done := RunFromPll(start, patience);
        outcome := if done then OnPll else Waiting;
      }
      CrystalBit();
    }

    lemma CrystalBit()
      requires Now().crystalOn
      ensures 0 < cr & 0x0001_0000
    {
    }

    /** Any lawful write to CR that is safe where safety is already required, and turns nothing on. */
    method StepCr(ghost start: nat, keep: bv32, bits: bv32)
      requires Steady(start)
      requires var t := ModifiedCr(cr, keep, bits);
               && (PllOn(t) ==> Now().pllOn) && (CrystalOn(t) ==> Now().crystalOn)
               && ((PllOn(t) == Now().pllOn && CrystalOn(t) == Now().crystalOn) || !IsPll(Now().switch))
      requires var t := ModifiedCr(cr, keep, bits);
               start <= |trace| ==> Safe(Now().(pllOn := PllOn(t), crystalOn := CrystalOn(t), crRest := CrRest(t),
                                               seen := PllOn(t) && seen, ready := CrystalOn(t) && ready))
      modifies this`cr, this`cfgr, this`clock, this`ready, this`seen, this`trace
      ensures old(trace) <= trace
      ensures Steady(start) && clock == old(clock) + 1 && |trace| == old(|trace|) + 1
      ensures var f, t := old(Now()), ModifiedCr(old(cr), keep, bits);
              Now() == f.(pllOn := PllOn(t), crystalOn := CrystalOn(t), crRest := CrRest(t),
                          ready := CrystalOn(t) && f.ready, seen := PllOn(t) && f.seen)
    {
      hide Switch, PllConfig, Prescalers, CfgrRest, PllOn, CrystalOn, CrRest, Latency, AcrRest;
      hide IsPll, IsTwo, ModifiedCr;
      hide Sound, Safe;
      ghost var t := ModifiedCr(cr, keep, bits);
      Extend(trace, Now().(pllOn := PllOn(t), crystalOn := CrystalOn(t), crRest := CrRest(t),
                           seen := PllOn(t) && seen, ready := CrystalOn(t) && ready), start);
      ModifyCr(keep, bits);
    }

    /** `CFGR &= 0xF8FF0000`: back to HSI, allowed in every state. */
    method ResetSwitchBits()
      requires Steady(2) && |trace| == 2
      modifies this`cr, this`cfgr, this`clock, this`trace
      ensures old(trace) <= trace && |trace| == |old(trace)| + 1
      ensures Steady(2) && clock == old(clock) + 1 && !IsPll(Now().switch)
      ensures Now() == old(Now()).(switch := Now().switch, prescalers := Now().prescalers,
                                   cfgrRest := old(Now()).cfgrRest.(outputs := NOTHING))
      ensures IsHsi(Now().switch) && Now().prescalers <= 0
    {
      hide Switch, PllConfig, Prescalers, CfgrRest, PllOn, CrystalOn, CrRest, Latency, AcrRest;
      hide IsPll, IsHsi, IsTwo, ModifiedCfgr;
      ResetSwitch(cfgr);
      ghost var next := ModifiedCfgr(cfgr, 0xF8FF_0000, NOTHING);
      OneSwitch(Switch(next));
      Extend(trace, Now().(switch := Switch(next), prescalers := Prescalers(next), cfgrRest := CfgrRest(next)), 2);
      ModifyCfgr(0xF8FF_0000, NOTHING);
    }

    /** `CFGR &= 0xFF80FFFF`, once the PLL is off. */
    method ResetConfigBits()
      requires Steady(2) && !IsPll(Now().switch) && !Now().pllOn
      modifies this`cr, this`cfgr, this`clock, this`trace
      ensures old(trace) <= trace && |trace| == |old(trace)| + 1
      ensures Steady(2) && clock == old(clock) + 1
      ensures Now() == old(Now()).(config := Now().config, cfgrRest := old(Now()).cfgrRest.(usb := false))
      ensures Now().config <= 0
    {
      hide Switch, PllConfig, Prescalers, CfgrRest, PllOn, CrystalOn, CrRest, Latency, AcrRest;
      hide IsPll, IsTwo, ModifiedCfgr;
      ResetConfig(cfgr);
      ghost var next := ModifiedCfgr(cfgr, 0xFF80_FFFF, NOTHING);
      Extend(trace, Now().(config := PllConfig(next), cfgrRest := CfgrRest(next)), 2);
      ModifyCfgr(0xFF80_FFFF, NOTHING);
    }

    /** The clock writes at the start of `SystemInit`, from any register contents; the history starts here. */
    method ResetClocks()
      modifies this`cr, this`cfgr, this`clock, this`ready, this`seen, this`trace
      ensures Steady(2) && clock == old(clock) + 5
      ensures |trace| == 6 && trace[0] == old(Now()).(ready := false, seen := false) && trace[5] == Now()
      ensures Now() == old(Now()).(
                switch := Now().switch, prescalers := Now().prescalers, config := Now().config,
                cfgrRest := ResetCfgrRest(old(Now()).cfgrRest), crRest := ResetCrRest(old(Now()).crRest),
                pllOn := false, crystalOn := false, ready := false, seen := false)
      ensures IsHsi(Now().switch) && !IsPll(Now().switch) && Now().prescalers <= 0 && Now().config <= 0
    {
      hide Switch, PllConfig, Prescalers, CfgrRest, PllOn, CrystalOn, CrRest, Latency, AcrRest;
      hide IsPll, IsHsi, IsTwo, ModifiedCr, Sound;
      StartReset();
      StopSources();
      ResetConfigBits();
    }

    /** `CR |= 1` and `CFGR &= 0xF8FF0000`. */
    method StartReset()
      modifies this`cr, this`cfgr, this`clock, this`ready, this`seen, this`trace
      ensures Steady(2) && clock == old(clock) + 2
      ensures |trace| == 3 && trace[0] == old(Now()).(ready := false, seen := false)
      ensures Now() == old(Now()).(
                switch := Now().switch, prescalers := Now().prescalers,
                cfgrRest := old(Now()).cfgrRest.(outputs := NOTHING), crRest := old(Now()).crRest.(hsiOn := true),
                ready := false, seen := false)
      ensures IsHsi(Now().switch) && !IsPll(Now().switch) && Now().prescalers <= 0
    {
      hide Switch, PllConfig, Prescalers, CfgrRest, PllOn, CrystalOn, CrRest, Latency, AcrRest;
      hide IsPll, IsHsi, IsTwo, ModifiedCr;
      ready, seen := false, false;
      trace := [Now()];
      SetHsion(cr);
      StepCr(2, ALL, 1);
      ResetSwitchBits();
    }

    /** `CR &= 0xFEF6FFFF` and `CR &= 0xFFFBFFFF`. */
    method StopSources()
      requires Steady(2) && |trace| == 3 && !IsPll(Now().switch)
      modifies this`cr, this`cfgr, this`clock, this`ready, this`seen, this`trace
      ensures old(trace) <= trace && |trace| == 5 && Steady(2) && clock == old(clock) + 2
      ensures Now() == old(Now()).(
                crRest := old(Now()).crRest.(security := false, bypass := false),
                pllOn := false, crystalOn := false, ready := false, seen := false)
    {
      hide Switch, PllConfig, Prescalers, CfgrRest, PllOn, CrystalOn, CrRest, Latency, AcrRest;
      hide IsPll, IsHsi, IsTwo, ModifiedCr;
      ResetCr(cr);
      StepCr(2, 0xFEF6_FFFF, NOTHING);
      ClearBypass(cr);
      StepCr(2, 0xFFFB_FFFF, NOTHING);
    }

    /**
     * `SystemInit` from any register contents. Every state from the second write on is safe and every step
     * lawful, in every outcome. On the PLL the registers describe 72 MHz with PCLK1 halved; without a crystal
     * the chip stays on HSI at 8 MHz, and `SystemCoreClock` is not corrected. In every outcome HSION and HSEON are
     * set, HSEBYP, CSSON, MCO, USBPRE and ADCPRE are clear, and the bits not named here are kept.
     */
    method SystemInit(patience: nat) returns (outcome: Outcome)
      modifies this`cr, this`cfgr, this`acr, this`cir, this`clock, this`ready, this`seen, this`trace
      ensures Steady(2) && |trace| > 6 && trace[0] == old(Now()).(ready := false, seen := false)
      ensures !trace[5].crystalOn && trace[6].crystalOn
      ensures outcome == Course(crEnv, cfgrEnv, old(clock) + 6, patience)
      ensures outcome.OnPll? ==> Shows(cfgr, 0x003F_3FFF, 0x001D_040A) && Shows(cr, 0x0100_0000, 0x0100_0000)
      ensures outcome.OnPll? ==>
                forall env: bv32 | Shows(env, 0xC, 0x8) :: CoreClock(LatchCfgr(cfgr, env)) == 72_000_000
      ensures outcome.NoCrystal? ==>
                && Shows(cfgr, 0x003F_3FF3, 0) && Shows(cr, 0x0100_0000, 0)
                && forall env: bv32 | Shows(env, 0xC, 0) :: CoreClock(LatchCfgr(cfgr, env)) == HSI_VALUE
      ensures Shows(cr, 0x000D_0001, 0x0001_0001) && Kept(cr, old(cr), 0xFCF0_FFFC)
      ensures Shows(cfgr, 0x0740_C000, 0) && Kept(cfgr, old(cfgr), 0xF880_0000)
      ensures outcome.OnPll? ==> acr == (old(acr) & 0xFFFF_FFFC) | 0x12
      ensures outcome.NoCrystal? ==> acr == old(acr)
      ensures cir == 0x009F_0000
    {
      hide Switch, PllConfig, Prescalers, CfgrRest, PllOn, CrystalOn, CrRest, Latency, AcrRest;
      hide IsPll, IsHsi, IsTwo, Shows, Kept, PollEnd, Steady, Together, CoreClock, LatchCfgr, Course;
      hide ResetCrRest, ResetCfgrRest;
      ResetClocks();
      WriteCir();
      ghost var reset := Now();
      outcome := SetSysClockTo72(2, patience);
      FinalCr(cr, old(cr));
      FinalCfgr(cfgr, old(cfgr));
      FinalAcr(acr, old(acr));
      if outcome.OnPll? {
        DescribesSeventyTwo(cfgr, reset.prescalers);
        FinalPll(cr, cfgr);
      } else if outcome.NoCrystal? {
        DescribesHsi(cfgr);
        FinalHsi(cr, cfgr);
      }
    }

    /**
     * `SystemCoreClockUpdate`. It reads CFGR up to five times; the status is taken from the first read, so
     * the result is the frequency of one single word.
     */
    method SystemCoreClockUpdate()
      modifies this`cr, this`cfgr, this`clock, this`coreClock
      ensures coreClock == CoreClock(LatchCfgr(old(cfgr), cfgrEnv(old(clock))))
      ensures Now() == old(Now())
    {
      hide Switch, PllConfig, Prescalers, CfgrRest, PllOn, CrystalOn, CrRest, Latency, AcrRest;
      hide LatchCfgr, Shows, PllFactor, AhbShift, FromCrystal, CrystalHalved, Pow2;
      Hardware();
      if Shows(cfgr, SWS, 0x4) {
        coreClock := HSE_VALUE;
      } else if Shows(cfgr, SWS, SWS_PLL) {
        ReadPll();
      } else {
        coreClock := HSI_VALUE;
      }
      ReadCfgr();
      coreClock := coreClock / Pow2(AhbShift(cfgr));
    }

    /** The PLL branch, with one read each for the factor, the source and the crystal divider. */
    method ReadPll()
      modifies this`cr, this`cfgr, this`clock, this`coreClock
      ensures coreClock == old(PllInput(cfgr) * PllFactor(cfgr))
      ensures AhbShift(cfgr) == old(AhbShift(cfgr)) && Now() == old(Now())
    {
      hide Switch, PllConfig, Prescalers, CfgrRest, PllOn, CrystalOn, CrRest, Latency, AcrRest;
      hide LatchCfgr, Shows, PllFactor, AhbShift, FromCrystal, CrystalHalved;
      ReadCfgr();
      var pllmull := PllFactor(cfgr);
      ReadCfgr();
      if !FromCrystal(cfgr) {
        coreClock := HSI_VALUE / 2 * pllmull;
      } else {
        ReadCfgr();
        if CrystalHalved(cfgr) {
          coreClock := HSE_VALUE / 2 * pllmull;
        } else {
          coreClock := HSE_VALUE * pllmull;
        }
      }
    }

    method ReadCfgr()
      modifies this`cr, this`cfgr, this`clock
      ensures Now() == old(Now())
      ensures PllFactor(cfgr) == old(PllFactor(cfgr)) && AhbShift(cfgr) == old(AhbShift(cfgr))
      ensures FromCrystal(cfgr) == old(FromCrystal(cfgr)) && CrystalHalved(cfgr) == old(CrystalHalved(cfgr))
    {
      hide *;
      LatchedTree(cfgr, cfgrEnv(clock));
      Hardware();
    }

    method WriteCir()
      requires Steady(2)
      modifies this`cr, this`cfgr, this`cir, this`clock
      ensures Steady(2) && Now() == old(Now()) && clock == old(clock) + 1 && cir == 0x009F_0000
    {
      hide Switch, PllConfig, Prescalers, CfgrRest, PllOn, CrystalOn, CrRest, Latency, AcrRest;
      hide Sound;
      Hardware();
      cir := 0x009F_0000;
    }
  }

  const PCLK1_HALVED: bv32 := 0x400
}

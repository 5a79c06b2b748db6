/**
 * External interrupt lines: `EXTI_Init` selects for a set of lines the interrupt or the event output and
 * the trigger edges. It updates four mask registers one write at a time, at addresses that it computes
 * from the requested mode and trigger.
 */
module Exti {
  import opened Bits
  import opened Runs

  datatype Mode = Interrupt | Event
  datatype Trigger = Rising | Falling | RisingFalling

  /** `EXTI_InitTypeDef`; `lines` is a mask. */
  datatype Config = Config(lines: bv32, mode: Mode, trigger: Trigger, enable: bool)

  // The registers by word offset from the peripheral's base.
  const IMR: nat := 0
  const EMR: nat := 1
  const RTSR: nat := 2
  const FTSR: nat := 3
  const SWIER: nat := 4
  const PR: nat := 5

  type Regs = s: seq<bv32> | |s| == 4 witness [0, 0, 0, 0]

  /** One line's bits in the four registers. */
  type Line = l: seq<bool> | |l| == 4 witness [false, false, false, false]

  function LineOf(s: Regs, n: bv32): Line
    requires n < 32
  {
    [Has(s[IMR], n), Has(s[EMR], n), Has(s[RTSR], n), Has(s[FTSR], n)]
  }

  predicate Enabled(l: Line) {
    l[IMR] || l[EMR]
  }

  predicate HasEdge(l: Line) {
    l[RTSR] || l[FTSR]
  }

  // ---- The writes of one call ----

  /** `EXTI_Mode` and the single-edge values of `EXTI_Trigger` are register offsets. */
  function ModeWord(m: Mode): nat {
    if m.Interrupt? then IMR else EMR
  }

  function TriggerWord(t: Trigger): nat {
    if t.Falling? then FTSR else RTSR
  }

  /** The number of register writes of a call. */
  function Writes(c: Config): nat {
    if !c.enable then 1 else if c.trigger.RisingFalling? then 7 else 6
  }

  /** The register that write `k` of a call changes. */
  function Target(c: Config, k: nat): (w: nat)
    ensures w < 4
  {
    if !c.enable then ModeWord(c.mode)
    else match k
      case 0 => IMR
      case 1 => EMR
      case 2 => ModeWord(c.mode)
      case 3 => RTSR
      case 4 => FTSR
      case 5 => TriggerWord(c.trigger)
      case _ => FTSR
  }

  /** Whether write `k` sets the lines' bits or clears them. */
  predicate Adds(c: Config, k: nat) {
    c.enable && (k == 2 || 5 <= k)
  }

  /** `r |= lines` or `r &= ~lines`. */
  function WithLines(r: bv32, lines: bv32, on: bool): bv32 {
    if on then r | lines else r & !lines
  }

  function Written(s: Regs, c: Config, k: nat): Regs {
    s[Target(c, k) := WithLines(s[Target(c, k)], c.lines, Adds(c, k))]
  }

  /** The registers after the first `k` writes of a call. */
  function Through(s: Regs, c: Config, k: nat): Regs {
    if k == 0 then s else Written(Through(s, c, k - 1), c, k - 1)
  }

  /** The same writes on a selected line alone. */
  function LineWritten(l: Line, c: Config, k: nat): Line {
    l[Target(c, k) := Adds(c, k)]
  }

  function LineThrough(l: Line, c: Config, k: nat): Line {
    if k == 0 then l else LineWritten(LineThrough(l, c, k - 1), c, k - 1)
  }

  lemma WithoutMask(r: bv32, lines: bv32, n: bv32)
    requires n < 32
    ensures Has(r & !lines, n) == (Has(r, n) && !Has(lines, n))
  {
  }

  lemma WithMask(r: bv32, lines: bv32, n: bv32)
    requires n < 32
    ensures Has(r | lines, n) == (Has(r, n) || Has(lines, n))
  {
  }

  lemma LinesBit(r: bv32, lines: bv32, on: bool, n: bv32)
    requires n < 32
    ensures Has(WithLines(r, lines, on), n) == if Has(lines, n) then on else Has(r, n)
  {
    hide Has;
    WithMask(r, lines, n);
    WithoutMask(r, lines, n);
  }

  /** A write changes a selected line as stated, and no other line. */
  lemma WrittenLine(s: Regs, c: Config, k: nat, n: bv32)
    requires n < 32
    ensures LineOf(Written(s, c, k), n) ==
            if Has(c.lines, n) then LineWritten(LineOf(s, n), c, k) else LineOf(s, n)
  {
    hide Has, WithLines, Adds, Target, LineOf;
    LinesBit(s[Target(c, k)], c.lines, Adds(c, k), n);
    WordWritten(s, Target(c, k), WithLines(s[Target(c, k)], c.lines, Adds(c, k)), n);
  }

  lemma WordWritten(s: Regs, w: nat, r: bv32, n: bv32)
    requires n < 32 && w < 4
    ensures LineOf(s[w := r], n) == LineOf(s, n)[w := Has(r, n)]
    ensures LineOf(s, n)[w] == Has(s[w], n)
  {
    hide Has;
  }

  lemma {:induction false} OutsideKept(s: Regs, c: Config, k: nat, n: bv32)
    requires n < 32 && !Has(c.lines, n)
    ensures LineOf(Through(s, c, k), n) == LineOf(s, n)
  {
    hide Has, LineOf, Written;
    if k > 0 {
      OutsideKept(s, c, k - 1, n);
      WrittenLine(Through(s, c, k - 1), c, k - 1, n);
    }
  }

  lemma {:induction false} SelectedThrough(s: Regs, c: Config, k: nat, n: bv32)
    requires n < 32 && Has(c.lines, n)
    ensures LineOf(Through(s, c, k), n) == LineThrough(LineOf(s, n), c, k)
  {
    hide Has, LineOf, Written, LineWritten;
    if k > 0 {
      SelectedThrough(s, c, k - 1, n);
      WrittenLine(Through(s, c, k - 1), c, k - 1, n);
    }
  }

  // ---- What a call is for ----

  /** A selected line's bits after a call, from its bits before. */
  function Configured(l: Line, c: Config): Line {
    if c.enable then [c.mode.Interrupt?, c.mode.Event?, !c.trigger.Falling?, !c.trigger.Rising?]
    else l[ModeWord(c.mode) := false]
  }

  lemma LineComplete(l: Line, c: Config)
    ensures LineThrough(l, c, Writes(c)) == Configured(l, c)
    ensures c.enable ==> LineThrough(l, c, 5) == [c.mode.Interrupt?, c.mode.Event?, false, false]
  {
    if c.enable {
      assert LineThrough(l, c, 1) == [false, l[EMR], l[RTSR], l[FTSR]];
      assert LineThrough(l, c, 2) == [false, false, l[RTSR], l[FTSR]];
      assert LineThrough(l, c, 3) == [c.mode.Interrupt?, c.mode.Event?, l[RTSR], l[FTSR]];
      assert LineThrough(l, c, 4) == [c.mode.Interrupt?, c.mode.Event?, false, l[FTSR]];
      assert LineThrough(l, c, 5) == [c.mode.Interrupt?, c.mode.Event?, false, false];
      assert LineThrough(l, c, 6) == [c.mode.Interrupt?, c.mode.Event?, !c.trigger.Falling?, c.trigger.Falling?];
    }
  }

  /** Every line after a call. */
  lemma CallConfigures(s: Regs, c: Config, n: bv32)
    requires n < 32
    ensures LineOf(Through(s, c, Writes(c)), n) ==
            if Has(c.lines, n) then Configured(LineOf(s, n), c) else LineOf(s, n)
  {
    hide Has, LineOf, Written, LineWritten, Configured, Writes;
    if Has(c.lines, n) {
      SelectedThrough(s, c, Writes(c), n);
      LineComplete(LineOf(s, n), c);
    } else {
      OutsideKept(s, c, Writes(c), n);
    }
  }

  /**
   * The bits of line `n` in the first four registers, IMR, EMR, RTSR and FTSR, before and after a call: an enabling
   * call sets the bit of its mode and those of its edges and clears the other ones, a disabling call clears the bit
   * of its mode, and a line outside the mask keeps all four.
   */
  predicate AsAsked(s: Regs, c: Config, t: Regs, n: bv32)
    requires n < 32
  {
    if !Has(c.lines, n) then
      Has(t[0], n) == Has(s[0], n) && Has(t[1], n) == Has(s[1], n)
      && Has(t[2], n) == Has(s[2], n) && Has(t[3], n) == Has(s[3], n)
    else if c.enable then
      Has(t[0], n) == c.mode.Interrupt? && Has(t[1], n) == c.mode.Event?
      && Has(t[2], n) == !c.trigger.Falling? && Has(t[3], n) == !c.trigger.Rising?
    else
      Has(t[0], n) == (Has(s[0], n) && !c.mode.Interrupt?) && Has(t[1], n) == (Has(s[1], n) && !c.mode.Event?)
      && Has(t[2], n) == Has(s[2], n) && Has(t[3], n) == Has(s[3], n)
  }

  lemma LineAt(s: Regs, n: bv32)
    requires n < 32
    ensures var l := LineOf(s, n);
            l[0] == Has(s[0], n) && l[1] == Has(s[1], n) && l[2] == Has(s[2], n) && l[3] == Has(s[3], n)
  {
  }

  lemma CallDoesAsAsked(s: Regs, c: Config)
    ensures forall n: bv32 | n < 32 :: AsAsked(s, c, Through(s, c, Writes(c)), n)
  {
    hide Has, LineOf, Through, Writes;
    forall n: bv32 | n < 32
      ensures AsAsked(s, c, Through(s, c, Writes(c)), n)
    {
      CallConfigures(s, c, n);
      LineAt(s, n);
      LineAt(Through(s, c, Writes(c)), n);
    }
  }

  // ---- Between the writes of a call ----

  /** Not even between two writes does a call give a line both outputs. */
  lemma NeverBoth(s: Regs, c: Config, k: nat, n: bv32)
    requires n < 32 && k <= Writes(c) && !(LineOf(s, n)[IMR] && LineOf(s, n)[EMR])
    ensures var l := LineOf(Through(s, c, k), n); !(l[IMR] && l[EMR])
  {
    hide Has, LineOf, Through;
    if Has(c.lines, n) {
      SelectedThrough(s, c, k, n);
      LineNeverBoth(LineOf(s, n), c, k);
    } else {
      OutsideKept(s, c, k, n);
    }
  }

  lemma {:induction false} LineNeverBoth(l: Line, c: Config, k: nat)
    requires !(l[IMR] && l[EMR]) && k <= Writes(c)
    ensures var t := LineThrough(l, c, k); !(t[IMR] && t[EMR])
    ensures c.enable && k == 2 ==> !Enabled(LineThrough(l, c, k))
    ensures c.enable && k == 1 ==> !LineThrough(l, c, k)[IMR]
  {
    if k > 0 {
      LineNeverBoth(l, c, k - 1);
    }
  }

  /** An enabled line can be triggered. */
  predicate Sighted(l: Line) {
    Enabled(l) ==> HasEdge(l)
  }

  /** But an enabling call passes through a state in which each of its lines is enabled without any edge. */
  lemma BlindWindow(s: Regs, c: Config, n: bv32)
    requires n < 32 && c.enable && Has(c.lines, n)
    ensures 5 <= Writes(c) && !Sighted(LineOf(Through(s, c, 5), n))
  {
    hide Has, LineOf, Through;
    SelectedThrough(s, c, 5, n);
    LineComplete(LineOf(s, n), c);
  }

  /** A line that can be triggered before a call stays so through all its writes exactly if it is not enabled by it. */
  lemma SightedThroughout(s: Regs, c: Config, n: bv32)
    requires n < 32 && Sighted(LineOf(s, n))
    ensures (forall k: nat | k <= Writes(c) :: Sighted(LineOf(Through(s, c, k), n))) <==> !(c.enable && Has(c.lines, n))
  {
    hide Has, LineOf, Through;
    if c.enable && Has(c.lines, n) {
      BlindWindow(s, c, n);
    } else {
      forall k: nat | k <= Writes(c)
        ensures Sighted(LineOf(Through(s, c, k), n))
      {
        if Has(c.lines, n) {
          SelectedThrough(s, c, k, n);
          DisabledStaysSighted(LineOf(s, n), c, k);
        } else {
          OutsideKept(s, c, k, n);
        }
      }
    }
  }

  lemma DisabledStaysSighted(l: Line, c: Config, k: nat)
    requires Sighted(l) && !c.enable && k <= Writes(c)
    ensures Sighted(LineThrough(l, c, k))
  {
    if k == 1 {
      assert LineThrough(l, c, 0) == l;
    }
  }

  // ---- Runs of calls ----

  /** The states at the call boundaries of a run that starts with `EXTI_DeInit`. */
  ghost predicate IsRun(trace: seq<Regs>, calls: seq<Config>) {
    && |trace| == |calls| + 1
    && trace[0] == [0, 0, 0, 0]
    && forall i | 0 <= i < |calls| :: trace[i + 1] == Through(trace[i], calls[i], Writes(calls[i]))
  }

  lemma ResetLine(n: bv32)
    requires n < 32
    ensures LineOf([0, 0, 0, 0], n) == [false, false, false, false]
  {
  }

  /** In every state between calls no line has both outputs, and an enabled line has an edge. */
  lemma {:induction false} LinesStaySound(trace: seq<Regs>, calls: seq<Config>, i: nat, n: bv32)
    requires IsRun(trace, calls) && i < |trace| && n < 32
    ensures var l := LineOf(trace[i], n); !(l[IMR] && l[EMR]) && (Enabled(l) ==> HasEdge(l))
  {
    hide Has, LineOf, Through, Writes;
    if i == 0 {
      ResetLine(n);
    } else {
      LinesStaySound(trace, calls, i - 1, n);
      assert trace[i - 1 + 1] == Through(trace[i - 1], calls[i - 1], Writes(calls[i - 1]));
      CallConfigures(trace[i - 1], calls[i - 1], n);
    }
  }

  /** The calls that decide whether line `n` drives output `w`: enabling ones, and disabling ones of that mode. */
  function Deciding(n: bv32, m: Mode): Config -> bool
    requires n < 32
  {
    (c: Config) => Has(c.lines, n) && (c.enable || c.mode == m)
  }

  /** After any run a line drives an output exactly if the last call that decides it enabled that mode. */
  lemma LastCallDecides(trace: seq<Regs>, calls: seq<Config>, n: bv32, m: Mode)
    requires IsRun(trace, calls) && n < 32
    ensures LineOf(trace[|calls|], n)[ModeWord(m)] ==
            match Last(calls, Deciding(n, m))
            case Some(c) => c.enable && c.mode == m
            case None => false
  {
    hide Has, LineOf, Through, Writes;
    var observe := (s: Regs) => LineOf(s, n)[ModeWord(m)];
    var written := (c: Config) => c.enable && c.mode == m;
    forall i | 0 <= i < |calls|
      ensures observe(trace[i + 1]) == if Deciding(n, m)(calls[i]) then written(calls[i]) else observe(trace[i])
    {
      CallConfigures(trace[i], calls[i], n);
    }
    ResetLine(n);
    LastWriterWins(trace, calls, Deciding(n, m), written, observe);
  }

  function Enabling(n: bv32): Config -> bool
    requires n < 32
  {
    (c: Config) => Has(c.lines, n) && c.enable
  }

  /** And its edges are those of the last call that enabled it: disabling forgets none. */
  lemma LastEnableSetsEdges(trace: seq<Regs>, calls: seq<Config>, n: bv32)
    requires IsRun(trace, calls) && n < 32
    ensures LineOf(trace[|calls|], n)[RTSR..] ==
            match Last(calls, Enabling(n))
            case Some(c) => [!c.trigger.Falling?, !c.trigger.Rising?]
            case None => [false, false]
  {
    hide Has, LineOf, Through, Writes;
    var observe := (s: Regs) => LineOf(s, n)[RTSR..];
    var written := (c: Config) => [!c.trigger.Falling?, !c.trigger.Rising?];
    forall i | 0 <= i < |calls|
      ensures observe(trace[i + 1]) == if Enabling(n)(calls[i]) then written(calls[i]) else observe(trace[i])
    {
      CallConfigures(trace[i], calls[i], n);
    }
    ResetLine(n);
    LastWriterWins(trace, calls, Enabling(n), written, observe);
  }

  // ---- The peripheral ----

  class ExtiPeripheral {
    /** IMR, EMR, RTSR, FTSR, SWIER and PR, at consecutive addresses. */
    const words: array<bv32>
    /** Every state of the four configuration registers, one per write. */
    ghost var trace: seq<Regs>

    constructor ()
      ensures Valid() && fresh(words)
    {
      words := new bv32[6];
      new;
      trace := [words[..4]];
    }

    ghost predicate Valid()
      reads this, words
    {
      words.Length == 6 && |trace| > 0 && trace[|trace| - 1] == View()
    }

    ghost function View(): Regs
      requires words.Length == 6
      reads words
    {
      words[..4]
    }

    method Store(w: nat, v: bv32)
      requires Valid() && w < 4
      modifies words, this`trace
      ensures Valid() && View() == old(View())[w := v] && trace == old(trace) + [View()]
      ensures words[SWIER] == old(words[SWIER]) && words[PR] == old(words[PR])
    {
      words[w] := v;
      trace := trace + [View()];
    }

    /** `EXTI_DeInit`. */
    method DeInit()
      requires Valid()
      modifies words, this`trace
      ensures Valid() && View() == [0, 0, 0, 0] && words[5] == 0x000F_FFFF && words[4] == old(words[4])
    {
      Store(IMR, 0);
      Store(EMR, 0);
      Store(RTSR, 0);
      Store(FTSR, 0);
      words[PR] := 0x000F_FFFF;
    }

    /** `*(base + 4 * w) |= lines` or `&= ~lines`, as write `k` of the call `c` that started in state `s`. */
    method Modify(w: nat, lines: bv32, on: bool, ghost s: Regs, ghost c: Config, ghost k: nat)
      requires Valid() && View() == Through(s, c, k)
      requires w == Target(c, k) && lines == c.lines && on == Adds(c, k)
      modifies words, this`trace
      ensures Valid() && View() == Through(s, c, k + 1) && trace == old(trace) + [View()]
      ensures words[SWIER] == old(words[SWIER]) && words[PR] == old(words[PR])
    {
      hide WithLines, Target, Adds;
      Store(w, WithLines(words[w], lines, on));
    }

    /** `EXTI_Init`: its writes pass through the states of `Through`, and no others. */
    method Init(c: Config)
      requires Valid()
      modifies words, this`trace
      ensures Valid() && View() == Through(old(View()), c, Writes(c))
      ensures words[SWIER] == old(words[SWIER]) && words[PR] == old(words[PR])
      ensures forall n: bv32 | n < 32 :: AsAsked(old(words[..4]), c, words[..4], n)
      ensures |trace| == |old(trace)| + Writes(c) && old(trace) <= trace
      ensures forall k | 1 <= k <= Writes(c) :: trace[|old(trace)| + k - 1] == Through(old(View()), c, k)
    {
      hide Through, AsAsked;
      ghost var s := View();
      CallDoesAsAsked(s, c);
      StartsAt(s, c);
      if c.enable {
        Modify(IMR, c.lines, false, s, c, 0);
        Modify(EMR, c.lines, false, s, c, 1);
        Modify(ModeWord(c.mode), c.lines, true, s, c, 2);
        Modify(RTSR, c.lines, false, s, c, 3);
        Modify(FTSR, c.lines, false, s, c, 4);
        if c.trigger.RisingFalling? {
          Modify(RTSR, c.lines, true, s, c, 5);
          Modify(FTSR, c.lines, true, s, c, 6);
        } else {
          Modify(TriggerWord(c.trigger), c.lines, true, s, c, 5);
        }
      } else {
        Modify(ModeWord(c.mode), c.lines, false, s, c, 0);
      }
    }
  }

  lemma StartsAt(s: Regs, c: Config)
    ensures Through(s, c, 0) == s
  {
  }
}

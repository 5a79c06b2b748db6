/**
 * The three transmit mailboxes shared by `CAN_Transmit` and the bxCAN hardware, as a state machine.
 * Every volatile access of the driver is one step; between any two of them the hardware may finish
 * pending mailboxes or change status bits that the driver does not read.
 */
module CanMailboxes {
  import opened CanFrames

  /** The status bits of one mailbox in TSR. */
  datatype Flags = Flags(tme: bool, rqcp: bool, txok: bool)

  function FlagsOf(tsr: bv32, m: nat): Flags
    requires m < 3
  {
    if m == 0 then Flags(0 < tsr & 0x0400_0000, 0 < tsr & 0x1, 0 < tsr & 0x2)
    else if m == 1 then Flags(0 < tsr & 0x0800_0000, 0 < tsr & 0x100, 0 < tsr & 0x200)
    else Flags(0 < tsr & 0x1000_0000, 0 < tsr & 0x1_0000, 0 < tsr & 0x2_0000)
  }

  /** TXRQ, bit 0 of TIR. */
  predicate Txrq(b: Mailbox) {
    0 < b.ir & 1
  }

  /** What became of the last request in a mailbox, and the frame it is about. */
  datatype Outcome = Never | InFlight(frame: Frame) | Done(frame: Frame, ok: bool)
  {
    predicate About(f: Frame) {
      !Never? && frame == f
    }
  }

  /**
   * Where the driver stands: between calls, testing TME of mailbox `k`, or at access `step` of the
   * twelve that fill mailbox `m`. A read-modify-write is two accesses; `latch` is the value read.
   */
  datatype Pc =
    | Idle
    | Selecting(msg: TxMsg, k: nat)
    | Filling(msg: TxMsg, m: nat, step: nat, latch: bv32)

  datatype State = State(
    tsr: bv32, box: seq<Mailbox>, pc: Pc,
    accepted: multiset<Frame>, sent: multiset<Frame>, failed: multiset<Frame>, last: seq<Outcome>)

  // ---- Steps of the driver ----

  /** The value latched by access `step`, when that access is a read. */
  function Latched(b: Mailbox, step: nat, latch: bv32): bv32 {
    if step == 0 || step == 2 || step == 10 then b.ir
    else if step == 4 || step == 6 then b.dtr
    else latch
  }

  /** The mailbox after access `step`. */
  function Filled(b: Mailbox, msg: TxMsg, step: nat, latch: bv32): Mailbox {
    match step
    case 1 => b.(ir := latch & 1)
    case 3 => b.(ir := latch | IdWord(msg))
    case 5 => b.(dtr := latch & 0xFFFF_FFF0)
    case 7 => b.(dtr := latch | DlcBits(msg))
    case 8 => b.(dlr := LowWord(msg.Data))
    case 9 => b.(dhr := HighWord(msg.Data))
    case 11 => b.(ir := latch | 1)
    case _ => b
  }

  ghost predicate Calls(s: State, s': State, msg: TxMsg) {
    s.pc.Idle? && msg.Valid() && s' == s.(pc := Selecting(msg, 0))
  }

  /** Read TSR and test TME of one mailbox. */
  ghost predicate Selects(s: State, s': State) {
    && s.pc.Selecting? && s.pc.k < 3
    && s' == s.(pc := if FlagsOf(s.tsr, s.pc.k).tme then Filling(s.pc.msg, s.pc.k, 0, 0)
                      else if s.pc.k == 2 then Idle
                      else Selecting(s.pc.msg, s.pc.k + 1))
  }

  /** The state after the current filling access. */
  ghost function AfterFill(s: State): State
    requires s.pc.Filling? && s.pc.m < |s.box|
  {
    var b := s.box[s.pc.m];
    s.(box := s.box[s.pc.m := Filled(b, s.pc.msg, s.pc.step, s.pc.latch)],
       pc := s.pc.(step := s.pc.step + 1, latch := Latched(b, s.pc.step, s.pc.latch)))
  }

  /** One of the first eleven accesses to the chosen mailbox. */
  ghost predicate Fills(s: State, s': State) {
    s.pc.Filling? && s.pc.m < |s.box| && s.pc.step < 11 && s' == AfterFill(s)
  }

  /** Only the flags of mailbox `m` change between two TSR values, to `f`. */
  predicate FlagsBecome(tsr: bv32, tsr': bv32, m: nat, f: Flags)
    requires m < 3
  {
    FlagsOf(tsr', m) == f && forall k: nat | k < 3 && k != m :: FlagsOf(tsr', k) == FlagsOf(tsr, k)
  }

  /** The state after the last access, with `tsr` as the hardware's answer in TSR. */
  ghost function AfterRequest(s: State, tsr: bv32): State
    requires s.pc.Filling? && s.pc.m < |s.box| && s.pc.m < |s.last|
  {
    s.(tsr := tsr, box := s.box[s.pc.m := Filled(s.box[s.pc.m], s.pc.msg, 11, s.pc.latch)], pc := Idle,
       accepted := s.accepted + multiset{Meaning(s.pc.msg)}, last := s.last[s.pc.m := InFlight(Meaning(s.pc.msg))])
  }

  /** The twelfth access writes TXRQ; the hardware answers by clearing the mailbox's three flags. */
  ghost predicate Requests(s: State, s': State) {
    && s.pc.Filling? && s.pc.m < 3 && s.pc.m < |s.box| && s.pc.m < |s.last| && s.pc.step == 11
    && s' == AfterRequest(s, s'.tsr)
    && FlagsBecome(s.tsr, s'.tsr, s.pc.m, Flags(false, false, false))
  }

  ghost predicate DriverStep(s: State, s': State) {
    (exists msg :: Calls(s, s', msg)) || Selects(s, s') || Fills(s, s') || Requests(s, s')
  }

  // ---- Steps of the hardware ----

  /** The state after the hardware has finished the request in mailbox `m`, leaving `tsr` in TSR. */
  ghost function Finished(s: State, m: nat, ok: bool, tsr: bv32): State
    requires m < |s.box| && m < |s.last|
  {
    var b := s.box[m];
    s.(tsr := tsr, box := s.box[m := b.(ir := b.ir & 0xFFFF_FFFE)], last := s.last[m := Done(FrameOf(b), ok)],
       sent := if ok then s.sent + multiset{FrameOf(b)} else s.sent,
       failed := if ok then s.failed else s.failed + multiset{FrameOf(b)})
  }

  /** The hardware finishes the request in mailbox `m`: transmitted, or given up or aborted. */
  ghost predicate Completes(s: State, s': State, m: nat, ok: bool) {
    && m < 3 && m < |s.box| && m < |s.last| && Txrq(s.box[m])
    && s' == Finished(s, m, ok, s'.tsr)
    && FlagsBecome(s.tsr, s'.tsr, m, Flags(true, true, ok))
  }

  /** Status bits that the driver does not read may change at any time. */
  ghost predicate Flickers(s: State, s': State) {
    s' == s.(tsr := s'.tsr) && forall k: nat | k < 3 :: FlagsOf(s'.tsr, k) == FlagsOf(s.tsr, k)
  }

  ghost predicate HardwareStep(s: State, s': State) {
    Flickers(s, s') || exists m: nat, ok :: Completes(s, s', m, ok)
  }

  ghost predicate Next(s: State, s': State) {
    DriverStep(s, s') || HardwareStep(s, s')
  }

  ghost predicate IsRun(run: seq<State>) {
    |run| > 0 && forall i | 0 <= i < |run| - 1 :: Next(run[i], run[i + 1])
  }

  // ---- The invariant ----

  /** What the first `step` accesses have put into the mailbox. */
  ghost predicate Progress(b: Mailbox, msg: TxMsg, step: nat, latch: bv32) {
    && (step == 1 || step == 3 || step == 11 ==> latch == b.ir)
    && (step == 5 || step == 7 ==> latch == b.dtr)
    && (2 <= step <= 3 ==> b.ir <= 0)
    && (4 <= step ==> b.ir == IdWord(msg))
    && (6 <= step <= 7 ==> b.dtr & 0xF <= 0)
    && (8 <= step ==> b.dtr & 0xF == DlcBits(msg))
    && (9 <= step ==> b.dlr == LowWord(msg.Data))
    && (10 <= step ==> b.dhr == HighWord(msg.Data))
  }

  /** A mailbox's TXRQ bit and its three status flags tell the fate of its last request. */
  ghost predicate BoxInv(b: Mailbox, f: Flags, last: Outcome) {
    match last
    case Never => !Txrq(b) && f == Flags(true, false, false)
    case InFlight(frame) => Txrq(b) && f == Flags(false, false, false) && FrameOf(b) == frame
    case Done(_, ok) => !Txrq(b) && f == Flags(true, true, ok)
  }

  ghost predicate PcInv(s: State)
    requires |s.box| == 3
  {
    match s.pc
    case Idle => true
    case Selecting(msg, k) => k < 3 && msg.Valid()
    case Filling(msg, m, step, latch) =>
      m < 3 && step <= 11 && msg.Valid() && FlagsOf(s.tsr, m).tme && Progress(s.box[m], msg, step, latch)
  }

  /** The frame waiting in a mailbox, read from its registers. */
  function Waiting(b: Mailbox): multiset<Frame> {
    if Txrq(b) then multiset{FrameOf(b)} else multiset{}
  }

  function Pending(box: seq<Mailbox>): multiset<Frame>
    requires |box| == 3
  {
    Waiting(box[0]) + Waiting(box[1]) + Waiting(box[2])
  }

  ghost predicate Shape(s: State) {
    && |s.box| == 3 && |s.last| == 3
    && (forall m: nat | m < 3 :: BoxInv(s.box[m], FlagsOf(s.tsr, m), s.last[m]))
    && PcInv(s)
  }

  /** Every accepted frame is waiting in a mailbox, or sent, or failed, exactly once. */
  ghost predicate Conserved(s: State)
    requires |s.box| == 3
  {
    s.accepted == Pending(s.box) + s.sent + s.failed
  }

  ghost predicate Inv(s: State) {
    Shape(s) && Conserved(s)
  }

  /** After reset all mailboxes are empty. */
  ghost predicate Start(s: State) {
    && |s.box| == 3 && s.last == [Never, Never, Never] && s.pc.Idle?
    && (forall m: nat | m < 3 :: !Txrq(s.box[m]) && FlagsOf(s.tsr, m) == Flags(true, false, false))
    && s.accepted == s.sent == s.failed == multiset{}
  }

  lemma StartInv(s: State)
    requires Start(s)
    ensures Inv(s)
  {
  }

  // ---- Preservation ----

  lemma IdWordNoRequest(msg: TxMsg)
    requires msg.Valid()
    ensures !(0 < IdWord(msg) & 1)
  {
  }

  lemma DlcInPlace(w: bv32, msg: TxMsg)
    requires w & 0xF <= 0
    ensures (w | DlcBits(msg)) & 0xF == DlcBits(msg)
  {
  }

  lemma OrZero(w: bv32, v: bv32)
    requires w <= 0
    ensures w | v == v
  {
  }

  /** A filling access advances the mailbox and never raises TXRQ. */
  lemma FillProgress(b: Mailbox, msg: TxMsg, step: nat, latch: bv32)
    requires msg.Valid() && step < 11 && !Txrq(b) && Progress(b, msg, step, latch)
    ensures !Txrq(Filled(b, msg, step, latch))
    ensures Progress(Filled(b, msg, step, latch), msg, step + 1, Latched(b, step, latch))
  {
    hide Txrq, Filled, Latched, Progress;
    if step < 4 {
      FillsIdentifier(b, msg, step, latch);
    } else {
      FillsContent(b, msg, step, latch);
    }
  }

  lemma FillsIdentifier(b: Mailbox, msg: TxMsg, step: nat, latch: bv32)
    requires msg.Valid() && step < 4 && !Txrq(b) && Progress(b, msg, step, latch)
    ensures !Txrq(Filled(b, msg, step, latch))
    ensures Progress(Filled(b, msg, step, latch), msg, step + 1, Latched(b, step, latch))
  {
    if step == 1 {
      NoRequestLeft(latch);
    } else if step == 3 {
      OrZero(latch, IdWord(msg));
      IdWordNoRequest(msg);
    }
  }

  lemma FillsContent(b: Mailbox, msg: TxMsg, step: nat, latch: bv32)
    requires 4 <= step < 11 && !Txrq(b) && Progress(b, msg, step, latch)
    ensures !Txrq(Filled(b, msg, step, latch))
    ensures Progress(Filled(b, msg, step, latch), msg, step + 1, Latched(b, step, latch))
  {
    hide DlcBits, IdWord, LowWord, HighWord, Progress;
    if step < 8 {
      FillsDlc(b, msg, step, latch);
    } else {
      FillsData(b, msg, step, latch);
    }
  }

  lemma FillsDlc(b: Mailbox, msg: TxMsg, step: nat, latch: bv32)
    requires 4 <= step < 8 && Progress(b, msg, step, latch)
    ensures Progress(Filled(b, msg, step, latch), msg, step + 1, Latched(b, step, latch))
  {
    hide DlcBits, IdWord, LowWord, HighWord;
    if step == 5 {
      DlcCleared(latch);
    } else if step == 7 {
      DlcInPlace(latch, msg);
    }
  }

  lemma FillsData(b: Mailbox, msg: TxMsg, step: nat, latch: bv32)
    requires 8 <= step < 11 && Progress(b, msg, step, latch)
    ensures Progress(Filled(b, msg, step, latch), msg, step + 1, Latched(b, step, latch))
  {
    hide DlcBits, IdWord, LowWord, HighWord;
  }

  lemma NoRequestLeft(w: bv32)
    requires !(0 < w & 1)
    ensures w & 1 <= 0 && !(0 < (w & 1) & 1)
  {
  }

  lemma DlcCleared(w: bv32)
    ensures (w & 0xFFFF_FFF0) & 0xF <= 0
  {
  }

  /** When the last access has requested transmission, the mailbox means exactly the message. */
  lemma RequestMeans(b: Mailbox, msg: TxMsg, latch: bv32)
    requires msg.Valid() && Progress(b, msg, 11, latch)
    ensures Txrq(Filled(b, msg, 11, latch))
    ensures FrameOf(Filled(b, msg, 11, latch)) == Meaning(msg)
  {
    hide IdWord, IdentOf, LowWord, HighWord, Unpack, DlcBits, RequestedIdent;
    RequestedBit(latch);
    IdWordMeans(msg);
    UnpackPacked(msg.Data);
  }

  lemma RequestedBit(w: bv32)
    ensures 0 < (w | 1) & 1
  {
  }

  /** Replacing one mailbox exchanges what waits in it. */
  lemma PendingUpdate(box: seq<Mailbox>, m: nat, b: Mailbox)
    requires |box| == 3 && m < 3
    ensures forall f :: Pending(box[m := b])[f] + Waiting(box[m])[f] == Pending(box)[f] + Waiting(b)[f]
  {
    hide Waiting;
  }

  lemma FillKeepsInv(s: State, s': State)
    requires Inv(s) && Fills(s, s')
    ensures Inv(s')
  {
    FillKeepsShape(s, s');
    FillConserves(s, s');
  }

  lemma FillKeepsShape(s: State, s': State)
    requires Shape(s) && Fills(s, s')
    ensures Shape(s')
    ensures !Txrq(s.box[s.pc.m]) && !Txrq(s'.box[s.pc.m])
  {
    hide FlagsOf, Txrq, Filled, Latched, Progress;
    FillProgress(s.box[s.pc.m], s.pc.msg, s.pc.step, s.pc.latch);
  }

  lemma FillConserves(s: State, s': State)
    requires Shape(s) && Conserved(s) && Fills(s, s')
    requires !Txrq(s.box[s.pc.m]) && !Txrq(s'.box[s.pc.m])
    ensures Conserved(s')
  {
    hide FlagsOf, Txrq, Filled, Latched, Progress, Pending, BoxInv;
    assert s'.box == s.box[s.pc.m := s'.box[s.pc.m]];
    PendingUpdate(s.box, s.pc.m, s'.box[s.pc.m]);
  }

  lemma SelectKeepsInv(s: State, s': State)
    requires Inv(s) && Selects(s, s')
    ensures Inv(s')
  {
    hide FlagsOf, Txrq, FrameOf, Pending;
  }

  lemma RequestKeepsInv(s: State, s': State)
    requires Inv(s) && Requests(s, s')
    ensures Inv(s')
  {
    hide FlagsOf, Txrq, Filled, FrameOf, Meaning;
    RequestMeans(s.box[s.pc.m], s.pc.msg, s.pc.latch);
    RequestKeepsShape(s, s');
    RequestConserves(s, s');
  }

  lemma RequestKeepsShape(s: State, s': State)
    requires Shape(s) && Requests(s, s') && Txrq(s'.box[s.pc.m])
    requires FrameOf(s'.box[s.pc.m]) == Meaning(s.pc.msg)
    ensures Shape(s')
  {
    hide FlagsOf, Txrq, Filled, Progress, FrameOf, Meaning;
  }

  lemma RequestConserves(s: State, s': State)
    requires Shape(s) && Conserved(s) && Requests(s, s') && Txrq(s'.box[s.pc.m])
    requires FrameOf(s'.box[s.pc.m]) == Meaning(s.pc.msg)
    ensures Conserved(s')
  {
    hide FlagsOf, Txrq, Filled, Progress, Pending, FrameOf, Meaning;
    assert BoxInv(s.box[s.pc.m], FlagsOf(s.tsr, s.pc.m), s.last[s.pc.m]);
    assert s'.box == s.box[s.pc.m := s'.box[s.pc.m]];
    PendingUpdate(s.box, s.pc.m, s'.box[s.pc.m]);
  }

  lemma ClearedRequest(b: Mailbox)
    ensures !Txrq(b.(ir := b.ir & 0xFFFF_FFFE))
  {
  }

  lemma CompleteKeepsInv(s: State, s': State, m: nat, ok: bool)
    requires Inv(s) && Completes(s, s', m, ok)
    ensures Inv(s')
  {
    ClearedRequest(s.box[m]);
    CompleteKeepsShape(s, s', m, ok);
    CompleteConserves(s, s', m, ok);
  }

  lemma CompleteKeepsShape(s: State, s': State, m: nat, ok: bool)
    requires Shape(s) && Completes(s, s', m, ok) && !Txrq(s'.box[m])
    ensures Shape(s')
  {
    hide FlagsOf, Txrq, Progress, FrameOf;
  }

  lemma CompleteConserves(s: State, s': State, m: nat, ok: bool)
    requires Shape(s) && Conserved(s) && Completes(s, s', m, ok) && !Txrq(s'.box[m])
    ensures Conserved(s')
  {
    hide FlagsOf, Txrq, Progress, FrameOf, Pending, BoxInv;
    assert s'.box == s.box[m := s'.box[m]];
    PendingUpdate(s.box, m, s'.box[m]);
  }

  lemma FlickerKeepsInv(s: State, s': State)
    requires Inv(s) && Flickers(s, s')
    ensures Inv(s')
  {
    hide FlagsOf, Txrq, Progress, FrameOf, Pending;
  }

  lemma NextKeepsInv(s: State, s': State)
    requires Inv(s) && Next(s, s')
    ensures Inv(s')
  {
    if Selects(s, s') {
      SelectKeepsInv(s, s');
    } else if Fills(s, s') {
      FillKeepsInv(s, s');
    } else if Requests(s, s') {
      RequestKeepsInv(s, s');
    } else if m: nat, ok :| Completes(s, s', m, ok) {
      CompleteKeepsInv(s, s', m, ok);
    } else if Flickers(s, s') {
      FlickerKeepsInv(s, s');
    }
  }

  /** The invariant holds in every state of every run. */
  lemma {:induction false} RunKeepsInv(run: seq<State>, i: nat)
    requires IsRun(run) && Inv(run[0]) && i < |run|
    ensures Inv(run[i])
  {
    if i > 0 {
      RunKeepsInv(run, i - 1);
      assert Next(run[i - 1], run[i - 1 + 1]);
      NextKeepsInv(run[i - 1], run[i]);
    }
  }

  // ---- What every run guarantees ----

  /** Whenever the driver is about to access a mailbox, that mailbox is empty: TME set and TXRQ clear. */
  lemma AccessesEmptyMailbox(run: seq<State>, i: nat)
    requires IsRun(run) && Start(run[0]) && i < |run| && run[i].pc.Filling?
    ensures run[i].pc.m < 3 == |run[i].box|
    ensures FlagsOf(run[i].tsr, run[i].pc.m).tme && !Txrq(run[i].box[run[i].pc.m])
  {
    hide FlagsOf, Txrq, Progress, Pending;
    StartInv(run[0]);
    RunKeepsInv(run, i);
    assert BoxInv(run[i].box[run[i].pc.m], FlagsOf(run[i].tsr, run[i].pc.m), run[i].last[run[i].pc.m]);
  }

  /** And no step of the driver changes a mailbox other than the one it accesses. */
  lemma NeverWritesBusyMailbox(run: seq<State>, i: nat, m: nat)
    requires IsRun(run) && Start(run[0]) && i < |run| - 1 && m < 3
    requires DriverStep(run[i], run[i + 1])
    ensures |run[i].box| == |run[i + 1].box| == 3
    ensures run[i].pc.Filling? && run[i].pc.m == m ==> FlagsOf(run[i].tsr, m).tme && !Txrq(run[i].box[m])
    ensures !(run[i].pc.Filling? && run[i].pc.m == m) ==> run[i + 1].box[m] == run[i].box[m]
  {
    hide FlagsOf, Txrq, Filled, Latched, Progress, FrameOf, Pending;
    StartInv(run[0]);
    RunKeepsInv(run, i);
    RunKeepsInv(run, i + 1);
    if run[i].pc.Filling? {
      AccessesEmptyMailbox(run, i);
    }
  }

  /**
   * TXRQ of a mailbox rises exactly by the driver's last access to it, when the mailbox holds identifier, DLC
   * and data of exactly the message being sent; the frame counts as accepted then, and no other step accepts any.
   */
  lemma RequestsWholeFrames(run: seq<State>, i: nat, m: nat)
    requires IsRun(run) && Start(run[0]) && i < |run| - 1 && m < 3
    ensures |run[i].box| == |run[i + 1].box| == 3
    ensures !Txrq(run[i].box[m]) && Txrq(run[i + 1].box[m]) <==> Requests(run[i], run[i + 1]) && run[i].pc.m == m
    ensures Requests(run[i], run[i + 1]) && run[i].pc.m == m ==>
              && run[i].pc.msg.Valid() && FrameOf(run[i + 1].box[m]) == Meaning(run[i].pc.msg)
              && run[i + 1].accepted == run[i].accepted + multiset{Meaning(run[i].pc.msg)}
    ensures !Requests(run[i], run[i + 1]) ==> run[i + 1].accepted == run[i].accepted
  {
    hide FlagsOf, Txrq, FrameOf, Meaning, Requests, Pending;
    StartInv(run[0]);
    RunKeepsInv(run, i);
    RunKeepsInv(run, i + 1);
    assert Next(run[i], run[i + 1]);
    RequestStep(run[i], run[i + 1], m);
  }

  lemma RequestStep(s: State, s': State, m: nat)
    requires Inv(s) && Next(s, s') && Inv(s') && m < 3
    ensures !Txrq(s.box[m]) && Txrq(s'.box[m]) <==> Requests(s, s') && s.pc.m == m
    ensures Requests(s, s') && s.pc.m == m ==>
              && s.pc.msg.Valid() && FrameOf(s'.box[m]) == Meaning(s.pc.msg)
              && s'.accepted == s.accepted + multiset{Meaning(s.pc.msg)}
    ensures !Requests(s, s') ==> s'.accepted == s.accepted
  {
    hide FlagsOf, Txrq, Filled, Latched, Progress, FrameOf, Pending, Meaning;
    if Requests(s, s') {
      assert BoxInv(s.box[s.pc.m], FlagsOf(s.tsr, s.pc.m), s.last[s.pc.m]);
      RequestMeans(s.box[s.pc.m], s.pc.msg, s.pc.latch);
    } else if Fills(s, s') {
      FillKeepsShape(s, s');
    } else if k: nat, ok :| Completes(s, s', k, ok) {
      ClearedRequest(s.box[k]);
    }
  }

  /** Whatever slot receives the frame of a requested mailbox, `CAN_Receive` unpacks the message that was sent. */
  lemma RequestedIsReceived(run: seq<State>, i: nat, slot: Mailbox, prior: RxMsg)
    requires IsRun(run) && Start(run[0]) && i < |run| - 1 && Requests(run[i], run[i + 1])
    requires FrameOf(slot) == FrameOf(run[i + 1].box[run[i].pc.m])
    ensures var msg := run[i].pc.msg; Agree(msg.(DLC := msg.DLC & 0x0F), Received(prior, slot))
  {
    hide FlagsOf, Txrq, FrameOf, Meaning, FlagsBecome, AfterRequest, Pending, Agree, Received, Programmed;
    var msg := run[i].pc.msg;
    RequestsWholeFrames(run, i, run[i].pc.m);
    ProgrammedMeans(msg, 0);
    RoundTrip(msg, 0, slot, prior);
  }

  /** In every reachable state, accepted frames = waiting + sent + failed, as multisets of whole frames. */
  lemma FramesConserved(run: seq<State>, i: nat)
    requires IsRun(run) && Start(run[0]) && i < |run|
    ensures |run[i].box| == 3 && run[i].accepted == Pending(run[i].box) + run[i].sent + run[i].failed
  {
    hide FlagsOf, Txrq, Pending;
    StartInv(run[0]);
    RunKeepsInv(run, i);
  }

  // ---- CAN_TransmitStatus ----

  const FAILED: bv8 := 0
  const OK: bv8 := 1
  const PENDING: bv8 := 2
  const NO_MAILBOX: bv8 := 4

  /** `CAN_TransmitStatus`, given the TSR value it reads. */
  function TransmitStatus(tsr: bv32, mailbox: bv8): bv8 {
    var state := StatusBits(tsr, mailbox);
    if state <= 0 then PENDING
    else if state == (0x0400_0001 as bv32) || state == (0x0800_0100 as bv32) || state == (0x1001_0000 as bv32)
    then FAILED
    else if state == (0x0400_0003 as bv32) || state == (0x0800_0300 as bv32) || state == (0x1003_0000 as bv32) then OK
    else FAILED
  }

  function StatusBits(tsr: bv32, mailbox: bv8): bv32 {
    match mailbox
    case 0 => tsr & 0x0400_0003
    case 1 => tsr & 0x0800_0300
    case 2 => tsr & 0x1003_0000
    case _ => FAILED as bv32
  }

  /** The answer by the three flags; a mailbox that does not exist is reported as pending, not failed. */
  lemma StatusByFlags(tsr: bv32, mailbox: bv8)
    ensures mailbox < 3 ==>
              TransmitStatus(tsr, mailbox) ==
              match FlagsOf(tsr, mailbox as nat)
              case Flags(false, false, false) => 2
              case Flags(true, true, true) => 1
              case _ => 0
    ensures 3 <= mailbox ==> TransmitStatus(tsr, mailbox) == 2
  {
    if mailbox == 0 {
    } else if mailbox == 1 {
    } else if mailbox == 2 {
    }
  }

  /** In every reachable state the status of a mailbox is the fate of its last request. */
  lemma StatusTellsFate(run: seq<State>, i: nat, mailbox: bv8)
    requires IsRun(run) && Start(run[0]) && i < |run| && mailbox < 3
    ensures |run[i].last| == 3
    ensures TransmitStatus(run[i].tsr, mailbox) ==
            match run[i].last[mailbox as nat]
            case InFlight(_) => PENDING
            case Done(_, true) => OK
            case _ => FAILED
  {
    hide FlagsOf, Txrq, Pending, TransmitStatus;
    StartInv(run[0]);
    RunKeepsInv(run, i);
    var m := mailbox as nat;
    assert BoxInv(run[i].box[m], FlagsOf(run[i].tsr, m), run[i].last[m]);
    StatusByFlags(run[i].tsr, mailbox);
  }

  // ---- The fate of one frame ----

  /** Steps `i` to `j` request no transmission from mailbox `m`. */
  ghost predicate NoRequest(run: seq<State>, m: nat, i: nat, j: nat)
    requires j < |run|
  {
    forall k | i <= k < j :: !(Requests(run[k], run[k + 1]) && run[k].pc.m == m)
  }

  /** Some step from `i` to `j` is the hardware finishing mailbox `m`, which then holds `f`. */
  ghost predicate FinishedWithin(run: seq<State>, m: nat, i: nat, j: nat, f: Frame, ok: bool)
    requires j < |run|
  {
    exists k | i <= k < j ::
      m < |run[k].box| && Completes(run[k], run[k + 1], m, ok) && FrameOf(run[k].box[m]) == f
  }

  lemma FateStep(s: State, s': State, m: nat, f: Frame)
    requires Inv(s) && Next(s, s') && m < 3 && s.last[m].About(f) && !(Requests(s, s') && s.pc.m == m)
    ensures |s'.last| == 3 && s'.last[m].About(f)
    ensures s'.last[m] == s.last[m] ||
            exists ok :: |s.box| == 3 && Completes(s, s', m, ok) && FrameOf(s.box[m]) == f && s'.last[m] == Done(f, ok)
  {
    hide FlagsOf, Txrq, Filled, Latched, Progress, FrameOf, Pending, Meaning, FlagsBecome;
    assert BoxInv(s.box[m], FlagsOf(s.tsr, m), s.last[m]);
    if k: nat, ok :| Completes(s, s', k, ok) {
      if k == m {
        assert s.last[m] == InFlight(f);
        assert Completes(s, s', m, ok);
      }
    }
  }

  lemma FinishedExtends(run: seq<State>, m: nat, i: nat, j: nat, f: Frame)
    requires i < j < |run|
    ensures forall ok | FinishedWithin(run, m, i, j - 1, f, ok) :: FinishedWithin(run, m, i, j, f, ok)
    ensures forall ok |
              m < |run[j - 1].box| && Completes(run[j - 1], run[j], m, ok) && FrameOf(run[j - 1].box[m]) == f ::
              FinishedWithin(run, m, i, j, f, ok)
  {
    hide FrameOf, Completes;
    forall ok | FinishedWithin(run, m, i, j - 1, f, ok)
      ensures FinishedWithin(run, m, i, j, f, ok)
    {
      var k :|
        i <= k < j - 1 && m < |run[k].box| && Completes(run[k], run[k + 1], m, ok) && FrameOf(run[k].box[m]) == f;
    }
    forall ok | m < |run[j - 1].box| && Completes(run[j - 1], run[j], m, ok) && FrameOf(run[j - 1].box[m]) == f
      ensures FinishedWithin(run, m, i, j, f, ok)
    {
      assert Completes(run[j - 1], run[j - 1 + 1], m, ok);
    }
  }

  /** Between two requests, a mailbox's history is about the frame requested, and ends by what the hardware did. */
  lemma {:induction false} FateKept(run: seq<State>, i: nat, j: nat, m: nat, f: Frame)
    requires IsRun(run) && Start(run[0]) && i <= j < |run| && m < 3
    requires |run[i].last| == 3 && run[i].last[m] == InFlight(f) && NoRequest(run, m, i, j)
    ensures |run[j].last| == 3 && run[j].last[m].About(f)
    ensures run[j].last[m].Done? ==> FinishedWithin(run, m, i, j, f, run[j].last[m].ok)
    decreases j - i
  {
    hide FlagsOf, Txrq, FrameOf, Requests, Completes, Next, Start, Inv, FinishedWithin;
    if i < j {
      FateKept(run, i, j - 1, m, f);
      StartInv(run[0]);
      RunKeepsInv(run, j - 1);
      assert Next(run[j - 1], run[j - 1 + 1]);
      FateStep(run[j - 1], run[j], m, f);
      FinishedExtends(run, m, i, j, f);
    }
  }

  /**
   * The status of a mailbox is the fate of the very frame last requested from it: pending, or what the hardware
   * did with that frame since.
   */
  lemma StatusIsFateOfFrame(run: seq<State>, i: nat, j: nat, mailbox: bv8)
    requires IsRun(run) && Start(run[0]) && i < j < |run| && mailbox < 3
    requires Requests(run[i], run[i + 1]) && run[i].pc.m == mailbox as nat
    requires NoRequest(run, mailbox as nat, i + 1, j)
    ensures var m, f, status := mailbox as nat, Meaning(run[i].pc.msg), TransmitStatus(run[j].tsr, mailbox);
            && (status == PENDING <==> |run[j].box| == 3 && Txrq(run[j].box[m]))
            && (status == PENDING ==> |run[j].box| == 3 && FrameOf(run[j].box[m]) == f)
            && (status == OK ==> FinishedWithin(run, m, i + 1, j, f, true))
            && (status == FAILED ==> FinishedWithin(run, m, i + 1, j, f, false))
            && (status == PENDING || status == OK || status == FAILED)
  {
    hide FlagsOf, Txrq, FrameOf, Meaning, TransmitStatus, Pending, Completes;
    var m, f := mailbox as nat, Meaning(run[i].pc.msg);
    assert run[i + 1].last[m] == InFlight(f);
    StartInv(run[0]);
    RunKeepsInv(run, i + 1);
    RunKeepsInv(run, j);
    FateKept(run, i + 1, j, m, f);
    StatusTellsFate(run, j, mailbox);
    assert BoxInv(run[j].box[m], FlagsOf(run[j].tsr, m), run[j].last[m]);
  }

  lemma SettledStep(s: State, s': State, m: nat)
    requires Inv(s) && Next(s, s') && m < 3 && !s.last[m].InFlight? && !(Requests(s, s') && s.pc.m == m)
    ensures |s'.last| == 3 && s'.last[m] == s.last[m]
  {
    hide FlagsOf, Txrq, Filled, Latched, Progress, FrameOf, Pending, Meaning, FlagsBecome;
    assert BoxInv(s.box[m], FlagsOf(s.tsr, m), s.last[m]);
  }

  /** Without a new request a failed mailbox stays failed. */
  lemma {:induction false} FailedStays(run: seq<State>, i: nat, j: nat, mailbox: bv8)
    requires IsRun(run) && Start(run[0]) && i <= j < |run| && mailbox < 3
    requires NoRequest(run, mailbox as nat, i, j) && TransmitStatus(run[i].tsr, mailbox) == FAILED
    ensures TransmitStatus(run[j].tsr, mailbox) == FAILED
    decreases j - i
  {
    hide FlagsOf, Txrq, FrameOf, Requests, Next, Start, Inv, TransmitStatus;
    if i < j {
      FailedStays(run, i, j - 1, mailbox);
      StartInv(run[0]);
      RunKeepsInv(run, j - 1);
      assert Next(run[j - 1], run[j - 1 + 1]);
      StatusTellsFate(run, j - 1, mailbox);
      SettledStep(run[j - 1], run[j], mailbox as nat);
      StatusTellsFate(run, j, mailbox);
    }
  }
}

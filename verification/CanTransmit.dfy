/** `CAN_Transmit` as it runs on the mailbox registers, interleaved with arbitrary hardware activity. */
module CanTransmit {
  import opened CanFrames
  import opened CanMailboxes

  /** One thing the hardware may do: finish mailbox `m`, or only change unread status bits. */
  datatype Event = Finish(m: nat, ok: bool, tsr: bv32) | Flicker(tsr: bv32)

  /** TSR once the hardware has answered a transmission request for mailbox `m`. */
  function Answered(tsr: bv32, m: nat): bv32
    requires m < 3
  {
    if m == 0 then tsr & 0xFBFF_FFFC else if m == 1 then tsr & 0xF7FF_FCFF else tsr & 0xEFFC_FFFF
  }

  lemma AnsweredFlags(tsr: bv32, m: nat)
    requires m < 3
    ensures FlagsBecome(tsr, Answered(tsr, m), m, Flags(false, false, false))
  {
    if m == 0 {
    } else if m == 1 {
    } else {
    }
  }

  lemma FinishIsStep(s: State, m: nat, ok: bool, t: bv32)
    requires m < 3 && |s.box| == |s.last| == 3 && Txrq(s.box[m]) && FlagsBecome(s.tsr, t, m, Flags(true, true, ok))
    ensures var s' := Finished(s, m, ok, t);
            && Next(s, s') && HardwareStep(s, s') && s'.tsr == t && s'.pc == s.pc && s'.accepted == s.accepted
            && s'.box == s.box[m := s.box[m].(ir := s.box[m].ir & 0xFFFF_FFFE)]
  {
    assert Completes(s, Finished(s, m, ok, t), m, ok);
  }

  /** The history from index `start` on is hardware activity only, while the driver stands at `pc`. */
  ghost predicate Quiet(run: seq<State>, start: nat, pc: Pc) {
    forall k | start <= k < |run| - 1 :: QuietStep(run[k], run[k + 1], pc)
  }

  ghost predicate QuietStep(s: State, s': State, pc: Pc) {
    HardwareStep(s, s') && s.pc == pc == s'.pc
  }

  lemma QuietExtends(run: seq<State>, start: nat, pc: Pc, s: State)
    requires |run| > 0 && Quiet(run, start, pc) && HardwareStep(run[|run| - 1], s)
    requires run[|run| - 1].pc == pc == s.pc
    ensures Quiet(run + [s], start, pc)
  {
    hide HardwareStep;
  }

  /** Step `t` of the history tests mailbox `k` for `msg`, with the answer `empty`. */
  ghost predicate TestedAt(run: seq<State>, t: nat, msg: TxMsg, k: nat, empty: bool) {
    && t < |run| - 1 && k < 3 && run[t].pc == Selecting(msg, k)
    && Selects(run[t], run[t + 1]) && FlagsOf(run[t].tsr, k).tme == empty
  }

  ghost predicate Tested(run: seq<State>, start: nat, msg: TxMsg, k: nat, empty: bool) {
    exists t: nat :: start <= t && TestedAt(run, t, msg, k, empty)
  }

  lemma TestedLater(run: seq<State>, start: nat, start': nat, msg: TxMsg, k: nat, empty: bool, run': seq<State>)
    requires Tested(run, start, msg, k, empty) && run <= run' && start' <= start
    ensures Tested(run', start', msg, k, empty)
  {
    hide FlagsOf, Selects;
    var t: nat :| start <= t && TestedAt(run, t, msg, k, empty);
    assert TestedAt(run', t, msg, k, empty);
  }

  lemma TestedHere(run: seq<State>, t: nat, start: nat, msg: TxMsg, k: nat, empty: bool)
    requires start <= t && TestedAt(run, t, msg, k, empty)
    ensures Tested(run, start, msg, k, empty)
  {
  }

  /** From index `start` on, the mailboxes below `mailbox` were tested and found busy, and it itself empty. */
  ghost predicate Selected(run: seq<State>, start: nat, msg: TxMsg, mailbox: bv8) {
    && (forall k: nat | k < 3 && k as bv8 < mailbox :: Tested(run, start, msg, k, false))
    && (mailbox < 3 ==> Tested(run, start, msg, mailbox as nat, true))
  }

  lemma SelectedEarlier(run: seq<State>, start: nat, start': nat, msg: TxMsg, mailbox: bv8)
    requires Selected(run, start, msg, mailbox) && start' <= start
    ensures Selected(run, start', msg, mailbox)
  {
    hide TestedAt;
    forall k: nat | k < 3 && k as bv8 < mailbox
      ensures Tested(run, start', msg, k, false)
    {
      TestedLater(run, start, start', msg, k, false, run);
    }
    if mailbox < 3 {
      TestedLater(run, start, start', msg, mailbox as nat, true, run);
    }
  }

  lemma SelectedLater(run: seq<State>, start: nat, msg: TxMsg, mailbox: bv8, run': seq<State>)
    requires Selected(run, start, msg, mailbox) && run <= run'
    ensures Selected(run', start, msg, mailbox)
  {
    hide TestedAt, Tested;
    forall k: nat | k < 3 && k as bv8 < mailbox
      ensures Tested(run', start, msg, k, false)
    {
      TestedLater(run, start, start, msg, k, false, run');
    }
    if mailbox < 3 {
      TestedLater(run, start, start, msg, mailbox as nat, true, run');
    }
  }

  /** The last request to mailbox `m` in the history is one for `msg`, made at index `start` or later. */
  ghost predicate Requested(run: seq<State>, start: nat, m: nat, msg: TxMsg) {
    exists i: nat :: start <= i < |run| - 1 && RequestedAt(run, i, m, msg)
  }

  ghost predicate RequestedAt(run: seq<State>, i: nat, m: nat, msg: TxMsg)
    requires i < |run| - 1
  {
    Requests(run[i], run[i + 1]) && run[i].pc.m == m && run[i].pc.msg == msg && NoRequest(run, m, i + 1, |run| - 1)
  }

  lemma RequestedOnce(run: seq<State>, i: nat, m: nat, msg: TxMsg)
    requires i < |run| - 1 && Requests(run[i], run[i + 1]) && run[i].pc.m == m && run[i].pc.msg == msg
    requires Quiet(run, i + 1, Idle)
    ensures Requested(run, i, m, msg)
  {
    hide AfterRequest, FlagsBecome, HardwareStep;
    assert RequestedAt(run, i, m, msg);
  }

  lemma RequestedEarlier(run: seq<State>, start: nat, start': nat, m: nat, msg: TxMsg)
    requires Requested(run, start, m, msg) && start' <= start
    ensures Requested(run, start', m, msg)
  {
  }

  class Bxcan {
    var tsr: bv32
    const box: array<Mailbox>
    /** What the hardware does after the n-th access of the driver: any finite list of events. */
    const env: nat -> seq<Event>
    var clock: nat
    /** The state of the whole protocol, and every state since reset. */
    ghost var view: State
    ghost var run: seq<State>

    /** The history is a run that ends in `view`. */
    ghost predicate Traced()
      reads this
    {
      IsRun(run) && Start(run[0]) && run[|run| - 1] == view
    }

    /** `view` shows the registers as they are. */
    ghost predicate Mirrored()
      reads this, box
    {
      box.Length == 3 && view.tsr == tsr && view.box == box[..]
    }

    ghost predicate Valid()
      reads this, box
    {
      Traced() && Mirrored()
    }

    /** The peripheral after reset: all mailboxes empty. */
    constructor (env: nat -> seq<Event>, b0: Mailbox, b1: Mailbox, b2: Mailbox)
      requires !Txrq(b0) && !Txrq(b1) && !Txrq(b2)
      ensures Valid() && fresh(box) && view.pc == Idle && view.accepted == multiset{}
    {
      this.env := env;
      box := new Mailbox[3](i => if i == 0 then b0 else if i == 1 then b1 else b2);
      tsr := 0x1C00_0000;
      clock := 0;
      new;
      ResetFlags();
      view := State(tsr, box[..], Idle, multiset{}, multiset{}, multiset{}, [Never, Never, Never]);
      run := [view];
    }

    /** The current state satisfies the invariant. */
    lemma Now()
      requires Traced()
      ensures Inv(view) && |view.box| == |view.last| == 3 && |run| > 0
    {
      hide Start, Pending, BoxInv, PcInv;
      StartInv(run[0]);
      RunKeepsInv(run, |run| - 1);
    }

    /** Appends the state after a step. */
    ghost method Record(s: State)
      requires Traced() && Next(view, s)
      modifies this`run, this`view
      ensures Traced() && view == s && run == old(run) + [s]
    {
      hide Start, Next;
      run := run + [s];
      view := s;
    }

    /** The hardware's activity after one access of the driver; events it cannot perform are skipped. */
    method Hardware()
      requires Valid()
      modifies this, box
      ensures Valid() && old(run) <= run && Quiet(run, |old(run)| - 1, view.pc)
      ensures view.pc == old(view.pc) && view.accepted == old(view.accepted)
      ensures forall k: nat | k < 3 && old(FlagsOf(tsr, k).tme) :: FlagsOf(tsr, k).tme
    {
      hide FlagsOf, HardwareStep;
      var events := env(clock);
      clock := clock + 1;
      for i := 0 to |events|
        invariant Valid() && old(run) <= run && Quiet(run, |old(run)| - 1, view.pc)
        invariant view.pc == old(view.pc) && view.accepted == old(view.accepted)
        invariant forall k: nat | k < 3 && old(FlagsOf(tsr, k).tme) :: FlagsOf(tsr, k).tme
      {
        Perform(events[i], |old(run)| - 1);
      }
    }

    method Perform(e: Event, ghost start: nat)
      requires Valid() && Quiet(run, start, view.pc)
      modifies this`tsr, this`view, this`run, box
      ensures Valid() && old(run) <= run && Quiet(run, start, view.pc)
      ensures view.pc == old(view.pc) && view.accepted == old(view.accepted)
      ensures forall k: nat | k < 3 && old(FlagsOf(tsr, k).tme) :: FlagsOf(tsr, k).tme
    {
      hide FlagsOf, Txrq;
      match e
      case Finish(m, ok, t) =>
        if m < 3 && Txrq(box[m]) && FlagsBecome(tsr, t, m, Flags(true, true, ok)) {
          FinishMailbox(m, ok, t, start);
        }
      case Flicker(t) =>
        if forall k: nat | k < 3 :: FlagsOf(t, k) == FlagsOf(tsr, k) {
          tsr := t;
          assert Flickers(view, view.(tsr := t));
          QuietExtends(run, start, view.pc, view.(tsr := t));
          Record(view.(tsr := t));
        }
    }

    method FinishMailbox(m: nat, ok: bool, t: bv32, ghost start: nat)
      requires Valid() && Quiet(run, start, view.pc)
      requires m < 3 && Txrq(box[m]) && FlagsBecome(tsr, t, m, Flags(true, true, ok))
      modifies this`tsr, this`view, this`run, box
      ensures Valid() && old(run) <= run && Quiet(run, start, view.pc) && tsr == t
      ensures view.pc == old(view.pc) && view.accepted == old(view.accepted)
    {
      hide FlagsOf, Txrq, FrameOf, Inv, FlagsBecome, Finished, Next, IsRun, Start;
      Now();
      FinishIsStep(view, m, ok, t);
      QuietExtends(run, start, view.pc, Finished(view, m, ok, t));
      Record(Finished(view, m, ok, t));
      box[m] := box[m].(ir := box[m].ir & 0xFFFF_FFFE);
      tsr := t;
    }

    // ---- The accesses of CAN_Transmit, each followed by hardware activity ----

    /** Read TSR and test whether mailbox `k` is empty. */
    method TestEmpty(k: nat) returns (empty: bool)
      requires Valid() && view.pc.Selecting? && view.pc.k == k < 3
      modifies this, box
      ensures Valid() && old(run) <= run && view.accepted == old(view.accepted)
      ensures empty == old(FlagsOf(tsr, k).tme)
      ensures view.pc == if empty then Filling(old(view.pc.msg), k, 0, 0)
                         else if k == 2 then Idle
                         else Selecting(old(view.pc.msg), k + 1)
      ensures forall j: nat | j < 3 && old(FlagsOf(tsr, j).tme) :: FlagsOf(tsr, j).tme
      ensures |old(run)| > 0 && TestedAt(run, |old(run)| - 1, old(view.pc.msg), k, empty)
    {
      hide FlagsOf;
      empty := FlagsOf(tsr, k).tme;
      var next := if empty then Filling(view.pc.msg, k, 0, 0)
                  else if k == 2 then Idle
                  else Selecting(view.pc.msg, k + 1);
      assert Selects(view, view.(pc := next));
      Record(view.(pc := next));
      Hardware();
    }

    /** Read TIR. */
    method ReadIr(m: nat) returns (latch: bv32)
      requires Valid() && view.pc.Filling? && view.pc.m == m
      requires view.pc.step == 0 || view.pc.step == 2 || view.pc.step == 10
      modifies this, box
      ensures Valid() && old(run) <= run && view.accepted == old(view.accepted) && m < 3
      ensures view.pc == old(view.pc).(step := old(view.pc).step + 1, latch := latch)
    {
      hide FlagsOf, AfterFill, Filled, Latched, Next, IsRun, Start, Inv;
      Now();
      FillIsStep(view);
      ReadsIr(view);
      latch := box[m].ir;
      Record(AfterFill(view));
      Hardware();
    }

    /** Read TDTR. */
    method ReadDtr(m: nat) returns (latch: bv32)
      requires Valid() && view.pc.Filling? && view.pc.m == m
      requires view.pc.step == 4 || view.pc.step == 6
      modifies this, box
      ensures Valid() && old(run) <= run && view.accepted == old(view.accepted) && m < 3
      ensures view.pc == old(view.pc).(step := old(view.pc).step + 1, latch := latch)
    {
      hide FlagsOf, AfterFill, Filled, Latched, Next, IsRun, Start, Inv;
      Now();
      FillIsStep(view);
      ReadsDtr(view);
      latch := box[m].dtr;
      Record(AfterFill(view));
      Hardware();
    }

    /** Write one register of the mailbox: `b` is the mailbox with that register replaced. */
    method Store(m: nat, b: Mailbox)
      requires Valid() && view.pc.Filling? && view.pc.m == m < 3 && view.pc.step < 11
      requires Filled(box[m], view.pc.msg, view.pc.step, view.pc.latch) == b
      modifies this, box
      ensures Valid() && old(run) < run && view.accepted == old(view.accepted)
      ensures view.pc.Filling? && view.pc.m == m && view.pc.msg == old(view.pc.msg)
      ensures view.pc.step == old(view.pc).step + 1
    {
      hide FlagsOf, AfterFill, Filled, Latched, Next, IsRun, Start, Inv;
      Now();
      FillIsStep(view);
      Record(AfterFill(view));
      box[m] := b;
      Hardware();
    }

    /** Write TIR with TXRQ set; the hardware takes the mailbox over. */
    method Request(m: nat, b: Mailbox)
      requires Valid() && view.pc.Filling? && view.pc.m == m < 3 && view.pc.step == 11
      requires Filled(box[m], view.pc.msg, 11, view.pc.latch) == b
      modifies this, box
      ensures Valid() && old(run) <= run && view.pc == Idle
      ensures view.accepted == old(view.accepted) + multiset{Meaning(old(view.pc.msg))}
      ensures |old(run)| > 0 && Requested(run, |old(run)| - 1, m, old(view.pc.msg))
    {
      hide FlagsOf, AfterRequest, Filled, Next, IsRun, Start, Inv, Answered, Meaning, Requests;
      Now();
      RequestIsStep(view);
      Record(AfterRequest(view, Answered(tsr, m)));
      box[m] := b;
      tsr := Answered(tsr, m);
      Hardware();
      RequestedOnce(run, |old(run)| - 1, m, old(view.pc.msg));
    }

    /** The part of `CAN_Transmit` that selects a mailbox: each is tested once, in order, until one is empty. */
    method Select(msg: TxMsg) returns (mailbox: bv8)
      requires Valid() && view.pc == Selecting(msg, 0)
      modifies this, box
      ensures Valid() && old(run) <= run && view.accepted == old(view.accepted)
      ensures mailbox < 3 || mailbox == 4
      ensures view.pc == if mailbox < 3 then Filling(msg, mailbox as nat, 0, 0) else Idle
      ensures |old(run)| > 0 && Selected(run, |old(run)| - 1, msg, mailbox)
      ensures forall k: nat | k < 3 && k as bv8 < mailbox :: !old(FlagsOf(tsr, k).tme)
    {
      hide FlagsOf, IsRun, Start, TestedAt;
      mailbox := NO_MAILBOX;
      ghost var r0 := |run| - 1;
      var empty := TestEmpty(0);
      TestedHere(run, r0, r0, msg, 0, empty);
      if empty {
        mailbox := 0;
      } else {
        ghost var run1 := run;
        empty := TestEmpty(1);
        TestedLater(run1, r0, r0, msg, 0, false, run);
        TestedHere(run, |run1| - 1, r0, msg, 1, empty);
        if empty {
          mailbox := 1;
        } else {
          ghost var run2 := run;
          empty := TestEmpty(2);
          TestedLater(run2, r0, r0, msg, 0, false, run);
          TestedLater(run2, r0, r0, msg, 1, false, run);
          TestedHere(run, |run2| - 1, r0, msg, 2, empty);
          if empty {
            mailbox := 2;
          }
        }
      }
    }

    /**
     * `CAN_Transmit`. Returns the mailbox used, and the caller's message, whose DLC the driver masks
     * when it sends it.
     */
    method Transmit(msg: TxMsg) returns (mailbox: bv8, msg': TxMsg)
      requires Valid() && view.pc == Idle && msg.Valid()
      modifies this, box
      ensures Valid() && old(run) < run && view.pc == Idle
      // Every mailbox below the answer was tested and found busy, and the answer itself was found empty.
      ensures mailbox < 3 || mailbox == 4
      ensures Selected(run, |old(run)|, msg, mailbox)
      ensures forall k: nat | k < 3 && k as bv8 < mailbox :: !old(FlagsOf(tsr, k).tme)
      // The last request to the answered mailbox is the one for this message.
      ensures mailbox < 3 ==> Requested(run, |old(run)|, mailbox as nat, msg)
      // The message's frame is accepted exactly when a mailbox was found.
      ensures view.accepted == if mailbox < 3 then old(view.accepted) + multiset{Meaning(msg)} else old(view.accepted)
      ensures msg' == if mailbox < 3 then msg.(DLC := msg.DLC & 0x0F) else msg
    {
      hide FlagsOf, IsRun, Start, Meaning, Filled, Selected, Requested;
      msg' := msg;
      assert Calls(view, view.(pc := Selecting(msg, 0)), msg);
      Record(view.(pc := Selecting(msg, 0)));
      Hardware();
      ghost var start := |run| - 1;
      mailbox := Select(msg);
      SelectedEarlier(run, start, |old(run)|, msg, mailbox);
      if mailbox != NO_MAILBOX {
        ghost var chosen := run;
        msg' := Fill(mailbox as nat, msg);
        SelectedLater(chosen, |old(run)|, msg, mailbox, run);
        RequestedEarlier(run, |chosen|, |old(run)|, mailbox as nat, msg);
      }
    }

    /** The part of `CAN_Transmit` that fills the chosen mailbox and requests transmission. */
    method Fill(m: nat, msg: TxMsg) returns (msg': TxMsg)
      requires Valid() && view.pc == Filling(msg, m, 0, 0) && m < 3
      modifies this, box
      ensures Valid() && old(run) <= run && view.pc == Idle
      ensures view.accepted == old(view.accepted) + multiset{Meaning(msg)}
      ensures Requested(run, |old(run)|, m, msg)
      ensures msg' == msg.(DLC := msg.DLC & 0x0F)
    {
      hide FlagsOf, IsRun, Start, Next, Meaning, Requested;
      ClearId(m, msg);
      SetId(m, msg);
      msg' := msg.(DLC := msg.DLC & 0x0F);
      SetDlc(m, msg);
      SetData(m, msg);
      ghost var before := |run| - 1;
      RequestTransmission(m, msg);
      RequestedEarlier(run, before, |old(run)|, m, msg);
    }

    /** Set up the data field. */
    method SetData(m: nat, msg: TxMsg)
      requires Valid() && view.pc.Filling? && view.pc.m == m < 3 && view.pc.msg == msg && view.pc.step == 8
      modifies this, box
      ensures Valid() && old(run) < run && view.accepted == old(view.accepted)
      ensures view.pc.Filling? && view.pc.m == m && view.pc.msg == msg && view.pc.step == 10
    {
      hide FlagsOf, IsRun, Start, Next, LowWord, HighWord;
      Store(m, box[m].(dlr := LowWord(msg.Data)));
      Store(m, box[m].(dhr := HighWord(msg.Data)));
    }

    /** Request transmission. */
    method RequestTransmission(m: nat, msg: TxMsg)
      requires Valid() && view.pc.Filling? && view.pc.m == m < 3 && view.pc.msg == msg && view.pc.step == 10
      modifies this, box
      ensures Valid() && old(run) <= run && view.pc == Idle
      ensures view.accepted == old(view.accepted) + multiset{Meaning(msg)}
      ensures |old(run)| > 0 && Requested(run, |old(run)| - 1, m, msg)
    {
      hide FlagsOf, IsRun, Start, Next, Meaning, Requested, Inv;
      Now();
      var latch := ReadIr(m);
      ghost var before := |run| - 1;
      Request(m, box[m].(ir := latch | 1));
      RequestedEarlier(run, before, |old(run)| - 1, m, msg);
    }

    /** Clear the identifier, keeping TXRQ. */
    method ClearId(m: nat, msg: TxMsg)
      requires Valid() && view.pc == Filling(msg, m, 0, 0) && m < 3
      modifies this, box
      ensures Valid() && old(run) <= run && view.accepted == old(view.accepted)
      ensures view.pc.Filling? && view.pc.m == m && view.pc.msg == msg && view.pc.step == 2
    {
      hide FlagsOf, Filled, IdWord, IsRun, Start, Next;
      var latch := ReadIr(m);
      WritesId(box[m], msg, latch);
      Store(m, box[m].(ir := latch & 1));
    }

    /** Set up the identifier. */
    method SetId(m: nat, msg: TxMsg)
      requires Valid() && view.pc.Filling? && view.pc.m == m < 3 && view.pc.msg == msg && view.pc.step == 2
      modifies this, box
      ensures Valid() && old(run) <= run && view.accepted == old(view.accepted)
      ensures view.pc.Filling? && view.pc.m == m && view.pc.msg == msg && view.pc.step == 4
    {
      hide FlagsOf, Filled, IdWord, IsRun, Start, Next;
      var latch := ReadIr(m);
      WritesId(box[m], msg, latch);
      var word := IdBits(msg);
      Store(m, box[m].(ir := latch | word));
    }

    /** The identifier bits, by identifier type. */
    method IdBits(msg: TxMsg) returns (word: bv32)
      ensures word == IdWord(msg)
    {
      if msg.IDE == STANDARD {
        word := StandardWord(msg);
      } else {
        word := ExtendedWord(msg);
      }
    }

    /** Set up the DLC. */
    method SetDlc(m: nat, msg: TxMsg)
      requires Valid() && view.pc.Filling? && view.pc.m == m < 3 && view.pc.msg == msg && view.pc.step == 4
      modifies this, box
      ensures Valid() && old(run) <= run && view.accepted == old(view.accepted)
      ensures view.pc.Filling? && view.pc.m == m && view.pc.msg == msg && view.pc.step == 8
    {
      hide FlagsOf, Filled, IsRun, Start, Next;
      var latch := ReadDtr(m);
      WritesDlc(box[m], msg, latch);
      Store(m, box[m].(dtr := latch & 0xFFFF_FFF0));
      latch := ReadDtr(m);
      WritesDlc(box[m], msg, latch);
      Store(m, box[m].(dtr := latch | ((msg.DLC & 0x0F) as bv32)));
    }

    /** `CAN_TransmitStatus`. Asking changes nothing: whatever happens to the registers meanwhile, the hardware does. */
    method Status(mailbox: bv8) returns (status: bv8)
      requires Valid()
      modifies this, box
      ensures Valid() && old(run) <= run && view.pc == old(view.pc) && view.accepted == old(view.accepted)
      ensures |old(run)| > 0 && Quiet(run, |old(run)| - 1, view.pc)
      ensures status == TransmitStatus(run[|old(run)| - 1].tsr, mailbox)
    {
      hide FlagsOf, TransmitStatus;
      status := TransmitStatus(tsr, mailbox);
      Hardware();
    }

    /**
     * `Can_Send_Msg` of the application, which means 0 as success. It answers 1 exactly if the frame had already
     * failed when its status was first asked for, at index `asked` of the history; a frame that was dropped
     * because no mailbox was free, or that is still waiting, is answered with 0. The frame is a standard data frame
     * whose identifier carries the second byte exactly if the first is one of four command bytes.
     */
    method SendMsg(data: Bytes8, len: bv8)
      returns (r: nat, ghost mailbox: bv8, ghost asked: nat, ghost msg: TxMsg, ghost frame: Frame)
      requires Valid() && view.pc == Idle
      modifies this, box
      ensures Valid() && old(run) <= run && view.pc == Idle && r <= 1
      ensures |old(run)| <= asked < |run|
      ensures mailbox < 3 || mailbox == 4
      ensures mailbox < 3 ==> Requested(run[..asked + 1], |old(run)|, mailbox as nat, msg)
      ensures r == 1 <==> mailbox < 3 && TransmitStatus(run[asked].tsr, mailbox) == FAILED
      ensures view.accepted == if mailbox < 3 then old(view.accepted) + multiset{frame} else old(view.accepted)
      ensures frame == Meaning(msg) && !frame.ident.extended && !frame.ident.remote
      ensures frame.dlc == (len & 0xF) as bv32 && frame.data == data
      ensures frame.ident.id == if data.d0 as int in {1, 7, 8, 9} then 0x200 | data.d1 as bv32 else 0x200
    {
      hide FlagsOf, TransmitStatus, Meaning, Requested, IsRun, Start, Selected, Quiet;
      AppMessageValid(data, len);
      AppFrame(data, len);
      var message := AppMessage(data, len);
      msg, frame := message, Meaning(message);
      var mbox;
      mbox, message := Transmit(message);
      mailbox := mbox;
      asked := |run| - 1;
      ghost var sent := run;
      assert run[..asked + 1] == sent;
      var status := Status(mbox);
      r := AwaitOutcome(mbox, status, asked);
      assert run[..asked + 1] == sent;
    }

    /** The application's wait: up to 0xFFF further queries while the answer is failed. */
    method AwaitOutcome(mailbox: bv8, first: bv8, ghost asked: nat) returns (r: nat)
      requires Valid() && view.pc == Idle && asked < |run| && Quiet(run, asked, Idle)
      requires mailbox < 3 || mailbox == NO_MAILBOX
      requires first == TransmitStatus(run[asked].tsr, mailbox)
      modifies this, box
      ensures Valid() && old(run) <= run && view.pc == Idle && view.accepted == old(view.accepted)
      ensures r <= 1 && (r == 1 <==> mailbox < 3 && first == FAILED)
    {
      hide FlagsOf, TransmitStatus, IsRun, Start, Quiet;
      var i := 0;
      var status := first;
      MissingMailboxPends(mailbox, run[asked].tsr);
      while status == FAILED && i < 0xFFF
        invariant Valid() && old(run) <= run && view.pc == Idle && view.accepted == old(view.accepted)
        invariant 0 <= i <= 0xFFF && Quiet(run, asked, Idle) && status == first && (first != FAILED ==> i == 0)
        decreases 0xFFF - i
      {
        i := i + 1;
        ghost var before := run;
        status := Status(mailbox);
        QuietJoins(run, asked, |before| - 1, before, Idle);
        QuietFailure(run, asked, |before| - 1, mailbox);
      }
      r := if i >= 0xFFF then 1 else 0;
    }
  }

  /** The message that `Can_Send_Msg` builds: a standard data frame. */
  function AppMessage(data: Bytes8, len: bv8): TxMsg {
    var toUnit := data.d0 == (1 as bv8) || data.d0 == (7 as bv8) || data.d0 == (8 as bv8) || data.d0 == (9 as bv8);
    TxMsg(if toUnit then 0x200 | (data.d1 as bv32) else 0x200, 0x1800_F001, 0, 0, len, data)
  }

  lemma AppMessageValid(data: Bytes8, len: bv8)
    ensures AppMessage(data, len).Valid()
  {
  }

  lemma AppFrame(data: Bytes8, len: bv8)
    ensures var f := Meaning(AppMessage(data, len));
            && !f.ident.extended && !f.ident.remote && f.dlc == (len & 0xF) as bv32 && f.data == data
            && f.ident.id == if data.d0 as int in {1, 7, 8, 9} then 0x200 | data.d1 as bv32 else 0x200
  {
  }

  lemma MissingMailboxPends(mailbox: bv8, tsr: bv32)
    ensures 3 <= mailbox ==> TransmitStatus(tsr, mailbox) == PENDING
  {
    StatusByFlags(tsr, mailbox);
  }

  lemma QuietJoins(run: seq<State>, start: nat, middle: nat, before: seq<State>, pc: Pc)
    requires before <= run && middle == |before| - 1 && Quiet(before, start, pc) && Quiet(run, middle, pc)
    ensures Quiet(run, start, pc)
  {
    hide QuietStep;
    forall k | start <= k < |run| - 1
      ensures QuietStep(run[k], run[k + 1], pc)
    {
      if k < middle {
        assert QuietStep(before[k], before[k + 1], pc);
      }
    }
  }

  lemma QuietMakesNoRequest(run: seq<State>, start: nat, m: nat, i: nat, j: nat)
    requires Quiet(run, start, Idle) && start <= i <= j < |run|
    ensures NoRequest(run, m, i, j)
  {
    hide HardwareStep;
    forall k | i <= k < j
      ensures !(Requests(run[k], run[k + 1]) && run[k].pc.m == m)
    {
      assert QuietStep(run[k], run[k + 1], Idle);
    }
  }

  lemma QuietFailure(run: seq<State>, start: nat, j: nat, mailbox: bv8)
    requires IsRun(run) && Start(run[0]) && Quiet(run, start, Idle) && start <= j < |run| && mailbox < 3
    requires TransmitStatus(run[start].tsr, mailbox) == FAILED
    ensures TransmitStatus(run[j].tsr, mailbox) == FAILED
  {
    hide TransmitStatus, IsRun, Start, Quiet, NoRequest;
    QuietMakesNoRequest(run, start, mailbox as nat, start, j);
    FailedStays(run, start, j, mailbox);
  }

  /**
   * From the end of `CAN_Transmit` to the next request to its mailbox, the status of the answered number is what
   * has become of this very message's frame since the step `i` of the call that requested it.
   */
  lemma AnswerIsFate(run: seq<State>, start: nat, mailbox: bv8, msg: TxMsg, run': seq<State>)
    requires mailbox < 3 && Requested(run, start, mailbox as nat, msg) && run <= run'
    requires IsRun(run') && Start(run'[0]) && NoRequest(run', mailbox as nat, |run| - 1, |run'| - 1)
    ensures var m, f, now := mailbox as nat, Meaning(msg), run'[|run'| - 1];
            var status := TransmitStatus(now.tsr, mailbox);
            && (status == PENDING || status == OK || status == FAILED)
            && (status == PENDING <==> |now.box| == 3 && Txrq(now.box[m]))
            && (status == PENDING ==> |now.box| == 3 && FrameOf(now.box[m]) == f)
            && exists i: nat | start <= i < |run| - 1 && RequestedAt(run, i, m, msg) ::
              && (status == OK ==> FinishedWithin(run', m, i + 1, |run'| - 1, f, true))
              && (status == FAILED ==> FinishedWithin(run', m, i + 1, |run'| - 1, f, false))
  {
    hide TransmitStatus, IsRun, Start, FrameOf, Txrq, Meaning, AfterRequest, FlagsBecome, FlagsOf, Completes;
    var m, j := mailbox as nat, |run'| - 1;
    var i: nat :| start <= i < |run| - 1 && RequestedAt(run, i, m, msg);
    assert Requests(run'[i], run'[i + 1]);
    forall k | i + 1 <= k < j
      ensures !(Requests(run'[k], run'[k + 1]) && run'[k].pc.m == m)
    {
      if k < |run| - 1 {
        assert run[k] == run'[k] && run[k + 1] == run'[k + 1];
      }
    }
    StatusIsFateOfFrame(run', i, j, mailbox);
  }

  /** The two writes to TIR that set up the identifier. */
  lemma WritesId(b: Mailbox, msg: TxMsg, latch: bv32)
    ensures Filled(b, msg, 1, latch) == b.(ir := latch & 1)
    ensures Filled(b, msg, 3, latch) == b.(ir := latch | IdWord(msg))
  {
    hide IdWord;
  }

  /** The two writes to TDTR that set up the DLC. */
  lemma WritesDlc(b: Mailbox, msg: TxMsg, latch: bv32)
    ensures Filled(b, msg, 5, latch) == b.(dtr := latch & 0xFFFF_FFF0)
    ensures Filled(b, msg, 7, latch) == b.(dtr := latch | ((msg.DLC & 0x0F) as bv32))
  {
  }

  lemma ReadsIr(s: State)
    requires s.pc.Filling? && s.pc.m < |s.box|
    requires s.pc.step == 0 || s.pc.step == 2 || s.pc.step == 10
    ensures Filled(s.box[s.pc.m], s.pc.msg, s.pc.step, s.pc.latch) == s.box[s.pc.m]
    ensures Latched(s.box[s.pc.m], s.pc.step, s.pc.latch) == s.box[s.pc.m].ir
  {
  }

  lemma ReadsDtr(s: State)
    requires s.pc.Filling? && s.pc.m < |s.box| && (s.pc.step == 4 || s.pc.step == 6)
    ensures Filled(s.box[s.pc.m], s.pc.msg, s.pc.step, s.pc.latch) == s.box[s.pc.m]
    ensures Latched(s.box[s.pc.m], s.pc.step, s.pc.latch) == s.box[s.pc.m].dtr
  {
  }

  lemma RequestIsStep(s: State)
    requires Inv(s) && |s.last| == 3 && s.pc.Filling? && s.pc.step == 11
    ensures s.pc.m < 3 && Next(s, AfterRequest(s, Answered(s.tsr, s.pc.m)))
    ensures Requests(s, AfterRequest(s, Answered(s.tsr, s.pc.m)))
    ensures var s' := AfterRequest(s, Answered(s.tsr, s.pc.m));
            && s'.tsr == Answered(s.tsr, s.pc.m) && s'.pc == Idle
            && s'.accepted == s.accepted + multiset{Meaning(s.pc.msg)}
            && s'.box == s.box[s.pc.m := Filled(s.box[s.pc.m], s.pc.msg, 11, s.pc.latch)]
  {
    hide FlagsOf, Answered, Filled, Meaning, Pending, BoxInv;
    AnsweredFlags(s.tsr, s.pc.m);
    assert Requests(s, AfterRequest(s, Answered(s.tsr, s.pc.m)));
  }

  lemma FillIsStep(s: State)
    requires Inv(s) && s.pc.Filling? && s.pc.step < 11
    ensures s.pc.m < 3 && Next(s, AfterFill(s))
    ensures var s', b := AfterFill(s), s.box[s.pc.m];
            && s'.tsr == s.tsr && s'.accepted == s.accepted
            && s'.box == s.box[s.pc.m := Filled(b, s.pc.msg, s.pc.step, s.pc.latch)]
            && s'.pc == s.pc.(step := s.pc.step + 1, latch := Latched(b, s.pc.step, s.pc.latch))
  {
    hide FlagsOf, Filled, Latched, Progress, Pending, BoxInv;
    assert Fills(s, AfterFill(s));
  }

  lemma ResetFlags()
    ensures forall m: nat | m < 3 :: FlagsOf(0x1C00_0000, m) == Flags(true, false, false)
  {
  }
}

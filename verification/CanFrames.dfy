/** bxCAN message layout: what `CAN_Transmit` packs into a mailbox and what `CAN_Receive` unpacks. */
module CanFrames {

  const STANDARD: bv8 := 0
  const EXTENDED: bv8 := 4
  const DATA: bv8 := 0
  const REMOTE: bv8 := 2

  /** The data array of a message. */
  datatype Bytes8 = Bytes8(d0: bv8, d1: bv8, d2: bv8, d3: bv8, d4: bv8, d5: bv8, d6: bv8, d7: bv8)

  /** `(uint8_t)0xFF & w`. */
  function LowByte(w: bv32): bv8 {
    (w & 0xFF) as bv8
  }

  /** `CanTxMsg`. */
  datatype TxMsg = TxMsg(StdId: bv32, ExtId: bv32, IDE: bv8, RTR: bv8, DLC: bv8, Data: Bytes8) {
    /** The ranges that the driver's parameter checks name, except that DLC is masked and not checked. */
    predicate Valid() {
      && (RTR == DATA || RTR == REMOTE)
      && ((IDE == STANDARD && StdId <= 0x7FF) || (IDE == EXTENDED && ExtId <= 0x1FFF_FFFF))
    }
  }

  /** `CanRxMsg`. */
  datatype RxMsg = RxMsg(StdId: bv32, ExtId: bv32, IDE: bv8, RTR: bv8, DLC: bv8, Data: Bytes8, FMI: bv8)

  /** A transmit mailbox (TIR, TDTR, TDLR, TDHR); a receive FIFO slot has the same four words. */
  datatype Mailbox = Mailbox(ir: bv32, dtr: bv32, dlr: bv32, dhr: bv32)

  /** The identifier part of a frame. */
  datatype Ident = Ident(extended: bool, id: bv32, remote: bool)

  /** What a message says on the bus. */
  datatype Frame = Frame(ident: Ident, dlc: bv32, data: Bytes8)

  // ---- Transmit side ----

  function StandardWord(msg: TxMsg): bv32 {
    (msg.StdId << 21) | (msg.RTR as bv32)
  }

  function ExtendedWord(msg: TxMsg): bv32 {
    (msg.ExtId << 3) | (msg.IDE as bv32) | (msg.RTR as bv32)
  }

  /** The identifier word that `CAN_Transmit` ORs into TIR. */
  function IdWord(msg: TxMsg): bv32 {
    if msg.IDE == STANDARD then StandardWord(msg) else ExtendedWord(msg)
  }

  function DlcBits(msg: TxMsg): bv32 {
    (msg.DLC & 0x0F) as bv32
  }

  function PackWord(b0: bv8, b1: bv8, b2: bv8, b3: bv8): bv32 {
    (b3 as bv32 << 24) | (b2 as bv32 << 16) | (b1 as bv32 << 8) | (b0 as bv32)
  }

  function LowWord(data: Bytes8): bv32 {
    PackWord(data.d0, data.d1, data.d2, data.d3)
  }

  function HighWord(data: Bytes8): bv32 {
    PackWord(data.d4, data.d5, data.d6, data.d7)
  }

  /** A mailbox after `CAN_Transmit` has filled it, given the TDTR it found there. */
  function Programmed(msg: TxMsg, dtr: bv32): Mailbox {
    Mailbox(IdWord(msg) | 1, (dtr & 0xFFFF_FFF0) | DlcBits(msg), LowWord(msg.Data), HighWord(msg.Data))
  }

  // ---- What the four words mean ----

  function Unpack(lo: bv32, hi: bv32): Bytes8 {
    Bytes8(LowByte(lo), LowByte(lo >> 8), LowByte(lo >> 16), LowByte(lo >> 24),
           LowByte(hi), LowByte(hi >> 8), LowByte(hi >> 16), LowByte(hi >> 24))
  }

  /** What an identifier word means: TXRQ (bit 0) is not part of it. */
  function IdentOf(ir: bv32): Ident {
    if 0 < ir & 4 then Ident(true, ir >> 3, 0 < ir & 2) else Ident(false, ir >> 21, 0 < ir & 2)
  }

  /** The frame that a mailbox or a FIFO slot holds: the time stamp and the filter index are not part of it. */
  function FrameOf(m: Mailbox): Frame {
    Frame(IdentOf(m.ir), m.dtr & 0xF, Unpack(m.dlr, m.dhr))
  }

  /** The frame that a message asks for. */
  function Meaning(msg: TxMsg): Frame {
    Frame(RequestedIdent(msg), DlcBits(msg), msg.Data)
  }

  function RequestedIdent(msg: TxMsg): Ident {
    if msg.IDE == STANDARD then Ident(false, msg.StdId, msg.RTR == REMOTE)
    else Ident(true, msg.ExtId, msg.RTR == REMOTE)
  }

  // ---- Receive side ----

  function StdField(ir: bv32): bv32 {
    (ir >> 21) & 0x7FF
  }

  function ExtField(ir: bv32): bv32 {
    (ir >> 3) & 0x1FFF_FFFF
  }

  /** `CAN_Receive` on a FIFO slot, storing into a message that held `prior`. */
  function Received(prior: RxMsg, slot: Mailbox): RxMsg {
    var rx := prior.(
      IDE := LowByte(slot.ir & 4), RTR := LowByte(slot.ir & 2), DLC := LowByte(slot.dtr & 0x0F),
      FMI := LowByte(slot.dtr >> 8), Data := Unpack(slot.dlr, slot.dhr));
    if rx.IDE == STANDARD then rx.(StdId := StdField(slot.ir))
    else rx.(ExtId := ExtField(slot.ir))
  }

  /** Same identifier type, identifier, RTR, DLC and data. */
  predicate Agree(msg: TxMsg, rx: RxMsg) {
    && rx.IDE == msg.IDE
    && (if msg.IDE == STANDARD then rx.StdId == msg.StdId else rx.ExtId == msg.ExtId)
    && rx.RTR == msg.RTR
    && rx.DLC == msg.DLC
    && rx.Data == msg.Data
  }

  lemma PackedBytes(b0: bv8, b1: bv8, b2: bv8, b3: bv8)
    ensures var w := PackWord(b0, b1, b2, b3);
            LowByte(w) == b0 && LowByte(w >> 8) == b1 && LowByte(w >> 16) == b2 && LowByte(w >> 24) == b3
  {
  }

  lemma UnpackPacked(data: Bytes8)
    ensures Unpack(LowWord(data), HighWord(data)) == data
  {
    PackedBytes(data.d0, data.d1, data.d2, data.d3);
    PackedBytes(data.d4, data.d5, data.d6, data.d7);
  }

  /** For valid messages the mailbox means exactly the message, whatever TDTR held. */
  lemma ProgrammedMeans(msg: TxMsg, dtr: bv32)
    requires msg.Valid()
    ensures FrameOf(Programmed(msg, dtr)) == Meaning(msg)
  {
    FrameProgrammed(msg, dtr);
    IdWordMeans(msg);
  }

  /** The parts of the frame in a filled mailbox, for any message. */
  lemma FrameProgrammed(msg: TxMsg, dtr: bv32)
    ensures FrameOf(Programmed(msg, dtr)) == Frame(IdentOf(IdWord(msg) | 1), DlcBits(msg), msg.Data)
  {
    UnpackPacked(msg.Data);
    DlcKept(dtr, msg.DLC);
  }

  lemma DlcKept(dtr: bv32, dlc: bv8)
    ensures ((dtr & 0xFFFF_FFF0) | ((dlc & 0x0F) as bv32)) & 0xF == (dlc & 0x0F) as bv32
  {
  }

  lemma DlcByte(dlc: bv8)
    ensures LowByte((dlc & 0x0F) as bv32) == dlc & 0x0F
  {
  }

  /**
   * Outside the checked ranges the identifier word itself may hold bit 0, TXRQ: writing it would request
   * transmission before DLC and data are in place. It does so exactly for an odd RTR or extended IDE.
   */
  lemma EarlyRequest(msg: TxMsg)
    ensures 0 < IdWord(msg) & 1 <==> 0 < msg.RTR & 1 || (msg.IDE != STANDARD && 0 < msg.IDE & 1)
  {
  }

  lemma IdWordMeans(msg: TxMsg)
    requires msg.Valid()
    ensures IdentOf(IdWord(msg) | 1) == RequestedIdent(msg)
  {
  }

  /** A slot is what the wire delivers when it holds the mailbox's frame; the rest of its bits are free. */
  predicate Delivered(box: Mailbox, slot: Mailbox) {
    FrameOf(slot) == FrameOf(box)
  }

  /** A received message's identifier fields, from the frame's. */
  predicate IdentStored(ident: Ident, prior: RxMsg, rx: RxMsg) {
    && rx.IDE == (if ident.extended then EXTENDED else STANDARD)
    && rx.RTR == (if ident.remote then REMOTE else DATA)
    && (if ident.extended then rx.ExtId == ident.id && rx.StdId == prior.StdId
        else rx.StdId == ident.id && rx.ExtId == prior.ExtId)
  }

  /** What `CAN_Receive` stores depends on the slot's frame only, apart from FMI. */
  lemma ReceivedFrame(prior: RxMsg, slot: Mailbox)
    ensures IdentStored(FrameOf(slot).ident, prior, Received(prior, slot))
    ensures Received(prior, slot).DLC == LowByte(FrameOf(slot).dlc)
    ensures Received(prior, slot).Data == FrameOf(slot).data
  {
    ReceivedIdent(prior, slot);
  }

  lemma ReceivedIdent(prior: RxMsg, slot: Mailbox)
    ensures IdentStored(IdentOf(slot.ir), prior, Received(prior, slot))
  {
    if 0 < slot.ir & 4 {
      ExtendedStored(prior, slot);
    } else {
      StandardStored(prior, slot);
    }
  }

  lemma ExtendedStored(prior: RxMsg, slot: Mailbox)
    requires 0 < slot.ir & 4
    ensures IdentStored(IdentOf(slot.ir), prior, Received(prior, slot))
  {
    ExtendedSlot(slot.ir);
    assert Received(prior, slot).IDE == EXTENDED;
  }

  lemma ExtendedSlot(ir: bv32)
    requires 0 < ir & 4
    ensures LowByte(ir & 4) == EXTENDED && ExtField(ir) == ir >> 3
  {
  }

  lemma StandardStored(prior: RxMsg, slot: Mailbox)
    requires !(0 < slot.ir & 4)
    ensures IdentStored(IdentOf(slot.ir), prior, Received(prior, slot))
  {
  }

  /** A message's identifier fields are those of `ident`. */
  predicate IdentAgrees(msg: TxMsg, ident: Ident) {
    && msg.IDE == (if ident.extended then EXTENDED else STANDARD)
    && msg.RTR == (if ident.remote then REMOTE else DATA)
    && (if ident.extended then msg.ExtId == ident.id else msg.StdId == ident.id)
  }

  /** The identifier word of an arbitrary message reads back as the message's own fields exactly when it is valid. */
  lemma IdReadsBack(msg: TxMsg)
    ensures IdentAgrees(msg, IdentOf(IdWord(msg) | 1)) <==> msg.Valid()
  {
    if msg.IDE == STANDARD {
      StandardReadsBack(msg);
    } else {
      ExtendedReadsBack(msg);
    }
  }

  lemma StandardReadsBack(msg: TxMsg)
    requires msg.IDE == STANDARD
    ensures IdentAgrees(msg, IdentOf(IdWord(msg) | 1)) <==> msg.Valid()
  {
  }

  lemma ExtendedReadsBack(msg: TxMsg)
    requires msg.IDE != STANDARD
    ensures IdentAgrees(msg, IdentOf(IdWord(msg) | 1)) <==> msg.Valid()
  {
  }

  /**
   * Transmit, wire copy, receive: the received message agrees with the one the driver sent (whose
   * DLC it has masked in the caller's structure) exactly when the message was valid.
   */
  lemma RoundTrip(msg: TxMsg, dtr: bv32, slot: Mailbox, prior: RxMsg)
    requires Delivered(Programmed(msg, dtr), slot)
    ensures Agree(msg.(DLC := msg.DLC & 0x0F), Received(prior, slot)) <==> msg.Valid()
  {
    IdReadsBack(msg);
    ReceivedFrame(prior, slot);
    FrameProgrammed(msg, dtr);
    DlcByte(msg.DLC);
    StoredAgrees(msg, IdentOf(IdWord(msg) | 1), prior, Received(prior, slot));
  }

  lemma StoredAgrees(msg: TxMsg, ident: Ident, prior: RxMsg, rx: RxMsg)
    requires IdentStored(ident, prior, rx)
    ensures IdentAgrees(msg, ident) <==>
            && rx.IDE == msg.IDE && rx.RTR == msg.RTR
            && (if msg.IDE == STANDARD then rx.StdId == msg.StdId else rx.ExtId == msg.ExtId)
  {
  }

  /** Against the caller's original message, the DLC must also fit its four bits. */
  lemma RoundTripUnmasked(msg: TxMsg, dtr: bv32, slot: Mailbox, prior: RxMsg)
    requires Delivered(Programmed(msg, dtr), slot)
    ensures Agree(msg, Received(prior, slot)) <==> msg.Valid() && msg.DLC <= 15
  {
    RoundTrip(msg, dtr, slot, prior);
    ReceivedDlc(msg, dtr, slot, prior);
    MaskedDlc(msg.DLC);
  }

  lemma ReceivedDlc(msg: TxMsg, dtr: bv32, slot: Mailbox, prior: RxMsg)
    requires Delivered(Programmed(msg, dtr), slot)
    ensures Received(prior, slot).DLC == msg.DLC & 0x0F
  {
    ReceivedFrame(prior, slot);
    FrameProgrammed(msg, dtr);
    DlcByte(msg.DLC);
  }

  lemma MaskedDlc(dlc: bv8)
    ensures dlc & 0x0F == dlc <==> dlc <= 15
  {
  }

  // ---- Where everything lies in the registers ----

  /** Byte `b` is byte number `k` of the word, counted from the low end. */
  predicate ByteAt(w: bv32, k: bv32, b: bv8)
    requires k < 4
  {
    (w >> (8 * k)) & 0xFF == b as bv32
  }

  /** The data bytes, from the low end of TDLR or RDLR to the high end of TDHR or RDHR. */
  predicate BytesAt(lo: bv32, hi: bv32, d: Bytes8) {
    && ByteAt(lo, 0, d.d0) && ByteAt(lo, 1, d.d1) && ByteAt(lo, 2, d.d2) && ByteAt(lo, 3, d.d3)
    && ByteAt(hi, 0, d.d4) && ByteAt(hi, 1, d.d5) && ByteAt(hi, 2, d.d6) && ByteAt(hi, 3, d.d7)
  }

  lemma PackedAt(d: Bytes8)
    ensures BytesAt(LowWord(d), HighWord(d), d)
  {
    hide ByteAt, PackWord;
    FourPacked(d.d0, d.d1, d.d2, d.d3);
    FourPacked(d.d4, d.d5, d.d6, d.d7);
  }

  lemma FourPacked(b0: bv8, b1: bv8, b2: bv8, b3: bv8)
    ensures var w := PackWord(b0, b1, b2, b3);
            ByteAt(w, 0, b0) && ByteAt(w, 1, b1) && ByteAt(w, 2, b2) && ByteAt(w, 3, b3)
  {
  }

  lemma UnpackedAt(lo: bv32, hi: bv32)
    ensures BytesAt(lo, hi, Unpack(lo, hi))
  {
  }

  predicate IdentLies(msg: TxMsg, ir: bv32) {
    && (if msg.IDE == 0 then ir >> 21 == msg.StdId && ir & 0x001F_FFFC <= 0 else ir >> 3 == msg.ExtId && 0 < ir & 4)
    && ir & 2 == msg.RTR as bv32 && 0 < ir & 1
  }

  predicate DlcLies(msg: TxMsg, before: bv32, dtr: bv32) {
    dtr & 0xF == (msg.DLC & 0xF) as bv32 && dtr & 0xFFFF_FFF0 == before & 0xFFFF_FFF0
  }

  lemma IdentLayout(msg: TxMsg, dtr: bv32)
    requires msg.Valid()
    ensures IdentLies(msg, Programmed(msg, dtr).ir)
  {
    hide LowWord, HighWord, DlcBits, IdWord, IdentLies;
    if msg.IDE == STANDARD {
      StandardLies(msg, dtr);
    } else {
      ExtendedLies(msg, dtr);
    }
  }

  lemma StandardLies(msg: TxMsg, dtr: bv32)
    requires msg.Valid() && msg.IDE == STANDARD
    ensures IdentLies(msg, Programmed(msg, dtr).ir)
  {
    hide LowWord, HighWord, DlcBits, ExtendedWord;
  }

  lemma ExtendedLies(msg: TxMsg, dtr: bv32)
    requires msg.Valid() && msg.IDE == EXTENDED
    ensures IdentLies(msg, Programmed(msg, dtr).ir)
  {
    hide LowWord, HighWord, DlcBits, StandardWord;
    assert msg.ExtId <= 0x1FFF_FFFF && (msg.RTR == DATA || msg.RTR == REMOTE);
    if msg.RTR == DATA {
    } else {
    }
  }

  lemma DlcLayout(msg: TxMsg, dtr: bv32)
    ensures DlcLies(msg, dtr, Programmed(msg, dtr).dtr)
  {
    hide LowWord, HighWord, IdWord;
  }

  lemma DataLayout(msg: TxMsg, dtr: bv32)
    ensures var b := Programmed(msg, dtr); BytesAt(b.dlr, b.dhr, msg.Data)
  {
    hide LowWord, HighWord, IdWord, DlcBits, BytesAt;
    PackedAt(msg.Data);
  }

  /**
   * The mailbox of a valid message: the data bytes in order, the DLC in the four low bits of TDTR, and in TIR the
   * identifier from bit 21 or bit 3 on, IDE in bit 2, RTR in bit 1 and the request in bit 0.
   */
  lemma MailboxLayout(msg: TxMsg, dtr: bv32)
    requires msg.Valid()
    ensures var b := Programmed(msg, dtr);
            BytesAt(b.dlr, b.dhr, msg.Data) && IdentLies(msg, b.ir) && DlcLies(msg, dtr, b.dtr)
  {
    hide *;
    DataLayout(msg, dtr);
    IdentLayout(msg, dtr);
    DlcLayout(msg, dtr);
  }

  /** And `CAN_Receive` reads them from the same places, with the filter index in the second byte of RDTR. */
  lemma SlotLayout(prior: RxMsg, slot: Mailbox)
    ensures var rx := Received(prior, slot);
            BytesAt(slot.dlr, slot.dhr, rx.Data) && HeaderLies(slot, rx) && IdentRead(prior, slot.ir, rx)
  {
    hide *;
    DataRead(prior, slot);
    HeaderRead(prior, slot);
    IdentReads(prior, slot);
  }

  predicate HeaderLies(slot: Mailbox, rx: RxMsg) {
    && rx.DLC as bv32 == slot.dtr & 0xF && rx.FMI as bv32 == (slot.dtr >> 8) & 0xFF
    && rx.IDE as bv32 == slot.ir & 4 && rx.RTR as bv32 == slot.ir & 2
  }

  predicate IdentRead(prior: RxMsg, ir: bv32, rx: RxMsg) {
    if ir & 4 <= 0 then rx.StdId == ir >> 21 && rx.ExtId == prior.ExtId
    else rx.ExtId == ir >> 3 && rx.StdId == prior.StdId
  }

  lemma DataRead(prior: RxMsg, slot: Mailbox)
    ensures BytesAt(slot.dlr, slot.dhr, Received(prior, slot).Data)
  {
    hide BytesAt, Unpack, LowByte, StdField, ExtField;
    UnpackedAt(slot.dlr, slot.dhr);
  }

  lemma HeaderRead(prior: RxMsg, slot: Mailbox)
    ensures HeaderLies(slot, Received(prior, slot))
  {
    hide Unpack, StdField, ExtField;
  }

  lemma IdentReads(prior: RxMsg, slot: Mailbox)
    ensures IdentRead(prior, slot.ir, Received(prior, slot))
  {
    hide Unpack;
  }
}

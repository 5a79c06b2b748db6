/** `CAN_Receive` on a receive FIFO, filling the caller's message in place. */
module CanReceive {
  import opened CanFrames

  /** The caller's `CanRxMsg`, filled in place. */
  class RxMessage {
    var StdId: bv32
    var ExtId: bv32
    var IDE: bv8
    var RTR: bv8
    var DLC: bv8
    var Data: Bytes8
    var FMI: bv8

    function Value(): RxMsg
      reads this
    {
      RxMsg(StdId, ExtId, IDE, RTR, DLC, Data, FMI)
    }
  }

  /** One receive FIFO: its output slot shows the oldest message, or `stale` words when it is empty. */
  class Fifo {
    var queue: seq<Mailbox>
    var stale: Mailbox

    function Slot(): Mailbox
      reads this
    {
      if |queue| == 0 then stale else queue[0]
    }

    /** Setting RFOM releases the output slot. */
    method Release()
      modifies this`queue
      ensures queue == if |old(queue)| == 0 then [] else old(queue)[1..]
    {
      queue := if |queue| == 0 then [] else queue[1..];
    }
  }

  /** The identifier part of `CAN_Receive`: the field of the other identifier type keeps its value. */
  method StoreIdentifier(ir: bv32, rx: RxMessage)
    modifies rx`IDE, rx`StdId, rx`ExtId
    ensures rx.IDE == LowByte(ir & 4)
    ensures rx.IDE == STANDARD ==> rx.StdId == StdField(ir) && rx.ExtId == old(rx.ExtId)
    ensures rx.IDE != STANDARD ==> rx.ExtId == ExtField(ir) && rx.StdId == old(rx.StdId)
  {
    hide LowByte, StdField, ExtField;
    rx.IDE := LowByte(ir & 4);
    if rx.IDE == STANDARD {
      rx.StdId := StdField(ir);
    } else {
      rx.ExtId := ExtField(ir);
    }
  }

  /** `CAN_Receive`: unpack the output slot into `rx`, then release it. */
  method Receive(fifo: Fifo, rx: RxMessage)
    modifies rx, fifo`queue
    ensures rx.Value() == Received(old(rx.Value()), old(fifo.Slot()))
    ensures fifo.queue == if |old(fifo.queue)| == 0 then [] else old(fifo.queue)[1..]
  {
    hide LowByte, Unpack, StdField, ExtField, Received;
    var slot := fifo.Slot();
    StoreIdentifier(slot.ir, rx);
    rx.RTR := LowByte(slot.ir & 2);
    rx.DLC := LowByte(slot.dtr & 0x0F);
    rx.FMI := LowByte(slot.dtr >> 8);
    rx.Data := Unpack(slot.dlr, slot.dhr);
    fifo.Release();
    ReceivedFields(old(rx.Value()), slot, rx.Value());
  }

  lemma ReceivedFields(prior: RxMsg, slot: Mailbox, rx: RxMsg)
    requires rx.IDE == LowByte(slot.ir & 4) && rx.RTR == LowByte(slot.ir & 2) && rx.DLC == LowByte(slot.dtr & 0x0F)
    requires rx.FMI == LowByte(slot.dtr >> 8) && rx.Data == Unpack(slot.dlr, slot.dhr)
    requires rx.IDE == STANDARD ==> rx.StdId == StdField(slot.ir) && rx.ExtId == prior.ExtId
    requires rx.IDE != STANDARD ==> rx.ExtId == ExtField(slot.ir) && rx.StdId == prior.StdId
    ensures rx == Received(prior, slot)
  {
    hide LowByte, Unpack, StdField, ExtField;
  }
}

/** A card reader that has no logical address yet announces its physical one in a checked message. */
module Replies {
  import opened Crc8

  type Data = d: seq<bv8> | |d| == 8 witness [0, 0, 0, 0, 0, 0, 0, 0]

  /** What `Can_Receive_Msg` delivers: a length of zero means that nothing was there. */
  datatype Message = Message(dlc: nat, data: Data)

  const ANNOUNCE: bv8 := 0xB3

  /** The announcement is believed: command byte, four address bytes and their checksum. */
  predicate Accepts(d: Data)
  {
    d[0] == 0xB3 && Crc(d[1..5]) == d[5]
  }

  /** Equivalently, address and checksum together have checksum zero. */
  lemma AcceptsCodeword(d: Data)
    ensures Accepts(d) <==> d[0] == 0xB3 && Crc(d[1..6]) == 0
  {
    hide Crc;
    assert d[1..6] == d[1..5] + [d[5]];
    SelfChecking(d[1..5], d[5]);
  }

  /** An announcement with one wrong byte in its address or checksum is never believed. */
  lemma WrongByteRejected(d: Data, k: nat, b: bv8)
    requires Accepts(d) && 1 <= k <= 5 && b != d[k]
    ensures !Accepts(d[k := b])
  {
    hide Crc, Accepts;
    var d' := d[k := b];
    AcceptsCodeword(d);
    AcceptsCodeword(d');
    assert d[1..6] == d[1..k] + [d[k]] + d[k + 1..6];
    assert d'[1..6] == d[1..k] + [b] + d[k + 1..6];
    ByteErrorDetected(d[1..k], d[k], b, d[k + 1..6]);
  }

  /** Nor is one with a burst of at most eight wrong bits across two neighbouring bytes. */
  lemma WrongBurstRejected(d: Data, k: nat, s: bv8, e1: bv8, e2: bv8)
    requires Accepts(d) && 1 <= k <= 4 && Burst(s, e1, e2)
    ensures !Accepts(d[k := Xor(d[k], e1)][k + 1 := Xor(d[k + 1], e2)])
  {
    hide Crc, Accepts, Burst, Xor;
    var x, y := Xor(d[k], e1), Xor(d[k + 1], e2);
    var d' := d[k := x][k + 1 := y];
    AcceptsCodeword(d);
    AcceptsCodeword(d');
    assert d[1..6] == d[1..k] + [d[k]] + [d[k + 1]] + d[k + 2..6];
    assert d'[1..6] == d[1..k] + [x] + [y] + d[k + 2..6];
    BurstDetected(d[1..k], d[k], d[k + 1], s, e1, e2, d[k + 2..6]);
  }

  /** The first of `tries` receptions that delivers something, or the number of tries. */
  function FirstReply(receive: nat -> Message, start: nat, tries: nat): (n: nat)
    ensures start <= n <= start + tries
    ensures n < start + tries ==> receive(n).dlc != 0
    ensures forall j | start <= j < n :: receive(j).dlc == 0
    decreases tries
  {
    if tries == 0 || receive(start).dlc != 0 then start else FirstReply(receive, start + 1, tries - 1)
  }

  /** The receive loop: twenty tries, with a delay after each empty one. */
  method Await(receive: nat -> Message) returns (n: nat)
    ensures n == FirstReply(receive, 0, 20)
  {
    var flag: nat := 20;
    n := 0;
    while flag > 0 && receive(n).dlc == 0
      invariant FirstReply(receive, 0, 20) == FirstReply(receive, n, flag) && n + flag == 20
      decreases flag
    {
      flag := flag - 1;
      n := n + 1;
    }
  }

  /**
   * `Can_ReadUnregistered`: the first message within twenty tries decides. The caller's buffer takes the
   * address of any announcement, even of one whose checksum is wrong.
   */
  method ReadUnregistered(receive: nat -> Message, buffer: array<bv8>) returns (found: bool)
    requires buffer.Length == 4
    modifies buffer
    ensures var n := FirstReply(receive, 0, 20);
            && found == (n < 20 && Accepts(receive(n).data))
            && buffer[..] == if n < 20 && receive(n).data[0] == 0xB3 then receive(n).data[1..5] else old(buffer[..])
  {
    hide Crc;
    var n := Await(receive);
    found := false;
    if n < 20 {
      var d := receive(n).data;
      if d[0] == ANNOUNCE {
        buffer[0], buffer[1], buffer[2], buffer[3] := d[1], d[2], d[3], d[4];
        assert buffer[..] == d[1..5];
        var crc := Compute(buffer[..]);
        found := crc == d[5];
      }
    }
  }
}

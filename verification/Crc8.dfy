/** The table-driven checksum of the card readers' bus messages, and what it detects. */
module Crc8 {

  // ---- `crc_array` in quarters of eight rows, eight entries each ----

  function FirstQuarter(r: nat): (s: seq<bv8>)
    requires r < 8
    ensures |s| == 8
  {
    match r
    case 0 => [0x00, 0x5E, 0xBC, 0xE2, 0x61, 0x3F, 0xDD, 0x83]
    case 1 => [0xC2, 0x9C, 0x7E, 0x20, 0xA3, 0xFD, 0x1F, 0x41]
    case 2 => [0x9D, 0xC3, 0x21, 0x7F, 0xFC, 0xA2, 0x40, 0x1E]
    case 3 => [0x5F, 0x01, 0xE3, 0xBD, 0x3E, 0x60, 0x82, 0xDC]
    case 4 => [0x23, 0x7D, 0x9F, 0xC1, 0x42, 0x1C, 0xFE, 0xA0]
    case 5 => [0xE1, 0xBF, 0x5D, 0x03, 0x80, 0xDE, 0x3C, 0x62]
    case 6 => [0xBE, 0xE0, 0x02, 0x5C, 0xDF, 0x81, 0x63, 0x3D]
    case 7 => [0x7C, 0x22, 0xC0, 0x9E, 0x1D, 0x43, 0xA1, 0xFF]
  }

  function SecondQuarter(r: nat): (s: seq<bv8>)
    requires r < 8
    ensures |s| == 8
  {
    match r
    case 0 => [0x46, 0x18, 0xFA, 0xA4, 0x27, 0x79, 0x9B, 0xC5]
    case 1 => [0x84, 0xDA, 0x38, 0x66, 0xE5, 0xBB, 0x59, 0x07]
    case 2 => [0xDB, 0x85, 0x67, 0x39, 0xBA, 0xE4, 0x06, 0x58]
    case 3 => [0x19, 0x47, 0xA5, 0xFB, 0x78, 0x26, 0xC4, 0x9A]
    case 4 => [0x65, 0x3B, 0xD9, 0x87, 0x04, 0x5A, 0xB8, 0xE6]
    case 5 => [0xA7, 0xF9, 0x1B, 0x45, 0xC6, 0x98, 0x7A, 0x24]
    case 6 => [0xF8, 0xA6, 0x44, 0x1A, 0x99, 0xC7, 0x25, 0x7B]
    case 7 => [0x3A, 0x64, 0x86, 0xD8, 0x5B, 0x05, 0xE7, 0xB9]
  }

  function ThirdQuarter(r: nat): (s: seq<bv8>)
    requires r < 8
    ensures |s| == 8
  {
    match r
    case 0 => [0x8C, 0xD2, 0x30, 0x6E, 0xED, 0xB3, 0x51, 0x0F]
    case 1 => [0x4E, 0x10, 0xF2, 0xAC, 0x2F, 0x71, 0x93, 0xCD]
    case 2 => [0x11, 0x4F, 0xAD, 0xF3, 0x70, 0x2E, 0xCC, 0x92]
    case 3 => [0xD3, 0x8D, 0x6F, 0x31, 0xB2, 0xEC, 0x0E, 0x50]
    case 4 => [0xAF, 0xF1, 0x13, 0x4D, 0xCE, 0x90, 0x72, 0x2C]
    case 5 => [0x6D, 0x33, 0xD1, 0x8F, 0x0C, 0x52, 0xB0, 0xEE]
    case 6 => [0x32, 0x6C, 0x8E, 0xD0, 0x53, 0x0D, 0xEF, 0xB1]
    case 7 => [0xF0, 0xAE, 0x4C, 0x12, 0x91, 0xCF, 0x2D, 0x73]
  }

  function FourthQuarter(r: nat): (s: seq<bv8>)
    requires r < 8
    ensures |s| == 8
  {
    match r
    case 0 => [0xCA, 0x94, 0x76, 0x28, 0xAB, 0xF5, 0x17, 0x49]
    case 1 => [0x08, 0x56, 0xB4, 0xEA, 0x69, 0x37, 0xD5, 0x8B]
    case 2 => [0x57, 0x09, 0xEB, 0xB5, 0x36, 0x68, 0x8A, 0xD4]
    case 3 => [0x95, 0xCB, 0x29, 0x77, 0xF4, 0xAA, 0x48, 0x16]
    case 4 => [0xE9, 0xB7, 0x55, 0x0B, 0x88, 0xD6, 0x34, 0x6A]
    case 5 => [0x2B, 0x75, 0x97, 0xC9, 0x4A, 0x14, 0xF6, 0xA8]
    case 6 => [0x74, 0x2A, 0xC8, 0x96, 0x15, 0x4B, 0xA9, 0xF7]
    case 7 => [0xB6, 0xE8, 0x0A, 0x54, 0xD7, 0x89, 0x6B, 0x35]
  }

  /** The entries `8 * r` to `8 * r + 7`. */
  function Row(r: nat): (s: seq<bv8>)
    requires r < 32
    ensures |s| == 8
  {
    if r < 8 then FirstQuarter(r)
    else if r < 16 then SecondQuarter(r - 8)
    else if r < 24 then ThirdQuarter(r - 16)
    else FourthQuarter(r - 24)
  }

  /** `crc_array[b]`. */
  function Entry(b: bv8): bv8 {
    Row((b >> 3) as int)[(b & 7) as int]
  }

  // ---- The checksum as a shift register ----

  /** One step of the register with the feedback polynomial x^8 + x^5 + x^4 + 1, low bit first. */
  function Step(c: bv8): bv8 {
    if 0 < c & 1 then (c >> 1) ^ 0x8C else c >> 1
  }

  function EightSteps(c: bv8): bv8 {
    Step(Step(Step(Step(Step(Step(Step(Step(c))))))))
  }

  /** The register after taking in bit `n` of `b`. */
  function TakeBit(c: bv8, b: bv8, n: bv8): bv8
    requires n < 8
  {
    Step(c ^ ((b >> n) & 1))
  }

  /** The register after taking in the bits of `b` one by one. */
  function TakeByte(c: bv8, b: bv8): bv8 {
    var c2 := TakeBit(TakeBit(c, b, 0), b, 1);
    var c4 := TakeBit(TakeBit(c2, b, 2), b, 3);
    var c6 := TakeBit(TakeBit(c4, b, 4), b, 5);
    TakeBit(TakeBit(c6, b, 6), b, 7)
  }

  lemma Rows0(b: bv8)
    requires b < 32
    ensures Entry(b) == EightSteps(b)
  {
    hide SecondQuarter, ThirdQuarter, FourthQuarter;
    if b < 16 {
      assert b < 8 || b >> 3 == 1;
    } else {
      assert b < 24 || b >> 3 == 3;
    }
  }

  lemma Rows4(b: bv8)
    requires 32 <= b < 64
    ensures Entry(b) == EightSteps(b)
  {
    hide SecondQuarter, ThirdQuarter, FourthQuarter;
    if b < 48 {
      assert b < 40 || b >> 3 == 5;
    } else {
      assert b < 56 || b >> 3 == 7;
    }
  }

  lemma Rows8(b: bv8)
    requires 64 <= b < 96
    ensures Entry(b) == EightSteps(b)
  {
    hide FirstQuarter, ThirdQuarter, FourthQuarter;
    if b < 80 {
      assert b < 72 || b >> 3 == 9;
    } else {
      assert b < 88 || b >> 3 == 11;
    }
  }

  lemma Rows12(b: bv8)
    requires 96 <= b < 128
    ensures Entry(b) == EightSteps(b)
  {
    hide FirstQuarter, ThirdQuarter, FourthQuarter;
    if b < 112 {
      assert b < 104 || b >> 3 == 13;
    } else {
      assert b < 120 || b >> 3 == 15;
    }
  }

  lemma Rows16(b: bv8)
    requires 128 <= b < 160
    ensures Entry(b) == EightSteps(b)
  {
    hide FirstQuarter, SecondQuarter, FourthQuarter;
    if b < 144 {
      assert b < 136 || b >> 3 == 17;
    } else {
      assert b < 152 || b >> 3 == 19;
    }
  }

  lemma Rows20(b: bv8)
    requires 160 <= b < 192
    ensures Entry(b) == EightSteps(b)
  {
    hide FirstQuarter, SecondQuarter, FourthQuarter;
    if b < 176 {
      assert b < 168 || b >> 3 == 21;
    } else {
      assert b < 184 || b >> 3 == 23;
    }
  }

  lemma Rows24(b: bv8)
    requires 192 <= b < 224
    ensures Entry(b) == EightSteps(b)
  {
    hide FirstQuarter, SecondQuarter, ThirdQuarter;
    if b < 208 {
      assert b < 200 || b >> 3 == 25;
    } else {
      assert b < 216 || b >> 3 == 27;
    }
  }

  lemma Rows28(b: bv8)
    requires 224 <= b
    ensures Entry(b) == EightSteps(b)
  {
    hide FirstQuarter, SecondQuarter, ThirdQuarter;
    if b < 240 {
      assert b < 232 || b >> 3 == 29;
    } else {
      assert b < 248 || b >> 3 == 31;
    }
  }

  /** Each of the 256 entries is the register after eight steps. */
  lemma TableIsRegister(b: bv8)
    ensures Entry(b) == EightSteps(b)
  {
    hide Entry, EightSteps;
    if b < 32 {
      Rows0(b);
    } else if b < 64 {
      Rows4(b);
    } else if b < 96 {
      Rows8(b);
    } else if b < 128 {
      Rows12(b);
    } else if b < 160 {
      Rows16(b);
    } else if b < 192 {
      Rows20(b);
    } else if b < 224 {
      Rows24(b);
    } else {
      Rows28(b);
    }
  }

  lemma StepLinear(c: bv8, d: bv8)
    ensures Step(Xor(c, d)) == Xor(Step(c), Step(d))
  {
  }

  /** The register is linear: differences go their own way through it. */
  lemma Linear(c: bv8, d: bv8)
    ensures EightSteps(Xor(c, d)) == Xor(EightSteps(c), EightSteps(d))
  {
    hide Step, Xor;
    StepLinear(c, d);
    var c1, d1 := Step(c), Step(d);
    StepLinear(c1, d1);
    var c2, d2 := Step(c1), Step(d1);
    StepLinear(c2, d2);
    var c3, d3 := Step(c2), Step(d2);
    StepLinear(c3, d3);
    var c4, d4 := Step(c3), Step(d3);
    StepLinear(c4, d4);
    var c5, d5 := Step(c4), Step(d4);
    StepLinear(c5, d5);
    var c6, d6 := Step(c5), Step(d5);
    StepLinear(c6, d6);
    StepLinear(Step(c6), Step(d6));
  }

  /** The bits of `b` from `n` on. */
  function From(b: bv8, n: bv8): bv8
    requires n <= 8
  {
    b >> n
  }

  /** Only the lowest bit of what is still to come matters for a step. */
  lemma Peel(c: bv8, b: bv8, n: bv8)
    requires n < 8
    ensures Step(Xor(c, From(b, n))) == Xor(TakeBit(c, b, n), From(b, n + 1))
  {
  }

  lemma PeelEnds(c: bv8, b: bv8)
    ensures Xor(c, From(b, 0)) == Xor(c, b) && Xor(c, From(b, 8)) == c
  {
  }

  lemma StepsByBits(c: bv8, b: bv8)
    ensures EightSteps(Xor(c, b)) == TakeByte(c, b)
  {
    hide Step, Xor, From, TakeBit;
    PeelEnds(c, b);
    Peel(c, b, 0);
    var c1 := TakeBit(c, b, 0);
    Peel(c1, b, 1);
    var c2 := TakeBit(c1, b, 1);
    Peel(c2, b, 2);
    var c3 := TakeBit(c2, b, 2);
    Peel(c3, b, 3);
    var c4 := TakeBit(c3, b, 3);
    Peel(c4, b, 4);
    var c5 := TakeBit(c4, b, 4);
    Peel(c5, b, 5);
    var c6 := TakeBit(c5, b, 5);
    Peel(c6, b, 6);
    var c7 := TakeBit(c6, b, 6);
    Peel(c7, b, 7);
    PeelEnds(TakeBit(c7, b, 7), b);
  }

  lemma StepsInject(c: bv8, d: bv8)
    ensures EightSteps(c) == EightSteps(d) ==> c == d
  {
  }

  function Xor(a: bv8, b: bv8): bv8 {
    a ^ b
  }

  /** The register after the table has taken in a byte. */
  function After(c: bv8, b: bv8): bv8 {
    EightSteps(Xor(c, b))
  }

  lemma AfterInjects(c: bv8, d: bv8, a: bv8, b: bv8)
    requires Xor(c, a) != Xor(d, b)
    ensures After(c, a) != After(d, b)
  {
    hide EightSteps, Xor;
    StepsInject(Xor(c, a), Xor(d, b));
  }

  lemma XorCancels(c: bv8, d: bv8, b: bv8)
    requires c != d
    ensures Xor(c, b) != Xor(d, b) && Xor(b, c) != Xor(b, d)
  {
  }

  lemma AfterZero(c: bv8, a: bv8)
    ensures After(c, a) == 0 <==> a == c
  {
  }

  /** The flipped bits `e1` and `e2` lie in the last `8 - s` bits of a byte and the first `s` of the next. */
  predicate Burst(s: bv8, e1: bv8, e2: bv8) {
    0 < s < 8 && e1 & ((1 << s) - 1) <= 0 && e2 >> s <= 0 && 0 < e1 | e2
  }

  /** Such an error cannot cancel. */
  lemma BurstRemains(c: bv8, s: bv8, e1: bv8, e2: bv8)
    requires Burst(s, e1, e2)
    ensures EightSteps(Xor(c, e1)) != Xor(EightSteps(c), e2)
  {
    hide EightSteps, Burst, Xor;
    Linear(c, e1);
    BurstBits(s, e1, e2);
    Cancel(EightSteps(c), EightSteps(e1), e2);
  }

  lemma BurstBits(s: bv8, e1: bv8, e2: bv8)
    requires Burst(s, e1, e2)
    ensures EightSteps(e1) != e2
  {
  }

  lemma Cancel(c: bv8, d: bv8, e: bv8)
    ensures Xor(c, d) == Xor(c, e) ==> d == e
  {
  }

  lemma BurstSurvives(r: bv8, a1: bv8, a2: bv8, s: bv8, e1: bv8, e2: bv8)
    requires Burst(s, e1, e2)
    ensures After(After(r, a1), a2) != After(After(r, Xor(a1, e1)), Xor(a2, e2))
  {
    hide Burst, After, Xor;
    FirstByteDiffers(r, a1, s, e1, e2);
    SecondByteDiffers(After(r, a1), After(r, Xor(a1, e1)), a2, e2);
  }

  lemma FirstByteDiffers(r: bv8, a: bv8, s: bv8, e1: bv8, e2: bv8)
    requires Burst(s, e1, e2)
    ensures After(r, Xor(a, e1)) != Xor(After(r, a), e2)
  {
    hide EightSteps, Burst, Xor;
    Regrouped(r, a, e1);
    BurstRemains(Xor(r, a), s, e1, e2);
  }

  lemma SecondByteDiffers(x: bv8, y: bv8, a: bv8, e: bv8)
    requires y != Xor(x, e)
    ensures After(x, a) != After(y, Xor(a, e))
  {
    hide EightSteps;
    Unequal(x, y, a, e);
    StepsInject(Xor(x, a), Xor(y, Xor(a, e)));
  }

  lemma Regrouped(r: bv8, a: bv8, e: bv8)
    ensures Xor(r, Xor(a, e)) == Xor(Xor(r, a), e)
  {
  }

  lemma Unequal(x: bv8, y: bv8, a: bv8, e: bv8)
    requires y != Xor(x, e)
    ensures Xor(x, a) != Xor(y, Xor(a, e))
  {
  }

  // ---- The checksum of a message ----

  /** `CRC8_Table` as a function of the bytes. */
  function Crc(p: seq<bv8>): bv8 {
    if |p| == 0 then 0 else Entry(Crc(p[..|p| - 1]) ^ p[|p| - 1])
  }

  /** The bit-serial checksum of the same bytes. */
  function SerialCrc(p: seq<bv8>): bv8 {
    if |p| == 0 then 0 else TakeByte(SerialCrc(p[..|p| - 1]), p[|p| - 1])
  }

  /** `CRC8_Table`. */
  method Compute(p: seq<bv8>) returns (crc: bv8)
    ensures crc == Crc(p) == SerialCrc(p)
  {
    hide Entry, TakeByte;
    crc := 0;
    var k := 0;
    while k < |p|
      invariant 0 <= k <= |p| && crc == Crc(p[..k])
    {
      assert p[..k + 1][..k] == p[..k];
      crc := Entry(crc ^ p[k]);
      k := k + 1;
    }
    assert p[..k] == p;
    TableComputesSerial(p);
  }

  /** Table look-up computes the bit-serial checksum of every message. */
  lemma {:induction false} TableComputesSerial(p: seq<bv8>)
    ensures Crc(p) == SerialCrc(p)
  {
    hide Entry, TakeByte, EightSteps;
    if |p| > 0 {
      var q, b := p[..|p| - 1], p[|p| - 1];
      TableComputesSerial(q);
      TableIsRegister(Crc(q) ^ b);
      StepsByBits(Crc(q), b);
    }
  }

  lemma CrcSnoc(p: seq<bv8>, b: bv8)
    ensures Crc(p + [b]) == After(Crc(p), b)
  {
    hide Entry, EightSteps;
    assert (p + [b])[..|p|] == p;
    TableIsRegister(Crc(p) ^ b);
  }

  /** A message followed by one more byte has checksum zero exactly if that byte is its checksum. */
  lemma SelfChecking(p: seq<bv8>, b: bv8)
    ensures Crc(p + [b]) == 0 <==> b == Crc(p)
  {
    hide After, Crc;
    CrcSnoc(p, b);
    AfterZero(Crc(p), b);
  }

  /** Messages whose checksums differ still differ after any common continuation. */
  lemma {:induction false} DifferenceLasts(p: seq<bv8>, q: seq<bv8>, rest: seq<bv8>)
    requires Crc(p) != Crc(q)
    ensures Crc(p + rest) != Crc(q + rest)
  {
    hide After, Crc;
    if |rest| == 0 {
      assert p + rest == p && q + rest == q;
    } else {
      var r, b := rest[..|rest| - 1], rest[|rest| - 1];
      DifferenceLasts(p, q, r);
      assert p + rest == (p + r) + [b] && q + rest == (q + r) + [b];
      CrcSnoc(p + r, b);
      CrcSnoc(q + r, b);
      XorCancels(Crc(p + r), Crc(q + r), b);
      AfterInjects(Crc(p + r), Crc(q + r), b, b);
    }
  }

  /** Any change confined to one byte changes the checksum. */
  lemma ByteErrorDetected(p: seq<bv8>, a: bv8, b: bv8, rest: seq<bv8>)
    requires a != b
    ensures Crc(p + [a] + rest) != Crc(p + [b] + rest)
  {
    hide After, Crc;
    CrcSnoc(p, a);
    CrcSnoc(p, b);
    XorCancels(a, b, Crc(p));
    AfterInjects(Crc(p), Crc(p), a, b);
    DifferenceLasts(p + [a], p + [b], rest);
  }

  /** So does any burst of at most eight bits across two bytes. */
  lemma BurstDetected(p: seq<bv8>, a1: bv8, a2: bv8, s: bv8, e1: bv8, e2: bv8, rest: seq<bv8>)
    requires Burst(s, e1, e2)
    ensures Crc(p + [a1] + [a2] + rest) != Crc(p + [Xor(a1, e1)] + [Xor(a2, e2)] + rest)
  {
    hide After, Crc, Burst, Xor;
    CrcSnoc(p, a1);
    CrcSnoc(p, Xor(a1, e1));
    CrcSnoc(p + [a1], a2);
    CrcSnoc(p + [Xor(a1, e1)], Xor(a2, e2));
    BurstSurvives(Crc(p), a1, a2, s, e1, e2);
    DifferenceLasts(p + [a1] + [a2], p + [Xor(a1, e1)] + [Xor(a2, e2)], rest);
  }
}

/**
 * The table of card readers in the EEPROM: slot `i` of eighty holds a logical address and a four-byte
 * physical address. The same memory holds the network configuration.
 */
module Registry {

  type Byte = x: nat | x < 256 witness 0

  const MEMORY: nat := 1024
  const SLOTS: nat := 80
  /** `COUNT_ADD`. */
  const COUNT: nat := 1
  const FULL: Byte := 0xF3

  /** `Start_ADD + i * 5`. */
  function Base(i: nat): nat {
    10 + 5 * i
  }

  /** `a | 1`: where `Delete_LogicADD` starts to clear the physical address. */
  function OrOne(a: nat): nat {
    if a % 2 == 0 then a + 1 else a
  }

  predicate IsSlot(i: nat) {
    1 <= i <= SLOTS
  }

  function Slot(m: seq<Byte>, i: nat): (s: seq<Byte>)
    requires |m| == MEMORY && IsSlot(i)
    ensures |s| == 5
  {
    m[Base(i)..Base(i) + 5]
  }

  /** The slot's first byte is its own number. */
  predicate Used(m: seq<Byte>, i: nat)
    requires |m| == MEMORY && IsSlot(i)
  {
    Slot(m, i)[0] == i
  }

  function Physical(m: seq<Byte>, i: nat): (p: seq<Byte>)
    requires |m| == MEMORY && IsSlot(i)
    ensures |p| == 4
  {
    Slot(m, i)[1..]
  }

  predicate Registered(m: seq<Byte>, i: nat, p: seq<Byte>)
    requires |m| == MEMORY
  {
    IsSlot(i) && Used(m, i) && Physical(m, i) == p
  }

  /** No physical address has two logical ones. */
  ghost predicate Unique(m: seq<Byte>)
    requires |m| == MEMORY
  {
    forall i, j, p | Registered(m, i, p) && Registered(m, j, p) :: i == j
  }

  /** The number of used slots among the first `k`. */
  function UsedUpTo(m: seq<Byte>, k: nat): (n: nat)
    requires |m| == MEMORY && k <= SLOTS
    ensures n <= k
  {
    if k == 0 then 0 else UsedUpTo(m, k - 1) + if Used(m, k) then 1 else 0
  }

  /** The stored count is the number of used slots. */
  predicate Counted(m: seq<Byte>)
    requires |m| == MEMORY
  {
    m[1] == UsedUpTo(m, 80)
  }

  // ---- Distribute_LogicADD ----

  /** The first slot from `start` on that holds `p`, or 81. */
  function FindFrom(m: seq<Byte>, p: seq<Byte>, start: nat): (r: nat)
    requires |m| == MEMORY && 1 <= start <= SLOTS + 1
    ensures start <= r <= SLOTS + 1
    ensures r <= SLOTS ==> Registered(m, r, p)
    ensures forall j | start <= j < r :: !Registered(m, j, p)
    decreases SLOTS + 1 - start
  {
    if start == SLOTS + 1 || Registered(m, start, p) then start else FindFrom(m, p, start + 1)
  }

  /** The first unused slot from `start` on, or 81. */
  function FreeFrom(m: seq<Byte>, start: nat): (r: nat)
    requires |m| == MEMORY && 1 <= start <= SLOTS + 1
    ensures start <= r <= SLOTS + 1
    ensures r <= SLOTS ==> !Used(m, r)
    ensures forall j | start <= j < r :: Used(m, j)
    decreases SLOTS + 1 - start
  {
    if start == SLOTS + 1 || !Used(m, start) then start else FreeFrom(m, start + 1)
  }

  /** The count is a byte that wraps. */
  function Raised(c: Byte): Byte {
    if c == 255 then 0 else c + 1
  }

  function Lowered(c: Byte): Byte {
    if c == 0 then 255 else c - 1
  }

  /** Write slot `i` and raise the count, which is one byte. */
  function Entered(m: seq<Byte>, i: nat, p: seq<Byte>): (m': seq<Byte>)
    requires |m| == MEMORY && IsSlot(i) && |p| == 4
    ensures |m'| == MEMORY
  {
    m[Base(i) := i][Base(i) + 1 := p[0]][Base(i) + 2 := p[1]][Base(i) + 3 := p[2]][Base(i) + 4 := p[3]]
     [COUNT := Raised(m[COUNT])]
  }

  datatype Answer = Answer(memory: seq<Byte>, code: Byte)

  /** A known reader keeps its address; a new one gets the lowest free one; a full table answers 0xF3. */
  function Distributed(m: seq<Byte>, p: seq<Byte>): (a: Answer)
    requires |m| == MEMORY && |p| == 4
    ensures |a.memory| == MEMORY
  {
    var known, free := FindFrom(m, p, 1), FreeFrom(m, 1);
    if known <= SLOTS then Answer(m, known)
    else if free <= SLOTS then Answer(Entered(m, free, p), free)
    else Answer(m, FULL)
  }

  lemma EnteredSlot(m: seq<Byte>, i: nat, p: seq<Byte>, j: nat)
    requires |m| == MEMORY && IsSlot(i) && IsSlot(j) && |p| == 4
    ensures Slot(Entered(m, i, p), j) == if j == i then [i] + p else Slot(m, j)
  {
    var m' := Entered(m, i, p);
    forall k | 0 <= k < 5
      ensures Slot(m', j)[k] == (if j == i then [i] + p else Slot(m, j))[k]
    {
    }
  }

  lemma EnteredRegisters(m: seq<Byte>, i: nat, p: seq<Byte>, j: nat)
    requires |m| == MEMORY && IsSlot(i) && IsSlot(j) && |p| == 4
    ensures Used(Entered(m, i, p), j) == (j == i || Used(m, j))
    ensures Physical(Entered(m, i, p), j) == if j == i then p else Physical(m, j)
  {
    EnteredSlot(m, i, p, j);
    assert ([i] + p)[1..] == p;
  }

  lemma {:induction false} EnteredCount(m: seq<Byte>, i: nat, p: seq<Byte>, k: nat)
    requires |m| == MEMORY && IsSlot(i) && |p| == 4 && k <= SLOTS && !Used(m, i)
    ensures UsedUpTo(Entered(m, i, p), k) == UsedUpTo(m, k) + if i <= k then 1 else 0
  {
    hide Entered, Used;
    if k > 0 {
      EnteredCount(m, i, p, k - 1);
      EnteredRegisters(m, i, p, k);
    }
  }

  /** After a distribution the reader is found under the answered address, unless the table was full of others. */
  lemma DistributeRegisters(m: seq<Byte>, p: seq<Byte>)
    requires |m| == MEMORY && |p| == 4
    ensures var a := Distributed(m, p);
            && (a.code != 0xF3 ==> Registered(a.memory, a.code, p))
            && (a.code == 0xF3 <==> forall j: nat | 1 <= j <= 80 :: Used(m, j) && Physical(m, j) != p)
            && (a.code == 0xF3 ==> a.memory == m)
  {
    hide Entered, Used, Physical;
    var known, free := FindFrom(m, p, 1), FreeFrom(m, 1);
    if known <= SLOTS {
      assert Registered(m, known, p);
    } else if free <= SLOTS {
      EnteredRegisters(m, free, p, free);
      assert !Used(m, free);
    } else {
      forall j: nat | 1 <= j <= 80
        ensures Used(m, j) && Physical(m, j) != p
      {
        assert !Registered(m, j, p);
      }
    }
  }

  /** Every other reader keeps its address. */
  lemma DistributeKeepsOthers(m: seq<Byte>, p: seq<Byte>, j: nat, q: seq<Byte>)
    requires |m| == MEMORY && |p| == 4 && p != q
    ensures Registered(Distributed(m, p).memory, j, q) == Registered(m, j, q)
  {
    hide Entered, Used, Physical;
    var free := FreeFrom(m, 1);
    if IsSlot(j) && FindFrom(m, p, 1) > SLOTS && free <= SLOTS {
      EnteredRegisters(m, free, p, j);
    }
  }

  lemma DistributeKeepsUnique(m: seq<Byte>, p: seq<Byte>)
    requires |m| == MEMORY && |p| == 4 && Unique(m)
    ensures Unique(Distributed(m, p).memory)
  {
    hide Entered, Used, Physical;
    var m', free := Distributed(m, p).memory, FreeFrom(m, 1);
    if FindFrom(m, p, 1) > SLOTS && free <= SLOTS {
      forall i, j, q | Registered(m', i, q) && Registered(m', j, q)
        ensures i == j
      {
        EnteredRegisters(m, free, p, i);
        EnteredRegisters(m, free, p, j);
        assert i != free ==> Registered(m, i, q);
        assert j != free ==> Registered(m, j, q);
      }
    }
  }

  /** The count stays right. */
  lemma DistributeKeepsCount(m: seq<Byte>, p: seq<Byte>)
    requires |m| == MEMORY && |p| == 4 && Counted(m)
    ensures Counted(Distributed(m, p).memory)
  {
    hide Used, Physical;
    var free := FreeFrom(m, 1);
    if FindFrom(m, p, 1) > SLOTS && free <= SLOTS {
      EnteredCount(m, free, p, SLOTS);
    }
  }

  /** Asking again gives the same answer and writes nothing. */
  lemma DistributeTwice(m: seq<Byte>, p: seq<Byte>)
    requires |m| == MEMORY && |p| == 4
    ensures Distributed(Distributed(m, p).memory, p) == Distributed(m, p)
  {
    hide Entered, Used, Physical;
    var free := FreeFrom(m, 1);
    if FindFrom(m, p, 1) > SLOTS && free <= SLOTS {
      var m' := Entered(m, free, p);
      EnteredRegisters(m, free, p, free);
      assert Registered(m', free, p);
      var again := FindFrom(m', p, 1);
      assert again <= free;
      EnteredRegisters(m, free, p, again);
      assert !Registered(m, again, p);
    }
  }

  // ---- Delete_LogicADD ----

  /** Four zero bytes from `OrOne(Base(i))`, then a zero in the first byte. */
  function Wiped(m: seq<Byte>, i: nat): (m': seq<Byte>)
    requires |m| == MEMORY && IsSlot(i)
    ensures |m'| == MEMORY
  {
    var a := OrOne(Base(i));
    m[a := 0][a + 1 := 0][a + 2 := 0][a + 3 := 0][Base(i) := 0]
  }

  /** What wiping leaves in the slot: for an odd base address the last byte survives. */
  function Remains(s: seq<Byte>, i: nat): (r: seq<Byte>)
    requires |s| == 5
    ensures |r| == 5
  {
    [0, 0, 0, 0, if i % 2 == 0 then 0 else s[4]]
  }

  lemma WipedSlot(m: seq<Byte>, i: nat, j: nat)
    requires |m| == MEMORY && IsSlot(i) && IsSlot(j)
    ensures Slot(Wiped(m, i), j) == if j == i then Remains(Slot(m, i), i) else Slot(m, j)
    ensures Wiped(m, i)[COUNT] == m[COUNT]
  {
    assert Base(i) % 2 == i % 2;
    var m' := Wiped(m, i);
    forall k | 0 <= k < 5
      ensures Slot(m', j)[k] == (if j == i then Remains(Slot(m, i), i) else Slot(m, j))[k]
    {
    }
  }

  /** The memory after the loop has visited the first `k` slots. */
  function DeletedUpTo(m: seq<Byte>, n: Byte, k: nat): (m': seq<Byte>)
    requires |m| == MEMORY && k <= SLOTS
    ensures |m'| == MEMORY
  {
    if k == 0 then m
    else
      var d := DeletedUpTo(m, n, k - 1);
      if d[Base(k)] == n then Wiped(d, k) else d
  }

  function Deleted(m: seq<Byte>, n: Byte): (m': seq<Byte>)
    requires |m| == MEMORY
    ensures |m'| == MEMORY
  {
    var d := DeletedUpTo(m, n, SLOTS);
    d[COUNT := Lowered(d[COUNT])]
  }

  lemma {:induction false} DeletedUpToSlot(m: seq<Byte>, n: Byte, k: nat, j: nat)
    requires |m| == MEMORY && k <= SLOTS && IsSlot(j)
    ensures Slot(DeletedUpTo(m, n, k), j) ==
            if j <= k && Slot(m, j)[0] == n then Remains(Slot(m, j), j) else Slot(m, j)
    ensures DeletedUpTo(m, n, k)[COUNT] == m[COUNT]
  {
    hide Wiped, Remains;
    if k > 0 {
      var d := DeletedUpTo(m, n, k - 1);
      DeletedUpToSlot(m, n, k - 1, j);
      DeletedUpToSlot(m, n, k - 1, k);
      assert d[Base(k)] == Slot(d, k)[0];
      WipedSlot(d, k, j);
    }
  }

  /** Every slot whose first byte equals the number is wiped, whichever slot it is; the others are kept. */
  lemma DeletedSlot(m: seq<Byte>, n: Byte, j: nat)
    requires |m| == MEMORY && IsSlot(j)
    ensures Slot(Deleted(m, n), j) == if Slot(m, j)[0] == n then Remains(Slot(m, j), j) else Slot(m, j)
    ensures Deleted(m, n)[COUNT] == Lowered(m[COUNT])
  {
    hide DeletedUpTo, Remains;
    DeletedUpToSlot(m, n, SLOTS, j);
    var d := DeletedUpTo(m, n, SLOTS);
    assert d[COUNT := Lowered(d[COUNT])][Base(j)..Base(j) + 5] == d[Base(j)..Base(j) + 5];
  }

  lemma DeletedRegisters(m: seq<Byte>, n: Byte, j: nat)
    requires |m| == MEMORY && IsSlot(j)
    ensures Used(Deleted(m, n), j) == (Used(m, j) && j != n)
    ensures j != n && Used(m, j) ==> Physical(Deleted(m, n), j) == Physical(m, j)
  {
    hide Deleted;
    DeletedSlot(m, n, j);
  }

  lemma DeleteKeepsUnique(m: seq<Byte>, n: Byte)
    requires |m| == MEMORY && Unique(m)
    ensures Unique(Deleted(m, n))
  {
    hide Deleted, Used, Physical;
    var m' := Deleted(m, n);
    forall i, j, q | Registered(m', i, q) && Registered(m', j, q)
      ensures i == j
    {
      DeletedRegisters(m, n, i);
      DeletedRegisters(m, n, j);
      assert Registered(m, i, q) && Registered(m, j, q);
    }
  }

  lemma {:induction false} DeletedCount(m: seq<Byte>, n: Byte, k: nat)
    requires |m| == MEMORY && k <= SLOTS
    ensures UsedUpTo(Deleted(m, n), k) == UsedUpTo(m, k) - if IsSlot(n) && n <= k && Used(m, n) then 1 else 0
  {
    hide Deleted, Used;
    if k > 0 {
      DeletedCount(m, n, k - 1);
      DeletedRegisters(m, n, k);
    }
  }

  /** The count stays right exactly if the deleted number was in use: it is lowered in any case. */
  lemma DeleteKeepsCount(m: seq<Byte>, n: Byte)
    requires |m| == MEMORY && Counted(m)
    ensures Counted(Deleted(m, n)) <==> IsSlot(n) && Used(m, n)
  {
    hide Deleted, Used;
    DeletedCount(m, n, SLOTS);
    DeletedSlot(m, n, 1);
    if IsSlot(n) && Used(m, n) {
      UsedCounts(m, n, SLOTS);
    }
  }

  lemma {:induction false} UsedCounts(m: seq<Byte>, n: nat, k: nat)
    requires |m| == MEMORY && IsSlot(n) && n <= k <= SLOTS && Used(m, n)
    ensures UsedUpTo(m, k) > 0
  {
    if n < k {
      UsedCounts(m, n, k - 1);
    }
  }

  /** Deleting an even number clears its slot; for an odd one the last byte of the address stays behind. */
  lemma DeleteClears(m: seq<Byte>, n: Byte)
    requires |m| == MEMORY && IsSlot(n) && Used(m, n)
    ensures Slot(Deleted(m, n), n) == [0, 0, 0, 0, 0] <==> n % 2 == 0 || Physical(m, n)[3] == 0
  {
    hide Deleted;
    DeletedSlot(m, n, n);
  }

  // ---- Runs ----

  datatype Call = Register(p: seq<Byte>) | Remove(n: Byte)
  {
    predicate Valid() {
      Register? ==> |p| == 4
    }

    function Apply(m: seq<Byte>): (m': seq<Byte>)
      requires |m| == MEMORY && Valid()
      ensures |m'| == MEMORY
    {
      match this
      case Register(p) => Distributed(m, p).memory
      case Remove(n) => Deleted(m, n)
    }
  }

  ghost predicate IsRun(trace: seq<seq<Byte>>, calls: seq<Call>) {
    && |trace| == |calls| + 1
    && (forall i | 0 <= i < |trace| :: |trace[i]| == MEMORY)
    && (forall i | 0 <= i < |calls| :: calls[i].Valid() && trace[i + 1] == calls[i].Apply(trace[i]))
  }

  /** In every state of every run a physical address has at most one logical one. */
  lemma {:induction false} RunKeepsUnique(trace: seq<seq<Byte>>, calls: seq<Call>, i: nat)
    requires IsRun(trace, calls) && i < |trace| && Unique(trace[0])
    ensures Unique(trace[i])
  {
    hide Unique, Distributed, Deleted;
    if i > 0 {
      RunKeepsUnique(trace, calls, i - 1);
      assert calls[i - 1].Valid() && trace[i - 1 + 1] == calls[i - 1].Apply(trace[i - 1]);
      match calls[i - 1]
      case Register(p) => DistributeKeepsUnique(trace[i - 1], p);
      case Remove(n) => DeleteKeepsUnique(trace[i - 1], n);
    }
  }

  /** Removals of numbers that are in use at that point. */
  ghost predicate RemovesUsed(trace: seq<seq<Byte>>, calls: seq<Call>)
    requires IsRun(trace, calls)
  {
    forall i | 0 <= i < |calls| && calls[i].Remove? :: IsSlot(calls[i].n) && Used(trace[i], calls[i].n)
  }

  /** And the count is the number of used slots, throughout a run that removes only used numbers. */
  lemma {:induction false} RunKeepsCount(trace: seq<seq<Byte>>, calls: seq<Call>, i: nat)
    requires IsRun(trace, calls) && RemovesUsed(trace, calls) && i < |trace| && Counted(trace[0])
    ensures Counted(trace[i])
  {
    hide Counted, Distributed, Deleted, Used;
    if i > 0 {
      RunKeepsCount(trace, calls, i - 1);
      assert calls[i - 1].Valid() && trace[i - 1 + 1] == calls[i - 1].Apply(trace[i - 1]);
      match calls[i - 1]
      case Register(p) => DistributeKeepsCount(trace[i - 1], p);
      case Remove(n) => DeleteKeepsCount(trace[i - 1], n);
    }
  }

  // ---- The configuration in the same memory ----

  const CONFIG: nat := 200
  const FLAG: nat := 255
  const FORMATTED: Byte := 0x55

  /** Network address, port, serial number, access code, key, and the format flag at 255. */
  function Config(m: seq<Byte>): seq<Byte>
    requires |m| == MEMORY
  {
    m[CONFIG..FLAG + 1]
  }

  /** The slots whose first byte lies in the configuration. */
  predicate Shared(i: nat) {
    38 <= i <= 49
  }

  /** Entering a reader keeps the configuration exactly if its slot is none of the twelve shared ones. */
  lemma EnteredConfig(m: seq<Byte>, i: nat, p: seq<Byte>)
    requires |m| == MEMORY && IsSlot(i) && |p| == 4 && !Used(m, i)
    ensures Config(Entered(m, i, p)) == Config(m) <==> !Shared(i)
  {
    var m' := Entered(m, i, p);
    if Shared(i) {
      assert Config(m')[Base(i) - CONFIG] == i;
      assert Config(m)[Base(i) - CONFIG] == Slot(m, i)[0];
    }
  }

  /** So a distribution keeps it exactly if the reader is known or the lowest free number is not a shared one. */
  lemma DistributeKeepsConfig(m: seq<Byte>, p: seq<Byte>)
    requires |m| == MEMORY && |p| == 4
    ensures Config(Distributed(m, p).memory) == Config(m) <==>
            FindFrom(m, p, 1) <= SLOTS || !Shared(FreeFrom(m, 1))
  {
    hide Entered, Used, Config;
    var free := FreeFrom(m, 1);
    if FindFrom(m, p, 1) > SLOTS && free <= SLOTS {
      EnteredConfig(m, free, p);
    }
  }

  /**
   * Wiping slot `j` changes no byte of the configuration: the number was zero already, and what else is wiped
   * was zero or lies behind the flag, as in slot 49.
   */
  predicate Harmless(m: seq<Byte>, n: Byte, j: nat)
    requires |m| == MEMORY && IsSlot(j)
  {
    n == 0 && (j == 49 || Remains(Slot(m, j), j) == Slot(m, j))
  }

  /** Deleting a number keeps the configuration exactly if every shared slot that starts with it is wiped harmlessly. */
  lemma DeleteKeepsConfig(m: seq<Byte>, n: Byte)
    requires |m| == MEMORY
    ensures Config(Deleted(m, n)) == Config(m) <==>
            forall j | Shared(j) && Slot(m, j)[0] == n :: Harmless(m, n, j)
  {
    hide Deleted;
    var d := Deleted(m, n);
    if forall j | Shared(j) && Slot(m, j)[0] == n :: Harmless(m, n, j) {
      forall a | CONFIG <= a <= FLAG
        ensures d[a] == m[a]
      {
        var j := (a - 10) / 5;
        DeletedSlot(m, n, j);
        assert Slot(d, j)[a - Base(j)] == Slot(m, j)[a - Base(j)];
      }
      assert Config(d) == Config(m);
    } else {
      var j :| Shared(j) && Slot(m, j)[0] == n && !Harmless(m, n, j);
      DeletedSlot(m, n, j);
      HarmDone(m, d, n, j);
    }
  }

  lemma HarmDone(m: seq<Byte>, d: seq<Byte>, n: Byte, j: nat)
    requires |m| == |d| == MEMORY && Shared(j) && Slot(m, j)[0] == n && !Harmless(m, n, j)
    requires Slot(d, j) == Remains(Slot(m, j), j)
    ensures Config(d) != Config(m)
  {
    var k: nat :| k < 5 && (n == 0 ==> j != 49) && (n != 0 ==> k == 0) && Slot(d, j)[k] != Slot(m, j)[k];
    assert Config(d)[Base(j) + k - CONFIG] == Slot(d, j)[k] && Config(m)[Base(j) + k - CONFIG] == Slot(m, j)[k];
  }

  /** The configuration that a fresh memory is given. */
  const ADDRESS: seq<Byte> := [123, 57, 150, 25]
  const PORT: seq<Byte> := [20000 / 256, 20000 % 256]
  const SERIAL: seq<Byte> := [0x20, 0x20, 0x01, 0x02]
  const CODE: seq<Byte> := [
    0x31, 0x30, 0x30, 0x30, 0x30, 0x30, 0x30, 0x2D, 0x62, 0x37, 0x36, 0x31, 0x63, 0x32, 0x62, 0x30]
  const KEY: seq<Byte> := [0xFF, 0xFF, 0xFF, 0xFF, 0xFF, 0xF1, 0x29]
  const GAP: seq<Byte> := [0, 0, 0, 0]
  const REST: seq<Byte> := [0, 0, 0, 0, 0, 0, 0, 0, 0, 0, 0, 0, 0, 0, 0, 0, 0, 0]

  /** The configuration that a fresh memory is given. */
  const FACTORY: seq<Byte> := ADDRESS + PORT + SERIAL + CODE + GAP + KEY + REST + [FORMATTED]

  /** What a fresh memory holds: the factory configuration and zeros. */
  ghost predicate Formatted(m: seq<Byte>)
    requires |m| == MEMORY
  {
    Config(m) == FACTORY && forall a | 0 <= a < MEMORY && !(CONFIG <= a <= FLAG) :: m[a] == 0
  }

  /** Address 123.57.150.25, port 20000, serial number 20200102, code `1000000-b761c2b0`, the key, and the flag. */
  lemma FactoryContents()
    ensures FACTORY[..10] == [123, 57, 150, 25, 78, 32, 32, 32, 1, 2]
    ensures FACTORY[10..26] == [49, 48, 48, 48, 48, 48, 48, 45, 98, 55, 54, 49, 99, 50, 98, 48]
    ensures FACTORY[26..37] == [0, 0, 0, 0, 255, 255, 255, 255, 255, 241, 41]
    ensures FACTORY[37..] == [0, 0, 0, 0, 0, 0, 0, 0, 0, 0, 0, 0, 0, 0, 0, 0, 0, 0, 85]
  {
    var front := ADDRESS + PORT + SERIAL;
    var middle := front + CODE;
    var most := middle + GAP + KEY;
    assert |front| == 10 && |middle| == 26 && |most| == 37 && FACTORY == most + (REST + [FORMATTED]);
    assert FACTORY[..10] == most[..10] == front && FACTORY[10..26] == most[10..26] == CODE;
    assert FACTORY[26..37] == most[26..] == GAP + KEY && FACTORY[37..] == REST + [FORMATTED];
  }

  lemma FactoryBytes()
    ensures |FACTORY| == 56 && FACTORY[0] == 123 && FACTORY[5] == 32 && FACTORY[10] == 49 && FACTORY[15] == 48
    ensures FACTORY[20] == 54 && FACTORY[25] == 48 && FACTORY[30] == 255 && FACTORY[35] == 241
    ensures FACTORY[40] == FACTORY[45] == FACTORY[50] == 0 && FACTORY[55] == 85
  {
    var front := ADDRESS + PORT + SERIAL;
    assert |front| == 10 && front[0] == ADDRESS[0] && front[5] == PORT[1];
    var middle := front + CODE + GAP;
    assert |middle| == 30 && middle[0] == front[0] && middle[5] == front[5];
    assert middle[10] == CODE[0] && middle[15] == CODE[5] && middle[20] == CODE[10] && middle[25] == CODE[15];
    var most := middle + KEY;
    assert FACTORY == most + REST + [FORMATTED];
    assert most[30] == KEY[0] && most[35] == KEY[5];
  }

  lemma FactorySlot(m: seq<Byte>, i: nat)
    requires |m| == MEMORY && Config(m) == FACTORY && Shared(i)
    ensures Slot(m, i)[0] == match i
            case 38 => 123 case 39 => 32 case 40 => 49 case 41 => 48 case 42 => 54 case 43 => 48
            case 44 => 255 case 45 => 241 case 49 => 85 case _ => 0
  {
    hide FACTORY;
    FactoryBytes();
    assert Slot(m, i)[0] == Config(m)[Base(i) - CONFIG];
  }

  lemma FormattedUnused(m: seq<Byte>, i: nat)
    requires |m| == MEMORY && Formatted(m) && IsSlot(i)
    ensures !Used(m, i)
  {
    if Shared(i) {
      FactorySlot(m, i);
    } else {
      assert m[Base(i)] == 0;
    }
  }

  lemma {:induction false} FormattedCount(m: seq<Byte>, k: nat)
    requires |m| == MEMORY && Formatted(m) && k <= SLOTS
    ensures UsedUpTo(m, k) == 0
  {
    hide Formatted, Used;
    if k > 0 {
      FormattedCount(m, k - 1);
      FormattedUnused(m, k);
    }
  }

  /** A fresh memory is an empty, rightly counted table, so runs from it keep both properties. */
  lemma FormattedIsEmpty(m: seq<Byte>)
    requires |m| == MEMORY && Formatted(m)
    ensures Unique(m) && Counted(m) && forall i | IsSlot(i) :: !Used(m, i)
  {
    FormattedCount(m, SLOTS);
    forall i | IsSlot(i)
      ensures !Used(m, i)
    {
      FormattedUnused(m, i);
    }
  }

  /** The numbers whose removal damages a factory configuration: those with which its shared slots start. */
  lemma FactoryRemovals(m: seq<Byte>, n: Byte)
    requires |m| == MEMORY && Config(m) == FACTORY
    ensures Config(Deleted(m, n)) == FACTORY <==> n !in {32, 48, 49, 54, 85, 123, 241, 255}
  {
    hide Deleted, FACTORY;
    DeleteKeepsConfig(m, n);
    forall j | Shared(j)
      ensures Slot(m, j)[0] in {0, 32, 48, 49, 54, 85, 123, 241, 255}
      ensures Slot(m, j)[0] == 0 ==> Harmless(m, 0, j)
    {
      FactorySlot(m, j);
      if 46 <= j <= 48 {
        FactoryGap(m, j);
      }
    }
    FactorySlot(m, 38);
    FactorySlot(m, 39);
    FactorySlot(m, 40);
    FactorySlot(m, 41);
    FactorySlot(m, 42);
    FactorySlot(m, 44);
    FactorySlot(m, 45);
    FactorySlot(m, 49);
  }

  lemma FactoryGap(m: seq<Byte>, j: nat)
    requires |m| == MEMORY && Config(m) == FACTORY && 46 <= j <= 48
    ensures Slot(m, j) == [0, 0, 0, 0, 0]
  {
    hide FACTORY;
    forall k | 0 <= k < 5
      ensures Slot(m, j)[k] == 0
    {
      FactoryRest(Base(j) + k - CONFIG - 37);
      assert Slot(m, j)[k] == Config(m)[Base(j) + k - CONFIG];
    }
  }

  lemma FactoryRest(k: nat)
    requires k < 18
    ensures |FACTORY| == 56 && FACTORY[37 + k] == 0
  {
    var most := ADDRESS + PORT + SERIAL + CODE + GAP + KEY;
    assert |most| == 37 && FACTORY == most + REST + [FORMATTED];
    assert REST[k] == 0;
  }

  // ---- How many readers the memory holds ----

  /** Registrations of readers that are all different. */
  ghost predicate Newcomers(calls: seq<Call>) {
    && (forall i | 0 <= i < |calls| :: calls[i].Register?)
    && (forall i, j | 0 <= i < j < |calls| :: calls[i].p != calls[j].p)
  }

  /** The first `n` slots hold the readers in the order of their registration, the others are as before. */
  ghost predicate FilledTo(before: seq<Byte>, m: seq<Byte>, calls: seq<Call>, n: nat)
    requires |before| == |m| == MEMORY && Newcomers(calls) && n <= |calls|
  {
    forall j: nat | IsSlot(j) ::
      if j <= n then Registered(m, j, calls[j - 1].p) else Slot(m, j) == Slot(before, j)
  }

  lemma NextNewcomer(before: seq<Byte>, m: seq<Byte>, calls: seq<Call>, n: nat)
    requires |before| == |m| == MEMORY && Newcomers(calls) && n < |calls| && calls[n].Valid()
    requires Formatted(before) && FilledTo(before, m, calls, n)
    ensures FindFrom(m, calls[n].p, 1) == SLOTS + 1
    ensures FreeFrom(m, 1) == if n < SLOTS then n + 1 else SLOTS + 1
  {
    hide Formatted, Slot, FindFrom, FreeFrom;
    var known, free := FindFrom(m, calls[n].p, 1), FreeFrom(m, 1);
    forall j: nat | IsSlot(j)
      ensures Used(m, j) <==> j <= n
    {
      if j > n {
        FormattedUnused(before, j);
        assert Slot(m, j) == Slot(before, j);
      } else {
        assert Registered(m, j, calls[j - 1].p);
      }
    }
    assert known <= SLOTS ==> known > n;
    assert n < SLOTS ==> !Used(m, n + 1);
    assert free <= SLOTS ==> !Used(m, free);
  }

  lemma FillStep(before: seq<Byte>, m: seq<Byte>, calls: seq<Call>, n: nat)
    requires |before| == |m| == MEMORY && Newcomers(calls) && n < |calls| && calls[n].Valid()
    requires Formatted(before) && FilledTo(before, m, calls, n)
    ensures FilledTo(before, calls[n].Apply(m), calls, n + 1)
  {
    hide Formatted, Entered, Slot, Used, Physical, FindFrom, FreeFrom;
    NextNewcomer(before, m, calls, n);
    var m' := calls[n].Apply(m);
    forall j: nat | IsSlot(j)
      ensures if j <= n + 1 then Registered(m', j, calls[j - 1].p) else Slot(m', j) == Slot(before, j)
    {
      assert if j <= n then Registered(m, j, calls[j - 1].p) else Slot(m, j) == Slot(before, j);
      if n < SLOTS {
        EnteredSlot(m, n + 1, calls[n].p, j);
        EnteredRegisters(m, n + 1, calls[n].p, j);
      }
    }
  }

  lemma {:induction false} RunFills(trace: seq<seq<Byte>>, calls: seq<Call>, n: nat)
    requires IsRun(trace, calls) && Formatted(trace[0]) && Newcomers(calls) && n <= |calls|
    ensures FilledTo(trace[0], trace[n], calls, n)
  {
    hide Formatted, FilledTo, Newcomers;
    if n == 0 {
      NoneFilled(trace[0], calls);
    } else {
      RunFills(trace, calls, n - 1);
      assert calls[n - 1].Valid() && trace[n - 1 + 1] == calls[n - 1].Apply(trace[n - 1]);
      FillStep(trace[0], trace[n - 1], calls, n - 1);
    }
  }

  lemma NoneFilled(m: seq<Byte>, calls: seq<Call>)
    requires |m| == MEMORY && Newcomers(calls)
    ensures FilledTo(m, m, calls, 0)
  {
  }

  /**
   * From a fresh memory, `n` different readers get the numbers 1 to `n`, as long as there are eighty slots. Their
   * table leaves the configuration alone exactly up to the thirty-seventh, and the format flag up to the
   * forty-eighth.
   */
  lemma FortyNinthUnformats(trace: seq<seq<Byte>>, calls: seq<Call>, n: nat)
    requires IsRun(trace, calls) && Formatted(trace[0]) && Newcomers(calls) && n <= |calls|
    ensures forall j: nat | IsSlot(j) && j <= n :: Registered(trace[n], j, calls[j - 1].p)
    ensures Config(trace[n]) == FACTORY <==> n < 38
    ensures trace[n][255] == 0x55 <==> n < 49
  {
    hide FACTORY;
    RunFills(trace, calls, n);
    FactorySlot(trace[0], 38);
    FactorySlot(trace[0], 49);
    var before, m := trace[0], trace[n];
    assert before[FLAG] == Slot(before, 49)[0] && m[FLAG] == Slot(m, 49)[0];
    if n < 38 {
      forall a | CONFIG <= a <= FLAG
        ensures m[a] == before[a]
      {
        var j := (a - 10) / 5;
        assert Slot(m, j)[a - Base(j)] == Slot(before, j)[a - Base(j)];
      }
      assert Config(m) == Config(before);
    } else {
      assert Registered(m, 38, calls[37].p);
      assert Config(m)[Base(38) - CONFIG] == Slot(m, 38)[0];
      assert Config(before)[Base(38) - CONFIG] == Slot(before, 38)[0];
    }
    assert n >= 49 ==> Registered(m, 49, calls[48].p);
  }

  /** What `AT24CXX_Check` makes of the memory at the next start. */
  ghost predicate Restarted(m: seq<Byte>, m': seq<Byte>)
    requires |m| == |m'| == MEMORY
  {
    if m[FLAG] == FORMATTED then m' == m else Formatted(m')
  }

  /** So the readers survive the next start exactly if there are at most forty-eight of them. */
  lemma ReadersSurviveRestart(trace: seq<seq<Byte>>, calls: seq<Call>, n: nat, m': seq<Byte>)
    requires IsRun(trace, calls) && Formatted(trace[0]) && Newcomers(calls) && n <= |calls|
    requires |m'| == MEMORY && Restarted(trace[n], m')
    ensures (forall j: nat | IsSlot(j) && j <= n :: Registered(m', j, calls[j - 1].p)) <==> n < 49
  {
    hide Formatted;
    FortyNinthUnformats(trace, calls, n);
    if n >= 49 {
      var first: nat := 1;
      FormattedUnused(m', first);
      assert IsSlot(first) && !Registered(m', first, calls[first - 1].p);
    }
  }

  // ---- The format flag over any run ----

  /** The call that loses the flag: a registration in slot 49, or the removal of the number that the flag spells. */
  predicate Unformats(m: seq<Byte>, call: Call)
    requires |m| == MEMORY && call.Valid()
  {
    match call
    case Register(p) => FindFrom(m, p, 1) > SLOTS && FreeFrom(m, 1) == 49
    case Remove(n) => n == FORMATTED
  }

  lemma FlagStep(m: seq<Byte>, call: Call)
    requires |m| == MEMORY && call.Valid()
    ensures call.Apply(m)[FLAG] == FORMATTED <==> m[FLAG] == FORMATTED && !Unformats(m, call)
  {
    hide Deleted;
    var m' := call.Apply(m);
    assert m[FLAG] == Slot(m, 49)[0] && m'[FLAG] == Slot(m', 49)[0];
    match call
    case Register(p) =>
      if FindFrom(m, p, 1) > SLOTS && FreeFrom(m, 1) <= SLOTS {
        EnteredSlot(m, FreeFrom(m, 1), p, 49);
      }
    case Remove(n) => DeletedSlot(m, n, 49);
  }

  /**
   * Over any run of registrations and removals, the flag is still there exactly if it was there before and no
   * call has lost it: once lost it never returns.
   */
  lemma {:induction false} RunKeepsFlag(trace: seq<seq<Byte>>, calls: seq<Call>, n: nat)
    requires IsRun(trace, calls) && n <= |calls|
    ensures trace[n][FLAG] == FORMATTED <==>
            trace[0][FLAG] == FORMATTED && forall k | 0 <= k < n :: !Unformats(trace[k], calls[k])
  {
    hide Unformats;
    if n > 0 {
      RunKeepsFlag(trace, calls, n - 1);
      assert calls[n - 1].Valid() && trace[n - 1 + 1] == calls[n - 1].Apply(trace[n - 1]);
      FlagStep(trace[n - 1], calls[n - 1]);
    }
  }

  /** The bytes of `m` from `a` on are those of `bytes`. */
  ghost predicate Reads(m: seq<Byte>, a: nat, bytes: seq<Byte>)
    requires |m| == MEMORY && a + |bytes| <= MEMORY
  {
    forall k | a <= k < a + |bytes| :: m[k] == bytes[k - a]
  }

  lemma DefaultsWritten(m: seq<Byte>)
    requires |m| == MEMORY && m[FLAG] == FORMATTED
    requires Reads(m, 200, ADDRESS) && Reads(m, 204, PORT) && Reads(m, 206, SERIAL) && Reads(m, 210, CODE)
    requires Reads(m, 230, KEY)
    requires forall k | 0 <= k < MEMORY && !(200 <= k < 226) && !(230 <= k < 237) && k != FLAG :: m[k] == 0
    ensures Formatted(m)
  {
    hide FACTORY;
    assert Reads(m, 226, GAP) && Reads(m, 237, REST) && Reads(m, 255, [FORMATTED]);
    FactoryRead(m);
    FactoryBytes();
    WholeConfig(m, FACTORY);
  }

  lemma WholeConfig(m: seq<Byte>, c: seq<Byte>)
    requires |m| == MEMORY && |c| == 56 && Reads(m, 200, c)
    ensures Config(m) == c
  {
  }

  lemma FactoryRead(m: seq<Byte>)
    requires |m| == MEMORY
    requires Reads(m, 200, ADDRESS) && Reads(m, 204, PORT) && Reads(m, 206, SERIAL) && Reads(m, 210, CODE)
    requires Reads(m, 226, GAP) && Reads(m, 230, KEY) && Reads(m, 237, REST) && Reads(m, 255, [FORMATTED])
    ensures Reads(m, 200, FACTORY)
  {
    hide Reads;
    Joined(m, 200, ADDRESS, PORT);
    Joined(m, 200, ADDRESS + PORT, SERIAL);
    Joined(m, 200, ADDRESS + PORT + SERIAL, CODE);
    Joined(m, 200, ADDRESS + PORT + SERIAL + CODE, GAP);
    Joined(m, 200, ADDRESS + PORT + SERIAL + CODE + GAP, KEY);
    Joined(m, 200, ADDRESS + PORT + SERIAL + CODE + GAP + KEY, REST);
    Joined(m, 200, ADDRESS + PORT + SERIAL + CODE + GAP + KEY + REST, [FORMATTED]);
  }

  lemma Joined(m: seq<Byte>, a: nat, x: seq<Byte>, y: seq<Byte>)
    requires |m| == MEMORY && a + |x| + |y| <= MEMORY && Reads(m, a, x) && Reads(m, a + |x|, y)
    ensures Reads(m, a, x + y)
  {
  }

  // ---- The memory ----

  class Eeprom {
    const mem: array<Byte>

    constructor ()
      ensures mem.Length == MEMORY && fresh(mem)
    {
      mem := new Byte[MEMORY];
    }

    /** `AT24CXX_Write`: consecutive bytes. */
    method Write(a: nat, bytes: seq<Byte>)
      requires mem.Length == MEMORY && a + |bytes| <= MEMORY
      modifies mem
      ensures forall k | 0 <= k < MEMORY :: mem[k] == if a <= k < a + |bytes| then bytes[k - a] else old(mem[k])
    {
      var t := 0;
      while t < |bytes|
        invariant 0 <= t <= |bytes|
        invariant forall k | 0 <= k < MEMORY :: mem[k] == if a <= k < a + t then bytes[k - a] else old(mem[k])
      {
        mem[a + t] := bytes[t];
        t := t + 1;
      }
    }

    /** `Delete_allDat`. */
    method Erase()
      requires mem.Length == MEMORY
      modifies mem
      ensures forall k | 0 <= k < MEMORY :: mem[k] == 0
    {
      var i := 0;
      while i < MEMORY
        invariant 0 <= i <= MEMORY
        invariant forall k | 0 <= k < i :: mem[k] == 0
      {
        mem[i] := 0;
        i := i + 1;
      }
    }

    /** `AT24CXX_Check`: a memory without the flag is erased and given the factory configuration. */
    method Check()
      requires mem.Length == MEMORY
      modifies mem
      ensures Restarted(old(mem[..]), mem[..])
    {
      hide Formatted;
      if mem[FLAG] != FORMATTED {
        Erase();
        Write(230, KEY);
        Write(200, ADDRESS);
        Write(204, PORT);
        Write(206, SERIAL);
        Write(210, CODE);
        mem[FLAG] := FORMATTED;
        DefaultsWritten(mem[..]);
      }
    }

    /** The search for a known reader: whether slot `i` is in use and holds `p`. */
    method Holds(i: nat, p: seq<Byte>) returns (yes: bool)
      requires mem.Length == MEMORY && IsSlot(i) && |p| == 4
      ensures yes == Registered(mem[..], i, p)
    {
      yes := false;
      if mem[Base(i)] == i {
        var held := mem[Base(i) + 1..Base(i) + 5];
        assert held == Physical(mem[..], i);
        if p[3] == held[3] && p[2] == held[2] {
          if p[0] == held[0] && p[1] == held[1] {
            assert p == held;
            yes := true;
          }
        }
      }
    }

    /** Fill slot `i` and raise the count. */
    method Enter(i: nat, p: seq<Byte>)
      requires mem.Length == MEMORY && IsSlot(i) && |p| == 4
      modifies mem
      ensures mem[..] == Entered(old(mem[..]), i, p)
    {
      mem[Base(i)] := i;
      mem[Base(i) + 1] := p[0];
      mem[Base(i) + 2] := p[1];
      mem[Base(i) + 3] := p[2];
      mem[Base(i) + 4] := p[3];
      mem[COUNT] := Raised(mem[COUNT]);
    }

    /** `Distribute_LogicADD`. */
    method Distribute(p: seq<Byte>) returns (code: Byte)
      requires mem.Length == MEMORY && |p| == 4
      modifies mem
      ensures Answer(mem[..], code) == Distributed(old(mem[..]), p)
    {
      hide Registered, Entered;
      ghost var m := mem[..];
      var i := 1;
      while i < SLOTS + 1
        invariant 1 <= i <= SLOTS + 1 && mem[..] == m
        invariant FindFrom(m, p, 1) == FindFrom(m, p, i)
      {
        var held := Holds(i, p);
        if held {
          return i;
        }
        i := i + 1;
      }
      i := 1;
      while i < SLOTS + 1
        invariant 1 <= i <= SLOTS + 1 && mem[..] == m
        invariant FreeFrom(m, 1) == FreeFrom(m, i)
      {
        if mem[Base(i)] != i {
          Enter(i, p);
          return i;
        }
        i := i + 1;
      }
      code := FULL;
    }

    /** `Delete_LogicADD`. */
    method Delete(n: Byte) returns (left: Byte)
      requires mem.Length == MEMORY
      modifies mem
      ensures mem[..] == Deleted(old(mem[..]), n) && left == mem[COUNT]
    {
      ghost var m := mem[..];
      var i := 1;
      while i < SLOTS + 1
        invariant 1 <= i <= SLOTS + 1 && mem[..] == DeletedUpTo(m, n, i - 1)
      {
        ghost var d := mem[..];
        if mem[Base(i)] == n {
          Write(OrOne(Base(i)), [0, 0, 0, 0]);
          mem[Base(i)] := 0;
          assert mem[..] == Wiped(d, i);
        }
        i := i + 1;
      }
      mem[COUNT] := Lowered(mem[COUNT]);
      left := mem[COUNT];
    }

    /**
     * `PowerUPLogitADDCheck`: each registered reader is offered its address again, at most twice, and removed
     * if it does not answer. `answers(i, k)` is the reader's answer to attempt `k`.
     */
    method PowerUpCheck(answers: (nat, nat) -> bool) returns (online: nat)
      requires mem.Length == MEMORY
      modifies mem
      ensures forall i | IsSlot(i) :: Used(mem[..], i) == (old(Used(mem[..], i)) && Present(old(mem[..]), i, answers))
      ensures forall i | IsSlot(i) && Used(mem[..], i) :: Physical(mem[..], i) == old(Physical(mem[..], i))
      ensures online == UsedUpTo(mem[..], SLOTS)
      ensures old(Counted(mem[..])) ==> Counted(mem[..])
    {
      hide Used, Physical, Deleted, Counted, UsedUpTo;
      ghost var m := mem[..];
      online := 0;
      var i := 1;
      while i < SLOTS + 1
        invariant 1 <= i <= SLOTS + 1
        invariant forall j: nat | IsSlot(j) && j < i :: Used(mem[..], j) == (Used(m, j) && Present(m, j, answers))
        invariant forall j: nat | IsSlot(j) && i <= j :: Used(mem[..], j) == Used(m, j)
        invariant forall j: nat | IsSlot(j) && Used(mem[..], j) :: Physical(mem[..], j) == Physical(m, j)
        invariant online == UsedUpTo(mem[..], i - 1)
        invariant Counted(m) ==> Counted(mem[..])
      {
        ghost var d := mem[..];
        if mem[Base(i)] == i {
          var held := mem[Base(i) + 1..Base(i) + 5];
          IsHeld(d, i);
          var ok := false;
          if held != [0, 0, 0, 0] {
            ok := answers(i, 0);
            if !ok {
              ok := answers(i, 1);
            }
          }
          if ok {
            online := online + 1;
          } else {
            RemovalOf(d, i);
            var _ := Delete(i);
          }
        } else {
          NotHeld(d, i);
        }
        OneMoreSlot(mem[..], i);
        i := i + 1;
      }
    }
  }

  /** The reader in slot `i` has an address, and answers one of two attempts. */
  predicate Present(m: seq<Byte>, i: nat, answers: (nat, nat) -> bool)
    requires |m| == MEMORY && IsSlot(i)
  {
    Physical(m, i) != [0, 0, 0, 0] && (answers(i, 0) || answers(i, 1))
  }

  lemma IsHeld(m: seq<Byte>, i: nat)
    requires |m| == MEMORY && IsSlot(i) && m[Base(i)] == i
    ensures Used(m, i) && Physical(m, i) == m[Base(i) + 1..Base(i) + 5]
  {
  }

  lemma NotHeld(m: seq<Byte>, i: nat)
    requires |m| == MEMORY && IsSlot(i) && m[Base(i)] != i
    ensures !Used(m, i)
  {
  }

  lemma OneMoreSlot(m: seq<Byte>, i: nat)
    requires |m| == MEMORY && IsSlot(i)
    ensures UsedUpTo(m, i) == UsedUpTo(m, i - 1) + if Used(m, i) then 1 else 0
  {
  }

  /** What the removal of a used slot does to the others and to the counts. */
  lemma RemovalOf(m: seq<Byte>, i: nat)
    requires |m| == MEMORY && IsSlot(i) && Used(m, i)
    ensures forall j: nat | IsSlot(j) :: Used(Deleted(m, i), j) == (Used(m, j) && j != i)
    ensures forall j: nat | IsSlot(j) && j != i && Used(m, j) :: Physical(Deleted(m, i), j) == Physical(m, j)
    ensures UsedUpTo(Deleted(m, i), i - 1) == UsedUpTo(m, i - 1)
    ensures Counted(m) ==> Counted(Deleted(m, i))
  {
    hide Deleted, Used, Physical, Counted;
    forall j: nat | IsSlot(j)
      ensures Used(Deleted(m, i), j) == (Used(m, j) && j != i)
      ensures j != i && Used(m, j) ==> Physical(Deleted(m, i), j) == Physical(m, j)
    {
      DeletedRegisters(m, i, j);
    }
    DeletedCount(m, i, i - 1);
    if Counted(m) {
      DeleteKeepsCount(m, i);
    }
  }
}

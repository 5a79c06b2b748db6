/**
 * The kernel's sets of task priorities: a bitmap of eight rows of eight, a summary byte of the rows in
 * use, and a table that finds the lowest bit of a byte.
 */
module PriorityMap {
  import opened Runs

  /** `OS_LOWEST_PRIO`, the priority of the idle task. */
  const LOWEST: nat := 63

  predicate IsPriority(p: int) {
    0 <= p <= LOWEST
  }

  /** `1 << x`, as it is kept in a task's `OSTCBBitX` and `OSTCBBitY`. */
  function Bit(x: nat): bv8
    requires x < 8
  {
    match x
    case 0 => 0x01
    case 1 => 0x02
    case 2 => 0x04
    case 3 => 0x08
    case 4 => 0x10
    case 5 => 0x20
    case 6 => 0x40
    case 7 => 0x80
  }

  predicate Has(r: bv8, x: nat)
    requires x < 8
  {
    0 < r & Bit(x)
  }

  /** `r |= bit` */
  function Put(r: bv8, x: nat): bv8
    requires x < 8
  {
    r | Bit(x)
  }

  /** `r &= ~bit` */
  function Drop(r: bv8, x: nat): bv8
    requires x < 8
  {
    r & !Bit(x)
  }

  lemma PutHas(r: bv8, x: nat, y: nat)
    requires x < 8 && y < 8
    ensures Has(Put(r, x), y) <==> y == x || Has(r, y)
  {
  }

  lemma DropHas(r: bv8, x: nat, y: nat)
    requires x < 8 && y < 8
    ensures Has(Drop(r, x), y) <==> y != x && Has(r, y)
  {
  }

  /** A row is zero exactly when it holds no bit. */
  lemma EmptyRow(r: bv8)
    ensures r == 0 <==> forall x: nat | x < 8 :: !Has(r, x)
  {
    assert r != 0 ==>
        Has(r, 0) || Has(r, 1) || Has(r, 2) || Has(r, 3) || Has(r, 4) || Has(r, 5) || Has(r, 6) || Has(r, 7);
  }

  // ---- The resolution table ----

  /** Row `r` of `OSUnMapTbl`, sixteen entries each. */
  function Row(r: nat): (s: seq<nat>)
    requires r < 16
    ensures |s| == 16
  {
    match r
    case 0 => [0, 0, 1, 0, 2, 0, 1, 0, 3, 0, 1, 0, 2, 0, 1, 0]
    case 1 => [4, 0, 1, 0, 2, 0, 1, 0, 3, 0, 1, 0, 2, 0, 1, 0]
    case 2 => [5, 0, 1, 0, 2, 0, 1, 0, 3, 0, 1, 0, 2, 0, 1, 0]
    case 3 => [4, 0, 1, 0, 2, 0, 1, 0, 3, 0, 1, 0, 2, 0, 1, 0]
    case 4 => [6, 0, 1, 0, 2, 0, 1, 0, 3, 0, 1, 0, 2, 0, 1, 0]
    case 5 => [4, 0, 1, 0, 2, 0, 1, 0, 3, 0, 1, 0, 2, 0, 1, 0]
    case 6 => [5, 0, 1, 0, 2, 0, 1, 0, 3, 0, 1, 0, 2, 0, 1, 0]
    case 7 => [4, 0, 1, 0, 2, 0, 1, 0, 3, 0, 1, 0, 2, 0, 1, 0]
    case 8 => [7, 0, 1, 0, 2, 0, 1, 0, 3, 0, 1, 0, 2, 0, 1, 0]
    case 9 => [4, 0, 1, 0, 2, 0, 1, 0, 3, 0, 1, 0, 2, 0, 1, 0]
    case 10 => [5, 0, 1, 0, 2, 0, 1, 0, 3, 0, 1, 0, 2, 0, 1, 0]
    case 11 => [4, 0, 1, 0, 2, 0, 1, 0, 3, 0, 1, 0, 2, 0, 1, 0]
    case 12 => [6, 0, 1, 0, 2, 0, 1, 0, 3, 0, 1, 0, 2, 0, 1, 0]
    case 13 => [4, 0, 1, 0, 2, 0, 1, 0, 3, 0, 1, 0, 2, 0, 1, 0]
    case 14 => [5, 0, 1, 0, 2, 0, 1, 0, 3, 0, 1, 0, 2, 0, 1, 0]
    case 15 => [4, 0, 1, 0, 2, 0, 1, 0, 3, 0, 1, 0, 2, 0, 1, 0]
  }

  /** `OSUnMapTbl[b]`. */
  function Lowest(b: bv8): nat {
    Row((b >> 4) as int)[(b & 15) as int]
  }

  lemma Rows0(b: bv8)
    requires 0 < b < 64
    ensures Lowest(b) < 8 && b & (0 - b) == Bit(Lowest(b))
  {
  }

  lemma Rows4(b: bv8)
    requires 64 <= b < 128
    ensures Lowest(b) < 8 && b & (0 - b) == Bit(Lowest(b))
  {
  }

  lemma Rows8(b: bv8)
    requires 128 <= b < 192
    ensures Lowest(b) < 8 && b & (0 - b) == Bit(Lowest(b))
  {
  }

  lemma Rows12(b: bv8)
    requires 192 <= b
    ensures Lowest(b) < 8 && b & (0 - b) == Bit(Lowest(b))
  {
  }

  /** Every entry of the table but the first is the position of the lowest bit. */
  lemma TableFindsLowest(b: bv8)
    ensures Lowest(b) < 8
    ensures b == 0 ==> Lowest(b) == 0
    ensures b != 0 ==> Has(b, Lowest(b)) && forall x: nat | x < Lowest(b) :: !Has(b, x)
  {
    if 0 < b {
      Isolated(b);
      forall x: nat | x < Lowest(b)
        ensures !Has(b, x)
      {
        hide Lowest;
        BelowIsolated(b, x, Lowest(b));
      }
    }
  }

  lemma Isolated(b: bv8)
    requires 0 < b
    ensures Lowest(b) < 8 && b & (0 - b) == Bit(Lowest(b))
  {
    hide Lowest;
    if b < 64 {
      Rows0(b);
    } else if b < 128 {
      Rows4(b);
    } else if b < 192 {
      Rows8(b);
    } else {
      Rows12(b);
    }
  }

  lemma BelowIsolated(b: bv8, x: nat, y: nat)
    requires x < y < 8 && b & (0 - b) == Bit(y)
    ensures !Has(b, x)
  {
  }

  // ---- The two-level map ----

  /** `OSRdyGrp` and `OSRdyTbl`, or an event's `OSEventGrp` and `OSEventTbl`. */
  datatype Map = Map(grp: bv8, tbl: seq<bv8>) {
    predicate Shaped() {
      |tbl| == 8
    }

    predicate In(p: nat)
      requires Shaped() && IsPriority(p)
    {
      Has(tbl[p / 8], p % 8)
    }

    /** The priorities in the map. */
    ghost function Elements(): (s: set<nat>)
      requires Shaped()
      ensures forall p <- s :: IsPriority(p)
    {
      set p: nat | p <= LOWEST && In(p)
    }

    /** The summary byte tells which rows are in use. */
    ghost predicate Summarised() {
      Shaped() && forall y: nat | y < 8 :: Has(grp, y) <==> tbl[y] != 0
    }
  }

  function Inserted(m: Map, p: nat): (r: Map)
    requires m.Shaped() && IsPriority(p)
    ensures r.Shaped()
  {
    Map(Put(m.grp, p / 8), m.tbl[p / 8 := Put(m.tbl[p / 8], p % 8)])
  }

  function Removed(m: Map, p: nat): (r: Map)
    requires m.Shaped() && IsPriority(p)
    ensures r.Shaped()
  {
    var row := Drop(m.tbl[p / 8], p % 8);
    Map(if row == 0 then Drop(m.grp, p / 8) else m.grp, m.tbl[p / 8 := row])
  }

  const EMPTY: Map := Map(0, [0, 0, 0, 0, 0, 0, 0, 0])

  lemma EmptyHolds()
    ensures EMPTY.Summarised() && EMPTY.Elements() == {}
  {
  }

  lemma InsertedHolds(m: Map, p: nat)
    requires m.Summarised() && IsPriority(p)
    ensures Inserted(m, p).Summarised() && Inserted(m, p).Elements() == m.Elements() + {p}
  {
    hide Put, Drop, Has;
    var r := Inserted(m, p);
    forall y: nat | y < 8
      ensures Has(r.grp, y) <==> r.tbl[y] != 0
    {
      PutHas(m.grp, p / 8, y);
      PutHas(m.tbl[p / 8], p % 8, p % 8);
      EmptyRow(r.tbl[y]);
    }
    forall q: nat | q <= LOWEST
      ensures r.In(q) <==> q == p || m.In(q)
    {
      PutHas(m.tbl[p / 8], p % 8, q % 8);
      SamePlace(p, q);
    }
  }

  lemma RemovedHolds(m: Map, p: nat)
    requires m.Summarised() && IsPriority(p)
    ensures Removed(m, p).Summarised() && Removed(m, p).Elements() == m.Elements() - {p}
  {
    hide Put, Drop, Has;
    var r := Removed(m, p);
    forall y: nat | y < 8
      ensures Has(r.grp, y) <==> r.tbl[y] != 0
    {
      DropHas(m.grp, p / 8, y);
      DropEmpty(m.tbl[p / 8], p % 8);
    }
    forall q: nat | q <= LOWEST
      ensures r.In(q) <==> q != p && m.In(q)
    {
      DropHas(m.tbl[p / 8], p % 8, q % 8);
      SamePlace(p, q);
    }
  }

  lemma DropEmpty(r: bv8, x: nat)
    requires x < 8
    ensures r == 0 ==> Drop(r, x) == 0
  {
  }

  lemma SamePlace(p: nat, q: nat)
    ensures p / 8 == q / 8 && p % 8 == q % 8 <==> p == q
  {
  }

  /** `OS_SchedNew`, and the choice of the task to wake in `OS_EventTaskRdy`. */
  function Highest(m: Map): nat
    requires m.Shaped()
  {
    TableFindsLowest(m.grp);
    8 * Lowest(m.grp) + Lowest(m.tbl[Lowest(m.grp)])
  }

  /** Two look-ups find the least element; of an empty map they make priority zero. */
  lemma HighestIsLeast(m: Map)
    requires m.Summarised()
    ensures m.grp == 0 <==> m.Elements() == {}
    ensures m.Elements() == {} ==> Highest(m) == 0
    ensures m.Elements() != {} ==> Highest(m) in m.Elements() && forall p <- m.Elements() :: Highest(m) <= p
  {
    hide Has, Lowest;
    var y := Lowest(m.grp);
    TableFindsLowest(m.grp);
    TableFindsLowest(m.tbl[y]);
    EmptyRow(m.grp);
    forall p: nat | p <= LOWEST && m.In(p)
      ensures m.grp != 0 && Highest(m) <= p
    {
      EmptyRow(m.tbl[p / 8]);
      assert Has(m.grp, p / 8);
    }
    if m.grp != 0 {
      assert m.tbl[y] != 0;
      Rejoined(y, Lowest(m.tbl[y]));
      assert Highest(m) in m.Elements();
    }
  }

  lemma Rejoined(y: nat, x: nat)
    requires y < 8 && x < 8
    ensures (8 * y + x) / 8 == y && (8 * y + x) % 8 == x
  {
  }

  // ---- Any sequence of insertions and removals ----

  datatype Change = Insert(p: nat) | Remove(p: nat)

  function Changed(m: Map, c: Change): (r: Map)
    requires m.Shaped() && IsPriority(c.p)
    ensures r.Shaped()
  {
    match c
    case Insert(p) => Inserted(m, p)
    case Remove(p) => Removed(m, p)
  }

  predicate Mentions(c: Change, p: nat) {
    c.p == p
  }

  ghost predicate IsRun(trace: seq<Map>, changes: seq<Change>) {
    && |trace| == |changes| + 1
    && trace[0].Summarised()
    && forall i | 0 <= i < |changes| ::
      IsPriority(changes[i].p) && trace[i].Shaped() && trace[i + 1] == Changed(trace[i], changes[i])
  }

  lemma {:induction false} RunSummarised(trace: seq<Map>, changes: seq<Change>, n: nat)
    requires IsRun(trace, changes) && n <= |changes|
    ensures trace[n].Summarised()
  {
    if n > 0 {
      RunSummarised(trace, changes, n - 1);
      ChangedHolds(trace[n - 1], changes[n - 1]);
      assert trace[n - 1 + 1] == Changed(trace[n - 1], changes[n - 1]);
    }
  }

  lemma ChangedHolds(m: Map, c: Change)
    requires m.Summarised() && IsPriority(c.p)
    ensures Changed(m, c).Summarised()
    ensures Changed(m, c).Elements() == if c.Insert? then m.Elements() + {c.p} else m.Elements() - {c.p}
  {
    InsertedHolds(m, c.p);
    RemovedHolds(m, c.p);
  }

  /**
   * After any sequence of insertions and removals, a priority is in the map exactly when the last
   * change to it was an insertion, and the look-ups find the least such priority.
   */
  lemma MapAfterRun(trace: seq<Map>, changes: seq<Change>, p: nat)
    requires IsRun(trace, changes) && IsPriority(p)
    ensures var m, last := trace[|changes|], Last(changes, (c: Change) => Mentions(c, p));
            && m.Summarised()
            && (p in m.Elements() <==> if last.Some? then last.value.Insert? else p in trace[0].Elements())
            && (p in m.Elements() ==> Highest(m) in m.Elements() && Highest(m) <= p)
  {
    hide Has, Lowest, Map.Summarised;
    var mentions := (c: Change) => Mentions(c, p);
    var observe := (m: Map) => m.Shaped() && m.In(p);
    var written := (c: Change) => c.Insert?;
    forall i | 0 <= i < |changes|
      ensures observe(trace[i + 1]) == if mentions(changes[i]) then written(changes[i]) else observe(trace[i])
    {
      RunSummarised(trace, changes, i);
      ChangedHolds(trace[i], changes[i]);
      assert observe(trace[i]) <==> p in trace[i].Elements();
      assert observe(trace[i + 1]) <==> p in trace[i + 1].Elements();
    }
    LastWriterWins(trace, changes, mentions, written, observe);
    RunSummarised(trace, changes, |changes|);
    HighestIsLeast(trace[|changes|]);
  }

  /** A ready list or an event's wait list. */
  class PriorityList {
    var grp: bv8
    const tbl: array<bv8>

    function View(): Map
      reads this, tbl
    {
      Map(grp, tbl[..])
    }

    ghost predicate Valid()
      reads this, tbl
    {
      View().Summarised()
    }

    ghost function Elements(): (s: set<nat>)
      requires Valid()
      reads this, tbl
      ensures forall p <- s :: IsPriority(p)
    {
      View().Elements()
    }

    constructor ()
      ensures Valid() && Elements() == {} && fresh(tbl)
    {
      grp := 0;
      tbl := new bv8[8](_ => 0);
      new;
      assert View() == EMPTY;
      EmptyHolds();
    }

    /** `OS_InitRdyList`, `OS_EventWaitListInit`. */
    method Clear()
      requires tbl.Length == 8
      modifies this, tbl
      ensures Valid() && Elements() == {}
    {
      grp := 0;
      for i := 0 to 8
        invariant grp == 0 && forall y | 0 <= y < i :: tbl[y] == 0
      {
        tbl[i] := 0;
      }
      assert View() == EMPTY;
      EmptyHolds();
    }

    method Add(p: nat)
      requires Valid() && IsPriority(p)
      modifies this, tbl
      ensures Valid() && Elements() == old(Elements()) + {p}
    {
      InsertedHolds(View(), p);
      grp := Put(grp, p / 8);
      tbl[p / 8] := Put(tbl[p / 8], p % 8);
      assert View() == Inserted(old(View()), p);
    }

    method Discard(p: nat)
      requires Valid() && IsPriority(p)
      modifies this, tbl
      ensures Valid() && Elements() == old(Elements()) - {p}
    {
      RemovedHolds(View(), p);
      tbl[p / 8] := Drop(tbl[p / 8], p % 8);
      if tbl[p / 8] == 0 {
        grp := Drop(grp, p / 8);
      }
      assert View() == Removed(old(View()), p);
    }

    /** The code's test for an empty list is the summary byte alone. */
    method IsEmpty() returns (empty: bool)
      requires Valid()
      ensures empty <==> Elements() == {}
    {
      HighestIsLeast(View());
      empty := grp == 0;
    }

    method First() returns (p: nat)
      requires Valid()
      ensures Elements() == {} ==> p == 0
      ensures Elements() != {} ==> p in Elements() && forall q <- Elements() :: p <= q
    {
      hide Has, Lowest, Map.Elements;
      HighestIsLeast(View());
      TableFindsLowest(grp);
      var y := Lowest(grp);
      p := 8 * y + Lowest(tbl[y]);
    }
  }
}

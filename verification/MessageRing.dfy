/** The storage of a message queue: a ring of message pointers in which both pointers wrap by comparison. */
module MessageRing {
  import opened Runs

  /** A message is a pointer; the null pointer is a message like any other. */
  type Message = nat
  const NULL: Message := 0

  /** Ring position `first + k`, with one wrap. */
  function Position(size: nat, first: nat, k: nat): nat {
    if first + k < size then first + k else first + k - size
  }

  class Ring {
    /** `OSQStart .. OSQEnd`; `OSQOut` and `OSQIn` as offsets from `OSQStart`. */
    const slots: array<Message>
    var first: nat
    var next: nat
    var entries: nat

    ghost predicate Valid()
      reads this
    {
      && entries <= slots.Length
      && (slots.Length == 0 ==> first == next == 0)
      && (slots.Length > 0 ==> first < slots.Length && next == Position(slots.Length, first, entries))
    }

    /** The messages, oldest first. */
    ghost function Contents(): (s: seq<Message>)
      requires Valid()
      reads this, slots
      ensures |s| == entries
    {
      seq(entries, k requires 0 <= k < entries reads this, slots requires Valid() =>
        slots[Position(slots.Length, first, k)])
    }

    /** The part of `OSQCreate` that sets up the ring in the caller's storage. */
    constructor (start: array<Message>)
      ensures Valid() && slots == start && Contents() == []
    {
      slots := start;
      first, next, entries := 0, 0, 0;
    }

    /** The branch of `OSQAccept` and `OSQPend` that takes the oldest message. */
    method Take() returns (m: Option<Message>)
      requires Valid()
      modifies this
      ensures Valid()
      ensures old(Contents()) == [] ==> m == None && Contents() == []
      ensures old(Contents()) != [] ==> m == Some(old(Contents())[0]) && Contents() == old(Contents())[1..]
    {
      if entries > 0 {
        m := Some(slots[first]);
        first := first + 1;
        entries := entries - 1;
        if first == slots.Length {
          first := 0;
        }
      } else {
        m := None;
      }
    }

    /** The last branches of `OSQPost`: refused when full, otherwise at the back. */
    method Append(m: Message) returns (ok: bool)
      requires Valid()
      modifies this, slots
      ensures Valid()
      ensures ok == (old(|Contents()|) < slots.Length)
      ensures Contents() == if ok then old(Contents()) + [m] else old(Contents())
    {
      if entries >= slots.Length {
        return false;
      }
      slots[next] := m;
      next := next + 1;
      entries := entries + 1;
      if next == slots.Length {
        next := 0;
      }
      ok := true;
    }

    /** The last branches of `OSQPostFront`: refused when full, otherwise in front of the oldest. */
    method Prepend(m: Message) returns (ok: bool)
      requires Valid()
      modifies this, slots
      ensures Valid()
      ensures ok == (old(|Contents()|) < slots.Length)
      ensures Contents() == if ok then [m] + old(Contents()) else old(Contents())
    {
      if entries >= slots.Length {
        return false;
      }
      if first == 0 {
        first := slots.Length;
      }
      first := first - 1;
      slots[first] := m;
      entries := entries + 1;
      ok := true;
    }

    /** `OSQFlush`. */
    method Flush()
      requires Valid()
      modifies this
      ensures Valid() && Contents() == []
    {
      first, next, entries := 0, 0, 0;
    }
  }
}

/** The kernel's calls on its own data: priority bitmaps, message rings and task control blocks. */
module QueueCalls {
  import opened Runs
  import opened PriorityMap
  import opened MessageRing
  import opened MessageQueues

  /** An event control block of type OS_EVENT_TYPE_Q with its OS_Q. */
  class MessageQueue {
    const waiting: PriorityList
    const ring: Ring

    ghost predicate Valid()
      reads waiting, waiting.tbl, ring
    {
      waiting.Valid() && ring.Valid() && ring.slots as object != waiting.tbl
    }

    ghost function View(): Queue
      requires Valid()
      reads waiting, waiting.tbl, ring, ring.slots
    {
      Queue(ring.slots.Length, ring.Contents(), waiting.Elements())
    }

    /** `OSQCreate` in the caller's storage. */
    constructor (start: array<Message>)
      ensures Valid() && View() == Queue(start.Length, [], {}) && ring.slots == start
      ensures fresh(waiting) && fresh(waiting.tbl) && fresh(ring)
    {
      waiting := new PriorityList();
      ring := new Ring(start);
    }
  }

  class Kernel {
    const ready: PriorityList
    var tasks: map<nat, Task>

    ghost predicate Valid()
      reads this, ready, ready.tbl
    {
      ready.Valid() && ready.Elements() <= tasks.Keys && forall p <- tasks :: IsPriority(p)
    }

    ghost function View(): Core
      requires Valid()
      reads this, ready, ready.tbl
    {
      Core(tasks, ready.Elements())
    }

    /** A queue of this kernel: its lists are other lists, and existing tasks wait on it. */
    ghost predicate Serves(q: MessageQueue)
      reads this, q.waiting, q.waiting.tbl, q.ring
    {
      && q.Valid() && q.waiting.Elements() <= tasks.Keys
      && q.waiting != ready && q.waiting.tbl != ready.tbl && q.ring.slots as object != ready.tbl
    }

    /** `OS_InitRdyList` and the creation of the idle task. */
    constructor ()
      ensures Valid() && View() == Core(map[LOWEST := FRESH], {LOWEST})
      ensures fresh(ready) && fresh(ready.tbl)
    {
      ready := new PriorityList();
      tasks := map[LOWEST := FRESH];
      new;
      ready.Add(LOWEST);
    }

    /** `OS_SchedNew`; with nobody ready it answers priority zero. */
    method SchedNew() returns (p: nat)
      requires Valid()
      ensures View().ready == {} ==> p == 0
      ensures View().ready != {} ==> p == Least(View().ready)
    {
      p := ready.First();
    }

    /** `OS_EventTaskRdy`. */
    method EventTaskRdy(q: MessageQueue, m: Message, v: Verdict) returns (p: nat)
      requires Valid() && Serves(q) && q.View().waiting != {}
      modifies this, ready, ready.tbl, q.waiting, q.waiting.tbl
      ensures Valid() && Serves(q) && p == Least(old(q.View()).waiting)
      ensures View() == WakeTasks(old(View()), {p}, m, v)
      ensures q.View() == WakeQueue(old(q.View()), {p})
    {
      hide Map.Summarised, Map.Elements;
      p := q.waiting.First();
      tasks := tasks[p := tasks[p].(delay := 0, message := m, pending := false, verdict := v)];
      if !tasks[p].suspended {
        ready.Add(p);
      }
      q.waiting.Discard(p);
    }

    /** `OSQPost`. */
    method Post(q: MessageQueue, m: Message) returns (ok: bool)
      requires Valid() && Serves(q)
      modifies this, ready, ready.tbl, q.waiting, q.waiting.tbl, q.ring, q.ring.slots
      ensures Valid() && Serves(q) && ok == Accepts(old(q.View()))
      ensures View() == PostCore(old(View()), old(q.View()), m, false)
      ensures q.View() == PostQueue(old(q.View()), m, false, false)
      ensures old(q.waiting.Elements()) == {} ==>
                q.ring.Contents() == if ok then old(q.ring.Contents()) + [m] else old(q.ring.Contents())
    {
      hide Map.Summarised, Map.Elements;
      var nobody := q.waiting.IsEmpty();
      if !nobody {
        var p := EventTaskRdy(q, m, Fine);
        return true;
      }
      WakingNobody(View(), m, Fine);
      ok := q.ring.Append(m);
    }

    /** `OSQPostFront`. */
    method PostFront(q: MessageQueue, m: Message) returns (ok: bool)
      requires Valid() && Serves(q)
      modifies this, ready, ready.tbl, q.waiting, q.waiting.tbl, q.ring, q.ring.slots
      ensures Valid() && Serves(q) && ok == Accepts(old(q.View()))
      ensures View() == PostCore(old(View()), old(q.View()), m, false)
      ensures q.View() == PostQueue(old(q.View()), m, false, true)
      ensures old(q.waiting.Elements()) == {} ==>
                q.ring.Contents() == if ok then [m] + old(q.ring.Contents()) else old(q.ring.Contents())
    {
      hide Map.Summarised, Map.Elements;
      var nobody := q.waiting.IsEmpty();
      if !nobody {
        var p := EventTaskRdy(q, m, Fine);
        return true;
      }
      WakingNobody(View(), m, Fine);
      ok := q.ring.Prepend(m);
    }

    /** The loops of `OSQPostOpt` and `OSQPendAbort` over the whole wait list. */
    method WakeAll(q: MessageQueue, m: Message, v: Verdict) returns (n: nat)
      requires Valid() && Serves(q)
      modifies this, ready, ready.tbl, q.waiting, q.waiting.tbl
      ensures Valid() && Serves(q) && n == |old(q.View()).waiting|
      ensures View() == WakeTasks(old(View()), old(q.View()).waiting, m, v)
      ensures q.View() == WakeQueue(old(q.View()), old(q.View()).waiting)
    {
      hide Map.Summarised, Map.Elements, WakeTasks, WakeQueue;
      ghost var woken: set<nat> := {};
      WakingNobody(View(), m, v);
      LeavingQueue(q.View(), {}, {});
      n := 0;
      var done := q.waiting.IsEmpty();
      while !done
        invariant Woke(q, old(View()), old(q.View()), woken, m, v)
        invariant n == |woken| && done == (woken == old(q.View()).waiting)
        decreases old(q.View()).waiting - woken
      {
        var p;
        p, done := WakeNext(q, m, v, old(View()), old(q.View()), woken);
        woken, n := woken + {p}, n + 1;
      }
    }

    /** Halfway through that loop: the tasks `woken` are awake. */
    ghost predicate Woke(q: MessageQueue, k: Core, was: Queue, woken: set<nat>, m: Message, v: Verdict)
      reads this, ready, ready.tbl, q.waiting, q.waiting.tbl, q.ring, q.ring.slots
    {
      && Valid() && Serves(q) && woken <= was.waiting <= k.tasks.Keys
      && View() == WakeTasks(k, woken, m, v) && q.View() == WakeQueue(was, woken)
    }

    method WakeNext(q: MessageQueue, m: Message, v: Verdict, ghost k: Core, ghost was: Queue, ghost woken: set<nat>)
      returns (p: nat, done: bool)
      requires Woke(q, k, was, woken, m, v) && woken != was.waiting
      modifies this, ready, ready.tbl, q.waiting, q.waiting.tbl
      ensures p in was.waiting - woken && Woke(q, k, was, woken + {p}, m, v)
      ensures done == (woken + {p} == was.waiting)
    {
      hide Map.Summarised, Map.Elements, WakeTasks, WakeQueue;
      LeavingQueue(was, {}, woken);
      p := EventTaskRdy(q, m, v);
      WakingMore(k, woken, p, m, v);
      LeavingQueue(was, woken, {p});
      done := q.waiting.IsEmpty();
    }

    /** `OSQPostOpt`. */
    method PostOpt(q: MessageQueue, m: Message, broadcast: bool, front: bool) returns (ok: bool)
      requires Valid() && Serves(q)
      modifies this, ready, ready.tbl, q.waiting, q.waiting.tbl, q.ring, q.ring.slots
      ensures Valid() && Serves(q) && ok == Accepts(old(q.View()))
      ensures View() == PostCore(old(View()), old(q.View()), m, broadcast)
      ensures q.View() == PostQueue(old(q.View()), m, broadcast, front)
      ensures old(q.waiting.Elements()) == {} ==>
                q.ring.Contents() == if !ok then old(q.ring.Contents())
                                     else if front then [m] + old(q.ring.Contents())
                                     else old(q.ring.Contents()) + [m]
    {
      var nobody := q.waiting.IsEmpty();
      if !nobody {
        if broadcast {
          var n := WakeAll(q, m, Fine);
        } else {
          var p := EventTaskRdy(q, m, Fine);
        }
        return true;
      }
      WakingNobody(View(), m, Fine);
      if front {
        ok := q.ring.Prepend(m);
      } else {
        ok := q.ring.Append(m);
      }
    }

    /** `OSQPendAbort`; the answer is the number of tasks woken. */
    method PendAbort(q: MessageQueue, broadcast: bool) returns (n: nat)
      requires Valid() && Serves(q)
      modifies this, ready, ready.tbl, q.waiting, q.waiting.tbl
      ensures Valid() && Serves(q) && n == |Targets(old(q.View()), broadcast)|
      ensures View() == WakeTasks(old(View()), Targets(old(q.View()), broadcast), NULL, Aborted)
      ensures q.View() == WakeQueue(old(q.View()), Targets(old(q.View()), broadcast))
    {
      n := 0;
      var nobody := q.waiting.IsEmpty();
      if nobody {
        WakingNobody(View(), NULL, Aborted);
      } else if broadcast {
        n := WakeAll(q, NULL, Aborted);
      } else {
        var p := EventTaskRdy(q, NULL, Aborted);
        n := 1;
      }
    }

    /** `OSQPend` up to the point where the task is switched out, called by the task of priority `p` on queue `i`. */
    method Pend(q: MessageQueue, i: nat, p: nat, timeout: nat) returns (m: Option<Message>)
      requires Valid() && Serves(q) && p in tasks
      modifies this, ready, ready.tbl, q.waiting, q.waiting.tbl, q.ring
      ensures Valid() && Serves(q)
      ensures var c, v := old(q.View()).contents, old(q.View());
              if c != [] then m == Some(c[0]) && View() == old(View()) && q.View() == v.(contents := c[1..])
              else m == None && View() == Block(old(View()), i, p, timeout)
                   && q.View() == v.(waiting := v.waiting + {p})
    {
      m := q.ring.Take();
      if m.None? {
        tasks := tasks[p := tasks[p].(place := InPend(i), pending := true, verdict := Fine, delay := timeout)];
        q.waiting.Add(p);
        ready.Discard(p);
      }
    }

    /** `OSQPend` after it. */
    method PendReturn(q: MessageQueue, p: nat) returns (v: Verdict, m: Message)
      requires Valid() && Serves(q) && p in tasks
      modifies this, q.waiting, q.waiting.tbl
      ensures Valid() && Serves(q)
      ensures v == old(tasks)[p].verdict && m == (if v == Fine then old(tasks)[p].message else NULL)
      ensures View() == Return(old(View()), p) && q.View() == ReturnQueue(old(View()), old(q.View()), p)
    {
      v, m := tasks[p].verdict, NULL;
      match v {
        case Fine => m := tasks[p].message;
        case Aborted =>
        case TimedOut => q.waiting.Discard(p);
      }
      tasks := tasks[p := tasks[p].(
          place := Elsewhere, pending := false, suspended := false, verdict := Fine, message := NULL)];
    }

    /** `OSQAccept`. */
    method Accept(q: MessageQueue) returns (m: Option<Message>)
      requires Valid() && Serves(q)
      modifies q.ring
      ensures Valid() && Serves(q)
      ensures var c := old(q.View()).contents;
              if c == [] then m == None && q.View() == old(q.View())
              else m == Some(c[0]) && q.View() == old(q.View()).(contents := c[1..])
    {
      m := q.ring.Take();
    }

    /** `OSQFlush`. */
    method Flush(q: MessageQueue)
      requires Valid() && Serves(q)
      modifies q.ring
      ensures Valid() && Serves(q) && q.View() == old(q.View()).(contents := [])
    {
      q.ring.Flush();
    }

    /** The body of the loop of `OSTimeTick`. */
    method TimeTick(p: nat)
      requires Valid() && p in tasks
      modifies this, ready, ready.tbl
      ensures Valid() && View() == Tick(old(View()), p)
    {
      if tasks[p].delay != 0 {
        tasks := tasks[p := tasks[p].(delay := tasks[p].delay - 1)];
        if tasks[p].delay == 0 {
          EndDelay(p);
        }
      }
      assert tasks == Tick(old(View()), p).tasks;
    }

    /** What `OSTimeTick` and `OSTimeDlyResume` do once `OSTCBDly` is zero. */
    method EndDelay(p: nat)
      requires Valid() && p in tasks && tasks[p].delay == 0
      modifies this, ready, ready.tbl
      ensures Valid() && View() == Expire(old(View()), p)
    {
      if tasks[p].pending {
        tasks := tasks[p := tasks[p].(pending := false, verdict := TimedOut)];
      } else {
        tasks := tasks[p := tasks[p].(verdict := Fine)];
      }
      if !tasks[p].suspended {
        ready.Add(p);
      }
    }

    /** `OSTimeDly`, called by the task of priority `p`. */
    method TimeDly(p: nat, ticks: nat)
      requires Valid() && p in tasks
      modifies this, ready, ready.tbl
      ensures Valid() && View() == Delay(old(View()), p, ticks)
    {
      if ticks > 0 {
        ready.Discard(p);
        tasks := tasks[p := tasks[p].(delay := ticks)];
      }
    }

    /** `OSTimeDlyResume`. */
    method TimeDlyResume(p: nat) returns (ok: bool)
      requires Valid()
      modifies this, ready, ready.tbl
      ensures Valid() && ok == (p < LOWEST && p in old(tasks) && old(tasks)[p].delay != 0)
      ensures View() == if ok then DelayResume(old(View()), p) else old(View())
    {
      if p >= LOWEST || p !in tasks || tasks[p].delay == 0 {
        return false;
      }
      tasks := tasks[p := tasks[p].(delay := 0)];
      EndDelay(p);
      assert tasks == Expire(old(View()), p).tasks;
      ok := true;
    }

    /** `OSTaskSuspend`. */
    method TaskSuspend(p: nat) returns (ok: bool)
      requires Valid()
      modifies this, ready, ready.tbl
      ensures Valid() && ok == (p in old(tasks))
      ensures View() == if ok then Suspend(old(View()), p) else old(View())
    {
      if p !in tasks {
        return false;
      }
      ready.Discard(p);
      tasks := tasks[p := tasks[p].(suspended := true)];
      ok := true;
    }

    /** `OSTaskResume`. */
    method TaskResume(p: nat) returns (ok: bool)
      requires Valid()
      modifies this, ready, ready.tbl
      ensures Valid() && ok == (p in old(tasks) && old(tasks)[p].suspended)
      ensures View() == if p in old(tasks) then Resume(old(View()), p) else old(View())
    {
      if p !in tasks || !tasks[p].suspended {
        return false;
      }
      tasks := tasks[p := tasks[p].(suspended := false)];
      if !tasks[p].pending {
        if tasks[p].delay == 0 {
          ready.Add(p);
        }
      }
      ok := true;
    }

    /** `OS_TCBInit` for a priority that is free. */
    method TaskCreate(p: nat)
      requires Valid() && p !in tasks && IsPriority(p)
      modifies this, ready, ready.tbl
      ensures Valid() && View() == Create(old(View()), p)
    {
      tasks := tasks[p := FRESH];
      ready.Add(p);
    }
  }

  lemma WakingNobody(k: Core, m: Message, v: Verdict)
    ensures WakeTasks(k, {}, m, v) == k
  {
    assert WakeTasks(k, {}, m, v).ready == k.ready;
  }

  lemma WakingMore(k: Core, who: set<nat>, p: nat, m: Message, v: Verdict)
    requires who + {p} <= k.tasks.Keys && p !in who
    ensures WakeTasks(WakeTasks(k, who, m, v), {p}, m, v) == WakeTasks(k, who + {p}, m, v)
  {
    var once, twice := WakeTasks(k, who + {p}, m, v), WakeTasks(WakeTasks(k, who, m, v), {p}, m, v);
    assert once.tasks == twice.tasks && once.ready == twice.ready;
  }

  lemma LeavingQueue(q: Queue, who: set<nat>, more: set<nat>)
    ensures WakeQueue(q, {}) == q && WakeQueue(WakeQueue(q, who), more) == WakeQueue(q, who + more)
    ensures WakeQueue(q, who + more).waiting == q.waiting - who - more
  {
    assert q.waiting - {} == q.waiting && q.waiting - who - more == q.waiting - (who + more);
  }
}

/**
 * The kernel's memory as a whole, with all its queues: every sequence of its calls is a run of the state machine,
 * so the theorems about runs hold of the bitmaps, rings and control blocks.
 */
module KernelRuns {
  import opened Runs
  import PriorityMap
  import opened MessageRing
  import opened MessageQueues
  import opened QueueCalls

  /** No memory in common. */
  predicate Apart(q: MessageQueue, r: MessageQueue) {
    && q.waiting != r.waiting && q.waiting.tbl != r.waiting.tbl && q.ring != r.ring && q.ring.slots != r.ring.slots
    && q.ring.slots as object != r.waiting.tbl && r.ring.slots as object != q.waiting.tbl
  }

  ghost predicate Created(q: MessageQueue)
    reads q.waiting, q.waiting.tbl, q.ring, q.ring.slots
  {
    q.Valid() && q.View() == Queue(q.ring.slots.Length, [], {})
  }

  lemma OneMoreStep(sizes: seq<nat>, run: seq<State>, steps: seq<Step>, a: Step)
    requires IsRun(sizes, run, steps) && WellFormed(run[|run| - 1]) && Enabled(run[|run| - 1], a)
    ensures IsRun(sizes, run + [Next(run[|run| - 1], a)], steps + [a])
  {
    hide Initial, Enabled, Next, WellFormed;
  }

  lemma PostStep(s: State, i: nat, m: Message, broadcast: bool, front: bool)
    requires Inv(s) && i < |s.queues|
    ensures WellFormed(s) && Enabled(s, Post(i, m, broadcast, front)) && s.queues[i].waiting <= s.core.tasks.Keys
    ensures var s' := Next(s, Post(i, m, broadcast, front));
            && s'.core == PostCore(s.core, s.queues[i], m, broadcast)
            && s'.queues == s.queues[i := PostQueue(s.queues[i], m, broadcast, front)]
  {
  }

  lemma AbortStep(s: State, i: nat, broadcast: bool)
    requires Inv(s) && i < |s.queues|
    ensures WellFormed(s) && Enabled(s, PendAbort(i, broadcast)) && s.queues[i].waiting <= s.core.tasks.Keys
    ensures Targets(s.queues[i], broadcast) <= s.core.tasks.Keys
    ensures var s', who := Next(s, PendAbort(i, broadcast)), Targets(s.queues[i], broadcast);
            && s'.core == WakeTasks(s.core, who, NULL, Aborted)
            && s'.queues == s.queues[i := WakeQueue(s.queues[i], who)]
  {
  }

  /** What `OSQAccept` and `OSQPend` find. */
  function Head(q: Queue): Option<Message> {
    if q.contents == [] then None else Some(q.contents[0])
  }

  function Tail(q: Queue): Queue {
    if q.contents == [] then q else q.(contents := q.contents[1..])
  }

  lemma AcceptStep(s: State, i: nat)
    requires Inv(s) && i < |s.queues|
    ensures WellFormed(s) && Enabled(s, Accept(i))
    ensures Next(s, Accept(i)).core == s.core && Next(s, Accept(i)).queues == s.queues[i := Tail(s.queues[i])]
  {
  }

  lemma FlushStep(s: State, i: nat)
    requires Inv(s) && i < |s.queues|
    ensures WellFormed(s) && Enabled(s, Flush(i))
    ensures Next(s, Flush(i)).core == s.core
    ensures Next(s, Flush(i)).queues == s.queues[i := s.queues[i].(contents := [])]
  {
  }

  lemma PendStep(s: State, i: nat, p: nat, timeout: nat)
    requires Inv(s) && i < |s.queues| && Running(s, p)
    ensures WellFormed(s) && Enabled(s, Pend(i, p, timeout))
    ensures var s', q := Next(s, Pend(i, p, timeout)), s.queues[i];
            if q.contents == []
            then s'.core == Block(s.core, i, p, timeout) && s'.queues == s.queues[i := q.(waiting := q.waiting + {p})]
            else s'.core == s.core && s'.queues == s.queues[i := Tail(q)]
  {
  }

  /** The task of priority `p` runs again within `OSQPend` on queue `i`. */
  predicate Resumes(s: State, i: nat, p: nat) {
    p in s.core.tasks && p in s.core.ready && s.core.tasks[p].place == InPend(i)
  }

  lemma ReturnStep(s: State, i: nat, p: nat)
    requires Inv(s) && i < |s.queues| && Resumes(s, i, p)
    ensures WellFormed(s) && Enabled(s, PendReturn(p))
    ensures var s' := Next(s, PendReturn(p));
            s'.core == Return(s.core, p) && s'.queues == s.queues[i := ReturnQueue(s.core, s.queues[i], p)]
  {
  }

  /** The calls that concern no queue. */
  lemma TaskStep(s: State, a: Step)
    requires Inv(s) && Enabled(s, a)
    requires a.TimeTick? || a.TimeDelay? || a.TimeDelayResume? || a.TaskSuspend? || a.TaskResume? || a.TaskCreate?
    ensures WellFormed(s) && Next(s, a).queues == s.queues
  {
  }

  /** The queues of the kernel `k`, one in each storage area. */
  method CreateQueues(k: Kernel, storage: seq<array<Message>>) returns (made: seq<MessageQueue>)
    requires forall i, j | 0 <= i < j < |storage| :: storage[i] != storage[j]
    ensures |made| == |storage|
    ensures forall i | 0 <= i < |made| :: made[i].ring.slots == storage[i] && Created(made[i])
    ensures forall i | 0 <= i < |made| :: fresh(made[i].waiting) && fresh(made[i].waiting.tbl)
    ensures forall i, j | 0 <= i < j < |made| :: Apart(made[i], made[j])
  {
    made := [];
    while |made| < |storage|
      invariant |made| <= |storage|
      invariant forall i | 0 <= i < |made| :: made[i].ring.slots == storage[i] && Created(made[i])
      invariant forall i | 0 <= i < |made| :: fresh(made[i].waiting) && fresh(made[i].waiting.tbl)
      invariant forall i, j | 0 <= i < j < |made| :: Apart(made[i], made[j])
    {
      var q := new MessageQueue(storage[|made|]);
      made := made + [q];
    }
  }

  class System {
    const kernel: Kernel
    const queues: seq<MessageQueue>
    /** The states so far and the steps between them. */
    ghost var run: seq<State>
    ghost var steps: seq<Step>

    ghost function Sizes(): seq<nat> {
      seq(|queues|, i requires 0 <= i < |queues| => queues[i].ring.slots.Length)
    }

    /** The memory of all queues but number `i`. */
    ghost function Others(i: nat): set<object> {
      (set j | 0 <= j < |queues| && j != i :: queues[j].waiting)
      + (set j | 0 <= j < |queues| && j != i :: queues[j].waiting.tbl)
      + (set j | 0 <= j < |queues| && j != i :: queues[j].ring)
      + (set j | 0 <= j < |queues| && j != i :: queues[j].ring.slots)
    }

    ghost function Repr(): set<object> {
      {this, kernel, kernel.ready, kernel.ready.tbl} + Others(|queues|)
    }

    /** Each list, ring and table has its own memory. */
    ghost predicate Separate() {
      && (forall q <- queues :: q.waiting != kernel.ready && q.waiting.tbl != kernel.ready.tbl)
      && (forall q <- queues :: q.ring.slots as object != kernel.ready.tbl && q.ring.slots as object != q.waiting.tbl)
      && (forall i, j | 0 <= i < j < |queues| :: Apart(queues[i], queues[j]))
    }

    lemma OthersApart(i: nat)
      requires Separate()
      ensures forall o <- Others(i) :: allocated(o)
      ensures Others(i) !! {this, kernel, kernel.ready, kernel.ready.tbl}
      ensures i < |queues| ==>
                Others(i) !! {queues[i].waiting, queues[i].waiting.tbl, queues[i].ring, queues[i].ring.slots}
      ensures i < |queues| ==>
                {queues[i].waiting, queues[i].waiting.tbl, queues[i].ring, queues[i].ring.slots} <= Repr()
      ensures {this, kernel, kernel.ready, kernel.ready.tbl} <= Repr()
    {
    }

    /** The queues other than number `i` are in state `s`. */
    ghost predicate OthersShow(i: nat, s: State)
      reads Others(i)
    {
      && |s.queues| == |queues|
      && forall j | 0 <= j < |queues| && j != i :: queues[j].Valid() && s.queues[j] == queues[j].View()
    }

    ghost predicate Valid()
      reads Repr()
    {
      && Separate() && IsRun(Sizes(), run, steps)
      && kernel.Valid() && kernel.View() == run[|run| - 1].core && OthersShow(|queues|, run[|run| - 1])
    }

    /** The state that the memory is in. */
    ghost function Now(): State
      requires Valid()
      reads Repr()
    {
      run[|run| - 1]
    }

    /** Exactly step `a` has been taken. */
    twostate predicate Took(a: Step)
      reads this
    {
      steps == old(steps) + [a] && old(run) < run
    }

    /** `OSInit`, and `OSQCreate` for each of the given storage areas. */
    constructor (storage: seq<array<Message>>)
      requires forall i, j | 0 <= i < j < |storage| :: storage[i] != storage[j]
      ensures Valid() && steps == [] && |queues| == |storage|
      ensures forall i | 0 <= i < |queues| :: queues[i].ring.slots == storage[i]
    {
      var k := new Kernel();
      var made := CreateQueues(k, storage);
      kernel, queues := k, made;
      run, steps := [Initial(seq(|made|, i requires 0 <= i < |made| => made[i].ring.slots.Length))], [];
    }

    /** The invariant of the state machine, for the state that the memory is in. */
    lemma Reached()
      requires Valid()
      ensures Inv(Now()) && |Now().queues| == |queues|
    {
      RunKeepsInv(Sizes(), run, steps, |run| - 1);
    }

    lemma Serving(i: nat)
      requires Valid() && i < |queues|
      ensures kernel.Serves(queues[i]) && queues[i].View() == Now().queues[i]
    {
      Reached();
      assert QueueInv(Now().core, i, Now().queues[i]);
    }

    /** What a call on queue `i` leaves alone. */
    twostate lemma Kept(i: nat)
      requires old(Valid()) && unchanged(this) && unchanged(Others(i))
      ensures IsRun(Sizes(), run, steps) && OthersShow(i, old(Now())) && run[|run| - 1] == old(Now())
    {
      var s := old(Now());
      forall j | 0 <= j < |queues| && j != i
        ensures queues[j].Valid() && s.queues[j] == queues[j].View()
      {
        assert {queues[j].waiting, queues[j].waiting.tbl} <= Others(i);
        assert {queues[j].ring, queues[j].ring.slots} <= Others(i);
        assert old(queues[j].Valid());
      }
    }

    /** Enter step `a`, which has changed the memory from the last state of the run to the next. */
    ghost method Record(i: nat, a: Step)
      requires Separate() && IsRun(Sizes(), run, steps)
      requires WellFormed(run[|run| - 1]) && Enabled(run[|run| - 1], a)
      requires kernel.Valid() && (i < |queues| ==> queues[i].Valid()) && OthersShow(i, run[|run| - 1])
      requires var s, queues' := Next(run[|run| - 1], a), run[|run| - 1].queues;
               && s.core == kernel.View()
               && s.queues == if i < |queues| then queues'[i := queues[i].View()] else queues'
      modifies this`run, this`steps
      ensures Valid() && Took(a)
    {
      hide WellFormed, Enabled, Next, Initial;
      ghost var s := Next(run[|run| - 1], a);
      OneMoreStep(Sizes(), run, steps, a);
      run, steps := run + [s], steps + [a];
    }

    /** `OSQPost`. */
    method Post(i: nat, m: Message) returns (ok: bool)
      requires Valid() && i < |queues|
      modifies Repr()
      ensures Valid() && Took(Step.Post(i, m, false, false)) && ok == Accepts(old(Now()).queues[i])
      ensures queues[i].Valid() && old(queues[i].Valid())
      ensures ok && old(queues[i].waiting.Elements()) == {} ==>
                queues[i].ring.Contents() == old(queues[i].ring.Contents()) + [m]
    {
      hide Others, IsRun, Inv, Next, Enabled, WellFormed, PostCore, PostQueue;
      hide PriorityMap.Map.Summarised, PriorityMap.Map.Elements;
      Reached();
      Serving(i);
      OthersApart(i);
      PostStep(Now(), i, m, false, false);
      ok := kernel.Post(queues[i], m);
      Kept(i);
      Record(i, Step.Post(i, m, false, false));
    }

    /** `OSQPostFront`. */
    method PostFront(i: nat, m: Message) returns (ok: bool)
      requires Valid() && i < |queues|
      modifies Repr()
      ensures Valid() && Took(Step.Post(i, m, false, true)) && ok == Accepts(old(Now()).queues[i])
      ensures queues[i].Valid() && old(queues[i].Valid())
      ensures ok && old(queues[i].waiting.Elements()) == {} ==>
                queues[i].ring.Contents() == [m] + old(queues[i].ring.Contents())
    {
      hide Others, IsRun, Inv, Next, Enabled, WellFormed, PostCore, PostQueue;
      hide PriorityMap.Map.Summarised, PriorityMap.Map.Elements;
      Reached();
      Serving(i);
      OthersApart(i);
      PostStep(Now(), i, m, false, true);
      ok := kernel.PostFront(queues[i], m);
      Kept(i);
      Record(i, Step.Post(i, m, false, true));
    }

    /** `OSQPostOpt`. */
    method PostOpt(i: nat, m: Message, broadcast: bool, front: bool) returns (ok: bool)
      requires Valid() && i < |queues|
      modifies Repr()
      ensures Valid() && Took(Step.Post(i, m, broadcast, front)) && ok == Accepts(old(Now()).queues[i])
      ensures queues[i].Valid() && old(queues[i].Valid())
      ensures ok && old(queues[i].waiting.Elements()) == {} ==>
                queues[i].ring.Contents() == if front then [m] + old(queues[i].ring.Contents())
                                             else old(queues[i].ring.Contents()) + [m]
    {
      hide Others, IsRun, Inv, Next, Enabled, WellFormed, PostCore, PostQueue;
      hide PriorityMap.Map.Summarised, PriorityMap.Map.Elements;
      Reached();
      Serving(i);
      OthersApart(i);
      PostStep(Now(), i, m, broadcast, front);
      ok := kernel.PostOpt(queues[i], m, broadcast, front);
      Kept(i);
      Record(i, Step.Post(i, m, broadcast, front));
    }

    /** `OSQPendAbort`. */
    method PendAbort(i: nat, broadcast: bool) returns (n: nat)
      requires Valid() && i < |queues|
      modifies Repr()
      ensures Valid() && Took(Step.PendAbort(i, broadcast)) && n == |Targets(old(Now()).queues[i], broadcast)|
    {
      hide Others, IsRun, Inv, Next, Enabled, WellFormed, WakeTasks, WakeQueue;
      hide PriorityMap.Map.Summarised, PriorityMap.Map.Elements;
      Reached();
      Serving(i);
      OthersApart(i);
      AbortStep(Now(), i, broadcast);
      n := kernel.PendAbort(queues[i], broadcast);
      Kept(i);
      Record(i, Step.PendAbort(i, broadcast));
    }

    /** `OSQAccept`. */
    method Accept(i: nat) returns (m: Option<Message>)
      requires Valid() && i < |queues|
      modifies Repr()
      ensures Valid() && Took(Step.Accept(i)) && m == Head(old(Now()).queues[i])
    {
      hide Others, IsRun, Inv, Next, Enabled, WellFormed;
      hide PriorityMap.Map.Summarised, PriorityMap.Map.Elements;
      Reached();
      Serving(i);
      OthersApart(i);
      AcceptStep(Now(), i);
      m := kernel.Accept(queues[i]);
      Kept(i);
      Record(i, Step.Accept(i));
    }

    /** `OSQFlush`. */
    method Flush(i: nat)
      requires Valid() && i < |queues|
      modifies Repr()
      ensures Valid() && Took(Step.Flush(i))
    {
      hide Others, IsRun, Inv, Next, Enabled, WellFormed;
      hide PriorityMap.Map.Summarised, PriorityMap.Map.Elements;
      Reached();
      Serving(i);
      OthersApart(i);
      FlushStep(Now(), i);
      kernel.Flush(queues[i]);
      Kept(i);
      Record(i, Step.Flush(i));
    }

    /** `OSQPend`, called by the running task of priority `p`, up to the point where it is switched out. */
    method Pend(i: nat, p: nat, timeout: nat) returns (m: Option<Message>)
      requires Valid() && i < |queues| && Running(Now(), p)
      modifies Repr()
      ensures Valid() && Took(Step.Pend(i, p, timeout)) && m == Head(old(Now()).queues[i])
    {
      hide Others, IsRun, Inv, Next, Enabled, WellFormed, Block;
      hide PriorityMap.Map.Summarised, PriorityMap.Map.Elements;
      Reached();
      Serving(i);
      OthersApart(i);
      PendStep(Now(), i, p, timeout);
      m := kernel.Pend(queues[i], i, p, timeout);
      Kept(i);
      Record(i, Step.Pend(i, p, timeout));
    }

    /** `OSQPend` after it, when the task runs again. */
    method PendReturn(i: nat, p: nat) returns (v: Verdict, m: Message)
      requires Valid() && i < |queues| && Resumes(Now(), i, p)
      modifies Repr()
      ensures Valid() && Took(Step.PendReturn(p)) && v == old(Now()).core.tasks[p].verdict
      ensures m == if v == Fine then old(Now()).core.tasks[p].message else NULL
    {
      hide Others, IsRun, Inv, Next, Enabled, WellFormed, Return, ReturnQueue;
      hide PriorityMap.Map.Summarised, PriorityMap.Map.Elements;
      Reached();
      Serving(i);
      OthersApart(i);
      ReturnStep(Now(), i, p);
      v, m := kernel.PendReturn(queues[i], p);
      Kept(i);
      Record(i, Step.PendReturn(p));
    }

    /** One task's share of `OSTimeTick`, which leaves out the idle task. */
    method TimeTick(p: nat)
      requires Valid() && p in kernel.tasks && p != PriorityMap.LOWEST
      modifies Repr()
      ensures Valid() && Took(Step.TimeTick(p))
    {
      hide Others, IsRun, Inv, WellFormed;
      hide PriorityMap.Map.Summarised, PriorityMap.Map.Elements;
      ghost var none := |queues|;
      Reached();
      OthersApart(none);
      TaskStep(Now(), Step.TimeTick(p));
      kernel.TimeTick(p);
      Kept(none);
      Record(none, Step.TimeTick(p));
    }

    /** `OSTimeDly`, called by the running task of priority `p`. */
    method TimeDly(p: nat, ticks: nat)
      requires Valid() && Running(Now(), p)
      modifies Repr()
      ensures Valid() && Took(TimeDelay(p, ticks))
    {
      hide Others, IsRun, Inv, WellFormed;
      hide PriorityMap.Map.Summarised, PriorityMap.Map.Elements;
      ghost var none := |queues|;
      Reached();
      OthersApart(none);
      TaskStep(Now(), TimeDelay(p, ticks));
      kernel.TimeDly(p, ticks);
      Kept(none);
      Record(none, TimeDelay(p, ticks));
    }

    /** `OS_TCBInit` for a free priority. */
    method TaskCreate(p: nat)
      requires Valid() && p !in kernel.tasks && PriorityMap.IsPriority(p)
      modifies Repr()
      ensures Valid() && Took(Step.TaskCreate(p))
    {
      hide Others, IsRun, Inv, WellFormed;
      hide PriorityMap.Map.Summarised, PriorityMap.Map.Elements;
      ghost var none := |queues|;
      Reached();
      OthersApart(none);
      TaskStep(Now(), Step.TaskCreate(p));
      kernel.TaskCreate(p);
      Kept(none);
      Record(none, Step.TaskCreate(p));
    }

    /** `OSTimeDlyResume`; a call that finds no delay to end is no step. */
    method TimeDlyResume(p: nat) returns (ok: bool)
      requires Valid()
      modifies Repr()
      ensures Valid() && if ok then Took(TimeDelayResume(p)) else run == old(run) && steps == old(steps)
      ensures ok <==> p < PriorityMap.LOWEST && p in old(kernel.tasks) && old(kernel.tasks)[p].delay != 0
    {
      hide Others, IsRun, Inv, WellFormed;
      hide PriorityMap.Map.Summarised, PriorityMap.Map.Elements;
      ghost var s, none := Now(), |queues|;
      Reached();
      OthersApart(none);
      ok := kernel.TimeDlyResume(p);
      Kept(none);
      if ok {
        TaskStep(s, TimeDelayResume(p));
        Record(none, TimeDelayResume(p));
      }
    }

    /** `OSTaskSuspend`. */
    method TaskSuspend(p: nat) returns (ok: bool)
      requires Valid()
      modifies Repr()
      ensures Valid() && if ok then Took(Step.TaskSuspend(p)) else run == old(run) && steps == old(steps)
      ensures ok <==> p in old(kernel.tasks)
    {
      hide Others, IsRun, Inv, WellFormed;
      hide PriorityMap.Map.Summarised, PriorityMap.Map.Elements;
      ghost var s, none := Now(), |queues|;
      Reached();
      OthersApart(none);
      ok := kernel.TaskSuspend(p);
      Kept(none);
      if ok {
        TaskStep(s, Step.TaskSuspend(p));
        Record(none, Step.TaskSuspend(p));
      }
    }

    /** `OSTaskResume`; a call for a task that is not suspended is no step. */
    method TaskResume(p: nat) returns (ok: bool)
      requires Valid()
      modifies Repr()
      ensures Valid() && if ok then Took(Step.TaskResume(p)) else run == old(run) && steps == old(steps)
      ensures ok <==> p in old(kernel.tasks) && old(kernel.tasks)[p].suspended
    {
      hide Others, IsRun, Inv, WellFormed;
      hide PriorityMap.Map.Summarised, PriorityMap.Map.Elements;
      ghost var s, none := Now(), |queues|;
      Reached();
      OthersApart(none);
      ok := kernel.TaskResume(p);
      Kept(none);
      if ok {
        TaskStep(s, Step.TaskResume(p));
        Record(none, Step.TaskResume(p));
      }
    }

    /** `OS_SchedNew`: the highest priority among the tasks that can run, or zero if none can. */
    method SchedNew() returns (p: nat)
      requires Valid()
      ensures (forall q <- kernel.tasks :: !kernel.tasks[q].Able()) ==> p == 0
      ensures (exists q <- kernel.tasks :: kernel.tasks[q].Able()) ==>
                && p in kernel.tasks && kernel.tasks[p].Able()
                && forall q <- kernel.tasks | q < p :: !kernel.tasks[q].Able()
    {
      hide Initial, Inv, Separate, OthersShow;
      SchedulerFindsHighest(Sizes(), run, steps, |run| - 1);
      p := kernel.SchedNew();
    }

    /** After any calls, the wait list and the ring of a queue are not both in use. */
    lemma WaitersFindNothing(i: nat)
      requires Valid() && i < |queues|
      ensures queues[i].Valid()
      ensures queues[i].waiting.Elements() == {} || queues[i].ring.Contents() == []
    {
      NoMissedMessage(Sizes(), run, steps, |run| - 1, i);
      assert Now().queues[i] == queues[i].View();
    }

    /** And without posts to the front and flushes, the ring holds what was accepted and not yet taken, in order. */
    lemma RingHoldsTheRest(i: nat)
      requires Valid() && i < |queues| && forall k | 0 <= k < |steps| :: InOrder(steps[k], i)
      ensures queues[i].Valid() && i < |Now().log.accepted| && i < |Now().log.taken|
      ensures Now().log.accepted[i] == Now().log.taken[i] + queues[i].ring.Contents()
    {
      FirstInFirstOut(Sizes(), run, steps, |run| - 1, i);
      assert Now().queues[i] == queues[i].View();
    }
  }
}

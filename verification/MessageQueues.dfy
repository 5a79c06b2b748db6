/**
 * Tasks that delay, are suspended, and wait on message queues with timeouts, against interrupt handlers and
 * other tasks that do anything at any moment. One step is one critical section of the kernel.
 */
module MessageQueues {
  import opened PriorityMap
  import opened MessageRing

  /** `OSTCBStatPend`. */
  datatype Verdict = Fine | TimedOut | Aborted

  /** Where a task is in its own code: `OSQPend` on a queue, between its two critical sections, or elsewhere. */
  datatype Place = Elsewhere | InPend(queue: nat)

  /**
   * A task control block: the bits OS_STAT_Q and OS_STAT_SUSPEND of `OSTCBStat`, `OSTCBStatPend`, `OSTCBDly`
   * and `OSTCBMsg`.
   */
  datatype Task = Task(
    place: Place, pending: bool, suspended: bool, verdict: Verdict, delay: nat, message: Message)
  {
    predicate Able() {
      !pending && !suspended && delay == 0
    }

    /** A message has been handed to the task, which has not yet run to return it. */
    predicate Carries() {
      place.InPend? && !pending && verdict == Fine
    }
  }

  /** The tasks by priority, and the ready list. */
  datatype Core = Core(tasks: map<nat, Task>, ready: set<nat>)

  datatype Queue = Queue(size: nat, contents: seq<Message>, waiting: set<nat>)

  const FRESH: Task := Task(Elsewhere, false, false, Fine, 0, NULL)

  // ---- The critical sections ----

  ghost predicate IsLeast(p: nat, s: set<nat>) {
    p in s && forall q <- s :: p <= q
  }

  /** The highest priority in a wait list. */
  ghost function Least(s: set<nat>): (p: nat)
    requires s != {}
    ensures IsLeast(p, s)
  {
    LeastExists(s);
    var p :| IsLeast(p, s);
    p
  }

  lemma {:induction false} LeastExists(s: set<nat>)
    requires s != {}
    ensures exists p :: IsLeast(p, s)
  {
    var x :| x in s;
    var rest := s - {x};
    assert forall q <- s :: q == x || q in rest;
    if rest == {} {
      assert IsLeast(x, s);
    } else {
      LeastExists(rest);
      var y :| IsLeast(y, rest);
      assert IsLeast(if x < y then x else y, s);
    }
  }

  /** What `OS_EventTaskRdy` makes of a task it wakes. */
  function Woken(t: Task, m: Message, v: Verdict): Task {
    t.(pending := false, verdict := v, delay := 0, message := m)
  }

  /** `OS_EventTaskRdy` for each task of `who`, with the ready list following suit. */
  ghost function WakeTasks(k: Core, who: set<nat>, m: Message, v: Verdict): Core
    requires who <= k.tasks.Keys
  {
    Core(map p | p in k.tasks :: if p in who then Woken(k.tasks[p], m, v) else k.tasks[p],
         k.ready + set p | p in who && !k.tasks[p].suspended)
  }

  ghost function WakeQueue(q: Queue, who: set<nat>): Queue {
    q.(waiting := q.waiting - who)
  }

  /** Whom a post wakes: everyone, or the waiter of the highest priority. */
  ghost function Targets(q: Queue, broadcast: bool): set<nat> {
    if broadcast || q.waiting == {} then q.waiting else {Least(q.waiting)}
  }

  function Accepts(q: Queue): bool {
    q.waiting != {} || |q.contents| < q.size
  }

  function Stored(q: Queue, m: Message, front: bool): Queue {
    if |q.contents| >= q.size then q
    else q.(contents := if front then [m] + q.contents else q.contents + [m])
  }

  /** `OSQPost`, `OSQPostFront`, `OSQPostOpt`. */
  ghost function PostCore(k: Core, q: Queue, m: Message, broadcast: bool): Core
    requires q.waiting <= k.tasks.Keys
  {
    WakeTasks(k, Targets(q, broadcast), m, Fine)
  }

  ghost function PostQueue(q: Queue, m: Message, broadcast: bool, front: bool): Queue {
    if q.waiting == {} then Stored(q, m, front) else WakeQueue(q, Targets(q, broadcast))
  }

  /** The first critical section of `OSQPend` on an empty queue. */
  function Block(k: Core, i: nat, p: nat, timeout: nat): Core
    requires p in k.tasks
  {
    var t := k.tasks[p].(place := InPend(i), pending := true, verdict := Fine, delay := timeout);
    Core(k.tasks[p := t], k.ready - {p})
  }

  /** The second one. */
  function Return(k: Core, p: nat): Core
    requires p in k.tasks
  {
    var t := k.tasks[p];
    k.(tasks := k.tasks[p := t.(
        place := Elsewhere, pending := false, suspended := false, verdict := Fine, message := NULL)])
  }

  /** Only a timed-out task is still in the wait list. */
  function ReturnQueue(k: Core, q: Queue, p: nat): Queue
    requires p in k.tasks
  {
    if k.tasks[p].verdict == TimedOut then q.(waiting := q.waiting - {p}) else q
  }

  /** The end of a delay or timeout, as in `OSTimeTick` and `OSTimeDlyResume`. */
  function Expire(k: Core, p: nat): Core
    requires p in k.tasks
  {
    var t := k.tasks[p];
    Core(k.tasks[p := t.(delay := 0, pending := false, verdict := if t.pending then TimedOut else Fine)],
         if t.suspended then k.ready else k.ready + {p})
  }

  /** `OSTimeTick` for one task. */
  function Tick(k: Core, p: nat): Core
    requires p in k.tasks
  {
    var t := k.tasks[p];
    if t.delay == 0 then k
    else if t.delay == 1 then Expire(k, p)
    else k.(tasks := k.tasks[p := t.(delay := t.delay - 1)])
  }

  /** `OSTimeDly`. */
  function Delay(k: Core, p: nat, ticks: nat): Core
    requires p in k.tasks
  {
    if ticks == 0 then k else Core(k.tasks[p := k.tasks[p].(delay := ticks)], k.ready - {p})
  }

  /** `OSTimeDlyResume`. */
  function DelayResume(k: Core, p: nat): Core
    requires p in k.tasks
  {
    if k.tasks[p].delay == 0 then k else Expire(k, p)
  }

  /** `OSTaskSuspend`. */
  function Suspend(k: Core, p: nat): Core
    requires p in k.tasks
  {
    Core(k.tasks[p := k.tasks[p].(suspended := true)], k.ready - {p})
  }

  /** `OSTaskResume`. */
  function Resume(k: Core, p: nat): Core
    requires p in k.tasks
  {
    var t := k.tasks[p].(suspended := false);
    if !k.tasks[p].suspended then k
    else Core(k.tasks[p := t], if t.Able() then k.ready + {p} else k.ready)
  }

  /** `OS_TCBInit`. */
  function Create(k: Core, p: nat): Core {
    Core(k.tasks[p := FRESH], k.ready + {p})
  }

  // ---- The state machine ----

  /**
   * What happened so far: per queue the messages accepted, taken out (returned at once or handed to a waiter)
   * and flushed; per priority the messages a task was given and those its calls of `OSQPend` returned.
   */
  datatype Log = Log(
    accepted: seq<seq<Message>>, taken: seq<seq<Message>>, flushed: seq<seq<Message>>,
    given: seq<seq<Message>>, got: seq<seq<Message>>)

  datatype State = State(core: Core, queues: seq<Queue>, log: Log) {
    ghost predicate Shaped() {
      && |log.accepted| == |log.taken| == |log.flushed| == |queues|
      && |log.given| == |log.got| == LOWEST + 1
      && LOWEST in core.tasks
      && (forall p <- core.tasks :: IsPriority(p))
      && (forall p <- core.tasks :: core.tasks[p].place.InPend? ==> core.tasks[p].place.queue < |queues|)
    }

    predicate Waits(i: nat, p: nat)
      requires i < |queues|
    {
      p in queues[i].waiting
    }
  }

  datatype Step =
    | Post(i: nat, m: Message, broadcast: bool, front: bool)
    | Accept(i: nat)
    | PendAbort(i: nat, broadcast: bool)
    | Flush(i: nat)
    | Pend(i: nat, p: nat, timeout: nat)
    | PendReturn(p: nat)
    | TimeTick(p: nat)
    | TimeDelay(p: nat, ticks: nat)
    | TimeDelayResume(p: nat)
    | TaskSuspend(p: nat)
    | TaskResume(p: nat)
    | TaskCreate(p: nat)

  /**
   * When a step can happen. Only a ready task runs its own code. The tick and the early end of a delay pass
   * over the idle task, but nothing keeps it from being suspended, delayed or blocked.
   */
  ghost predicate Enabled(s: State, a: Step)
    requires s.Shaped()
  {
    match a
    case Post(i, _, _, _) => i < |s.queues|
    case Accept(i) => i < |s.queues|
    case PendAbort(i, _) => i < |s.queues|
    case Flush(i) => i < |s.queues|
    case Pend(i, p, _) => i < |s.queues| && Running(s, p)
    case PendReturn(p) => p in s.core.tasks && p in s.core.ready && s.core.tasks[p].place.InPend?
    case TimeTick(p) => p in s.core.tasks && p != LOWEST
    case TimeDelay(p, _) => Running(s, p)
    case TimeDelayResume(p) => p in s.core.tasks && p != LOWEST
    case TaskSuspend(p) => p in s.core.tasks
    case TaskResume(p) => p in s.core.tasks
    case TaskCreate(p) => p !in s.core.tasks && IsPriority(p)
  }

  predicate Running(s: State, p: nat) {
    p in s.core.tasks && p in s.core.ready && s.core.tasks[p].place.Elsewhere?
  }

  // ---- Logs ----

  /** `m` once per task of `who`. */
  function Copies(m: Message, n: nat): (s: seq<Message>)
    ensures |s| == n
  {
    seq(n, _ => m)
  }

  function LogAt(l: seq<seq<Message>>, i: nat, more: seq<Message>): (r: seq<seq<Message>>)
    requires i < |l|
    ensures |r| == |l|
  {
    l[i := l[i] + more]
  }

  /** Every task of `who` is given `m`. */
  function LogGiven(l: seq<seq<Message>>, who: set<nat>, m: Message): (r: seq<seq<Message>>)
    ensures |r| == |l|
  {
    seq(|l|, p requires 0 <= p < |l| => if p in who then l[p] + [m] else l[p])
  }

  // ---- The effect of a step ----

  ghost function Posted(s: State, i: nat, m: Message, broadcast: bool, front: bool): State
    requires s.Shaped() && i < |s.queues| && s.queues[i].waiting <= s.core.tasks.Keys
  {
    var q, who := s.queues[i], Targets(s.queues[i], broadcast);
    var n := if who != {} then |who| else if Accepts(q) then 1 else 0;
    State(PostCore(s.core, q, m, broadcast), s.queues[i := PostQueue(q, m, broadcast, front)],
          s.log.(accepted := LogAt(s.log.accepted, i, Copies(m, n)),
                 taken := LogAt(s.log.taken, i, Copies(m, |who|)),
                 given := LogGiven(s.log.given, who, m)))
  }

  ghost function Aborting(s: State, i: nat, broadcast: bool): State
    requires s.Shaped() && i < |s.queues| && s.queues[i].waiting <= s.core.tasks.Keys
  {
    var who := Targets(s.queues[i], broadcast);
    s.(core := WakeTasks(s.core, who, NULL, Aborted), queues := s.queues[i := WakeQueue(s.queues[i], who)])
  }

  function Accepting(s: State, i: nat): State
    requires i < |s.queues| && |s.log.taken| == |s.queues|
  {
    var q := s.queues[i];
    if q.contents == [] then s
    else s.(queues := s.queues[i := q.(contents := q.contents[1..])],
            log := s.log.(taken := LogAt(s.log.taken, i, [q.contents[0]])))
  }

  function Flushing(s: State, i: nat): State
    requires i < |s.queues| && |s.log.flushed| == |s.queues|
  {
    var q := s.queues[i];
    s.(queues := s.queues[i := q.(contents := [])],
       log := s.log.(flushed := LogAt(s.log.flushed, i, q.contents)))
  }

  ghost function Pending(s: State, i: nat, p: nat, timeout: nat): State
    requires s.Shaped() && i < |s.queues| && p in s.core.tasks
  {
    var q := s.queues[i];
    if q.contents == [] then
      s.(core := Block(s.core, i, p, timeout), queues := s.queues[i := q.(waiting := q.waiting + {p})])
    else
      var t, m := Accepting(s, i), q.contents[0];
      t.(log := t.log.(given := LogAt(s.log.given, p, [m]), got := LogAt(s.log.got, p, [m])))
  }

  ghost function Returning(s: State, p: nat): State
    requires s.Shaped() && p in s.core.tasks && s.core.tasks[p].place.InPend?
  {
    var t := s.core.tasks[p];
    var i := t.place.queue;
    var got := if t.verdict == Fine then LogAt(s.log.got, p, [t.message]) else s.log.got;
    State(Return(s.core, p), s.queues[i := ReturnQueue(s.core, s.queues[i], p)], s.log.(got := got))
  }

  /** Whoever waits exists. */
  ghost predicate WellFormed(s: State) {
    s.Shaped() && forall i | 0 <= i < |s.queues| :: s.queues[i].waiting <= s.core.tasks.Keys
  }

  ghost function Next(s: State, a: Step): State
    requires WellFormed(s) && Enabled(s, a)
  {
    match a
    case Post(i, m, broadcast, front) => Posted(s, i, m, broadcast, front)
    case Accept(i) => Accepting(s, i)
    case PendAbort(i, broadcast) => Aborting(s, i, broadcast)
    case Flush(i) => Flushing(s, i)
    case Pend(i, p, timeout) => Pending(s, i, p, timeout)
    case PendReturn(p) => Returning(s, p)
    case TimeTick(p) => s.(core := Tick(s.core, p))
    case TimeDelay(p, ticks) => s.(core := Delay(s.core, p, ticks))
    case TimeDelayResume(p) => s.(core := DelayResume(s.core, p))
    case TaskSuspend(p) => s.(core := Suspend(s.core, p))
    case TaskResume(p) => s.(core := Resume(s.core, p))
    case TaskCreate(p) => s.(core := Create(s.core, p))
  }

  // ---- The invariant ----

  predicate TaskInv(t: Task) {
    && (t.pending ==> t.place.InPend? && t.verdict == Fine)
    && (t.place.InPend? && !t.pending ==> t.delay == 0)
    && (t.place.Elsewhere? ==> t.verdict == Fine)
  }

  /** A task is in a wait list exactly while it pends on that queue, or has timed out and not run since. */
  predicate WaitInv(t: Task, i: nat, waits: bool) {
    waits <==> t.place == InPend(i) && (t.pending || t.verdict == TimedOut)
  }

  ghost predicate QueueInv(k: Core, i: nat, q: Queue) {
    && q.waiting <= k.tasks.Keys
    && (forall p <- k.tasks :: WaitInv(k.tasks[p], i, p in q.waiting))
    && |q.contents| <= q.size
    && (q.waiting != {} ==> q.contents == [])
  }

  ghost predicate Balanced(s: State, i: nat)
    requires s.Shaped() && i < |s.queues|
  {
    multiset(s.log.accepted[i]) ==
    multiset(s.log.taken[i]) + multiset(s.queues[i].contents) + multiset(s.log.flushed[i])
  }

  /** What a task was given is what its calls returned, and the message it carries, if any. */
  ghost predicate Delivered(s: State, p: nat)
    requires s.Shaped() && IsPriority(p)
  {
    s.log.given[p] ==
    s.log.got[p] + if p in s.core.tasks && s.core.tasks[p].Carries() then [s.core.tasks[p].message] else []
  }

  ghost predicate CoreInv(k: Core) {
    && LOWEST in k.tasks
    && (forall p <- k.tasks :: IsPriority(p) && TaskInv(k.tasks[p]))
    && k.ready <= k.tasks.Keys
    && (forall p <- k.tasks :: p in k.ready <==> k.tasks[p].Able())
  }

  ghost predicate QueuesInv(k: Core, queues: seq<Queue>) {
    forall i | 0 <= i < |queues| :: QueueInv(k, i, queues[i])
  }

  ghost predicate LogInv(s: State)
    requires s.Shaped()
  {
    && (forall i | 0 <= i < |s.queues| :: Balanced(s, i))
    && (forall p: nat | p <= LOWEST :: Delivered(s, p))
  }

  ghost predicate Inv(s: State) {
    s.Shaped() && CoreInv(s.core) && QueuesInv(s.core, s.queues) && LogInv(s)
  }

  /** The states of the queues `sizes` before any task but the idle task exists. */
  ghost function Initial(sizes: seq<nat>): State {
    var none: seq<seq<Message>> := seq(|sizes|, _ => []);
    var nobody: seq<seq<Message>> := seq(LOWEST + 1, _ => []);
    State(Core(map[LOWEST := FRESH], {LOWEST}),
          seq(|sizes|, i requires 0 <= i < |sizes| => Queue(sizes[i], [], {})),
          Log(none, none, none, nobody, nobody))
  }

  lemma InitialInv(sizes: seq<nat>)
    ensures Inv(Initial(sizes))
  {
    var s := Initial(sizes);
    assert LOWEST in s.core.tasks.Keys;
    forall i | 0 <= i < |s.queues|
      ensures Balanced(s, i)
    {
      assert s.queues[i].contents == [];
    }
    forall p: nat | p <= LOWEST
      ensures Delivered(s, p)
    {
      assert s.log.given[p] == s.log.got[p] == [];
    }
  }

  // ---- Every step keeps it ----

  /** A change of one task that no wait list and no delivery can see. */
  predicate Invisible(t: Task, u: Task) {
    && u.place == t.place
    && (u.pending || u.verdict == TimedOut <==> t.pending || t.verdict == TimedOut)
    && (u.Carries() <==> t.Carries()) && u.message == t.message
  }

  ghost predicate Changes(k: Core, p: nat, k': Core)
    requires p in k.tasks
  {
    && p in k'.tasks && k'.tasks == k.tasks[p := k'.tasks[p]]
    && k'.ready - {p} == k.ready - {p}
    && (p in k'.ready <==> k'.tasks[p].Able())
  }

  lemma ChangeKeepsCore(k: Core, p: nat, k': Core)
    requires CoreInv(k) && p in k.tasks && Changes(k, p, k') && TaskInv(k'.tasks[p])
    ensures CoreInv(k')
  {
    assert k'.ready <= k'.tasks.Keys by {
      assert forall q <- k'.ready :: q == p || q in k.ready - {p};
    }
    forall q <- k'.tasks
      ensures IsPriority(q) && TaskInv(k'.tasks[q]) && (q in k'.ready <==> k'.tasks[q].Able())
    {
      assert q == p || (q in k.tasks && k'.tasks[q] == k.tasks[q]);
      assert q != p ==> (q in k'.ready <==> q in k'.ready - {p}) && (q in k.ready <==> q in k.ready - {p});
    }
  }

  lemma ChangeKeepsQueue(k: Core, p: nat, k': Core, i: nat, q: Queue)
    requires p in k.tasks && Changes(k, p, k') && Invisible(k.tasks[p], k'.tasks[p]) && QueueInv(k, i, q)
    ensures QueueInv(k', i, q)
  {
    forall r <- k'.tasks
      ensures WaitInv(k'.tasks[r], i, r in q.waiting)
    {
      assert r == p || (r in k.tasks && k'.tasks[r] == k.tasks[r]);
    }
  }

  lemma ChangeKeepsLog(s: State, p: nat, k': Core)
    requires s.Shaped() && LogInv(s) && p in s.core.tasks
    requires Changes(s.core, p, k') && Invisible(s.core.tasks[p], k'.tasks[p])
    ensures var s' := s.(core := k'); s'.Shaped() && LogInv(s')
  {
    var s' := s.(core := k');
    assert forall q <- k'.tasks :: q == p || (q in s.core.tasks && k'.tasks[q] == s.core.tasks[q]);
    forall i | 0 <= i < |s.queues|
      ensures Balanced(s', i)
    {
      assert Balanced(s, i);
    }
    forall q: nat | q <= LOWEST
      ensures Delivered(s', q)
    {
      assert Delivered(s, q);
    }
  }

  lemma ChangeKeepsInv(s: State, p: nat, k': Core)
    requires Inv(s) && p in s.core.tasks && Changes(s.core, p, k')
    requires TaskInv(k'.tasks[p]) && Invisible(s.core.tasks[p], k'.tasks[p])
    ensures Inv(s.(core := k'))
  {
    hide Changes, Invisible, TaskInv, CoreInv, QueueInv, LogInv;
    ChangeKeepsCore(s.core, p, k');
    ChangeKeepsLog(s, p, k');
    forall i | 0 <= i < |s.queues|
      ensures QueueInv(k', i, s.queues[i])
    {
      ChangeKeepsQueue(s.core, p, k', i, s.queues[i]);
    }
  }

  /** Tasks that wait on queue `i`. */
  ghost predicate Waiters(k: Core, i: nat, who: set<nat>) {
    who <= k.tasks.Keys &&
    forall p <- who :: k.tasks[p].place == InPend(i) && (k.tasks[p].pending || k.tasks[p].verdict == TimedOut)
  }

  lemma WakeKeepsCore(k: Core, i: nat, who: set<nat>, m: Message, v: Verdict)
    requires CoreInv(k) && Waiters(k, i, who) && v != TimedOut
    ensures CoreInv(WakeTasks(k, who, m, v))
  {
  }

  lemma WakeKeepsQueue(k: Core, i: nat, q: Queue, who: set<nat>, m: Message, v: Verdict)
    requires CoreInv(k) && QueueInv(k, i, q) && who <= q.waiting && v != TimedOut
    ensures QueueInv(WakeTasks(k, who, m, v), i, WakeQueue(q, who))
  {
    var k' := WakeTasks(k, who, m, v);
    forall p <- k'.tasks
      ensures WaitInv(k'.tasks[p], i, p in WakeQueue(q, who).waiting)
    {
      assert WaitInv(k.tasks[p], i, p in q.waiting);
    }
  }

  lemma WakeKeepsOther(k: Core, i: nat, who: set<nat>, m: Message, v: Verdict, j: nat, q: Queue)
    requires Waiters(k, i, who) && QueueInv(k, j, q) && j != i
    ensures QueueInv(WakeTasks(k, who, m, v), j, q)
  {
    var k' := WakeTasks(k, who, m, v);
    forall p <- k'.tasks
      ensures WaitInv(k'.tasks[p], j, p in q.waiting)
    {
      assert WaitInv(k.tasks[p], j, p in q.waiting);
    }
  }

  /** One queue changes with the tasks, the others stay. */
  lemma QueuesKept(k: Core, queues: seq<Queue>, k': Core, i: nat, q': Queue)
    requires QueuesInv(k, queues) && i < |queues| && QueueInv(k', i, q')
    requires forall j | 0 <= j < |queues| && j != i :: QueueInv(k', j, queues[j])
    ensures QueuesInv(k', queues[i := q'])
  {
  }

  lemma WakeKeepsQueues(k: Core, queues: seq<Queue>, i: nat, who: set<nat>, m: Message, v: Verdict, q': Queue)
    requires CoreInv(k) && QueuesInv(k, queues) && i < |queues| && Waiters(k, i, who)
    requires QueueInv(WakeTasks(k, who, m, v), i, q')
    ensures QueuesInv(WakeTasks(k, who, m, v), queues[i := q'])
  {
    hide CoreInv, WakeTasks, QueueInv;
    var k' := WakeTasks(k, who, m, v);
    forall j | 0 <= j < |queues| && j != i
      ensures QueueInv(k', j, queues[j])
    {
      WakeKeepsOther(k, i, who, m, v, j, queues[j]);
    }
    QueuesKept(k, queues, k', i, q');
  }

  lemma TargetsWait(k: Core, i: nat, q: Queue, broadcast: bool)
    requires QueueInv(k, i, q)
    ensures Targets(q, broadcast) <= q.waiting && Waiters(k, i, Targets(q, broadcast))
    ensures q.waiting != {} ==> Targets(q, broadcast) != {}
  {
    forall p <- q.waiting
      ensures k.tasks[p].place == InPend(i) && (k.tasks[p].pending || k.tasks[p].verdict == TimedOut)
    {
      assert WaitInv(k.tasks[p], i, true);
    }
  }

  lemma PostKeepsQueue(k: Core, i: nat, q: Queue, m: Message, broadcast: bool, front: bool)
    requires CoreInv(k) && QueueInv(k, i, q)
    ensures QueueInv(PostCore(k, q, m, broadcast), i, PostQueue(q, m, broadcast, front))
  {
    TargetsWait(k, i, q, broadcast);
    WakeKeepsQueue(k, i, q, Targets(q, broadcast), m, Fine);
    assert q.waiting == {} ==> WakeQueue(q, Targets(q, broadcast)) == q;
  }

  /** What a wake-up does to the deliveries. */
  lemma WakeDelivers(s: State, i: nat, who: set<nat>, m: Message, v: Verdict, s': State)
    requires s.Shaped() && LogInv(s) && Waiters(s.core, i, who) && v != TimedOut
    requires s'.Shaped() && s'.core == WakeTasks(s.core, who, m, v)
    requires s'.log.got == s.log.got
    requires s'.log.given == if v == Fine then LogGiven(s.log.given, who, m) else s.log.given
    ensures forall p: nat | p <= LOWEST :: Delivered(s', p)
  {
    forall p: nat | p <= LOWEST
      ensures Delivered(s', p)
    {
      assert Delivered(s, p);
    }
  }

  lemma PostBalances(s: State, i: nat, m: Message, broadcast: bool, front: bool)
    requires s.Shaped() && LogInv(s) && i < |s.queues| && QueueInv(s.core, i, s.queues[i])
    ensures var s' := Posted(s, i, m, broadcast, front);
            s'.Shaped() && forall j | 0 <= j < |s.queues| :: Balanced(s', j)
  {
    var s' := Posted(s, i, m, broadcast, front);
    TargetsWait(s.core, i, s.queues[i], broadcast);
    assert Balanced(s, i);
    PostBooks(s.queues[i], m, broadcast, front, s.log.accepted[i], s.log.taken[i], s.log.flushed[i]);
    hide Targets, PostQueue, Copies;
    forall j | 0 <= j < |s.queues|
      ensures Balanced(s', j)
    {
      assert Balanced(s, j);
    }
  }

  /** What is accepted is handed out or stored: the books of one queue. */
  lemma PostBooks(
    q: Queue, m: Message, broadcast: bool, front: bool,
    accepted: seq<Message>, taken: seq<Message>, flushed: seq<Message>)
    requires multiset(accepted) == multiset(taken) + multiset(q.contents) + multiset(flushed)
    ensures var who, q' := Targets(q, broadcast), PostQueue(q, m, broadcast, front);
            var n := if who != {} then |who| else if Accepts(q) then 1 else 0;
            multiset(accepted + Copies(m, n)) ==
            multiset(taken + Copies(m, |who|)) + multiset(q'.contents) + multiset(flushed)
  {
  }

  lemma PostKeepsInv(s: State, i: nat, m: Message, broadcast: bool, front: bool)
    requires Inv(s) && i < |s.queues|
    ensures Inv(Posted(s, i, m, broadcast, front))
  {
    assert QueueInv(s.core, i, s.queues[i]);
    hide CoreInv, WakeTasks, Targets, PostQueue, Balanced, Delivered;
    var q, who := s.queues[i], Targets(s.queues[i], broadcast);
    TargetsWait(s.core, i, q, broadcast);
    PostBalances(s, i, m, broadcast, front);
    WakeKeepsCore(s.core, i, who, m, Fine);
    PostKeepsQueue(s.core, i, q, m, broadcast, front);
    WakeKeepsQueues(s.core, s.queues, i, who, m, Fine, PostQueue(q, m, broadcast, front));
    WakeDelivers(s, i, who, m, Fine, Posted(s, i, m, broadcast, front));
  }

  lemma AbortKeepsInv(s: State, i: nat, broadcast: bool)
    requires Inv(s) && i < |s.queues|
    ensures Inv(Aborting(s, i, broadcast))
  {
    var q, who := s.queues[i], Targets(s.queues[i], broadcast);
    TargetsWait(s.core, i, q, broadcast);
    WakeKeepsCore(s.core, i, who, NULL, Aborted);
    WakeKeepsQueue(s.core, i, q, who, NULL, Aborted);
    WakeKeepsQueues(s.core, s.queues, i, who, NULL, Aborted, WakeQueue(q, who));
    WakeDelivers(s, i, who, NULL, Aborted, Aborting(s, i, broadcast));
    BalancedAlike(s, Aborting(s, i, broadcast));
  }

  /** Where neither contents nor log change. */
  lemma BalancedAlike(s: State, s': State)
    requires s.Shaped() && s'.Shaped() && |s'.queues| == |s.queues|
    requires forall j | 0 <= j < |s.queues| :: Balanced(s, j) && s'.queues[j].contents == s.queues[j].contents
    requires
      s'.log.accepted == s.log.accepted && s'.log.taken == s.log.taken && s'.log.flushed == s.log.flushed
    ensures forall j | 0 <= j < |s.queues| :: Balanced(s', j)
  {
    forall j | 0 <= j < |s.queues|
      ensures Balanced(s', j)
    {
      assert Balanced(s, j);
    }
  }

  /** Fewer contents and the same waiters. */
  lemma ContentsChange(k: Core, queues: seq<Queue>, i: nat, contents: seq<Message>)
    requires QueuesInv(k, queues) && i < |queues| && |contents| <= |queues[i].contents|
    ensures QueuesInv(k, queues[i := queues[i].(contents := contents)])
  {
    assert QueueInv(k, i, queues[i]);
    assert QueueInv(k, i, queues[i].(contents := contents));
  }

  lemma AcceptBalances(s: State, i: nat)
    requires s.Shaped() && LogInv(s) && i < |s.queues|
    ensures LogInv(Accepting(s, i))
  {
    var q, s' := s.queues[i], Accepting(s, i);
    assert q.contents != [] ==> q.contents == [q.contents[0]] + q.contents[1..];
    forall j | 0 <= j < |s.queues|
      ensures Balanced(s', j)
    {
      assert Balanced(s, j);
    }
    forall p: nat | p <= LOWEST
      ensures Delivered(s', p)
    {
      assert Delivered(s, p);
    }
  }

  lemma AcceptKeepsInv(s: State, i: nat)
    requires Inv(s) && i < |s.queues|
    ensures Inv(Accepting(s, i))
  {
    AcceptBalances(s, i);
    if s.queues[i].contents != [] {
      ContentsChange(s.core, s.queues, i, s.queues[i].contents[1..]);
    }
  }

  lemma FlushKeepsInv(s: State, i: nat)
    requires Inv(s) && i < |s.queues|
    ensures Inv(Flushing(s, i))
  {
    ContentsChange(s.core, s.queues, i, []);
    var s' := Flushing(s, i);
    forall j | 0 <= j < |s.queues|
      ensures Balanced(s', j)
    {
      assert Balanced(s, j);
    }
    forall p: nat | p <= LOWEST
      ensures Delivered(s', p)
    {
      assert Delivered(s, p);
    }
  }

  /** The branch of `OSQPend` that finds a message. */
  lemma TakeKeepsInv(s: State, i: nat, p: nat, timeout: nat)
    requires Inv(s) && i < |s.queues| && Running(s, p) && s.queues[i].contents != []
    ensures Inv(Pending(s, i, p, timeout))
  {
    AcceptKeepsInv(s, i);
    var t, s' := Accepting(s, i), Pending(s, i, p, timeout);
    BalancedAlike(t, s');
    forall r: nat | r <= LOWEST
      ensures Delivered(s', r)
    {
      assert Delivered(t, r);
    }
  }

  lemma BlockKeepsCore(k: Core, i: nat, p: nat, timeout: nat)
    requires CoreInv(k) && p in k.ready
    ensures CoreInv(Block(k, i, p, timeout))
  {
  }

  lemma BlockKeepsQueue(k: Core, i: nat, p: nat, timeout: nat, j: nat, q: Queue)
    requires p in k.tasks && k.tasks[p].place.Elsewhere? && k.tasks[p].verdict == Fine
    requires QueueInv(k, j, q) && (j == i ==> q.contents == [])
    ensures QueueInv(Block(k, i, p, timeout), j, if j == i then q.(waiting := q.waiting + {p}) else q)
  {
    var k' := Block(k, i, p, timeout);
    forall r <- k'.tasks
      ensures WaitInv(k'.tasks[r], j, r in if j == i then q.waiting + {p} else q.waiting)
    {
      assert WaitInv(k.tasks[r], j, r in q.waiting);
    }
  }

  lemma BlockKeepsInv(s: State, i: nat, p: nat, timeout: nat)
    requires Inv(s) && i < |s.queues| && Running(s, p) && s.queues[i].contents == []
    ensures Inv(Pending(s, i, p, timeout))
  {
    var s' := Pending(s, i, p, timeout);
    BlockKeepsCore(s.core, i, p, timeout);
    BlocksKeepQueues(s, i, p, timeout);
    BalancedAlike(s, s');
    forall r: nat | r <= LOWEST
      ensures Delivered(s', r)
    {
      assert Delivered(s, r);
    }
  }

  lemma BlocksKeepQueues(s: State, i: nat, p: nat, timeout: nat)
    requires Inv(s) && i < |s.queues| && Running(s, p) && s.queues[i].contents == []
    ensures var s' := Pending(s, i, p, timeout); QueuesInv(s'.core, s'.queues)
  {
    hide QueueInv, Block;
    var k' := Block(s.core, i, p, timeout);
    var q' := s.queues[i].(waiting := s.queues[i].waiting + {p});
    assert TaskInv(s.core.tasks[p]);
    forall j | 0 <= j < |s.queues|
      ensures QueueInv(k', j, if j == i then q' else s.queues[j])
    {
      BlockKeepsQueue(s.core, i, p, timeout, j, s.queues[j]);
    }
    QueuesKept(s.core, s.queues, k', i, q');
  }

  lemma ReturnKeepsCore(k: Core, p: nat)
    requires CoreInv(k) && p in k.ready
    ensures CoreInv(Return(k, p))
  {
  }

  lemma ReturnKeepsQueue(k: Core, p: nat, j: nat, q: Queue)
    requires p in k.tasks && !k.tasks[p].pending && k.tasks[p].place.InPend? && QueueInv(k, j, q)
    ensures QueueInv(Return(k, p), j, if k.tasks[p].place.queue == j then ReturnQueue(k, q, p) else q)
  {
    var k', q' := Return(k, p), if k.tasks[p].place.queue == j then ReturnQueue(k, q, p) else q;
    forall r <- k'.tasks
      ensures WaitInv(k'.tasks[r], j, r in q'.waiting)
    {
      assert WaitInv(k.tasks[r], j, r in q.waiting);
    }
  }

  lemma ReturnKeepsQueues(s: State, p: nat)
    requires Inv(s) && p in s.core.ready && s.core.tasks[p].place.InPend?
    ensures var s' := Returning(s, p); QueuesInv(s'.core, s'.queues)
  {
    hide QueueInv, Return, ReturnQueue;
    var k', i := Return(s.core, p), s.core.tasks[p].place.queue;
    forall j | 0 <= j < |s.queues|
      ensures QueueInv(k', j, if i == j then ReturnQueue(s.core, s.queues[j], p) else s.queues[j])
    {
      ReturnKeepsQueue(s.core, p, j, s.queues[j]);
    }
    QueuesKept(s.core, s.queues, k', i, ReturnQueue(s.core, s.queues[i], p));
  }

  lemma ReturnKeepsInv(s: State, p: nat)
    requires Inv(s) && p in s.core.ready && s.core.tasks[p].place.InPend?
    ensures Inv(Returning(s, p))
  {
    var s' := Returning(s, p);
    ReturnKeepsCore(s.core, p);
    ReturnKeepsQueues(s, p);
    BalancedAlike(s, s');
    forall r: nat | r <= LOWEST
      ensures Delivered(s', r)
    {
      assert Delivered(s, r);
    }
  }

  lemma CreateKeepsQueue(k: Core, p: nat, j: nat, q: Queue)
    requires p !in k.tasks && QueueInv(k, j, q)
    ensures QueueInv(Create(k, p), j, q)
  {
    var k' := Create(k, p);
    forall r <- k'.tasks
      ensures WaitInv(k'.tasks[r], j, r in q.waiting)
    {
      assert r != p ==> WaitInv(k.tasks[r], j, r in q.waiting);
    }
  }

  lemma CreateKeepsInv(s: State, p: nat)
    requires Inv(s) && p !in s.core.tasks && IsPriority(p)
    ensures Inv(s.(core := Create(s.core, p)))
  {
    var s' := s.(core := Create(s.core, p));
    forall i | 0 <= i < |s.queues|
      ensures QueueInv(s'.core, i, s.queues[i])
    {
      CreateKeepsQueue(s.core, p, i, s.queues[i]);
    }
    BalancedAlike(s, s');
    forall r: nat | r <= LOWEST
      ensures Delivered(s', r)
    {
      assert Delivered(s, r);
    }
  }

  lemma OneTaskKeepsInv(s: State, a: Step)
    requires Inv(s) && Enabled(s, a)
    requires a.TimeTick? || a.TimeDelay? || a.TimeDelayResume? || a.TaskSuspend? || a.TaskResume?
    ensures Inv(Next(s, a))
  {
    var k' := Next(s, a).core;
    assert TaskInv(s.core.tasks[a.p]);
    if k' != s.core {
      ChangeKeepsInv(s, a.p, k');
    }
  }

  lemma StepKeepsInv(s: State, a: Step)
    requires Inv(s) && Enabled(s, a)
    ensures Inv(Next(s, a))
  {
    hide Inv;
    match a
    case Post(i, m, broadcast, front) => PostKeepsInv(s, i, m, broadcast, front);
    case Accept(i) => AcceptKeepsInv(s, i);
    case PendAbort(i, broadcast) => AbortKeepsInv(s, i, broadcast);
    case Flush(i) => FlushKeepsInv(s, i);
    case Pend(i, p, timeout) =>
      if s.queues[i].contents == [] {
        BlockKeepsInv(s, i, p, timeout);
      } else {
        TakeKeepsInv(s, i, p, timeout);
      }
    case PendReturn(p) => ReturnKeepsInv(s, p);
    case TaskCreate(p) => CreateKeepsInv(s, p);
    case _ => OneTaskKeepsInv(s, a);
  }

  // ---- Runs ----

  ghost predicate IsStep(s: State, a: Step, s': State) {
    WellFormed(s) && Enabled(s, a) && s' == Next(s, a)
  }

  /** Tasks and interrupt handlers in any order, from queues of the given sizes. */
  ghost predicate IsRun(sizes: seq<nat>, run: seq<State>, steps: seq<Step>) {
    && |run| == |steps| + 1
    && run[0] == Initial(sizes)
    && forall k | 0 <= k < |steps| :: IsStep(run[k], steps[k], run[k + 1])
  }

  lemma {:induction false} RunKeepsInv(sizes: seq<nat>, run: seq<State>, steps: seq<Step>, n: nat)
    requires IsRun(sizes, run, steps) && n < |run|
    ensures Inv(run[n]) && |run[n].queues| == |sizes|
  {
    hide Inv;
    if n == 0 {
      InitialInv(sizes);
    } else {
      RunKeepsInv(sizes, run, steps, n - 1);
      assert IsStep(run[n - 1], steps[n - 1], run[n - 1 + 1]);
      StepKeepsInv(run[n - 1], steps[n - 1]);
    }
  }

  lemma StepOfRun(sizes: seq<nat>, run: seq<State>, steps: seq<Step>, k: nat)
    requires IsRun(sizes, run, steps) && k < |steps|
    ensures Inv(run[k]) && |run[k].queues| == |sizes| && Enabled(run[k], steps[k])
    ensures run[k + 1] == Next(run[k], steps[k])
  {
    RunKeepsInv(sizes, run, steps, k);
    assert IsStep(run[k], steps[k], run[k + 1]);
  }

  /**
   * In every reachable state the ready list is empty exactly if no task can run, and otherwise the one that its
   * search finds can run while no task of a higher priority can.
   */
  lemma SchedulerFindsHighest(sizes: seq<nat>, run: seq<State>, steps: seq<Step>, n: nat)
    requires IsRun(sizes, run, steps) && n < |run|
    ensures var k := run[n].core;
            && (k.ready == {} <==> forall p <- k.tasks :: !k.tasks[p].Able())
            && (k.ready != {} ==> Least(k.ready) in k.tasks && k.tasks[Least(k.ready)].Able())
            && (k.ready != {} ==> forall p <- k.tasks | p < Least(k.ready) :: !k.tasks[p].Able())
  {
    RunKeepsInv(sizes, run, steps, n);
    var k := run[n].core;
    if k.ready != {} {
      assert Least(k.ready) in k.ready;
    }
  }

  /** The last task of the ready list gives up the processor, or has it taken away. */
  predicate GivesUp(s: State, a: Step) {
    match a
    case TaskSuspend(p) => s.core.ready == {p}
    case TimeDelay(p, ticks) => ticks > 0 && s.core.ready == {p}
    case Pend(i, p, _) => i < |s.queues| && s.queues[i].contents == [] && s.core.ready == {p}
    case _ => false
  }

  /**
   * Of a ready list with tasks in it a step leaves nothing exactly if it suspends, delays or blocks its only
   * task. `OS_SchedNew` then answers priority zero, whatever that task is doing.
   */
  lemma ReadyListEmpties(sizes: seq<nat>, run: seq<State>, steps: seq<Step>, n: nat)
    requires IsRun(sizes, run, steps) && n < |steps| && run[n].core.ready != {}
    ensures run[n + 1].core.ready == {} <==> GivesUp(run[n], steps[n])
  {
    StepOfRun(sizes, run, steps, n);
    EmptiesStep(run[n], steps[n]);
  }

  lemma EmptiesStep(s: State, a: Step)
    requires Inv(s) && Enabled(s, a) && s.core.ready != {}
    ensures Next(s, a).core.ready == {} <==> GivesUp(s, a)
  {
    var p :| p in s.core.ready;
    match a
    case TaskSuspend(_) => RemovedLast(s.core.ready, a.p);
    case TimeDelay(_, _) => RemovedLast(s.core.ready, a.p);
    case Pend(_, _, _) => RemovedLast(s.core.ready, a.p);
    case _ => assert p in Next(s, a).core.ready;
  }

  lemma RemovedLast(s: set<nat>, p: nat)
    requires s != {}
    ensures s - {p} == {} <==> s == {p}
  {
    if s - {p} == {} {
      assert s == {p};
    }
  }

  /** A step that leaves the idle task alone. */
  predicate SparesIdle(a: Step) {
    (a.TaskSuspend? || a.TimeDelay? || a.Pend?) ==> a.p != LOWEST
  }

  lemma IdleStep(s: State, a: Step)
    requires Inv(s) && Enabled(s, a) && SparesIdle(a) && s.core.tasks[LOWEST] == FRESH
    ensures LOWEST in Next(s, a).core.tasks && Next(s, a).core.tasks[LOWEST] == FRESH
  {
    if a.Post? || a.PendAbort? {
      assert QueueInv(s.core, a.i, s.queues[a.i]);
      TargetsWait(s.core, a.i, s.queues[a.i], a.broadcast);
    }
  }

  /** So the ready list is never empty in a run that never suspends, delays or blocks the idle task. */
  lemma {:induction false} IdleStaysReady(sizes: seq<nat>, run: seq<State>, steps: seq<Step>, n: nat)
    requires IsRun(sizes, run, steps) && n < |run| && forall k | 0 <= k < n :: SparesIdle(steps[k])
    ensures LOWEST in run[n].core.ready && LOWEST in run[n].core.tasks && run[n].core.tasks[LOWEST] == FRESH
  {
    RunKeepsInv(sizes, run, steps, n);
    if n > 0 {
      hide IsStep, SparesIdle, QueuesInv, LogInv, Next, Enabled;
      IdleStaysReady(sizes, run, steps, n - 1);
      StepOfRun(sizes, run, steps, n - 1);
      IdleStep(run[n - 1], steps[n - 1]);
    }
  }

  /** In such a run `OSTaskSuspend` empties it exactly for the idle task, when no other task can run. */
  lemma SuspensionEmpties(sizes: seq<nat>, run: seq<State>, steps: seq<Step>, n: nat)
    requires IsRun(sizes, run, steps) && n < |steps| && forall k | 0 <= k < n :: SparesIdle(steps[k])
    requires steps[n].TaskSuspend?
    ensures var k := run[n].core;
            run[n + 1].core.ready == {} <==>
            steps[n].p == LOWEST && forall q <- k.tasks | q != LOWEST :: !k.tasks[q].Able()
  {
    IdleStaysReady(sizes, run, steps, n);
    ReadyListEmpties(sizes, run, steps, n);
    RunKeepsInv(sizes, run, steps, n);
    var k := run[n].core;
    assert k.ready == {LOWEST} <==> forall q <- k.tasks | q != LOWEST :: !k.tasks[q].Able() by {
      assert forall q <- k.tasks :: q in k.ready <==> k.tasks[q].Able();
    }
  }

  /** Suspending the idle task before any other exists empties it. */
  lemma SuspendingIdleEmpties(sizes: seq<nat>)
    ensures var s, a := Initial(sizes), TaskSuspend(LOWEST);
            Inv(s) && Enabled(s, a) && Next(s, a).core.ready == {}
  {
    InitialInv(sizes);
  }

  /**
   * No message is missed: in every reachable state a queue with a waiter is empty, and a task that pends is
   * in the wait list of its queue, where the next post will find it.
   */
  lemma NoMissedMessage(sizes: seq<nat>, run: seq<State>, steps: seq<Step>, n: nat, i: nat)
    requires IsRun(sizes, run, steps) && n < |run| && i < |sizes|
    ensures |run[n].queues| == |sizes|
    ensures var k, q := run[n].core, run[n].queues[i];
            && (q.waiting != {} ==> q.contents == [])
            && (forall p <- k.tasks :: k.tasks[p].pending && k.tasks[p].place == InPend(i) ==> p in q.waiting)
            && (forall p <- q.waiting :: p in k.tasks && k.tasks[p].place == InPend(i) && p !in k.ready ==>
                                         k.tasks[p].pending || k.tasks[p].suspended)
  {
    RunKeepsInv(sizes, run, steps, n);
    var k, q := run[n].core, run[n].queues[i];
    assert QueueInv(k, i, q);
    assert forall p <- k.tasks :: WaitInv(k.tasks[p], i, p in q.waiting);
  }

  /** Nothing is lost and nothing made up: accepted, taken, stored and flushed messages agree. */
  lemma MessagesConserved(sizes: seq<nat>, run: seq<State>, steps: seq<Step>, n: nat, i: nat)
    requires IsRun(sizes, run, steps) && n < |run| && i < |sizes|
    ensures run[n].Shaped() && |run[n].queues| == |sizes| && Balanced(run[n], i)
  {
    RunKeepsInv(sizes, run, steps, n);
  }

  // ---- First in, first out ----

  predicate InOrder(a: Step, i: nat) {
    (a.Post? && a.i == i ==> !a.front) && (a.Flush? ==> a.i != i)
  }

  /** What has left queue `i`, and what is in it. */
  ghost function Line(s: State, i: nat): seq<Message>
    requires s.Shaped() && i < |s.queues|
  {
    s.log.taken[i] + s.queues[i].contents
  }

  /** From `s` to `s'`, what queue `i` has accepted lines up behind what was there, and leaves from the front. */
  ghost predicate LinedUp(s: State, s': State, i: nat)
    requires s.Shaped() && s'.Shaped() && i < |s.queues| == |s'.queues|
  {
    && s.log.accepted[i] <= s'.log.accepted[i] && s.log.taken[i] <= s'.log.taken[i]
    && Line(s', i) == Line(s, i) + s'.log.accepted[i][|s.log.accepted[i]|..]
  }

  lemma LinePost(s: State, j: nat, m: Message, broadcast: bool, front: bool, i: nat)
    requires Inv(s) && i < |s.queues| && j < |s.queues| && (j == i ==> !front)
    ensures var s' := Posted(s, j, m, broadcast, front);
            |s'.queues| == |s.queues| && s'.Shaped() && LinedUp(s, s', i)
  {
    var s' := Posted(s, j, m, broadcast, front);
    PostBalances(s, j, m, broadcast, front);
    assert QueueInv(s.core, j, s.queues[j]);
    TargetsWait(s.core, j, s.queues[j], broadcast);
  }

  lemma LineTake(s: State, j: nat, i: nat)
    requires Inv(s) && i < |s.queues| && j < |s.queues|
    ensures LinedUp(s, Accepting(s, j), i)
  {
  }

  lemma LineStep(s: State, a: Step, i: nat)
    requires Inv(s) && Enabled(s, a) && InOrder(a, i) && i < |s.queues|
    ensures Inv(Next(s, a)) && |Next(s, a).queues| == |s.queues| && LinedUp(s, Next(s, a), i)
  {
    StepKeepsInv(s, a);
    hide CoreInv, QueuesInv, LogInv, LinedUp;
    match a
    case Post(j, m, broadcast, front) => LinePost(s, j, m, broadcast, front, i);
    case Accept(j) => LineTake(s, j, i);
    case Pend(j, p, timeout) =>
      LineTake(s, j, i);
      LineAlike(s, Accepting(s, j), Next(s, a), i);
    case _ => LineElsewhere(s, a, i);
  }

  lemma LineElsewhere(s: State, a: Step, i: nat)
    requires Inv(s) && Enabled(s, a) && Inv(Next(s, a)) && i < |s.queues|
    requires !a.Post? && !a.Accept? && !a.Pend? && !(a.Flush? && a.i == i)
    ensures |Next(s, a).queues| == |s.queues| && LinedUp(s, Next(s, a), i)
  {
    hide CoreInv, LogInv, LinedUp;
    LineAlike(s, s, Next(s, a), i);
  }

  lemma LineAlike(r: State, s: State, t: State, i: nat)
    requires r.Shaped() && s.Shaped() && t.Shaped() && i < |r.queues| == |s.queues| == |t.queues|
    requires r == s || LinedUp(r, s, i)
    requires t.log.accepted[i] == s.log.accepted[i] && t.log.taken[i] == s.log.taken[i]
    requires t.queues[i].contents == s.queues[i].contents
    ensures LinedUp(r, t, i)
  {
  }

  lemma LineJoins(r: State, s: State, t: State, i: nat)
    requires r.Shaped() && s.Shaped() && t.Shaped() && i < |r.queues| == |s.queues| == |t.queues|
    requires LinedUp(r, s, i) && LinedUp(s, t, i)
    ensures LinedUp(r, t, i)
  {
    var first, more := s.log.accepted[i][|r.log.accepted[i]|..], t.log.accepted[i][|s.log.accepted[i]|..];
    assert t.log.accepted[i][|r.log.accepted[i]|..] == first + more;
  }

  /** Over any part of a run without posts to the front of queue `i` and flushes of it. */
  lemma {:induction false} OrderKept(
    sizes: seq<nat>, run: seq<State>, steps: seq<Step>, a: nat, b: nat, i: nat)
    requires IsRun(sizes, run, steps) && a <= b < |run| && i < |sizes|
    requires forall k | a <= k < b :: InOrder(steps[k], i)
    ensures run[a].Shaped() && run[b].Shaped() && |run[a].queues| == |run[b].queues| == |sizes|
    ensures LinedUp(run[a], run[b], i)
    decreases b
  {
    hide IsStep, Initial, CoreInv, QueuesInv, LogInv, Next, Enabled, LinedUp;
    RunKeepsInv(sizes, run, steps, a);
    RunKeepsInv(sizes, run, steps, b);
    if a == b {
      LineStays(run[a], i);
    } else {
      OrderKept(sizes, run, steps, a, b - 1, i);
      StepOfRun(sizes, run, steps, b - 1);
      LineStep(run[b - 1], steps[b - 1], i);
      LineJoins(run[a], run[b - 1], run[b], i);
    }
  }

  lemma LineStays(s: State, i: nat)
    requires s.Shaped() && i < |s.queues|
    ensures LinedUp(s, s, i)
  {
  }

  /**
   * Without posts to the front and flushes, messages leave a queue (to a caller or to a waiter) in exactly
   * the order in which they were accepted, over any run.
   */
  lemma FirstInFirstOut(sizes: seq<nat>, run: seq<State>, steps: seq<Step>, n: nat, i: nat)
    requires IsRun(sizes, run, steps) && n < |run| && i < |sizes|
    requires forall k | 0 <= k < n :: InOrder(steps[k], i)
    ensures run[n].Shaped() && |run[n].queues| == |sizes|
    ensures run[n].log.accepted[i] == run[n].log.taken[i] + run[n].queues[i].contents
  {
    hide IsStep, CoreInv, QueuesInv, LogInv, Next, Enabled;
    OrderKept(sizes, run, steps, 0, n, i);
    assert Line(run[0], i) == [] && run[0].log.accepted[i] == [];
  }

  /**
   * A message accepted by a post to the front of a queue without waiters is the next one to leave it, whatever
   * else happens until another post to the front or a flush; what was in the queue follows in its old order.
   */
  lemma FrontLeavesFirst(
    sizes: seq<nat>, run: seq<State>, steps: seq<Step>, n: nat, b: nat, i: nat, m: Message, broadcast: bool)
    requires IsRun(sizes, run, steps) && n < b < |run| && i < |sizes| && steps[n] == Post(i, m, broadcast, true)
    requires |run[n].queues| == |sizes| && run[n].queues[i].waiting == {}
    requires |run[n].queues[i].contents| < run[n].queues[i].size
    requires forall k | n < k < b :: InOrder(steps[k], i)
    ensures run[n].Shaped() && run[b].Shaped() && |run[b].queues| == |sizes|
    ensures var before, taken, line := run[n].queues[i].contents, run[n].log.taken[i], Line(run[b], i);
            && taken <= run[b].log.taken[i]
            && (|run[b].log.taken[i]| > |taken| ==> run[b].log.taken[i][|taken|] == m)
            && taken + [m] + before <= line
  {
    hide IsStep, Initial, CoreInv, QueuesInv, LogInv, Next, Enabled;
    StepOfRun(sizes, run, steps, n);
    FrontStored(run[n], i, m, broadcast);
    OrderKept(sizes, run, steps, n + 1, b, i);
    var s := run[n + 1];
    assert Line(s, i) == run[n].log.taken[i] + [m] + run[n].queues[i].contents;
    assert Line(s, i) <= Line(run[b], i);
    assert run[b].log.taken[i] <= Line(run[b], i);
  }

  lemma FrontStored(s: State, i: nat, m: Message, broadcast: bool)
    requires Inv(s) && i < |s.queues| && s.queues[i].waiting == {} && |s.queues[i].contents| < s.queues[i].size
    requires Enabled(s, Post(i, m, broadcast, true))
    ensures var s' := Next(s, Post(i, m, broadcast, true));
            && s'.Shaped() && |s'.queues| == |s.queues|
            && s'.queues[i].contents == [m] + s.queues[i].contents && s'.log.taken[i] == s.log.taken[i]
  {
    PostBalances(s, i, m, broadcast, true);
  }

  // ---- From the post to the return of the call ----

  /**
   * A message posted to a queue with waiters goes to the one of the highest priority and to nobody else, even
   * if that task has already timed out but not yet run; it is not stored, and no message overtakes it.
   */
  lemma PostWakesFirst(s: State, i: nat, m: Message, front: bool)
    requires Inv(s) && i < |s.queues| && s.queues[i].waiting != {}
    ensures var q, p, s' := s.queues[i], Least(s.queues[i].waiting), Posted(s, i, m, false, front);
            && p in s.core.tasks
            && s'.core.tasks == s.core.tasks[p := Woken(s.core.tasks[p], m, Fine)] && s'.core.tasks[p].Carries()
            && s'.core.ready == s.core.ready + (if s.core.tasks[p].suspended then {} else {p})
            && s'.queues == s.queues[i := q.(waiting := q.waiting - {p})]
            && s'.log.taken[i] == s.log.taken[i] + [m]
  {
    var q, p, s' := s.queues[i], Least(s.queues[i].waiting), Posted(s, i, m, false, front);
    assert QueueInv(s.core, i, q) && WaitInv(s.core.tasks[p], i, true);
    assert Targets(q, false) == {p};
  }

  /** A broadcast goes to all of them. */
  lemma BroadcastWakesAll(s: State, i: nat, m: Message, front: bool)
    requires Inv(s) && i < |s.queues| && s.queues[i].waiting != {}
    ensures var q, s' := s.queues[i], Posted(s, i, m, true, front);
            && s'.queues == s.queues[i := q.(waiting := {})]
            && s'.core.tasks.Keys == s.core.tasks.Keys
            && (forall p <- q.waiting :: s'.core.tasks[p].Carries() && s'.core.tasks[p].message == m)
            && (forall p <- s.core.tasks.Keys - q.waiting :: s'.core.tasks[p] == s.core.tasks[p])
  {
    var q := s.queues[i];
    assert q.waiting - q.waiting == {};
    assert QueueInv(s.core, i, q);
    forall p <- q.waiting
      ensures s.core.tasks[p].place == InPend(i)
    {
      assert WaitInv(s.core.tasks[p], i, true);
    }
  }

  /**
   * In every reachable state, what a task was given is what its calls of `OSQPend` have returned, in that
   * order, and then the one message it carries if it has been woken with one and has not run since.
   */
  lemma HandedIsReturned(sizes: seq<nat>, run: seq<State>, steps: seq<Step>, n: nat, p: nat)
    requires IsRun(sizes, run, steps) && n < |run| && IsPriority(p)
    ensures run[n].Shaped() && Delivered(run[n], p)
  {
    RunKeepsInv(sizes, run, steps, n);
  }

  /**
   * The verdict of `OSQPend`: timed out exactly if the task is still in the wait list when it runs again,
   * and otherwise aborted, or a message, with which everything the task was given has been returned.
   */
  lemma VerdictIsExact(sizes: seq<nat>, run: seq<State>, steps: seq<Step>, n: nat, p: nat)
    requires IsRun(sizes, run, steps) && n < |steps| && steps[n] == PendReturn(p)
    ensures run[n].Shaped() && run[n + 1].Shaped() && IsPriority(p) && p in run[n].core.tasks
    ensures var t, log, log' := run[n].core.tasks[p], run[n].log, run[n + 1].log;
            && (t.verdict == TimedOut <==> run[n].Waits(t.place.queue, p))
            && (t.verdict == Fine ==> log'.got[p] == log.got[p] + [t.message] == log'.given[p])
            && (t.verdict != Fine ==> log'.got[p] == log.got[p] == log'.given[p])
  {
    StepOfRun(sizes, run, steps, n);
    RunKeepsInv(sizes, run, steps, n + 1);
    var s, i := run[n], run[n].core.tasks[p].place.queue;
    assert QueueInv(s.core, i, s.queues[i]) && WaitInv(s.core.tasks[p], i, s.Waits(i, p));
    assert Delivered(s, p);
  }

  // ---- What the other calls do ----

  /** Nothing has changed but the task of priority `p` and its place in the ready list. */
  ghost predicate OnlyTask(s: State, s': State, p: nat) {
    && s'.queues == s.queues && s'.log == s.log && s'.core.tasks.Keys == s.core.tasks.Keys
    && forall q <- s.core.tasks | q != p ::
      q in s'.core.tasks && s'.core.tasks[q] == s.core.tasks[q] && (q in s'.core.ready <==> q in s.core.ready)
  }

  /** `OSTaskResume` lifts a suspension and nothing else: the task is ready exactly if it neither pends nor delays. */
  lemma ResumeLifts(sizes: seq<nat>, run: seq<State>, steps: seq<Step>, n: nat, p: nat)
    requires IsRun(sizes, run, steps) && n < |steps| && steps[n] == TaskResume(p)
    ensures p in run[n].core.tasks && p in run[n + 1].core.tasks && OnlyTask(run[n], run[n + 1], p)
    ensures var t, t' := run[n].core.tasks[p], run[n + 1].core.tasks[p];
            && !t'.suspended && t'.pending == t.pending && t'.delay == t.delay
            && t'.place == t.place && t'.verdict == t.verdict && t'.message == t.message
            && (p in run[n + 1].core.ready <==> !t'.pending && t'.delay == 0)
  {
    StepOfRun(sizes, run, steps, n);
    RunKeepsInv(sizes, run, steps, n + 1);
  }

  /** `OSTaskSuspend` takes the task off the ready list and changes nothing else. */
  lemma SuspendStops(sizes: seq<nat>, run: seq<State>, steps: seq<Step>, n: nat, p: nat)
    requires IsRun(sizes, run, steps) && n < |steps| && steps[n] == TaskSuspend(p)
    ensures p in run[n].core.tasks && p in run[n + 1].core.tasks && OnlyTask(run[n], run[n + 1], p)
    ensures var t, t' := run[n].core.tasks[p], run[n + 1].core.tasks[p];
            && t'.suspended && t'.pending == t.pending && t'.delay == t.delay
            && t'.place == t.place && t'.verdict == t.verdict && t'.message == t.message
            && p !in run[n + 1].core.ready
  {
    StepOfRun(sizes, run, steps, n);
    RunKeepsInv(sizes, run, steps, n + 1);
  }

  lemma SuspendedStep(s: State, a: Step, p: nat)
    requires Inv(s) && Enabled(s, a) && p in s.core.tasks && s.core.tasks[p].suspended && a != TaskResume(p)
    ensures p in Next(s, a).core.tasks && Next(s, a).core.tasks[p].suspended
  {
    if a.Post? || a.PendAbort? {
      assert QueueInv(s.core, a.i, s.queues[a.i]);
      TargetsWait(s.core, a.i, s.queues[a.i], a.broadcast);
    }
  }

  /** A suspended task stays suspended, and off the ready list, until the next `OSTaskResume` for it. */
  lemma {:induction false} SuspendedUntilResumed(
    sizes: seq<nat>, run: seq<State>, steps: seq<Step>, a: nat, b: nat, p: nat)
    requires IsRun(sizes, run, steps) && a < b < |run| && steps[a] == TaskSuspend(p)
    requires forall k | a < k < b :: steps[k] != TaskResume(p)
    ensures p in run[b].core.tasks && run[b].core.tasks[p].suspended && p !in run[b].core.ready
    decreases b
  {
    hide IsStep, Initial, QueuesInv, LogInv, Next, Enabled;
    RunKeepsInv(sizes, run, steps, b);
    if b == a + 1 {
      SuspendStops(sizes, run, steps, a, p);
    } else {
      SuspendedUntilResumed(sizes, run, steps, a, b - 1, p);
      StepOfRun(sizes, run, steps, b - 1);
      SuspendedStep(run[b - 1], steps[b - 1], p);
    }
  }

  /** `OSTimeDly` takes the task off the ready list for that many ticks and changes nothing else. */
  lemma DelayStops(sizes: seq<nat>, run: seq<State>, steps: seq<Step>, n: nat, p: nat, ticks: nat)
    requires IsRun(sizes, run, steps) && n < |steps| && steps[n] == TimeDelay(p, ticks)
    ensures p in run[n].core.tasks && p in run[n + 1].core.tasks && OnlyTask(run[n], run[n + 1], p)
    ensures var t, t' := run[n].core.tasks[p], run[n + 1].core.tasks[p];
            && t'.delay == ticks && !t'.suspended && !t'.pending && t'.place == t.place && t'.verdict == t.verdict
            && (p in run[n + 1].core.ready <==> ticks == 0)
  {
    StepOfRun(sizes, run, steps, n);
    RunKeepsInv(sizes, run, steps, n + 1);
  }

  /** One tick: a running delay or timeout is one shorter, and the last tick ends it. */
  lemma TickCounts(sizes: seq<nat>, run: seq<State>, steps: seq<Step>, n: nat, p: nat)
    requires IsRun(sizes, run, steps) && n < |steps| && steps[n] == TimeTick(p)
    ensures p in run[n].core.tasks && p in run[n + 1].core.tasks && OnlyTask(run[n], run[n + 1], p)
    ensures var t, t' := run[n].core.tasks[p], run[n + 1].core.tasks[p];
            && t'.suspended == t.suspended && t'.place == t.place && t'.message == t.message
            && t'.delay == (if t.delay == 0 then 0 else t.delay - 1)
            && (if t.delay == 1 then !t'.pending && t'.verdict == (if t.pending then TimedOut else Fine)
                else t'.pending == t.pending && t'.verdict == t.verdict)
            && (p in run[n + 1].core.ready <==> !t'.pending && !t'.suspended && t'.delay == 0)
  {
    StepOfRun(sizes, run, steps, n);
    RunKeepsInv(sizes, run, steps, n + 1);
  }

  /** `OSQPend` on an empty queue: the task pends with its timeout, in this wait list and off the ready list. */
  lemma PendBlocks(sizes: seq<nat>, run: seq<State>, steps: seq<Step>, n: nat, i: nat, p: nat, timeout: nat)
    requires IsRun(sizes, run, steps) && n < |steps| && steps[n] == Pend(i, p, timeout)
    requires i < |run[n].queues| && run[n].queues[i].contents == []
    ensures |run[n + 1].queues| == |run[n].queues| && run[n + 1].log == run[n].log
    ensures var q, q', k, k' := run[n].queues[i], run[n + 1].queues[i], run[n].core, run[n + 1].core;
            && p in k'.tasks && k'.tasks[p].pending && k'.tasks[p].delay == timeout && p !in k'.ready
            && q'.waiting == q.waiting + {p} && q'.contents == [] && k.ready - {p} == k'.ready
            && k'.tasks - {p} == k.tasks - {p}
            && forall j | 0 <= j < |run[n].queues| && j != i :: run[n + 1].queues[j] == run[n].queues[j]
  {
    StepOfRun(sizes, run, steps, n);
  }

  /**
   * `OSTimeDlyResume` ends a delay at once, and a wait with a timeout as if its last tick had come; the task is
   * then ready unless it is suspended. Without a delay it changes nothing.
   */
  lemma DelayResumeEnds(sizes: seq<nat>, run: seq<State>, steps: seq<Step>, n: nat, p: nat)
    requires IsRun(sizes, run, steps) && n < |steps| && steps[n] == TimeDelayResume(p)
    ensures p in run[n].core.tasks && p in run[n + 1].core.tasks && OnlyTask(run[n], run[n + 1], p)
    ensures var t, t' := run[n].core.tasks[p], run[n + 1].core.tasks[p];
            if t.delay == 0 then t' == t && (p in run[n + 1].core.ready <==> p in run[n].core.ready)
            else
              && t'.delay == 0 && !t'.pending && t'.verdict == (if t.pending then TimedOut else Fine)
              && t'.suspended == t.suspended && t'.place == t.place && t'.message == t.message
              && (p in run[n + 1].core.ready <==> !t.suspended)
  {
    StepOfRun(sizes, run, steps, n);
    RunKeepsInv(sizes, run, steps, n + 1);
  }

  /** `OSQPend` returns to the task's own code: it is ready, waits for nothing and nobody else is touched. */
  lemma ReturnFrees(sizes: seq<nat>, run: seq<State>, steps: seq<Step>, n: nat, p: nat)
    requires IsRun(sizes, run, steps) && n < |steps| && steps[n] == PendReturn(p)
    ensures var k, k' := run[n].core, run[n + 1].core;
            && p in k'.tasks && k'.tasks[p] == FRESH && k'.ready == k.ready && p in k.ready
            && k'.tasks.Keys == k.tasks.Keys
            && forall q <- k.tasks | q != p :: q in k'.tasks && k'.tasks[q] == k.tasks[q]
    ensures var s := run[n + 1]; forall i | 0 <= i < |s.queues| :: !s.Waits(i, p)
  {
    StepOfRun(sizes, run, steps, n);
    RunKeepsInv(sizes, run, steps, n + 1);
    var s, s' := run[n], run[n + 1];
    forall i | 0 <= i < |s'.queues|
      ensures !s'.Waits(i, p)
    {
      assert QueueInv(s'.core, i, s'.queues[i]) && WaitInv(s'.core.tasks[p], i, p in s'.queues[i].waiting);
    }
  }

  /** The task waits no more and has no message. */
  predicate SentAway(t: Task, t': Task) {
    && t'.verdict == Aborted && !t'.pending && t'.delay == 0 && t'.message == NULL
    && t'.place == t.place && t'.suspended == t.suspended
  }

  /**
   * `OSQPendAbort` wakes the waiter of the highest priority, or all of them, without a message: their calls will
   * say that they were aborted. Nothing else changes.
   */
  lemma AbortWakes(s: State, i: nat, broadcast: bool)
    requires Inv(s) && i < |s.queues|
    ensures var q, who, s' := s.queues[i], Targets(s.queues[i], broadcast), Aborting(s, i, broadcast);
            && who == (if broadcast || q.waiting == {} then q.waiting else {Least(q.waiting)})
            && s'.queues == s.queues[i := q.(waiting := q.waiting - who)]
            && s'.log == s.log && s'.core.tasks.Keys == s.core.tasks.Keys && who <= s.core.tasks.Keys
            && (forall p <- who :: SentAway(s.core.tasks[p], s'.core.tasks[p]))
            && (forall p <- who :: p in s'.core.ready <==> !s.core.tasks[p].suspended)
            && (forall p <- s.core.tasks | p !in who :: s'.core.tasks[p] == s.core.tasks[p])
            && (forall p <- s.core.tasks | p !in who :: p in s'.core.ready <==> p in s.core.ready)
  {
    assert QueueInv(s.core, i, s.queues[i]);
    TargetsWait(s.core, i, s.queues[i], broadcast);
    AbortKeepsInv(s, i, broadcast);
  }

  /** `OSQFlush` empties the queue and changes nothing else. */
  lemma FlushEmpties(sizes: seq<nat>, run: seq<State>, steps: seq<Step>, n: nat, i: nat)
    requires IsRun(sizes, run, steps) && n < |steps| && steps[n] == Flush(i)
    ensures i < |run[n].queues| == |run[n + 1].queues|
    ensures run[n + 1].core == run[n].core && run[n + 1].queues[i].contents == []
    ensures run[n + 1].queues[i].waiting == run[n].queues[i].waiting
    ensures forall j | 0 <= j < |run[n].queues| && j != i :: run[n + 1].queues[j] == run[n].queues[j]
  {
    StepOfRun(sizes, run, steps, n);
  }

  /** A new task is ready, and nothing else changes. */
  lemma CreateReadies(sizes: seq<nat>, run: seq<State>, steps: seq<Step>, n: nat, p: nat)
    requires IsRun(sizes, run, steps) && n < |steps| && steps[n] == TaskCreate(p)
    ensures p !in run[n].core.tasks && p in run[n + 1].core.tasks && p in run[n + 1].core.ready
    ensures run[n + 1].core.tasks[p].Able() && run[n + 1].core.tasks[p].place == Elsewhere
    ensures run[n + 1].core.tasks - {p} == run[n].core.tasks && run[n + 1].core.ready - {p} == run[n].core.ready
    ensures run[n + 1].queues == run[n].queues
  {
    StepOfRun(sizes, run, steps, n);
  }

  // ---- Delays and timeouts ----

  /** The ticks of task `p` among the steps from `a` to `b`. */
  function Ticks(steps: seq<Step>, a: nat, b: nat, p: nat): nat
    requires a <= b <= |steps|
  {
    if a == b then 0 else Ticks(steps, a, b - 1, p) + if steps[b - 1] == TimeTick(p) then 1 else 0
  }

  /** `left` ticks of a delay remain. */
  ghost predicate Sleeps(s: State, p: nat, left: int) {
    p in s.core.tasks && s.core.tasks[p].place.Elsewhere? && s.core.tasks[p].delay == left
  }

  lemma SleepStep(s: State, a: Step, p: nat, left: nat)
    requires Inv(s) && Enabled(s, a) && left > 0 && Sleeps(s, p, left) && a != TimeDelayResume(p)
    ensures Sleeps(Next(s, a), p, if a == TimeTick(p) then left - 1 else left)
  {
    if a.Post? || a.PendAbort? {
      assert QueueInv(s.core, a.i, s.queues[a.i]);
      TargetsWait(s.core, a.i, s.queues[a.i], a.broadcast);
    }
  }

  lemma DelayStarts(s: State, p: nat, ticks: nat)
    requires Inv(s) && Enabled(s, TimeDelay(p, ticks)) && ticks > 0
    ensures Sleeps(Next(s, TimeDelay(p, ticks)), p, ticks)
  {
  }

  lemma AwakeAfter(s: State, p: nat, left: int)
    requires Inv(s) && Sleeps(s, p, left)
    ensures p in s.core.ready <==> left == 0 && !s.core.tasks[p].suspended
  {
    assert TaskInv(s.core.tasks[p]);
  }

  lemma {:induction false} DelayHolds(
    sizes: seq<nat>, run: seq<State>, steps: seq<Step>, a: nat, b: nat, p: nat, ticks: nat)
    requires IsRun(sizes, run, steps) && a < b <= |steps| && steps[a] == TimeDelay(p, ticks) && ticks > 0
    requires forall k | a < k < b :: steps[k] != TimeDelayResume(p)
    requires b == a + 1 || Ticks(steps, a + 1, b - 1, p) < ticks
    ensures Sleeps(run[b], p, ticks - Ticks(steps, a + 1, b, p))
    decreases b
  {
    hide IsStep, Initial, CoreInv, QueuesInv, LogInv, Next, Enabled, Sleeps;
    StepOfRun(sizes, run, steps, b - 1);
    if b == a + 1 {
      DelayStarts(run[a], p, ticks);
    } else {
      DelayHolds(sizes, run, steps, a, b - 1, p, ticks);
      SleepStep(run[b - 1], steps[b - 1], p, ticks - Ticks(steps, a + 1, b - 1, p));
    }
  }

  /**
   * A delay lasts exactly its ticks, whatever else happens: up to and including the last of them, the task is
   * ready exactly when all have come and it is not suspended.
   */
  lemma DelayIsExact(
    sizes: seq<nat>, run: seq<State>, steps: seq<Step>, a: nat, b: nat, p: nat, ticks: nat)
    requires IsRun(sizes, run, steps) && a < b <= |steps| && steps[a] == TimeDelay(p, ticks) && ticks > 0
    requires forall k | a < k < b :: steps[k] != TimeDelayResume(p)
    requires b == a + 1 || Ticks(steps, a + 1, b - 1, p) < ticks
    ensures Sleeps(run[b], p, ticks - Ticks(steps, a + 1, b, p))
    ensures p in run[b].core.ready <==>
            Ticks(steps, a + 1, b, p) == ticks && !run[b].core.tasks[p].suspended
  {
    hide IsStep, Initial, CoreInv, QueuesInv, LogInv;
    DelayHolds(sizes, run, steps, a, b, p, ticks);
    RunKeepsInv(sizes, run, steps, b);
    AwakeAfter(run[b], p, ticks - Ticks(steps, a + 1, b, p));
  }

  /** The state of a call of `OSQPend` that blocked with a timeout of `n` ticks, `used` of which are over. */
  ghost predicate Awaits(s: State, p: nat, n: nat, used: nat) {
    && p in s.core.tasks && s.core.tasks[p].place.InPend?
    && var t := s.core.tasks[p];
       if n == 0 || used < n then
         if t.pending then t.delay + (if n == 0 then 0 else used) == n else t.verdict != TimedOut
       else !t.pending
  }

  lemma AwaitStarts(s: State, i: nat, p: nat, n: nat)
    requires Inv(s) && Enabled(s, Pend(i, p, n)) && s.queues[i].contents == []
    ensures Awaits(Next(s, Pend(i, p, n)), p, n, 0)
  {
  }

  lemma AwaitStep(s: State, a: Step, p: nat, n: nat, used: nat)
    requires Inv(s) && Enabled(s, a) && Awaits(s, p, n, used) && a != TimeDelayResume(p) && a != PendReturn(p)
    ensures Awaits(Next(s, a), p, n, if a == TimeTick(p) then used + 1 else used)
  {
    assert TaskInv(s.core.tasks[p]);
    if a.Post? || a.PendAbort? {
      assert QueueInv(s.core, a.i, s.queues[a.i]);
      TargetsWait(s.core, a.i, s.queues[a.i], a.broadcast);
    }
  }

  /**
   * A call of `OSQPend` that blocks with timeout `n` does not time out before `n` ticks, no longer pends
   * after them, and with timeout zero never times out.
   */
  lemma {:induction false} TimeoutIsExact(
    sizes: seq<nat>, run: seq<State>, steps: seq<Step>, a: nat, b: nat, i: nat, p: nat, n: nat)
    requires IsRun(sizes, run, steps) && a < b <= |steps| && steps[a] == Pend(i, p, n)
    requires i < |run[a].queues| && run[a].queues[i].contents == []
    requires forall k | a < k < b :: steps[k] != TimeDelayResume(p) && steps[k] != PendReturn(p)
    ensures Awaits(run[b], p, n, Ticks(steps, a + 1, b, p))
    decreases b
  {
    hide IsStep, Initial, CoreInv, QueuesInv, LogInv, Next, Enabled, Awaits;
    StepOfRun(sizes, run, steps, b - 1);
    if b == a + 1 {
      AwaitStarts(run[a], i, p, n);
    } else {
      TimeoutIsExact(sizes, run, steps, a, b - 1, i, p, n);
      AwaitStep(run[b - 1], steps[b - 1], p, n, Ticks(steps, a + 1, b - 1, p));
    }
  }

  /**
   * A call that still pends before its last tick times out with it, and its task is ready unless it is
   * suspended.
   */
  lemma TimesOutWithLastTick(
    sizes: seq<nat>, run: seq<State>, steps: seq<Step>, a: nat, b: nat, i: nat, p: nat, n: nat)
    requires IsRun(sizes, run, steps) && a < b < |steps| && steps[a] == Pend(i, p, n)
    requires i < |run[a].queues| && run[a].queues[i].contents == []
    requires forall k | a < k < b :: steps[k] != TimeDelayResume(p) && steps[k] != PendReturn(p)
    requires Ticks(steps, a + 1, b, p) + 1 == n && steps[b] == TimeTick(p)
    requires p in run[b].core.tasks && run[b].core.tasks[p].pending
    ensures p in run[b + 1].core.tasks
    ensures var t := run[b + 1].core.tasks[p];
            t.verdict == TimedOut && !t.pending && (p in run[b + 1].core.ready <==> !t.suspended)
  {
    hide IsStep, Initial, CoreInv, QueuesInv, LogInv;
    TimeoutIsExact(sizes, run, steps, a, b, i, p, n);
    StepOfRun(sizes, run, steps, b);
    LastTick(run[b], p);
  }

  lemma LastTick(s: State, p: nat)
    requires Inv(s) && p in s.core.tasks && s.core.tasks[p].pending && s.core.tasks[p].delay == 1
    ensures var k := Tick(s.core, p); p in k.tasks && k.tasks[p].verdict == TimedOut && !k.tasks[p].pending
    ensures var k := Tick(s.core, p); p in k.ready <==> !k.tasks[p].suspended
  {
  }
}

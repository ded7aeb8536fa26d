/** What the timer queue of a loop does over whole runs (timer.go): scheduling, cancelling, expiry
    passes and the one-shot timerfd, seen as steps on an abstract state. `TimerQueue` shows that the
    code takes exactly these steps. */
module TimerRuns {
  import opened Wrappers
  import opened TimerHeap

  const MICRO: int := 1000

  /** The kernel timer: armed until a deadline, or expired and readable. */
  datatype TimerFd = TimerFd(deadline: Option<Time>, readable: bool, lastArm: Time)

  /** Armed for t at the time `now`, but never less than 100 microseconds ahead. */
  function Arm(t: Time, now: Time): (fd: TimerFd)
    ensures Covers(fd, t) && fd.deadline.Some? && fd.deadline.value > now && fd.deadline.value >= t
  {
    TimerFd(Some(if t >= now + 100 * MICRO then t else now + 100 * MICRO), false, now)
  }

  /** The timerfd will wake the loop in time for a task due at t. */
  predicate Covers(fd: TimerFd, t: Time) {
    fd.readable ||
    (fd.deadline.Some? && (fd.deadline.value <= t || fd.deadline.value <= fd.lastArm + 100 * MICRO))
  }

  datatype Info = Info(expire: Time, interval: int, repeat: bool, canceled: bool)

  datatype Core = Core(
    info: map<TimerTask, Info>,     // every task created
    heap: set<TimerTask>,
    root: Option<TimerTask>,        // the task at heap index 0
    fd: TimerFd,
    ran: seq<TimerTask>)            // history: callbacks run

  /** The root is a heap task of least expiry. */
  ghost predicate Rooted(c: Core) {
    && c.heap <= c.info.Keys
    && (c.heap == {} <==> c.root.None?)
    && (c.root.Some? ==> c.root.value in c.heap)
    && (c.root.Some? ==> forall t :: t in c.heap ==> c.info[c.root.value].expire <= c.info[t].expire)
  }

  // ---------------------------------------------------------------- steps of the timer queue

  predicate IsEarliest(c: Core, expire: Time)
    requires c.root.Some? ==> c.root.value in c.info
  {
    c.root.None? || expire < c.info[c.root.value].expire
  }

  /** addTask and addTask0. */
  ghost predicate AddStep(c: Core, c': Core, t: TimerTask, now: Time) {
    && Rooted(c) && Rooted(c') && t in c.info && t !in c.heap
    && c' == c.(heap := c.heap + {t}, root := c'.root,
                fd := if IsEarliest(c, c.info[t].expire) then Arm(c.info[t].expire, now) else c.fd)
  }

  /** The closure queued by cancel: flags always, removal unless the task is the root. */
  ghost predicate CancelStep(c: Core, c': Core, t: TimerTask) {
    && Rooted(c) && Rooted(c') && t in c.info
    && c' == c.(info := c.info[t := c.info[t].(repeat := false, canceled := true)], root := c'.root,
                heap := if c.root == Some(t) then c.heap else c.heap - {t})
  }

  /** The heap tasks due at `now`, each once, earliest first. */
  ghost predicate Due(c: Core, now: Time, expired: seq<TimerTask>)
    requires c.heap <= c.info.Keys
  {
    && (forall t :: t in expired ==> t in c.heap && c.info[t].expire <= now)
    && (forall t :: t in c.heap && c.info[t].expire <= now ==> t in expired)
    && (forall i, j :: 0 <= i < j < |expired| ==> expired[i] != expired[j])
    && (forall i, j :: 0 <= i < j < |expired| ==> c.info[expired[i]].expire <= c.info[expired[j]].expire)
  }

  /** The first half of handleRead: the timerfd is read and the due tasks leave the heap. */
  ghost predicate ExpireStep(c: Core, c': Core, now: Time, expired: seq<TimerTask>) {
    && Rooted(c) && Rooted(c') && Due(c, now, expired)
    && c' == c.(heap := (set t | t in c.heap && c.info[t].expire > now), root := c'.root,
                fd := c.fd.(readable := false))
  }

  /** One turn of the callback loop of handleRead. */
  predicate RunStep(c: Core, c': Core, t: TimerTask) {
    && t in c.info
    && c' == if c.info[t].canceled then c else c.(ran := c.ran + [t])
  }

  /** A task that comes back after it has run. The code asks for the flag `repeat`, which says the same. */
  predicate Renews(i: Info) { i.interval > 0 && !i.canceled }

  function Restarted(info: map<TimerTask, Info>, expired: seq<TimerTask>, t: Time): map<TimerTask, Info> {
    map x | x in info :: if x in expired && Renews(info[x]) then info[x].(expire := t + info[x].interval) else info[x]
  }

  /** reset: repeating tasks return with a later expiry, then the timerfd is armed for the root
      unless the root is due at or before the epoch. */
  ghost predicate ResetStep(c: Core, c': Core, expired: seq<TimerTask>, t: Time, now: Time) {
    && Rooted(c) && Rooted(c') && (forall x :: x in expired ==> x in c.info)
    && c'.info == Restarted(c.info, expired, t)
    && c'.heap == c.heap + (set x | x in expired && Renews(c.info[x]))
    && c'.ran == c.ran
    && c'.fd == if c'.root.Some? && c'.info[c'.root.value].expire > 0
                then Arm(c'.info[c'.root.value].expire, now) else c.fd
  }

  // ---------------------------------------------------------------- the loop around it

  datatype Closure = Add(task: TimerTask) | Cancel(task: TimerTask)

  datatype Phase = Idle | Firing(now: Time, expired: seq<TimerTask>, next: nat)

  datatype State = State(
    core: Core,
    queue: seq<Closure>,         // closures waiting in the loop's task queue
    added: set<TimerTask>,       // history: tasks that addTask or addTask0 has inserted
    phase: Phase,
    clock: Time)
  {
    /** The due tasks whose turn in the callback loop has not come. */
    function Waiting(): seq<TimerTask> {
      if phase.Firing? && phase.next <= |phase.expired| then phase.expired[phase.next..] else []
    }
  }

  datatype Action =
    | Tick(clock: Time)
    | Schedule(task: TimerTask, expire: Time, interval: int)       // on the loop thread, also in callbacks
    | AsyncSchedule(task: TimerTask, expire: Time, interval: int)  // from any thread
    | RequestCancel(task: TimerTask)                               // from any thread
    | RunClosure
    | BeginRead
    | Callback
    | EndRead

  function Created(c: Core, t: TimerTask, expire: Time, interval: int): Core {
    c.(info := c.info[t := Info(expire, interval, interval > 0, false)])
  }

  function Elapse(fd: TimerFd, clock: Time): TimerFd {
    if fd.deadline.Some? && fd.deadline.value <= clock then fd.(deadline := None, readable := true) else fd
  }

  ghost predicate Init(s: State) {
    && s.core.info == map[] && s.core.heap == {} && s.core.root.None? && s.core.ran == []
    && s.core.fd.deadline.None? && !s.core.fd.readable
    && s.queue == [] && s.added == {} && s.phase.Idle? && s.clock > 0
  }

  ghost predicate Next(s: State, s': State, a: Action) {
    match a
    case Tick(clock) =>
      clock >= s.clock && s' == s.(clock := clock, core := s.core.(fd := Elapse(s.core.fd, clock)))
    case Schedule(t, expire, interval) =>
      && t !in s.core.info
      && AddStep(Created(s.core, t, expire, interval), s'.core, t, s.clock)
      && s' == s.(core := s'.core, added := s.added + {t})
    case AsyncSchedule(t, expire, interval) =>
      && t !in s.core.info
      && s' == s.(core := Created(s.core, t, expire, interval), queue := s.queue + [Add(t)])
    case RequestCancel(t) =>
      t in s.core.info && s' == s.(queue := s.queue + [Cancel(t)])
    case RunClosure =>
      && s.phase.Idle? && s.queue != []
      && var t := s.queue[0].task;
         if s.queue[0].Add? then
           AddStep(s.core, s'.core, t, s.clock) &&
           s' == s.(core := s'.core, queue := s.queue[1..], added := s.added + {t})
         else
           CancelStep(s.core, s'.core, t) && s' == s.(core := s'.core, queue := s.queue[1..])
    case BeginRead =>
      && s.phase.Idle? && s'.phase.Firing?
      && ExpireStep(s.core, s'.core, s.clock, s'.phase.expired)
      && s' == s.(core := s'.core, phase := Firing(s.clock, s'.phase.expired, 0))
    case Callback =>
      && s.phase.Firing? && s.phase.next < |s.phase.expired|
      && RunStep(s.core, s'.core, s.phase.expired[s.phase.next])
      && s' == s.(core := s'.core, phase := s.phase.(next := s.phase.next + 1))
    case EndRead =>
      && s.phase.Firing? && s.phase.next >= |s.phase.expired|
      && ResetStep(s.core, s'.core, s.phase.expired, s.phase.now, s.clock)
      && s' == s.(core := s'.core, phase := Idle)
  }

  ghost predicate IsRun(run: seq<State>, acts: seq<Action>) {
    && |run| == |acts| + 1
    && Init(run[0])
    && forall i :: 0 <= i < |acts| ==> Next(run[i], run[i + 1], acts[i])
  }

  // ---------------------------------------------------------------- arming

  /** Between expiry passes the timerfd covers the root. Inside a pass it covers every root that was
      due already when the pass began: such a root was scheduled by a callback, which armed for it. */
  ghost predicate ArmInv(s: State) {
    && Rooted(s.core) && s.clock > 0
    && (s.phase.Firing? ==> s.phase.now > 0)
    && (s.core.root.Some? ==>
          var due := s.core.info[s.core.root.value].expire;
          s.phase.Idle? || due <= s.phase.now ==> Covers(s.core.fd, due))
  }

  lemma RootExpiryAfterAdd(c: Core, c': Core, t: TimerTask, now: Time)
    requires AddStep(c, c', t, now)
    ensures c'.root.Some?
    ensures var due := c'.info[c'.root.value].expire;
            due == if IsEarliest(c, c.info[t].expire) then c.info[t].expire else c.info[c.root.value].expire
  {
    assert t in c'.heap;
    if c.root.Some? { assert c.root.value in c'.heap; }
  }

  lemma StepKeepsArm(s: State, s': State, a: Action)
    requires ArmInv(s) && Next(s, s', a)
    ensures ArmInv(s')
  {
    match a
    case Tick(clock) =>
    case Schedule(t, expire, interval) =>
      RootExpiryAfterAdd(Created(s.core, t, expire, interval), s'.core, t, s.clock);
    case AsyncSchedule(t, _, _) =>
    case RequestCancel(_) =>
    case RunClosure =>
      if s.queue[0].Add? {
        RootExpiryAfterAdd(s.core, s'.core, s.queue[0].task, s.clock);
      } else if s.core.root.Some? {
        assert s.core.root.value in s'.core.heap;
      }
    case BeginRead =>
    case Callback =>
    case EndRead =>
      EndReadArms(s, s');
  }

  lemma EndReadArms(s: State, s': State)
    requires ArmInv(s) && Next(s, s', EndRead)
    ensures ArmInv(s')
  {
    if s'.core.root.Some? {
      var r := s'.core.root.value;
      if s'.core.info[r].expire <= 0 {
        assert r in s.core.heap;
        assert s.core.root.value in s'.core.heap;
        assert s.core.info[s.core.root.value].expire <= s.core.info[r].expire;
      }
    }
  }

  lemma {:induction false} RunKeepsArm(run: seq<State>, acts: seq<Action>, i: nat)
    requires IsRun(run, acts) && i < |run|
    ensures ArmInv(run[i])
  {
    if i > 0 {
      hide Next, ArmInv;
      RunKeepsArm(run, acts, i - 1);
      StepKeepsArm(run[i - 1], run[i], acts[i - 1]);
    }
  }

  /** Whenever no expiry pass is under way and the heap is not empty, the timerfd is readable, or armed
      no later than the root's expiry or 100 microseconds after it was last armed. */
  lemma {:induction false} TimerIsArmed(run: seq<State>, acts: seq<Action>, i: nat)
    requires IsRun(run, acts) && i < |run| && run[i].phase.Idle? && run[i].core.heap != {}
    ensures run[i].core.root.Some? && run[i].core.root.value in run[i].core.heap
    ensures forall t :: t in run[i].core.heap ==>
              t in run[i].core.info && Covers(run[i].core.fd, run[i].core.info[t].expire)
  {
    RunKeepsArm(run, acts, i);
  }

  // ---------------------------------------------------------------- cancelling and running once

  /** A cancel closure in the queue comes behind the insertion of its task. */
  ghost predicate QueueInv(s: State) {
    && (forall i :: 0 <= i < |s.queue| ==> s.queue[i].task in s.core.info)
    && (forall i :: 0 <= i < |s.queue| && s.queue[i].Add? ==> s.queue[i].task !in s.added)
    && (forall i, j :: 0 <= i < j < |s.queue| && s.queue[i].Add? ==> s.queue[j] != s.queue[i])
    && (forall j :: 0 <= j < |s.queue| && s.queue[j].Cancel? && s.queue[j].task !in s.added ==>
          AddedBefore(s.queue, j))
    && (forall t :: t in s.core.info && t !in s.added ==> Add(t) in s.queue)
  }

  ghost predicate AddedBefore(queue: seq<Closure>, j: nat)
    requires j < |queue|
  {
    exists i :: 0 <= i < j && queue[i] == Add(queue[j].task)
  }

  ghost predicate TaskInv(s: State) {
    && s.core.heap <= s.added <= s.core.info.Keys
    && (forall t :: t in s.core.info && s.core.info[t].canceled ==> t in s.added)
    && (forall t :: t in s.core.info ==> s.core.info[t].repeat == Renews(s.core.info[t]))
    && (s.phase.Firing? ==> s.phase.next <= |s.phase.expired|)
    && (s.phase.Firing? ==> forall t :: t in s.phase.expired ==> t in s.added && t !in s.core.heap)
    && (s.phase.Firing? ==> forall i, j :: 0 <= i < j < |s.phase.expired| ==> s.phase.expired[i] != s.phase.expired[j])
  }

  /** A one-shot task has not run while it still may, and has run at most once in any case. */
  ghost predicate OnceInv(s: State) {
    && (forall t :: t in s.core.ran ==> t in s.core.info)
    && (forall t :: t in s.core.info && s.core.info[t].interval <= 0 ==>
          && multiset(s.core.ran)[t] <= 1
          && (t !in s.added || t in s.core.heap || t in s.Waiting() ==> t !in s.core.ran))
  }

  lemma AddedBeforeExtends(queue: seq<Closure>, c: Closure, j: nat)
    requires j < |queue| && AddedBefore(queue, j)
    ensures AddedBefore(queue + [c], j)
  {
    var i :| 0 <= i < j && queue[i] == Add(queue[j].task);
    assert (queue + [c])[i] == Add((queue + [c])[j].task);
  }

  lemma ClosureKeepsQueue(s: State, s': State)
    requires QueueInv(s) && TaskInv(s) && Next(s, s', RunClosure)
    ensures QueueInv(s')
  {
    forall j | 0 <= j < |s'.queue| && s'.queue[j].Cancel? && s'.queue[j].task !in s'.added
      ensures AddedBefore(s'.queue, j)
    {
      assert AddedBefore(s.queue, j + 1);
      var i :| 0 <= i < j + 1 && s.queue[i] == Add(s.queue[j + 1].task);
      assert i > 0;
      assert s'.queue[i - 1] == Add(s'.queue[j].task);
    }
    forall t | t in s'.core.info && t !in s'.added ensures Add(t) in s'.queue {
      var i :| 0 <= i < |s.queue| && s.queue[i] == Add(t);
      assert i > 0;
      assert s'.queue[i - 1] == Add(t);
    }
  }

  lemma QueuedAddKeepsQueue(s: State, s': State, t: TimerTask)
    requires QueueInv(s) && TaskInv(s) && t !in s.core.info && s'.core.info.Keys == s.core.info.Keys + {t}
    requires s'.queue == s.queue + [Add(t)] && s'.added == s.added
    ensures QueueInv(s')
  {
    forall j | 0 <= j < |s'.queue| && s'.queue[j].Cancel? && s'.queue[j].task !in s'.added
      ensures AddedBefore(s'.queue, j)
    {
      AddedBeforeExtends(s.queue, Add(t), j);
    }
  }

  lemma QueuedCancelKeepsQueue(s: State, s': State, t: TimerTask)
    requires QueueInv(s) && t in s.core.info && s'.core == s.core && s'.queue == s.queue + [Cancel(t)] && s'.added == s.added
    ensures QueueInv(s')
  {
    forall j | 0 <= j < |s'.queue| && s'.queue[j].Cancel? && s'.queue[j].task !in s'.added
      ensures AddedBefore(s'.queue, j)
    {
      if j < |s.queue| {
        AddedBeforeExtends(s.queue, Cancel(t), j);
      } else {
        var i :| 0 <= i < |s.queue| && s.queue[i] == Add(t);
        assert s'.queue[i] == Add(t);
      }
    }
  }

  lemma StepKeepsQueue(s: State, s': State, a: Action)
    requires QueueInv(s) && TaskInv(s) && Next(s, s', a)
    ensures QueueInv(s')
  {
    match a
    case AsyncSchedule(t, _, _) => QueuedAddKeepsQueue(s, s', t);
    case RequestCancel(t) => QueuedCancelKeepsQueue(s, s', t);
    case RunClosure =>
      ClosureKeepsQueue(s, s');
    case _ =>
      forall j | 0 <= j < |s'.queue| && s'.queue[j].Cancel? && s'.queue[j].task !in s'.added
        ensures AddedBefore(s'.queue, j)
      {
        assert AddedBefore(s.queue, j);
      }
  }

  lemma StepKeepsTasks(s: State, s': State, a: Action)
    requires QueueInv(s) && TaskInv(s) && Next(s, s', a)
    ensures TaskInv(s')
  {
    if a.RunClosure? {
      assert s.queue[0].Cancel? ==> s.queue[0].task in s.added;
    }
  }

  lemma CountAppend(s: seq<TimerTask>, x: TimerTask, t: TimerTask)
    ensures multiset(s + [x])[t] == multiset(s)[t] + if x == t then 1 else 0
    ensures t in s + [x] <==> t in s || t == x
    ensures t !in s ==> multiset(s)[t] == 0
  {
    assert t in s <==> t in multiset(s);
  }

  lemma CallbackKeepsOnce(s: State, s': State)
    requires TaskInv(s) && OnceInv(s) && Next(s, s', Callback)
    ensures OnceInv(s')
  {
    var x := s.phase.expired[s.phase.next];
    assert s.Waiting()[0] == x && s'.Waiting() == s.Waiting()[1..];
    assert x !in s'.Waiting();
    forall t | t in s'.core.info && s'.core.info[t].interval <= 0
      ensures multiset(s'.core.ran)[t] <= 1
      ensures t !in s'.added || t in s'.core.heap || t in s'.Waiting() ==> t !in s'.core.ran
    {
      CountAppend(s.core.ran, x, t);
    }
  }

  lemma EndReadKeepsOnce(s: State, s': State)
    requires TaskInv(s) && OnceInv(s) && Next(s, s', EndRead)
    ensures OnceInv(s')
  {
    assert s'.Waiting() == [];
  }

  lemma StepKeepsOnce(s: State, s': State, a: Action)
    requires QueueInv(s) && TaskInv(s) && OnceInv(s) && Next(s, s', a)
    ensures OnceInv(s')
  {
    match a
    case Callback => CallbackKeepsOnce(s, s');
    case EndRead => EndReadKeepsOnce(s, s');
    case BeginRead => assert s'.Waiting() == s'.phase.expired;
    case _ => assert s'.Waiting() == s.Waiting();
  }

  ghost predicate Inv(s: State) { QueueInv(s) && TaskInv(s) && OnceInv(s) }

  lemma {:induction false} RunKeepsTasks(run: seq<State>, acts: seq<Action>, i: nat)
    requires IsRun(run, acts) && i < |run|
    ensures Inv(run[i])
  {
    if i > 0 {
      hide Next, QueueInv, TaskInv, OnceInv;
      RunKeepsTasks(run, acts, i - 1);
      var s, s', a := run[i - 1], run[i], acts[i - 1];
      assert Next(s, s', a);
      StepKeepsQueue(s, s', a);
      StepKeepsTasks(s, s', a);
      StepKeepsOnce(s, s', a);
    }
  }

  /** A task without an interval runs at most once in any run. */
  lemma {:induction false} OneShotRunsOnce(run: seq<State>, acts: seq<Action>, i: nat, t: TimerTask)
    requires IsRun(run, acts) && i < |run|
    requires t in run[i].core.info && run[i].core.info[t].interval <= 0
    ensures multiset(run[i].core.ran)[t] <= 1
  {
    RunKeepsTasks(run, acts, i);
  }

  /** No spurious passes: the timerfd is readable only if a deadline it was armed for has passed since it was
      last read. */
  lemma {:induction false} ExpiriesAreReal(run: seq<State>, acts: seq<Action>, i: nat)
    requires IsRun(run, acts) && i < |run| && run[i].core.fd.readable
    ensures exists k :: && 0 <= k < i && acts[k].Tick? && run[k].core.fd.deadline.Some?
                        && run[k].core.fd.deadline.value <= acts[k].clock && forall m :: k < m < i ==> !acts[m].BeginRead?
  {
    var s, a := run[i - 1], acts[i - 1];
    assert Next(s, run[i], a);
    if s.core.fd.readable {
      ExpiriesAreReal(run, acts, i - 1);
      var k :| && 0 <= k < i - 1 && acts[k].Tick? && run[k].core.fd.deadline.Some?
               && run[k].core.fd.deadline.value <= acts[k].clock && forall m :: k < m < i - 1 ==> !acts[m].BeginRead?;
      assert forall m :: k < m < i ==> !acts[m].BeginRead?;
    } else {
      assert a.Tick? && s.core.fd.deadline.value <= a.clock;
    }
  }

  /** The end of a pass: an expired task with an interval that is not cancelled is in the heap again, due one
      interval after the beginning of the pass; every other expired task has left; the rest is as it was. */
  lemma {:induction false} RepeatingTaskReturns(run: seq<State>, acts: seq<Action>, i: nat, t: TimerTask)
    requires IsRun(run, acts) && i < |acts| && acts[i].EndRead? && t in run[i].core.info
    ensures run[i].phase.Firing? && t in run[i + 1].core.info
    ensures var was, now := run[i].core.info[t], run[i + 1].core.info[t];
            if t in run[i].phase.expired then
              if was.interval > 0 && !was.canceled
              then t in run[i + 1].core.heap && now == was.(expire := run[i].phase.now + was.interval)
              else t !in run[i + 1].core.heap && now == was
            else now == was && (t in run[i + 1].core.heap <==> t in run[i].core.heap)
  {
    RunKeepsTasks(run, acts, i);
    hide QueueInv, OnceInv;
    assert Next(run[i], run[i + 1], acts[i]);
  }

  /** In a pass that began at step i, the callbacks run so far are those of the expired tasks whose turn has
      come and that are not cancelled, each once. */
  ghost predicate PassRan(s: State, s': State, t: TimerTask) {
    && t in s.core.info && t in s'.core.info && s'.core.info[t].canceled == s.core.info[t].canceled
    && s'.phase.Firing? && s'.phase.next <= |s'.phase.expired|
    && (t in s'.phase.expired <==> t in s.core.heap && s.core.info[t].expire <= s.clock)
    && multiset(s'.core.ran)[t] ==
         multiset(s.core.ran)[t] + if t in s'.phase.expired[..s'.phase.next] && !s.core.info[t].canceled then 1 else 0
  }

  lemma PassStep(s: State, m: State, s': State, a: Action, t: TimerTask)
    requires PassRan(s, m, t) && TaskInv(m) && Next(m, s', a) && s'.phase.Firing?
    ensures PassRan(s, s', t)
  {
    if a.Callback? {
      var x, n := m.phase.expired[m.phase.next], m.phase.next;
      CountAppend(m.core.ran, x, t);
      assert m.phase.expired[..n + 1] == m.phase.expired[..n] + [x];
      assert x !in m.phase.expired[..n];
    }
  }

  lemma {:induction false} PassRuns(run: seq<State>, acts: seq<Action>, i: nat, j: nat, t: TimerTask)
    requires IsRun(run, acts) && i < j < |run| && acts[i].BeginRead? && t in run[i].core.info
    requires forall k :: i < k <= j ==> run[k].phase.Firing?
    ensures PassRan(run[i], run[j], t)
    decreases j - i
  {
    hide QueueInv, OnceInv, Next;
    RunKeepsTasks(run, acts, j - 1);
    assert Next(run[j - 1], run[j], acts[j - 1]);
    if j == i + 1 {
      FirstOfPass(run[i], run[j], t);
    } else {
      PassRuns(run, acts, i, j - 1, t);
      PassStep(run[i], run[j - 1], run[j], acts[j - 1], t);
    }
  }

  lemma FirstOfPass(s: State, s': State, t: TimerTask)
    requires Next(s, s', BeginRead) && t in s.core.info
    ensures PassRan(s, s', t)
  {
  }

  /** A pass runs the callback of every task that was due when it began and is not cancelled exactly once,
      and no other. */
  lemma {:induction false} PassRunsDueTasks(run: seq<State>, acts: seq<Action>, i: nat, j: nat, t: TimerTask)
    requires IsRun(run, acts) && i < j < |acts| && acts[i].BeginRead? && acts[j].EndRead? && t in run[i].core.info
    requires forall k :: i < k <= j ==> run[k].phase.Firing?
    ensures multiset(run[j + 1].core.ran)[t] == multiset(run[i].core.ran)[t] +
              if t in run[i].core.heap && run[i].core.info[t].expire <= run[i].clock && !run[i].core.info[t].canceled then 1 else 0
  {
    PassRuns(run, acts, i, j, t);
    assert Next(run[j], run[j + 1], acts[j]);
    var expired := run[j].phase.expired;
    assert expired[..|expired|] == expired;
  }

  ghost predicate Canceled(s: State, t: TimerTask) { t in s.core.info && s.core.info[t].canceled }

  /** From s to s' a cancelled task stayed cancelled, did not run and did not enter the heap. */
  ghost predicate StaysCanceled(s: State, s': State, t: TimerTask) {
    && Canceled(s, t) && Canceled(s', t) && s'.core.info[t].expire == s.core.info[t].expire
    && multiset(s'.core.ran)[t] == multiset(s.core.ran)[t]
    && (t in s'.core.heap ==> t in s.core.heap)
  }

  lemma CanceledStep(s: State, s': State, a: Action, t: TimerTask)
    requires Inv(s) && Next(s, s', a) && Canceled(s, t)
    ensures StaysCanceled(s, s', t)
    ensures a.BeginRead? && s.core.info[t].expire <= s.clock ==> t !in s'.core.heap
  {
    if a.Callback? {
      CountAppend(s.core.ran, s.phase.expired[s.phase.next], t);
    }
  }

  lemma StaysCanceledOneMore(s: State, m: State, s': State, a: Action, t: TimerTask)
    requires StaysCanceled(s, m, t) && Inv(m) && Next(m, s', a)
    ensures StaysCanceled(s, s', t)
  {
    CanceledStep(m, s', a, t);
  }

  /** Once its cancel closure has run, a task's callback never runs again and the task never returns
      to the heap. */
  lemma {:induction false} CancelIsFinal(run: seq<State>, acts: seq<Action>, i: nat, j: nat, t: TimerTask)
    requires IsRun(run, acts) && i <= j < |run| && Canceled(run[i], t)
    ensures StaysCanceled(run[i], run[j], t)
    decreases j - i
  {
    hide Inv, Next;
    if i < j {
      CancelIsFinal(run, acts, i, j - 1, t);
      RunKeepsTasks(run, acts, j - 1);
      StaysCanceledOneMore(run[i], run[j - 1], run[j], acts[j - 1], t);
    }
  }

  /** A cancelled root is gone for good after the first expiry pass at or after its expiry. */
  lemma {:induction false} CanceledRootIsEvicted(run: seq<State>, acts: seq<Action>, i: nat, k: nat, j: nat, t: TimerTask)
    requires IsRun(run, acts) && i <= k < j < |run| && Canceled(run[i], t)
    requires acts[k].BeginRead? && run[i].core.info[t].expire <= run[k].clock
    ensures t !in run[j].core.heap
  {
    hide Inv, Next;
    CancelIsFinal(run, acts, i, k, t);
    RunKeepsTasks(run, acts, k);
    CanceledStep(run[k], run[k + 1], acts[k], t);
    CancelIsFinal(run, acts, k + 1, j, t);
  }

  /** The closure itself takes the task out at once, unless the task is the root. */
  lemma CancelRemoves(run: seq<State>, acts: seq<Action>, i: nat, t: TimerTask)
    requires IsRun(run, acts) && i < |acts| && acts[i].RunClosure?
    requires run[i].queue != [] && run[i].queue[0] == Cancel(t)
    ensures Canceled(run[i + 1], t)
    ensures t in run[i + 1].core.heap <==> run[i].core.root == Some(t)
  {
    RunKeepsArm(run, acts, i);
    assert Next(run[i], run[i + 1], acts[i]);
  }
}

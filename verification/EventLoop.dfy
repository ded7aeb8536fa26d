/** The pending-task queue of one event loop and its eventfd, as a concurrent step system
    (eventloop.go).

    Any number of threads call `AsyncExecute`, `AsyncStop` and `Stop` while the loop thread
    polls, handles events and runs batches of tasks. Every lock, unlock, list operation, eventfd
    write and eventfd read is a step of its own, so a run is an arbitrary interleaving.
 */
module EventLoop {
  import opened Wrappers

  type Tid = nat
  type TaskId = nat

  /** The thread that runs `Loop`. */
  const LOOP: Tid := 0

  /** An eventfd counter saturates here: a non-blocking write that would exceed it fails. */
  const EVENTFD_MAX: nat := 0xffff_ffff_ffff_fffe

  /** Where a thread stands inside a call to `AsyncExecute` or `AsyncStop`. */
  datatype Call =
    | Idle
    | WantLock(task: TaskId)   // before taskMutex.Lock()
    | HasLock(task: TaskId)    // before PushBack
    | Pushed                   // before taskMutex.Unlock()
    | Waking                   // before the eventfd write of Wakeup
  {
    /** The thread has made its push (or its store to quit) and still owes a wakeup. */
    predicate OwesWakeup() { Pushed? || Waking? }
    predicate InLock() { HasLock? || Pushed? }
  }

  /** Where the loop thread stands inside `Loop`. */
  datatype Pc =
    | Entry                            // before quit is stored as 0
    | Check                            // before quit is loaded
    | Polling                          // in epoll_wait
    | Handling(wakeupReady: bool)      // dispatching active channels
    | Grabbed(list: nat)               // the list pointer was read; the lock is not yet held
    | SwapLocked(list: nat)            // lock held, pointer not yet replaced
    | Swapped(list: nat)               // pointer replaced, lock still held
    | Running(list: nat, next: nat)    // executing the old list
    | Exited
  {
    predicate InLock() { SwapLocked? || Swapped? }
    /** Only while callbacks or tasks run can the loop thread itself call into the queue. */
    predicate RunsUserCode() { Handling? || Running? }
  }

  datatype State = State(
    pc: Pc,
    calls: map<Tid, Call>,
    lists: seq<seq<TaskId>>,    // every list ever allocated
    cur: nat,                   // the list el.pendingTasks points to
    mutex: Option<Tid>,
    counter: nat,               // the eventfd
    quit: bool,
    silentStop: bool,           // history: another thread's Stop stored quit since the last check
    pushed: seq<TaskId>,        // history: pushes in lock order
    executed: seq<TaskId>)      // history: tasks run
  {
    function CallOf(t: Tid): Call { if t in calls then calls[t] else Idle }
    function Pending(): seq<TaskId>
      requires cur < |lists|
    {
      lists[cur]
    }
  }

  datatype Action =
    | BeginPush(t: Tid, task: TaskId)
    | Lock(t: Tid)
    | PushBack(t: Tid)
    | Unlock(t: Tid)
    | StoreQuit(t: Tid)           // first half of AsyncStop
    | Wakeup(t: Tid)
    | Stop(t: Tid)                // Stop: stores quit and does not wake
    | EnterLoop
    | LoadQuit
    | PollReturns(reported: bool)
    | DrainEventFd
    | GrabList
    | LockForSwap
    | SwapList
    | UnlockAfterSwap
    | RunTask
    | EndBatch

  predicate Init(s: State) {
    && s.pc == Entry && s.calls == map[] && s.lists == [[]] && s.cur == 0
    && s.mutex == None && s.counter == 0 && !s.quit && !s.silentStop
    && s.pushed == [] && s.executed == []
  }

  /** A thread may start a call; the loop thread only from user code it is running. */
  predicate MayCall(s: State, t: Tid) {
    s.CallOf(t).Idle? && (t == LOOP ==> s.pc.RunsUserCode())
  }

  predicate LoopAt(s: State) { s.CallOf(LOOP).Idle? }

  predicate Enabled(s: State, a: Action) {
    s.cur < |s.lists| &&
    match a
    case BeginPush(t, _) => MayCall(s, t)
    case Lock(t) => s.CallOf(t).WantLock? && s.mutex.None?
    case PushBack(t) => s.CallOf(t).HasLock?
    case Unlock(t) => s.CallOf(t).Pushed?
    case StoreQuit(t) => MayCall(s, t)
    case Wakeup(t) => s.CallOf(t).Waking?
    case Stop(t) => MayCall(s, t)
    case EnterLoop => LoopAt(s) && s.pc.Entry?
    case LoadQuit => LoopAt(s) && s.pc.Check?
    case PollReturns(reported) => LoopAt(s) && s.pc.Polling? && (reported ==> s.counter > 0)
    case DrainEventFd => LoopAt(s) && s.pc == Handling(true)
    case GrabList => LoopAt(s) && s.pc == Handling(false)
    case LockForSwap => LoopAt(s) && s.pc.Grabbed? && s.mutex.None?
    case SwapList => LoopAt(s) && s.pc.SwapLocked?
    case UnlockAfterSwap => LoopAt(s) && s.pc.Swapped?
    case RunTask => LoopAt(s) && s.pc.Running? && s.pc.list < |s.lists| && s.pc.next < |s.lists[s.pc.list]|
    case EndBatch => LoopAt(s) && s.pc.Running? && s.pc.list < |s.lists| && s.pc.next >= |s.lists[s.pc.list]|
  }

  function EventFdWrite(counter: nat): nat {
    if counter < EVENTFD_MAX then counter + 1 else counter
  }

  function Do(s: State, a: Action): State
    requires Enabled(s, a)
  {
    match a
    case BeginPush(t, task) => s.(calls := s.calls[t := WantLock(task)])
    case Lock(t) => s.(mutex := Some(t), calls := s.calls[t := HasLock(s.CallOf(t).task)])
    case PushBack(t) =>
      var task := s.CallOf(t).task;
      s.(lists := s.lists[s.cur := s.lists[s.cur] + [task]],
         calls := s.calls[t := Pushed], pushed := s.pushed + [task])
    case Unlock(t) => s.(mutex := None, calls := s.calls[t := Waking])
    case StoreQuit(t) => s.(quit := true, calls := s.calls[t := Waking])
    case Wakeup(t) => s.(counter := EventFdWrite(s.counter), calls := s.calls[t := Idle])
    case Stop(t) => s.(quit := true, silentStop := s.silentStop || t != LOOP)
    case EnterLoop => s.(quit := false, pc := Check)
    case LoadQuit => if s.quit then s.(pc := Exited) else s.(pc := Polling, silentStop := false)
    case PollReturns(reported) => s.(pc := Handling(reported))
    case DrainEventFd => s.(counter := 0, pc := Handling(false))
    case GrabList => s.(pc := Grabbed(s.cur))
    case LockForSwap => s.(mutex := Some(LOOP), pc := SwapLocked(s.pc.list))
    case SwapList => s.(lists := s.lists + [[]], cur := |s.lists|, pc := Swapped(s.pc.list))
    case UnlockAfterSwap => s.(mutex := None, pc := Running(s.pc.list, 0))
    case RunTask =>
      s.(executed := s.executed + [s.lists[s.pc.list][s.pc.next]], pc := Running(s.pc.list, s.pc.next + 1))
    case EndBatch => s.(pc := Check)
  }

  predicate Next(s: State, s': State, a: Action) { Enabled(s, a) && s' == Do(s, a) }

  /** A run: an initial state and any interleaving of steps after it. */
  ghost predicate IsRun(run: seq<State>, acts: seq<Action>) {
    && |run| == |acts| + 1
    && Init(run[0])
    && forall i :: 0 <= i < |acts| ==> Next(run[i], run[i + 1], acts[i])
  }

  // ---------------------------------------------------------------- the invariant

  ghost predicate LockInv(s: State) {
    && (forall t :: t in s.calls && s.calls[t].InLock() ==> s.mutex == Some(t))
    && (s.pc.InLock() ==> s.mutex == Some(LOOP))
    && (s.mutex.Some? ==> (s.mutex.value == LOOP && s.pc.InLock()) || s.CallOf(s.mutex.value).InLock())
    && (!s.pc.RunsUserCode() ==> s.CallOf(LOOP).Idle?)
  }

  /** The pointer read outside the lock is still the current list when the lock is taken, and
      after the swap no other thread can reach the old list. */
  predicate ListInv(s: State) {
    && s.cur < |s.lists|
    && (s.pc.Grabbed? || s.pc.SwapLocked? ==> s.pc.list == s.cur)
    && (s.pc.Swapped? || s.pc.Running? ==> s.pc.list < |s.lists| && s.pc.list != s.cur)
    && (s.pc.Running? ==> s.pc.next <= |s.lists[s.pc.list]|)
  }

  /** The part of the batch that was taken off the queue and has not run yet. */
  function Rest(s: State): seq<TaskId>
    requires ListInv(s)
  {
    if s.pc.Swapped? then s.lists[s.pc.list]
    else if s.pc.Running? then s.lists[s.pc.list][s.pc.next..]
    else []
  }

  predicate Linear(s: State)
    requires ListInv(s)
  {
    s.executed + Rest(s) + s.Pending() == s.pushed
  }

  ghost predicate WakeupOwed(s: State) {
    exists t :: t in s.calls && s.calls[t].OwesWakeup()
  }

  ghost predicate WakeupInv(s: State)
    requires ListInv(s)
  {
    && (s.pc.Entry? || s.pc.Swapped? || s.pc.Running? || s.pc.Check? || s.pc.Polling? ==>
          s.Pending() != [] ==> s.counter > 0 || WakeupOwed(s))
    && (s.pc.Polling? ==> s.quit ==> s.silentStop || s.counter > 0 || WakeupOwed(s))
  }

  ghost predicate Inv(s: State) {
    LockInv(s) && ListInv(s) && Linear(s) && WakeupInv(s)
  }

  lemma StepKeepsLocks(s: State, a: Action)
    requires LockInv(s) && ListInv(s) && Enabled(s, a)
    ensures LockInv(Do(s, a)) && ListInv(Do(s, a))
  {
  }

  lemma PushKeepsOrder(s: State, t: Tid)
    requires ListInv(s) && Linear(s) && Enabled(s, PushBack(t))
    ensures ListInv(Do(s, PushBack(t))) && Linear(Do(s, PushBack(t)))
  {
    var s', task := Do(s, PushBack(t)), s.CallOf(t).task;
    assert Rest(s') == Rest(s);
    assert s.executed + Rest(s) + (s.Pending() + [task]) == s.executed + Rest(s) + s.Pending() + [task];
  }

  lemma TaskKeepsOrder(s: State)
    requires ListInv(s) && Linear(s) && Enabled(s, RunTask)
    ensures ListInv(Do(s, RunTask)) && Linear(Do(s, RunTask))
  {
    var s', task := Do(s, RunTask), s.lists[s.pc.list][s.pc.next];
    assert Rest(s) == [task] + Rest(s');
    assert s.executed + ([task] + Rest(s')) == s'.executed + Rest(s');
  }

  lemma StepKeepsOrder(s: State, a: Action)
    requires LockInv(s) && ListInv(s) && Linear(s) && Enabled(s, a)
    ensures ListInv(Do(s, a)) && Linear(Do(s, a))
  {
    StepKeepsLocks(s, a);
    var s' := Do(s, a);
    match a
    case PushBack(t) => PushKeepsOrder(s, t);
    case SwapList =>
      assert Rest(s') == s.Pending() && s'.Pending() == [];
    case UnlockAfterSwap =>
      assert Rest(s') == Rest(s);
    case RunTask => TaskKeepsOrder(s);
    case EndBatch =>
      assert Rest(s) == [] && Rest(s') == [];
    case _ =>
      assert Rest(s') == Rest(s) && s'.Pending() == s.Pending();
  }

  lemma StepKeepsDebts(s: State, a: Action)
    requires LockInv(s) && ListInv(s) && Enabled(s, a) && WakeupOwed(s)
    ensures WakeupOwed(Do(s, a)) || Do(s, a).counter > 0
  {
    var s' := Do(s, a);
    var t :| t in s.calls && s.calls[t].OwesWakeup();
    if s'.counter == 0 {
      assert t in s'.calls && s'.calls[t].OwesWakeup();
    }
  }

  lemma StepKeepsWakeup(s: State, a: Action)
    requires LockInv(s) && ListInv(s) && WakeupInv(s) && Enabled(s, a)
    ensures ListInv(Do(s, a)) && WakeupInv(Do(s, a))
  {
    StepKeepsLocks(s, a);
    var s' := Do(s, a);
    if WakeupOwed(s) { StepKeepsDebts(s, a); }
    match a
    case PushBack(t) => assert t in s'.calls && s'.calls[t].OwesWakeup();
    case StoreQuit(t) => assert t in s'.calls && s'.calls[t].OwesWakeup();
    case _ =>
  }

  lemma {:induction false} RunKeepsInv(run: seq<State>, acts: seq<Action>, i: nat)
    requires IsRun(run, acts) && i < |run|
    ensures Inv(run[i])
  {
    if i > 0 {
      RunKeepsInv(run, acts, i - 1);
      assert Next(run[i - 1], run[i], acts[i - 1]);
      StepKeepsLocks(run[i - 1], acts[i - 1]);
      StepKeepsOrder(run[i - 1], acts[i - 1]);
      StepKeepsWakeup(run[i - 1], acts[i - 1]);
    }
  }

  // ---------------------------------------------------------------- the theorems

  /** Executed tasks, then the unexecuted rest of the batch, then the pending tasks are exactly the
      pushes in lock order, at every point of every run: nothing is lost, repeated or reordered. */
  lemma {:induction false} TasksRunInPushOrder(run: seq<State>, acts: seq<Action>, i: nat)
    requires IsRun(run, acts) && i < |run|
    ensures ListInv(run[i])
    ensures run[i].executed + Rest(run[i]) + run[i].Pending() == run[i].pushed
  {
    RunKeepsInv(run, acts, i);
  }

  /** A loop that is about to sleep with tasks pending, or with quit set by `AsyncStop` after its
      check, finds the eventfd readable or another thread about to write it. */
  lemma {:induction false} NoLostWakeup(run: seq<State>, acts: seq<Action>, i: nat)
    requires IsRun(run, acts) && i < |run| && run[i].pc.Polling?
    ensures ListInv(run[i])
    ensures run[i].Pending() != [] || (run[i].quit && !run[i].silentStop) ==>
              || run[i].counter > 0
              || exists t :: t != LOOP && t in run[i].calls && run[i].calls[t].OwesWakeup()
  {
    RunKeepsInv(run, acts, i);
    var s := run[i];
    if (s.Pending() != [] || (s.quit && !s.silentStop)) && s.counter == 0 {
      var t :| t in s.calls && s.calls[t].OwesWakeup();
      assert t != LOOP;
    }
  }

  /** Both states run the same batch, whose list did not change; the tasks executed between them are
      exactly a slice of it; and whatever was pushed meanwhile went to another list. */
  predicate SameBatch(s: State, s': State) {
    && s.pc.Running? && s'.pc.Running? && ListInv(s) && ListInv(s')
    && s'.pc.list == s.pc.list && s'.lists[s.pc.list] == s.lists[s.pc.list]
    && s.pc.next <= s'.pc.next
    && s'.executed == s.executed + s.lists[s.pc.list][s.pc.next..s'.pc.next]
    && s'.cur == s.cur && s.Pending() <= s'.Pending()
  }

  lemma SameBatchTransitive(s: State, m: State, s': State)
    requires SameBatch(s, m) && SameBatch(m, s')
    ensures SameBatch(s, s')
  {
    var batch := s.lists[s.pc.list];
    assert batch[s.pc.next..m.pc.next] + batch[m.pc.next..s'.pc.next] == batch[s.pc.next..s'.pc.next];
  }

  lemma StepKeepsBatch(s: State, s': State, a: Action)
    requires LockInv(s) && ListInv(s) && Next(s, s', a) && s.pc.Running? && s'.pc.Running?
    ensures SameBatch(s, s') && s'.pc.next <= s.pc.next + 1
  {
    StepKeepsLocks(s, a);
  }

  /** A batch is finite: it runs the tasks it started with, however many are pushed meanwhile. */
  lemma {:induction false} BatchIsFrozen(run: seq<State>, acts: seq<Action>, i: nat, j: nat)
    requires IsRun(run, acts) && i <= j < |run|
    requires forall k :: i <= k <= j ==> run[k].pc.Running?
    ensures SameBatch(run[i], run[j])
    decreases j - i
  {
    hide Linear, WakeupInv;
    RunKeepsInv(run, acts, i);
    if i < j {
      BatchIsFrozen(run, acts, i, j - 1);
      RunKeepsInv(run, acts, j - 1);
      StepKeepsBatch(run[j - 1], run[j], acts[j - 1]);
      SameBatchTransitive(run[i], run[j - 1], run[j]);
    }
  }

  /** Histories only grow. */
  lemma {:induction false} HistoryGrows(run: seq<State>, acts: seq<Action>, i: nat, j: nat)
    requires IsRun(run, acts) && i <= j < |run|
    ensures run[i].pushed <= run[j].pushed && run[i].executed <= run[j].executed
    decreases j - i
  {
    if i < j {
      HistoryGrows(run, acts, i, j - 1);
      assert Next(run[j - 1], run[j], acts[j - 1]);
    }
  }

  /** A batch swapped out after the loop was in epoll_wait holds everything pushed before that. */
  lemma {:induction false} BatchHoldsEarlierPushes(run: seq<State>, acts: seq<Action>, i: nat, k: nat)
    requires IsRun(run, acts) && i <= k < |run| && run[i].pc.Polling? && (run[k].pc.Swapped? || run[k].pc.Running?)
    ensures ListInv(run[k]) && |run[k].executed| + |Rest(run[k])| >= |run[i].pushed|
    decreases k - i
  {
    RunKeepsInv(run, acts, k);
    RunKeepsInv(run, acts, k - 1);
    assert Next(run[k - 1], run[k], acts[k - 1]);
    if acts[k - 1].SwapList? {
      HistoryGrows(run, acts, i, k);
      assert run[k].Pending() == [];
      assert run[k].executed + Rest(run[k]) + [] == run[k].executed + Rest(run[k]);
    } else {
      BatchHoldsEarlierPushes(run, acts, i, k - 1);
    }
  }

  /** Progress: once the loop has been through a batch after it was in epoll_wait, everything pushed up to
      then has been executed, in order and before anything pushed later. */
  lemma {:induction false} EarlierPushesAreExecuted(run: seq<State>, acts: seq<Action>, i: nat, k: nat, j: nat)
    requires IsRun(run, acts) && i < k < j < |run| && run[i].pc.Polling? && acts[k].EndBatch?
    ensures run[i].pushed <= run[j].executed
  {
    assert Next(run[k], run[k + 1], acts[k]);
    BatchHoldsEarlierPushes(run, acts, i, k);
    HistoryGrows(run, acts, k, j);
    HistoryGrows(run, acts, i, j);
    RunKeepsInv(run, acts, j);
    var s := run[j];
    assert s.executed <= s.executed + Rest(s) + s.Pending();
  }

  /** The steps that a thread takes inside a call, and those of the loop itself. */
  predicate IsStepOf(a: Action, t: Tid) {
    match a
    case Lock(u) => u == t
    case PushBack(u) => u == t
    case Unlock(u) => u == t
    case Wakeup(u) => u == t
    case BeginPush(_, _) => false
    case StoreQuit(_) => false
    case Stop(_) => false
    case _ => t == LOOP
  }

  /** Nobody is ever stuck: a thread inside a call, and the loop until it has left `Loop`, can take its next
      step, or waits for the lock, whose holder can take its own. */
  lemma {:induction false} NobodyIsStuck(run: seq<State>, acts: seq<Action>, i: nat, t: Tid)
    requires IsRun(run, acts) && i < |run|
    requires !run[i].CallOf(t).Idle? || (t == LOOP && !run[i].pc.Exited?)
    ensures var s := run[i];
            || (exists a :: IsStepOf(a, t) && Enabled(s, a))
            || (s.mutex.Some? && s.mutex.value != t && exists a :: IsStepOf(a, s.mutex.value) && Enabled(s, a))
  {
    RunKeepsInv(run, acts, i);
    hide Linear, WakeupInv;
    var s := run[i];
    var a := NextStep(s, t);
    if !Enabled(s, a) { HolderMoves(s, t); }
  }

  /** The next step of a thread, enabled unless it is to take the lock. */
  lemma NextStep(s: State, t: Tid) returns (a: Action)
    requires LockInv(s) && ListInv(s) && (!s.CallOf(t).Idle? || (t == LOOP && !s.pc.Exited?))
    ensures IsStepOf(a, t) && (Enabled(s, a) || (a.Lock? && s.CallOf(t).WantLock?) || (a.LockForSwap? && s.pc.Grabbed? && s.CallOf(LOOP).Idle?))
    ensures Enabled(s, a) <== s.mutex.None?
  {
    match s.CallOf(t)
    case WantLock(_) => a := Lock(t);
    case HasLock(_) => a := PushBack(t);
    case Pushed => a := Unlock(t);
    case Waking => a := Wakeup(t);
    case Idle =>
      match s.pc {
        case Entry => a := EnterLoop;
        case Check => a := LoadQuit;
        case Polling => a := PollReturns(false);
        case Handling(ready) => a := if ready then DrainEventFd else GrabList;
        case Grabbed(_) => a := LockForSwap;
        case SwapLocked(_) => a := SwapList;
        case Swapped(_) => a := UnlockAfterSwap;
        case Running(list, next) => a := if next < |s.lists[list]| then RunTask else EndBatch;
        case Exited => assert false;
      }
  }

  lemma HolderMoves(s: State, t: Tid)
    requires LockInv(s) && ListInv(s) && s.mutex.Some?
    requires s.CallOf(t).WantLock? || (t == LOOP && s.pc.Grabbed? && s.CallOf(LOOP).Idle?)
    ensures s.mutex.value != t && exists a :: IsStepOf(a, s.mutex.value) && Enabled(s, a)
  {
    var u := s.mutex.value;
    var a := if u == LOOP && s.pc.SwapLocked? then SwapList else if u == LOOP && s.pc.Swapped? then UnlockAfterSwap
             else if s.CallOf(u).HasLock? then PushBack(u) else Unlock(u);
    assert IsStepOf(a, u) && Enabled(s, a);
  }

  /** The loop leaves `Loop` only with quit set. */
  lemma {:induction false} ExitNeedsQuit(run: seq<State>, acts: seq<Action>, i: nat)
    requires IsRun(run, acts) && i < |run| && run[i].pc.Exited?
    ensures run[i].quit
  {
    assert Next(run[i - 1], run[i], acts[i - 1]);
    if run[i - 1].pc.Exited? { ExitNeedsQuit(run, acts, i - 1); }
  }

  /** No spurious wakeups: the eventfd is readable only if somebody has written it since it was last read. */
  lemma {:induction false} WakeupsAreReal(run: seq<State>, acts: seq<Action>, i: nat)
    requires IsRun(run, acts) && i < |run| && run[i].counter > 0
    ensures exists k :: 0 <= k < i && acts[k].Wakeup? && forall m :: k < m < i ==> !acts[m].DrainEventFd?
  {
    var a := acts[i - 1];
    assert Next(run[i - 1], run[i], a);
    if !a.Wakeup? {
      WakeupsAreReal(run, acts, i - 1);
      var k :| 0 <= k < i - 1 && acts[k].Wakeup? && forall m :: k < m < i - 1 ==> !acts[m].DrainEventFd?;
      assert forall m :: k < m < i ==> !acts[m].DrainEventFd?;
    }
  }

  // ---------------------------------------------------------------- stopping

  /** In epoll_wait with quit set, an empty eventfd and nobody about to write it. */
  ghost predicate Asleep(s: State) { s.pc.Polling? && s.quit && s.counter == 0 && !WakeupOwed(s) }

  /** Exactly when a call of `Stop` leaves the loop asleep: it is in epoll_wait with nothing on the way. A
      call on the loop thread, from a callback or a task, never does. */
  lemma {:induction false} StopSleepsIff(run: seq<State>, acts: seq<Action>, i: nat, t: Tid)
    requires IsRun(run, acts) && i < |run| && Enabled(run[i], Stop(t))
    ensures Asleep(Do(run[i], Stop(t))) <==> run[i].pc.Polling? && run[i].counter == 0 && !WakeupOwed(run[i])
    ensures t == LOOP ==> !Asleep(Do(run[i], Stop(t)))
  {
    RunKeepsInv(run, acts, i);
    var s, s' := run[i], Do(run[i], Stop(t));
    assert s'.calls == s.calls;
    if WakeupOwed(s) {
      var u :| u in s.calls && s.calls[u].OwesWakeup();
      assert u in s'.calls && s'.calls[u].OwesWakeup();
    }
    if WakeupOwed(s') {
      var u :| u in s'.calls && s'.calls[u].OwesWakeup();
      assert u in s.calls && s.calls[u].OwesWakeup();
    }
  }

  /** While a loop sleeps only another thread's push or stop can wake it: every other step leaves it asleep. */
  lemma SleepLasts(s: State, a: Action)
    requires Asleep(s) && Enabled(s, a) && !a.PushBack? && !a.StoreQuit? && !a.PollReturns?
    requires LockInv(s) && ListInv(s)
    ensures Asleep(Do(s, a))
  {
    var s' := Do(s, a);
    forall u | u in s'.calls ensures !s'.calls[u].OwesWakeup() {
      assert u in s.calls ==> !s.calls[u].OwesWakeup();
    }
  }

  /** Once the loop has entered `Loop`, quit never reverts; and if it is set while the loop is not in
      epoll_wait, the loop never enters epoll_wait again. */
  lemma {:induction false} QuitIsSeen(run: seq<State>, acts: seq<Action>, i: nat, j: nat)
    requires IsRun(run, acts) && i <= j < |run| && run[i].quit && !run[i].pc.Entry?
    ensures run[j].quit && !run[j].pc.Entry?
    ensures !run[i].pc.Polling? ==> !run[j].pc.Polling?
    decreases j - i
  {
    if i < j {
      QuitIsSeen(run, acts, i, j - 1);
      assert Next(run[j - 1], run[j], acts[j - 1]);
    }
  }

  /** A quit stored before the loop has entered `Loop` is erased there, whoever stored it. */
  lemma {:induction false} EntryErasesQuit(run: seq<State>, acts: seq<Action>, i: nat)
    requires IsRun(run, acts) && i < |acts| && acts[i].EnterLoop?
    ensures run[i].pc.Entry? && !run[i + 1].quit && run[i + 1].pc.Check?
    ensures forall k :: 0 <= k <= i ==> run[k].pc.Entry?
  {
    assert Next(run[i], run[i + 1], acts[i]);
    forall k | 0 <= k <= i ensures run[k].pc.Entry? { EntryIsFirst(run, acts, k, i); }
  }

  lemma {:induction false} EntryIsFirst(run: seq<State>, acts: seq<Action>, k: nat, i: nat)
    requires IsRun(run, acts) && k <= i < |run| && run[i].pc.Entry?
    ensures run[k].pc.Entry?
    decreases i - k
  {
    if k < i {
      assert Next(run[i - 1], run[i], acts[i - 1]);
      EntryIsFirst(run, acts, k, i - 1);
    }
  }

  /** So a whole `AsyncStop` can be lost: here the loop polls after it with quit unset. */
  lemma EarlyAsyncStopIsLost() returns (run: seq<State>, acts: seq<Action>)
    ensures IsRun(run, acts) && acts == [StoreQuit(1), Wakeup(1), EnterLoop, LoadQuit]
    ensures run[4].pc.Polling? && !run[4].quit
  {
    acts := [StoreQuit(1), Wakeup(1), EnterLoop, LoadQuit];
    var s0 := State(Entry, map[], [[]], 0, None, 0, false, false, [], []);
    var s1 := Do(s0, acts[0]);
    var s2 := Do(s1, acts[1]);
    var s3 := Do(s2, acts[2]);
    var s4 := Do(s3, acts[3]);
    run := [s0, s1, s2, s3, s4];
    assert Next(s0, s1, acts[0]) && Next(s1, s2, acts[1]) && Next(s2, s3, acts[2]) && Next(s3, s4, acts[3]);
  }

  /** `Stop` from another thread carries no wakeup: there is a run that leaves the loop asleep with
      quit set, an empty eventfd and nobody about to write it. */
  lemma StopFromOutsideMaySleep() returns (run: seq<State>, acts: seq<Action>)
    ensures IsRun(run, acts)
    ensures Asleep(run[|run| - 1])
  {
    var s0 := State(Entry, map[], [[]], 0, None, 0, false, false, [], []);
    var s1 := Do(s0, EnterLoop);
    var s2 := Do(s1, LoadQuit);
    var s3 := Do(s2, Stop(1));
    run, acts := [s0, s1, s2, s3], [EnterLoop, LoadQuit, Stop(1)];
    assert Next(s0, s1, EnterLoop) && Next(s1, s2, LoadQuit) && Next(s2, s3, Stop(1));
  }
}

/** The timer queue as the code implements it (timer.go): every method is shown to take the step of
    `TimerRuns` that bears its name, so the results over runs hold for the code. */
module TimerQueue {
  import opened Wrappers
  import opened TimerHeap
  import opened TimerRuns

  /** Go's Duration.Microseconds: division towards zero. */
  function Microseconds(d: int): int { if d >= 0 then d / MICRO else -((-d) / MICRO) }

  /** A task that a callback schedules, and the time at which it does. */
  datatype Request = Request(expire: Time, interval: int, now: Time)

  class Queue {
    const heap: TimerTaskHeap
    var fd: TimerFd
    var ran: seq<TimerTask>            // history: callbacks run
    ghost var known: set<TimerTask>    // tasks created for this queue

    ghost predicate Valid()
      reads this, heap, heap.members, known
    {
      && heap.Valid()
      && heap.members <= known
      && (forall t :: t in known && t !in heap.members ==> t.index == -1)
      && (forall t :: t in known ==> t.repeat == (t.interval > 0 && !t.canceled))
    }

    ghost function Abs(): Core
      requires Valid()
      reads this, heap, heap.members, known
    {
      Core(map t | t in known :: Info(t.expire, t.interval, t.repeat, t.canceled),
           heap.members,
           if heap.tasks == [] then None else Some(heap.tasks[0]),
           fd, ran)
    }

    lemma AbsRooted()
      requires Valid()
      ensures Rooted(Abs())
      ensures heap.tasks == [] <==> heap.members == {}
    {
      if heap.tasks != [] {
        assert heap.tasks[0] in heap.members;
        heap.AllLater();
      }
    }

    constructor ()
      ensures Valid() && fresh(heap) && known == {}
      ensures Abs() == Core(map[], {}, None, TimerFd(None, false, 0), [])
    {
      heap := new TimerTaskHeap();
      fd := TimerFd(None, false, 0);
      ran := [];
      known := {};
    }

    /** timerfd_settime is given a duration, computed and rounded as Go does. The kernel timer it leaves is
        armed for t, or for 100 microseconds from now if that is later, and so covers a task due at t; it
        is never disarmed, as a duration of zero would. */
    method ResetTimerFd(t: Time, now: Time)
      modifies this`fd
      ensures fd == Arm(t, now) && Covers(fd, t) && fd.deadline.value > now && fd.deadline.value >= t
    {
      var duration := t - now;
      if Microseconds(duration) < 100 {
        duration := 100 * MICRO;
      }
      fd := TimerFd(Some(now + duration), false, now);
    }

    method Insert(task: TimerTask) returns (earliestChanged: bool)
      requires Valid() && task in known && task !in heap.members
      modifies heap, heap.members`index, task`index
      ensures Valid() && heap.members == old(heap.members) + {task}
      ensures earliestChanged == (old(heap.tasks) == [] || task.expire < old(heap.tasks[0].expire))
    {
      earliestChanged := false;
      if |heap.tasks| == 0 || task.expire < heap.tasks[0].expire {
        earliestChanged := true;
      }
      heap.Push(task);
    }

    method AddTask0(task: TimerTask, now: Time)
      requires Valid() && task in known && task !in heap.members
      modifies this`fd, heap, heap.members`index, task`index
      ensures Valid() && known == old(known) && AddStep(old(Abs()), Abs(), task, now)
    {
      hide TimerTaskHeap.Valid, Arm;
      AbsRooted();
      var earliestChanged := Insert(task);
      if earliestChanged {
        ResetTimerFd(task.expire, now);
      }
      AbsRooted();
    }

    method AddTask(expire: Time, interval: int, now: Time) returns (tt: TimerTask)
      requires Valid()
      modifies this`fd, this`known, heap, heap.members`index
      ensures Valid() && fresh(tt) && known == old(known) + {tt}
      ensures AddStep(Created(old(Abs()), tt, expire, interval), Abs(), tt, now)
    {
      AbsRooted();
      tt := new TimerTask(expire, interval);
      known := known + {tt};
      ghost var c := Abs();
      assert c == Created(old(Abs()), tt, expire, interval);
      AddTask0(tt, now);
    }

    method MarkCanceled(tt: TimerTask)
      requires Valid() && tt in known
      modifies tt`repeat, tt`canceled
      ensures Valid()
      ensures var c := old(Abs()); Abs() == c.(info := c.info[tt := c.info[tt].(repeat := false, canceled := true)])
    {
      tt.repeat := false;
      tt.canceled := true;
      assert KeysOf(heap.members) == old(KeysOf(heap.members));
    }

    /** The closure that `cancel` puts on the loop's task queue. */
    method CancelClosure(tt: TimerTask)
      requires Valid() && tt in known
      modifies heap, heap.members`index, tt`repeat, tt`canceled
      ensures Valid() && CancelStep(old(Abs()), Abs(), tt)
    {
      AbsRooted();
      MarkCanceled(tt);
      ghost var marked := Abs();
      if tt.index > 0 {
        var _ := heap.Remove(tt.index);
        assert Abs() == marked.(heap := marked.heap - {tt}, root := Abs().root);
      }
      AbsRooted();
    }

    method GetExpired(t: Time) returns (expired: seq<TimerTask>)
      requires Valid()
      modifies this`fd, heap, heap.members`index
      ensures Valid() && ExpireStep(old(Abs()), Abs(), t, expired)
    {
      hide TimerTaskHeap.Valid;
      AbsRooted();
      ghost var before := Abs();
      fd := fd.(readable := false);
      expired := heap.GetAndRemoveExpired(t);
      assert Abs().info == before.info;
      assert Abs().heap == set x | x in before.heap && before.info[x].expire > t;
      AbsRooted();
    }

    method Run(v: TimerTask)
      requires Valid() && v in known
      modifies this`ran
      ensures Valid() && RunStep(old(Abs()), Abs(), v)
    {
      if !v.canceled {
        ran := ran + [v];
      }
    }

    /** One turn of the loop in `reset`: a repeating task is restarted and inserted again. */
    method Renew(v: TimerTask, t: Time)
      requires Valid() && v in known && v !in heap.members
      modifies heap, heap.members`index, v`index, v`expire
      ensures Valid()
      ensures var c, i := old(Abs()), old(Abs()).info[v];
              if i.interval > 0 && !i.canceled
              then Abs() == c.(info := c.info[v := i.(expire := t + i.interval)], heap := c.heap + {v}, root := Abs().root)
              else Abs() == c
    {
      if v.repeat && !v.canceled {
        v.expire := t + v.interval;   // restart
        assert KeysOf(heap.members) == old(KeysOf(heap.members));
        var _ := Insert(v);
      }
    }

    /** The loop in `reset`. */
    method RenewAll(expired: seq<TimerTask>, t: Time)
      requires Valid()
      requires forall i :: 0 <= i < |expired| ==> expired[i] in known && expired[i] !in heap.members
      requires forall i, j :: 0 <= i < j < |expired| ==> expired[i] != expired[j]
      modifies heap, heap.members`index, expired`index, expired`expire
      ensures Valid() && RenewedTo(old(Abs()), Abs(), expired, |expired|, t)
    {
      hide Restarted, RenewedTo, Renews, TimerTaskHeap.Valid;
      ghost var before := Abs();
      RenewedNone(before, expired, t);
      for k := 0 to |expired|
        invariant Valid() && RenewedTo(before, Abs(), expired, k, t)
      {
        ghost var c := Abs();
        RenewedNext(before, c, expired, k, t);
        Renew(expired[k], t);
        RenewedOneMore(before, c, Abs(), expired, k, t);
      }
    }

    method Reset(expired: seq<TimerTask>, t: Time, now: Time)
      requires Valid()
      requires forall i :: 0 <= i < |expired| ==> expired[i] in known && expired[i] !in heap.members
      requires forall i, j :: 0 <= i < j < |expired| ==> expired[i] != expired[j]
      modifies this`fd, heap, heap.members`index, expired`index, expired`expire
      ensures Valid() && ResetStep(old(Abs()), Abs(), expired, t, now)
    {
      hide Restarted, Arm, TimerTaskHeap.Valid;
      AbsRooted();
      RenewAll(expired, t);
      assert expired[..|expired|] == expired;
      ArmRoot(now);
      AbsRooted();
    }

    /** The end of `reset`. */
    method ArmRoot(now: Time)
      requires Valid()
      modifies this`fd
      ensures Valid()
      ensures var c := old(Abs());
              Abs() == c.(fd := if c.root.Some? && c.info[c.root.value].expire > 0
                                then Arm(c.info[c.root.value].expire, now) else c.fd)
    {
      if |heap.tasks| > 0 {
        var nextExpire := heap.tasks[0].expire;
        if nextExpire > 0 {
          ResetTimerFd(nextExpire, now);
        }
      }
    }

    /** What a user callback does to the queue: it schedules any number of tasks. */
    method UserCallback(requests: seq<Request>, ghost now: Time)
      requires Valid() && PassCovered(Abs(), now)
      modifies this`fd, this`known, heap, heap.members`index
      ensures Valid() && PassCovered(Abs(), now) && Extends(old(Abs()), Abs())
      ensures ran == old(ran) && forall x :: x in heap.members ==> x in old(heap.members) || fresh(x)
    {
      hide PassCovered, Extends, AddStep, TimerTaskHeap.Valid;
      ghost var before := Abs();
      ExtendsItself(before);
      for i := 0 to |requests|
        invariant Valid() && PassCovered(Abs(), now) && Extends(before, Abs()) && ran == old(ran)
        invariant forall x :: x in heap.members ==> x in old(heap.members) || fresh(x)
      {
        ghost var c := Abs();
        var r := requests[i];
        var tt := AddTask(r.expire, r.interval, r.now);
        AddExtends(before, c, Abs(), tt, r, now);
      }
    }

    /** One turn of the callback loop. */
    method Turn(v: TimerTask, requests: seq<Request>, ghost now: Time)
      requires Valid() && PassCovered(Abs(), now) && v in known
      modifies this`fd, this`known, this`ran, heap, heap.members`index
      ensures Valid() && PassCovered(Abs(), now) && Extends(old(Abs()), Abs())
      ensures ran == old(ran) + if old(Abs()).info[v].canceled then [] else [v]
      ensures forall x :: x in heap.members ==> x in old(heap.members) || fresh(x)
    {
      Run(v);
      if !v.canceled {
        UserCallback(requests, now);
      }
    }

    /** The callback loop of handleRead; the k-th callback schedules `script[k]`. */
    method RunCallbacks(expired: seq<TimerTask>, script: seq<seq<Request>>, ghost now: Time)
      requires Valid() && PassCovered(Abs(), now)
      requires forall x :: x in expired ==> x in known
      modifies this`fd, this`known, this`ran, heap, heap.members`index
      ensures Valid() && PassCovered(Abs(), now) && Extends(old(Abs()), Abs())
      ensures forall x :: x in heap.members ==> x in old(heap.members) || fresh(x)
      ensures ran == old(ran) + Live(old(Abs()).info, expired)
    {
      hide PassCovered, Live, TimerTaskHeap.Valid;
      ghost var before := Abs();
      LiveOfNone(before.info, expired);
      for k := 0 to |expired|
        invariant Valid() && PassCovered(Abs(), now) && Extends(before, Abs())
        invariant forall x :: x in heap.members ==> x in old(heap.members) || fresh(x)
        invariant ran == old(ran) + Live(before.info, expired[..k])
      {
        var v := expired[k];
        ghost var c := Abs();
        assert v in expired && v in before.info && c.info[v] == before.info[v];
        LiveOneMore(before.info, expired, k);
        Turn(v, if k < |script| then script[k] else [], now);
        ExtendsTransitive(before, c, Abs());
      }
      assert expired[..|expired|] == expired;
    }

    /** handleRead: one expiry pass, whose callbacks may schedule tasks. The callbacks run are those of
        the due tasks that are not cancelled, earliest first; afterwards the timerfd covers the root
        again, whatever the callbacks did. */
    method HandleRead(now: Time, script: seq<seq<Request>>, resetAt: Time) returns (expired: seq<TimerTask>)
      requires Valid() && now > 0
      modifies this`fd, this`known, this`ran, heap, heap.members`index, heap.members`expire
      ensures Valid() && Due(old(Abs()), now, expired)
      ensures ran == old(ran) + Live(old(Abs()).info, expired)
      ensures forall t :: t in expired && old(t.interval > 0 && !t.canceled) ==> t in heap.members && t.expire == now + t.interval
      ensures forall t :: t in expired && old(t.interval <= 0 || t.canceled) ==> t !in heap.members
      ensures heap.tasks != [] ==> Covers(fd, heap.tasks[0].expire)
    {
      ghost var before := Abs();
      expired := GetExpired(now);
      RunCallbacks(expired, script, now);
      ghost var c := Abs();
      Reset(expired, now, resetAt);
      ResetCovers(c, Abs(), expired, now, resetAt);
    }
  }

  /** The callbacks an expiry pass runs. */
  function Live(info: map<TimerTask, Info>, ts: seq<TimerTask>): seq<TimerTask> {
    if ts == [] then []
    else
      var t := ts[|ts| - 1];
      Live(info, ts[..|ts| - 1]) + if t in info && info[t].canceled then [] else [t]
  }

  lemma {:induction false} LiveMembers(info: map<TimerTask, Info>, ts: seq<TimerTask>, t: TimerTask)
    requires forall x :: x in ts ==> x in info
    ensures t in Live(info, ts) <==> t in ts && !info[t].canceled
  {
    if ts != [] {
      var n := |ts| - 1;
      assert ts == ts[..n] + [ts[n]];
      LiveMembers(info, ts[..n], t);
    }
  }

  /** Tasks that are all there, different and earliest first. */
  predicate InOrder(info: map<TimerTask, Info>, ts: seq<TimerTask>) {
    && (forall i :: 0 <= i < |ts| ==> ts[i] in info)
    && (forall i, j :: 0 <= i < j < |ts| ==> ts[i] != ts[j] && info[ts[i]].expire <= info[ts[j]].expire)
  }

  /** They are those of the due tasks that are not cancelled, each once and earliest first. */
  lemma {:induction false} LiveMeans(info: map<TimerTask, Info>, ts: seq<TimerTask>)
    requires InOrder(info, ts)
    ensures InOrder(info, Live(info, ts))
    ensures forall t :: t in Live(info, ts) <==> t in ts && !info[t].canceled
  {
    forall t ensures t in Live(info, ts) <==> t in ts && !info[t].canceled { LiveMembers(info, ts, t); }
    if ts != [] {
      var n := |ts| - 1;
      var init := ts[..n];
      LiveMeans(info, init);
      forall t | t in Live(info, init) ensures t != ts[n] && info[t].expire <= info[ts[n]].expire {
        var k :| 0 <= k < n && init[k] == t;
        assert ts[k] == t;
      }
      AppendInOrder(info, Live(info, init), ts[n]);
    }
  }

  lemma AppendInOrder(info: map<TimerTask, Info>, ts: seq<TimerTask>, t: TimerTask)
    requires InOrder(info, ts) && t in info && forall x :: x in ts ==> x != t && info[x].expire <= info[t].expire
    ensures InOrder(info, ts + [t])
  {
    assert forall i :: 0 <= i < |ts| ==> ts[i] in ts;
  }

  lemma LiveOfNone(info: map<TimerTask, Info>, ts: seq<TimerTask>)
    ensures Live(info, ts[..0]) == []
  {
  }

  lemma LiveOneMore(info: map<TimerTask, Info>, ts: seq<TimerTask>, k: nat)
    requires k < |ts| && ts[k] in info
    ensures Live(info, ts[..k + 1]) == Live(info, ts[..k]) + if info[ts[k]].canceled then [] else [ts[k]]
  {
    assert ts[..k + 1][..k] == ts[..k];
  }

  /** Inside a pass that began at `now`: a root that was due by then is covered. */
  ghost predicate PassCovered(c: Core, now: Time) {
    && Rooted(c)
    && (c.root.Some? ==> c.info[c.root.value].expire <= now ==> Covers(c.fd, c.info[c.root.value].expire))
  }

  /** Tasks were added; those there before are as they were. */
  ghost predicate Extends(c: Core, c': Core) {
    && c.info.Keys <= c'.info.Keys && c.heap <= c'.heap
    && (forall t :: t in c.info ==> c'.info[t] == c.info[t])
    && (forall t :: t in c.info && t in c'.heap ==> t in c.heap)
  }

  lemma ExtendsTransitive(c: Core, m: Core, c': Core)
    requires Extends(c, m) && Extends(m, c')
    ensures Extends(c, c')
  {
  }

  lemma ExtendsItself(c: Core)
    ensures Extends(c, c)
  {
  }

  /** Scheduling a task inside a pass. */
  lemma AddExtends(before: Core, c: Core, c': Core, tt: TimerTask, r: Request, now: Time)
    requires Extends(before, c) && PassCovered(c, now) && tt !in c.info
    requires AddStep(Created(c, tt, r.expire, r.interval), c', tt, r.now)
    ensures Extends(before, c') && PassCovered(c', now) && c'.ran == c.ran && c'.heap == c.heap + {tt}
  {
    RootExpiryAfterAdd(Created(c, tt, r.expire, r.interval), c', tt, r.now);
  }

  lemma ResetCovers(c: Core, c': Core, expired: seq<TimerTask>, t: Time, now: Time)
    requires PassCovered(c, t) && t > 0 && ResetStep(c, c', expired, t, now)
    ensures c'.root.Some? ==> Covers(c'.fd, c'.info[c'.root.value].expire)
  {
    if c'.root.Some? && c'.info[c'.root.value].expire <= 0 {
      assert c'.root.value in c.heap;
      assert c.root.value in c'.heap;
    }
  }

  /** The loop in `reset` has dealt with the first k expired tasks. */
  ghost predicate RenewedTo(c: Core, c': Core, expired: seq<TimerTask>, k: nat, t: Time) {
    && k <= |expired| && (forall i :: 0 <= i < |expired| ==> expired[i] in c.info && expired[i] !in c.heap)
    && (forall i, j :: 0 <= i < j < |expired| ==> expired[i] != expired[j])
    && c' == c.(info := Restarted(c.info, expired[..k], t), root := c'.root,
                heap := c.heap + (set x | x in expired[..k] && Renews(c.info[x])))
  }

  lemma RenewedNone(c: Core, expired: seq<TimerTask>, t: Time)
    requires forall i :: 0 <= i < |expired| ==> expired[i] in c.info && expired[i] !in c.heap
    requires forall i, j :: 0 <= i < j < |expired| ==> expired[i] != expired[j]
    ensures RenewedTo(c, c, expired, 0, t)
  {
    assert Restarted(c.info, expired[..0], t) == c.info;
  }

  /** The next task is still outside the heap, and nothing but expired tasks has entered it. */
  lemma RenewedNext(c: Core, m: Core, expired: seq<TimerTask>, k: nat, t: Time)
    requires RenewedTo(c, m, expired, k, t) && k < |expired|
    ensures expired[k] in m.info && expired[k] !in m.heap
    ensures forall x :: x in m.heap ==> x in c.heap || x in expired
  {
    assert expired[k] !in expired[..k];
  }

  lemma RenewedOneMore(c: Core, m: Core, c': Core, expired: seq<TimerTask>, k: nat, t: Time)
    requires RenewedTo(c, m, expired, k, t) && k < |expired|
    requires var v := expired[k];
             if m.info[v].interval > 0 && !m.info[v].canceled
             then c' == m.(info := m.info[v := m.info[v].(expire := t + m.info[v].interval)], heap := m.heap + {v}, root := c'.root)
             else c' == m
    ensures RenewedTo(c, c', expired, k + 1, t)
  {
    var v := expired[k];
    RestartedOneMore(c.info, expired, k, t);
    hide Restarted;
    assert expired[..k + 1] == expired[..k] + [v];
    assert c'.heap == c.heap + (set x | x in expired[..k + 1] && Renews(c.info[x]));
  }

  lemma RestartedOneMore(info: map<TimerTask, Info>, expired: seq<TimerTask>, k: nat, t: Time)
    requires k < |expired| && expired[k] in info && forall i, j :: 0 <= i < j < |expired| ==> expired[i] != expired[j]
    ensures var v, m := expired[k], Restarted(info, expired[..k], t);
            && v in m && m[v] == info[v]
            && Restarted(info, expired[..k + 1], t) ==
                 if Renews(info[v]) then m[v := info[v].(expire := t + info[v].interval)] else m
  {
    assert expired[k] !in expired[..k];
    assert expired[..k + 1] == expired[..k] + [expired[k]];
  }
}

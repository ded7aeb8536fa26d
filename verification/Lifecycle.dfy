/** The life of server connections across event loops (tcp_server.go, tcp_conn.go), with descriptors
    that the kernel reissues as soon as they are closed.

    A connection is created on the boss loop, established by a task on its own loop, closed by an
    event there, taken out of connMap by a task on the boss loop and destroyed by a task on its own
    loop again. Each loop has a first-in first-out task queue (see `EventLoop`), a poller (see `Poller`)
    and the list of channels its last poll reported. A run interleaves the loops, the kernel and the
    users of the connections in any way; the bodies of tasks and event handlers are atomic.
 */
module Lifecycle {
  import opened Wrappers
  import opened Poller

  type LoopId = nat
  type ConnId = nat
  type Fd = int

  const BOSS: LoopId := 0

  datatype ConnState = Connecting | Connected | Disconnecting | Disconnected

  datatype Conn = Conn(
    loop: LoopId, fd: Fd, state: ConnState,
    established: nat, closes: nat, removals: nat, destroys: nat)   // history: calls made
  {
    /** How far the connection has come, from 0 (queued) to 4 (destroyed). */
    function Stage(): nat { established + closes + removals + destroys }
    predicate Shutting() { state.Disconnecting? || state.Disconnected? }
  }

  datatype Task =
    | Establish(c: ConnId)
    | RemoveInBoss(c: ConnId)
    | Destroy(c: ConnId)
    | ShutdownTask(c: ConnId)

  datatype Report = Report(c: ConnId, revents: Events)

  datatype State = State(
    conns: map<ConnId, Conn>,                    // every connection ever accepted
    nextConnId: ConnId,
    connMap: set<ConnId>,                        // keyed by name; the name is a function of the id
    pollers: map<LoopId, Poller.State<ConnId>>,
    queues: map<LoopId, seq<Task>>,
    active: map<LoopId, seq<Report>>,            // reports of the last poll still to be handled
    open: set<Fd>,                               // descriptors open in the process
    others: set<Fd>,                             // those of them that belong to somebody else
    onConn: bool,                                // the server has been given a connection callback
    panicked: bool)                              // some util.Assert has failed

  datatype Input = ReadError | Data | Eof

  datatype Action =
    | OtherOpen(fd: Fd)
    | OtherClose(fd: Fd)
    | Accept(fd: Fd, loop: LoopId)
    | RunTask(loop: LoopId)
    | Poll(loop: LoopId, reports: seq<Report>)
    | Handle(loop: LoopId, input: Input, drained: bool)
    | UserWrite(c: ConnId)
    | UserShutdown(c: ConnId)

  // ---------------------------------------------------------------- steps

  function Panic(s: State): State { s.(panicked := true) }

  /** The loop and the connection's channel exist; anything else would be a nil dereference. */
  predicate Known(s: State, c: ConnId) {
    && c in s.conns && s.conns[c].loop in s.pollers && s.conns[c].loop in s.queues
    && c in s.pollers[s.conns[c].loop].chans
  }

  function ChanOf(s: State, c: ConnId): Chan
    requires Known(s, c)
  {
    s.pollers[s.conns[c].loop].chans[c]
  }

  /** A call into the poller of the connection's loop. */
  function Tell(s: State, call: Call<ConnId>): (r: State)
    ensures r == s.(pollers := r.pollers, panicked := r.panicked)
  {
    if !Known(s, call.c) || call.Create? then Panic(s)
    else
      var l := s.conns[call.c].loop;
      match Poller.Do(s.pollers[l], call)
      case None => Panic(s)
      case Some(p) => s.(pollers := s.pollers[l := p])
  }

  function Enqueue(s: State, l: LoopId, t: Task): (r: State)
    ensures r == s.(queues := r.queues, panicked := r.panicked)
  {
    if l in s.queues then s.(queues := s.queues[l := s.queues[l] + [t]]) else Panic(s)
  }

  function SetConn(s: State, c: ConnId, conn: Conn): State { s.(conns := s.conns[c := conn]) }

  predicate Enabled(s: State, a: Action) {
    !s.panicked &&
    match a
    case OtherOpen(fd) => fd !in s.open
    case OtherClose(fd) => fd in s.others
    case Accept(fd, l) => fd !in s.open && l in s.pollers
    case RunTask(l) => l in s.queues && s.queues[l] != [] && l in s.active && s.active[l] == []
    case Poll(l, reports) =>
      && l in s.active && s.active[l] == [] && l in s.pollers
      && (forall i :: 0 <= i < |reports| ==> Reported(s, l, reports[i]))
      && (forall i, j :: 0 <= i < j < |reports| ==> reports[i].c != reports[j].c)
    case Handle(l, _, _) => l in s.active && s.active[l] != []
    case UserWrite(c) => Known(s, c) && s.conns[c].state.Connected?
    case UserShutdown(c) => Known(s, c) && s.conns[c].state.Connected?
  }

  /** epoll reports the channel it was registered with, for events it was registered for. */
  predicate Reported(s: State, l: LoopId, r: Report)
    requires l in s.pollers
  {
    && r.c in s.conns && r.c in s.pollers[l].chans
    && var fd := s.pollers[l].chans[r.c].fd;
       && fd in s.pollers[l].kernel && s.pollers[l].kernel[fd].1 == r.c
       && Reportable(s.pollers[l].kernel[fd].0, r.revents)
  }

  /** connectDestroyed after its assignment, and the close behind it. */
  function Teardown(s: State, c: ConnId, fd: Fd): (r: State)
    ensures r == s.(pollers := r.pollers, open := r.open, panicked := r.panicked)
    ensures r.open == s.open - {fd} || (r.panicked && r.open == s.open)
  {
    var t := Tell(s, Change(c, DisableAll));
    if !s.onConn then Panic(t)   // c.onConn(c) without a test for nil
    else CloseFd(Tell(t, Remove(c)), fd)
  }

  function DoTask(s: State, t: Task): State {
    if !Known(s, t.c) then Panic(s)
    else
      var c, conn := t.c, s.conns[t.c];
      match t
      case Establish(_) =>
        if !conn.state.Connecting? then Panic(s)
        else Tell(SetConn(s, c, conn.(state := Connected, established := conn.established + 1)), Change(c, EnableReading))
      case RemoveInBoss(_) =>
        Enqueue(SetConn(s, c, conn.(removals := conn.removals + 1)).(connMap := s.connMap - {c}), conn.loop, Destroy(c))
      case Destroy(_) =>
        if !(conn.state.Connected? || conn.state.Disconnecting?) then Panic(s)
        else Teardown(SetConn(s, c, conn.(state := Disconnected, destroys := conn.destroys + 1)), c, conn.fd)
      case ShutdownTask(_) => s
  }

  /** close(2) drops the descriptor from every interest set. */
  function CloseFd(s: State, fd: Fd): (r: State)
    ensures r == s.(open := s.open - {fd}, pollers := r.pollers)
  {
    s.(open := s.open - {fd}, pollers := map l | l in s.pollers :: Closed(s.pollers[l], fd))
  }

  function HandleClose(s: State, c: ConnId): State
    requires c in s.conns
  {
    var conn := s.conns[c];
    Enqueue(Tell(SetConn(s, c, conn.(closes := conn.closes + 1)), Change(c, DisableAll)), BOSS, RemoveInBoss(c))
  }

  function HandleRead(s: State, c: ConnId, revents: Events, input: Input): State {
    if OnRead in Dispatch(revents) && input.Eof? then
      if c in s.conns then HandleClose(s, c) else Panic(s)
    else s
  }

  function HandleWrite(s: State, c: ConnId, revents: Events, drained: bool): State {
    if OnWrite in Dispatch(revents) && drained then
      if !Known(s, c) then Panic(s)
      else if Writes(ChanOf(s, c).events) then Tell(s, Change(c, DisableWriting)) else s
    else s
  }

  function Do(s: State, a: Action): State
    requires Enabled(s, a)
  {
    match a
    case OtherOpen(fd) => s.(open := s.open + {fd}, others := s.others + {fd})
    case OtherClose(fd) => CloseFd(s, fd).(others := s.others - {fd})
    case Accept(fd, l) =>
      var c := s.nextConnId;
      Enqueue(s.(nextConnId := c + 1, connMap := s.connMap + {c}, open := s.open + {fd},
                 conns := s.conns[c := Conn(l, fd, Connecting, 0, 0, 0, 0)],
                 pollers := s.pollers[l := s.pollers[l].(chans := s.pollers[l].chans[c := Chan(fd, EVENT_NONE, New)])]),
              l, Establish(c))
    case RunTask(l) => DoTask(s.(queues := s.queues[l := s.queues[l][1..]]), s.queues[l][0])
    case Poll(l, reports) => s.(active := s.active[l := reports])
    case Handle(l, input, drained) =>
      var r := s.active[l][0];
      HandleWrite(HandleRead(s.(active := s.active[l := s.active[l][1..]]), r.c, r.revents, input), r.c, r.revents, drained)
    case UserWrite(c) => if Writes(ChanOf(s, c).events) then s else Tell(s, Change(c, EnableWriting))
    case UserShutdown(c) =>
      Enqueue(SetConn(s, c, s.conns[c].(state := Disconnecting)), s.conns[c].loop, ShutdownTask(c))
  }

  predicate Init(s: State) {
    && s.conns == map[] && s.nextConnId == 1 && s.connMap == {} && !s.panicked && s.others == s.open
    && s.pollers.Keys == s.queues.Keys == s.active.Keys && BOSS in s.pollers
    && (forall l :: l in s.pollers ==> s.pollers[l] == Poller.State(map[], map[], map[], 0))
    && (forall l :: l in s.queues ==> s.queues[l] == [])
    && (forall l :: l in s.active ==> s.active[l] == [])
  }

  ghost predicate IsRun(run: seq<State>, acts: seq<Action>) {
    && |run| == |acts| + 1
    && Init(run[0])
    && forall i :: 0 <= i < |acts| ==> Enabled(run[i], acts[i]) && run[i + 1] == Do(run[i], acts[i])
  }

  // ---------------------------------------------------------------- the invariant

  ghost predicate LoopsOk(s: State) {
    && !s.panicked
    && s.pollers.Keys == s.queues.Keys == s.active.Keys && BOSS in s.pollers
    && PollersMirror(s.pollers) && ChansOwned(s)
  }

  ghost predicate PollersMirror(ps: map<LoopId, Poller.State<ConnId>>) { forall l :: l in ps ==> Mirror(ps[l]) }

  /** The channels of a loop are those of its connections. */
  ghost predicate ChansOwned(s: State) {
    forall l, c :: l in s.pollers && c in s.pollers[l].chans ==> c in s.conns && s.conns[c].loop == l
  }

  /** The calls made so far follow the relay in order, each at most once; the connection's state, its
      registration, its descriptor and its place in connMap agree with them. */
  ghost predicate ConnOk(s: State, c: ConnId)
    requires c in s.conns
  {
    var conn := s.conns[c];
    && conn.destroys <= conn.removals <= conn.closes <= conn.established <= 1
    && (conn.state.Connecting? <==> conn.established == 0)
    && (conn.state.Disconnected? <==> conn.destroys == 1)
    && (c in s.connMap <==> conn.removals == 0)
    && c < s.nextConnId
    && Known(s, c)
    && ChanOf(s, c).fd == conn.fd
    && (ChanOf(s, c).index.New? <==> conn.established == 0 || conn.destroys == 1)
    && (Reads(ChanOf(s, c).events) <==> conn.Stage() == 1)
    && (conn.Stage() == 1 ==> ChanOf(s, c).index.Add?)
    && (conn.destroys == 0 ==> conn.fd in s.open && conn.fd !in s.others)
  }

  ghost predicate ConnsOk(s: State) {
    && (forall c :: c in s.conns ==> ConnOk(s, c))
    && s.connMap <= s.conns.Keys
    && FdsDistinct(s)
    && s.others <= s.open
  }

  /** No two connections that are not destroyed share a descriptor. */
  ghost predicate FdsDistinct(s: State) {
    forall c, d :: c in s.conns && d in s.conns && c != d && s.conns[c].destroys == 0 && s.conns[d].destroys == 0 ==>
                     s.conns[c].fd != s.conns[d].fd
  }

  /** The stage in which a task of the relay may be waiting, and the loop on which it waits. */
  predicate TaskOk(s: State, l: LoopId, t: Task) {
    && t.c in s.conns
    && match t
       case Establish(c) => l == s.conns[c].loop && s.conns[c].Stage() == 0
       case RemoveInBoss(c) => l == BOSS && s.conns[c].Stage() == 2
       case Destroy(c) => l == s.conns[c].loop && s.conns[c].Stage() == 3
       case ShutdownTask(c) => l == s.conns[c].loop && s.conns[c].Shutting()
  }

  predicate NoRepeats(q: seq<Task>) {
    forall i, j :: 0 <= i < j < |q| && !q[i].ShutdownTask? ==> q[i] != q[j]
  }

  predicate Waits(s: State, l: LoopId, t: Task) { l in s.queues && t in s.queues[l] }

  predicate NextTaskWaits(s: State, c: ConnId)
    requires c in s.conns
  {
    && (s.conns[c].Stage() == 0 ==> Waits(s, s.conns[c].loop, Establish(c)))
    && (s.conns[c].Stage() == 2 ==> Waits(s, BOSS, RemoveInBoss(c)))
    && (s.conns[c].Stage() == 3 ==> Waits(s, s.conns[c].loop, Destroy(c)))
  }

  /** Every connection between two stages of the relay has its next task waiting exactly once. */
  ghost predicate QueuesOk(s: State) {
    && (forall l, t :: l in s.queues && t in s.queues[l] ==> TaskOk(s, l, t))
    && (forall l :: l in s.queues ==> NoRepeats(s.queues[l]))
    && (forall c :: c in s.conns ==> NextTaskWaits(s, c))
  }

  /** Reports waiting to be handled concern registered connections of that loop, each once; a readable
      one has not been closed yet, although other handlers may have run since the poll. */
  ghost predicate ActiveOk(s: State) {
    && (forall l, i :: l in s.active && 0 <= i < |s.active[l]| ==> ReportOk(s, l, s.active[l][i]))
    && (forall l, i, j :: l in s.active && 0 <= i < j < |s.active[l]| ==> s.active[l][i].c != s.active[l][j].c)
  }

  predicate ReportOk(s: State, l: LoopId, r: Report) {
    && r.c in s.conns && s.conns[r.c].loop == l && 1 <= s.conns[r.c].Stage() <= 3
    && (OnRead in Dispatch(r.revents) ==> s.conns[r.c].Stage() == 1)
  }

  ghost predicate Inv(s: State) { LoopsOk(s) && ConnsOk(s) && QueuesOk(s) && ActiveOk(s) }

  // ---------------------------------------------------------------- one call into the poller

  /** s' differs from s only in the channel of c, which now has the given events. */
  ghost predicate Told(s: State, s': State, c: ConnId, events: Events, index: Index) {
    && Known(s, c) && Known(s', c)
    && var l := s.conns[c].loop;
       && s' == s.(pollers := s'.pollers)
       && s'.pollers == s.pollers[l := s'.pollers[l]]
       && s'.pollers[l].chans == s.pollers[l].chans[c := ChanOf(s', c)]
       && ChanOf(s', c).fd == ChanOf(s, c).fd && ChanOf(s', c).events == events
       && ChanOf(s', c).index == index
       && Mirror(s'.pollers[l])
  }

  /** Telling the poller of a change cannot panic if the channel is registered or its descriptor free. */
  lemma TellChange(s: State, c: ConnId, op: Op)
    requires Known(s, c) && PollersMirror(s.pollers)
    requires ChanOf(s, c).index.New? ==> ChanOf(s, c).fd !in s.pollers[s.conns[c].loop].channelMap
    ensures var e := Mask(op, ChanOf(s, c).events);
            Told(s, Tell(s, Change(c, op)), c, e, NextIndex(ChanOf(s, c).index, e))
  {
    var p := s.pollers[s.conns[c].loop];
    CallMirrors(p, Change(c, op));
    CallShape(p, Change(c, op));
  }

  lemma TellRemove(s: State, c: ConnId)
    requires Known(s, c) && PollersMirror(s.pollers) && !ChanOf(s, c).index.New?
    ensures Told(s, Tell(s, Remove(c)), c, ChanOf(s, c).events, New)
    ensures ChanOf(s, c).fd !in Tell(s, Remove(c)).pollers[s.conns[c].loop].channelMap
  {
    var p := s.pollers[s.conns[c].loop];
    CallMirrors(p, Remove(c));
    CallShape(p, Remove(c));
    RemoveMirrors(p, c);
  }

  /** Whoever is in a channel map is registered and not destroyed, so its descriptor is open. */
  lemma MappedIsLive(s: State, l: LoopId, fd: Fd)
    requires LoopsOk(s) && ConnsOk(s) && l in s.pollers && fd in s.pollers[l].channelMap
    ensures var c := s.pollers[l].channelMap[fd];
            && c in s.conns && s.conns[c].loop == l && s.conns[c].fd == fd && 1 <= s.conns[c].Stage() <= 3
            && fd in s.open && fd !in s.others
  {
    var c := s.pollers[l].channelMap[fd];
    assert Mirrors(s.pollers[l], c);
    assert ConnOk(s, c);
  }

  // ---------------------------------------------------------------- what a step leaves alone

  /** Everything that concerns connections other than c is as before. */
  ghost predicate OnlyTouches(s: State, s': State, c: ConnId) {
    && s'.conns.Keys == s.conns.Keys + {c} && s'.connMap - {c} == s.connMap - {c}
    && (forall d :: d in s.conns && d != c ==> s'.conns[d] == s.conns[d])
    && s'.pollers.Keys == s.pollers.Keys && s'.queues.Keys == s.queues.Keys && s'.active.Keys == s.active.Keys
    && (forall l, d :: l in s.pollers && d in s.pollers[l].chans && d != c ==>
          d in s'.pollers[l].chans && s'.pollers[l].chans[d] == s.pollers[l].chans[d])
    && (forall l, d :: l in s.pollers && d in s'.pollers[l].chans && d != c ==> d in s.pollers[l].chans)
    && s.nextConnId <= s'.nextConnId
    && (forall d :: d in s.conns && d != c && s.conns[d].destroys == 0 ==>
          s.conns[d].fd in s'.open && s.conns[d].fd !in s'.others)
  }

  lemma OtherConnOk(s: State, s': State, c: ConnId, d: ConnId)
    requires OnlyTouches(s, s', c) && d in s.conns && d != c && ConnOk(s, d)
    ensures ConnOk(s', d)
  {
    assert d in s'.connMap - {c} <==> d in s.connMap - {c};
  }

  lemma LiveFdsOpen(s: State)
    requires forall c :: c in s.conns ==> ConnOk(s, c)
    ensures forall d :: d in s.conns && s.conns[d].destroys == 0 ==> s.conns[d].fd in s.open
  {
    forall d | d in s.conns && s.conns[d].destroys == 0 ensures s.conns[d].fd in s.open { assert ConnOk(s, d); }
  }

  lemma FdsStep(s: State, s': State, c: ConnId)
    requires FdsDistinct(s) && s'.conns.Keys == s.conns.Keys + {c}
    requires forall d :: d in s.conns && d != c ==> s'.conns[d] == s.conns[d]
    requires forall d :: d in s.conns && s.conns[d].destroys == 0 ==> s.conns[d].fd in s.open
    requires c in s.conns ==> s'.conns[c].fd == s.conns[c].fd && s.conns[c].destroys <= s'.conns[c].destroys
    requires c !in s.conns ==> s'.conns[c].fd !in s.open
    ensures FdsDistinct(s')
  {
  }

  lemma AllConnsStep(s: State, s': State, c: ConnId)
    requires (forall d :: d in s.conns ==> ConnOk(s, d)) && OnlyTouches(s, s', c) && c in s'.conns && ConnOk(s', c)
    ensures forall d :: d in s'.conns ==> ConnOk(s', d)
  {
    forall d | d in s'.conns ensures ConnOk(s', d) {
      if d != c { OtherConnOk(s, s', c, d); }
    }
  }

  lemma ConnsStep(s: State, s': State, c: ConnId)
    requires ConnsOk(s) && OnlyTouches(s, s', c) && c in s'.conns && ConnOk(s', c) && s'.others <= s'.open
    requires c in s.conns ==> s'.conns[c].fd == s.conns[c].fd && s.conns[c].destroys <= s'.conns[c].destroys
    requires c !in s.conns ==> s'.conns[c].fd !in s.open
    ensures ConnsOk(s')
  {
    AllConnsStep(s, s', c);
    LiveFdsOpen(s);
    FdsStep(s, s', c);
    assert forall d :: d in s'.connMap ==> d == c || d in s.connMap - {c};
  }

  /** The reports waiting are unaffected as long as no reported connection is destroyed or, if it is
      readable, closed. */
  lemma ActiveStep(s: State, s': State, c: ConnId)
    requires ActiveOk(s) && OnlyTouches(s, s', c) && s'.active == s.active
    requires c in s.conns ==> c in s'.conns && s'.conns[c].loop == s.conns[c].loop
    requires c in s.conns ==>
               || s'.conns[c].Stage() == s.conns[c].Stage()
               || (s.conns[c].Stage() == 2 && s'.conns[c].Stage() == 3)
               || forall l, i :: l in s.active && 0 <= i < |s.active[l]| ==> s.active[l][i].c != c
    ensures ActiveOk(s')
  {
    forall l, i | l in s'.active && 0 <= i < |s'.active[l]| ensures ReportOk(s', l, s'.active[l][i]) {
      assert ReportOk(s, l, s.active[l][i]);
    }
  }

  // ---------------------------------------------------------------- queues

  /** Taking the head off a queue leaves no second copy of it there. */
  lemma Popped(q: seq<Task>)
    requires q != [] && NoRepeats(q)
    ensures NoRepeats(q[1..]) && (!q[0].ShutdownTask? ==> q[0] !in q[1..])
    ensures forall t :: t in q ==> t == q[0] || t in q[1..]
    ensures forall t :: t in q[1..] ==> t in q
  {
    assert q == [q[0]] + q[1..];
    assert forall j :: 0 <= j < |q[1..]| ==> q[1..][j] == q[j + 1];
  }

  lemma Appended(q: seq<Task>, t: Task)
    requires NoRepeats(q) && (t.ShutdownTask? || t !in q)
    ensures NoRepeats(q + [t]) && forall u :: u in q + [t] <==> u in q || u == t
  {
  }

  /** No task of the relay waits for c. */
  ghost predicate Clear(s: State, c: ConnId) {
    forall l, t :: l in s.queues && t in s.queues[l] && t.c == c ==> t.ShutdownTask?
  }

  /** The queues are as they should be for every connection but c. */
  ghost predicate QueuesOkBut(s: State, c: ConnId) {
    && (forall l, t :: l in s.queues && t in s.queues[l] && (t.c != c || t.ShutdownTask?) ==> TaskOk(s, l, t))
    && (forall l :: l in s.queues ==> NoRepeats(s.queues[l]))
    && (forall d :: d in s.conns && d != c ==> NextTaskWaits(s, d))
  }

  lemma HeadTaskOk(s: State, l: LoopId)
    requires QueuesOk(s) && l in s.queues && s.queues[l] != []
    ensures TaskOk(s, l, s.queues[l][0])
  {
    assert s.queues[l][0] in s.queues[l];
  }

  lemma PopClears(s: State, l: LoopId)
    requires QueuesOk(s) && l in s.queues && s.queues[l] != [] && !s.queues[l][0].ShutdownTask?
    ensures var c, s0 := s.queues[l][0].c, s.(queues := s.queues[l := s.queues[l][1..]]);
            Clear(s0, c) && QueuesOkBut(s0, c)
  {
    var head, s0 := s.queues[l][0], s.(queues := s.queues[l := s.queues[l][1..]]);
    Popped(s.queues[l]);
    assert TaskOk(s, l, head);
    forall k, t | k in s0.queues && t in s0.queues[k] && t.c == head.c ensures t.ShutdownTask? {
      assert TaskOk(s, k, t);
    }
    forall k, t | k in s0.queues && t in s0.queues[k] && (t.c != head.c || t.ShutdownTask?) ensures TaskOk(s0, k, t) {
      assert TaskOk(s, k, t);
    }
    forall d | d in s0.conns && d != head.c ensures NextTaskWaits(s0, d) {
      assert NextTaskWaits(s, d);
    }
  }

  lemma Stage1Clear(s: State, c: ConnId)
    requires QueuesOk(s) && (c in s.conns ==> s.conns[c].Stage() == 1)
    ensures Clear(s, c) && QueuesOkBut(s, c)
  {
    forall l, t | l in s.queues && t in s.queues[l] && t.c == c ensures t.ShutdownTask? {
      assert TaskOk(s, l, t);
    }
  }

  /** The half-closes waiting for c stay where they belong. */
  predicate SameOwner(s: State, s': State, c: ConnId) {
    c in s.conns ==>
      && c in s'.conns && s'.conns[c].loop == s.conns[c].loop
      && (s.conns[c].Shutting() ==> s'.conns[c].Shutting())
  }

  /** The connection has moved to a stage in which no task waits for it. */
  lemma QueuesSettle(s: State, s': State, c: ConnId)
    requires QueuesOkBut(s, c) && Clear(s, c) && s'.queues == s.queues && c in s'.conns
    requires s'.conns.Keys == s.conns.Keys && forall d :: d in s.conns && d != c ==> s'.conns[d] == s.conns[d]
    requires s'.conns[c].Stage() == 1 || s'.conns[c].Stage() == 4
    requires SameOwner(s, s', c)
    ensures QueuesOk(s')
  {
    forall l, t | l in s'.queues && t in s'.queues[l] ensures TaskOk(s', l, t) {
      assert TaskOk(s, l, t);
    }
    forall d | d in s'.conns ensures NextTaskWaits(s', d) {
      if d != c { assert NextTaskWaits(s, d); }
    }
  }

  /** The connection has moved to the stage for which t was put on the queue of loop l. */
  lemma QueuesRelay(s: State, s': State, c: ConnId, l: LoopId, t: Task)
    requires QueuesOkBut(s, c) && Clear(s, c) && l in s.queues && c in s'.conns
    requires s'.queues == s.queues[l := s.queues[l] + [t]] && t.c == c && !t.ShutdownTask? && TaskOk(s', l, t)
    requires s'.conns.Keys == s.conns.Keys + {c} && forall d :: d in s.conns && d != c ==> s'.conns[d] == s.conns[d]
    requires SameOwner(s, s', c)
    ensures QueuesOk(s')
  {
    Appended(s.queues[l], t);
    forall k, u | k in s'.queues && u in s'.queues[k] ensures TaskOk(s', k, u) {
      assert u != t ==> u in s.queues[k];
      assert u != t ==> TaskOk(s, k, u);
    }
    forall d | d in s'.conns ensures NextTaskWaits(s', d) {
      if d != c { assert NextTaskWaits(s, d); }
    }
  }

  // ---------------------------------------------------------------- every step keeps the invariant

  /** s1 is s with a new record for c and perhaps other queues; then the poller was told about c. */
  ghost predicate RecordChanged(s: State, s1: State, c: ConnId) {
    && c in s.conns && c in s1.conns && s1.conns[c].loop == s.conns[c].loop && s1.conns[c].fd == s.conns[c].fd
    && s1 == s.(conns := s.conns[c := s1.conns[c]], queues := s1.queues, active := s1.active, connMap := s1.connMap)
    && s1.queues.Keys == s.queues.Keys && s1.active.Keys == s.active.Keys && s1.connMap - {c} == s.connMap - {c}
  }

  lemma RecordTouches(s: State, s1: State, c: ConnId)
    requires RecordChanged(s, s1, c) && ConnsOk(s)
    ensures OnlyTouches(s, s1, c)
  {
    forall d | d in s.conns && d != c && s.conns[d].destroys == 0 ensures s.conns[d].fd in s1.open && s.conns[d].fd !in s1.others {
      assert ConnOk(s, d);
    }
  }

  lemma RecordOwned(s: State, s1: State, c: ConnId)
    requires RecordChanged(s, s1, c) && ChansOwned(s)
    ensures ChansOwned(s1)
  {
  }

  lemma ToldTouches(s: State, s1: State, s2: State, c: ConnId, events: Events, index: Index)
    requires OnlyTouches(s, s1, c) && c in s.conns && Told(s1, s2, c, events, index)
    ensures OnlyTouches(s, s2, c)
  {
  }

  lemma ToldMirror(s: State, s': State, c: ConnId, events: Events, index: Index)
    requires PollersMirror(s.pollers) && Told(s, s', c, events, index)
    ensures PollersMirror(s'.pollers)
  {
  }

  lemma ToldOwned(s: State, s': State, c: ConnId, events: Events, index: Index)
    requires ChansOwned(s) && Told(s, s', c, events, index)
    ensures ChansOwned(s')
  {
  }

  /** Before it is established a connection's descriptor is in no channel map. */
  lemma FreshFdUnmapped(s: State, c: ConnId)
    requires LoopsOk(s) && ConnsOk(s) && c in s.conns && s.conns[c].Stage() == 0
    ensures s.conns[c].fd !in s.pollers[s.conns[c].loop].channelMap
  {
    hide Mirror;
    var l, fd := s.conns[c].loop, s.conns[c].fd;
    if fd in s.pollers[l].channelMap {
      MappedIsLive(s, l, fd);
      assert false;
    }
  }

  /** The state after a pop and a new record for the connection. */
  function Recorded(s: State, l: LoopId, c: ConnId, conn: Conn): State
    requires l in s.queues && s.queues[l] != []
  {
    SetConn(s.(queues := s.queues[l := s.queues[l][1..]]), c, conn)
  }

  lemma EstablishIs(s: State, l: LoopId)
    requires LoopsOk(s) && Enabled(s, RunTask(l)) && s.queues[l][0].Establish?
    requires var c := s.queues[l][0].c;
             && c in s.conns && s.conns[c].Stage() == 0 && ConnOk(s, c)
             && s.conns[c].fd !in s.pollers[s.conns[c].loop].channelMap
    ensures var c, s2 := s.queues[l][0].c, Do(s, RunTask(l));
            var s1 := Recorded(s, l, c, s.conns[c].(state := Connected, established := 1));
            && RecordChanged(s, s1, c)
            && Told(s1, s2, c, Mask(EnableReading, ChanOf(s, c).events), Add) && ConnOk(s2, c) && !s2.panicked
  {
    hide Mirror, ChansOwned;
    var c := s.queues[l][0].c;
    var s1 := Recorded(s, l, c, s.conns[c].(state := Connected, established := 1));
    TellChange(s1, c, EnableReading);
    MaskBits(EnableReading, ChanOf(s, c).events);
  }

  lemma ConnCounts(s: State, c: ConnId)
    requires c in s.conns && ConnOk(s, c)
    ensures var conn := s.conns[c];
            && conn.destroys <= conn.removals <= conn.closes <= conn.established <= 1
            && (conn.Stage() == 0 ==> conn.state.Connecting?)
  {
  }

  lemma EstablishStep(s: State, l: LoopId)
    requires Inv(s) && Enabled(s, RunTask(l)) && s.queues[l][0].Establish?
    ensures Inv(Do(s, RunTask(l)))
  {
    hide Mirror, NoRepeats, Clear, QueuesOkBut, QueuesOk, FdsDistinct, ActiveOk, PollersMirror, ChansOwned, OnlyTouches;
    hide Do, ConnOk, Reported;
    var c := s.queues[l][0].c;
    HeadTaskOk(s, l);
    KnownConn(s, c);
    assert ConnOk(s, c);
    ConnCounts(s, c);
    FreshFdUnmapped(s, c);
    EstablishIs(s, l);
    var s1 := Recorded(s, l, c, s.conns[c].(state := Connected, established := 1));
    var s2, e := Do(s, RunTask(l)), Mask(EnableReading, ChanOf(s, c).events);
    RecordTouches(s, s1, c);
    RecordOwned(s, s1, c);
    ToldTouches(s, s1, s2, c, e, Add);
    ToldMirror(s1, s2, c, e, Add);
    ToldOwned(s1, s2, c, e, Add);
    ConnsStep(s, s2, c);
    PopClears(s, l);
    QueuesSettle(s.(queues := s1.queues), s2, c);
    NotReported(s, c);
    ActiveStep(s, s2, c);
  }

  /** A connection is not among the waiting reports before it is established, and not while its loop runs tasks. */
  lemma NotReported(s: State, c: ConnId)
    requires ActiveOk(s) && c in s.conns && s.conns[c].loop in s.active
    requires s.conns[c].Stage() == 0 || s.active[s.conns[c].loop] == []
    ensures forall l, i :: l in s.active && 0 <= i < |s.active[l]| ==> s.active[l][i].c != c
  {
    forall l, i | l in s.active && 0 <= i < |s.active[l]| ensures s.active[l][i].c != c {
      assert ReportOk(s, l, s.active[l][i]);
    }
  }

  lemma RemoveStep(s: State, l: LoopId)
    requires Inv(s) && Enabled(s, RunTask(l)) && s.queues[l][0].RemoveInBoss?
    ensures Inv(Do(s, RunTask(l)))
  {
    hide Mirror, NoRepeats, Clear, QueuesOkBut, QueuesOk, FdsDistinct, ActiveOk, PollersMirror, ChansOwned, OnlyTouches;
    hide Do, ConnOk, Reported;
    var c := s.queues[l][0].c;
    HeadTaskOk(s, l);
    KnownConn(s, c);
    assert ConnOk(s, c);
    ConnCounts(s, c);
    PopClears(s, l);
    var s0 := s.(queues := s.queues[l := s.queues[l][1..]]);
    var s2 := Do(s, RunTask(l));
    RemoveIs(s, l);
    RecordTouches(s, s2, c);
    RecordOwned(s, s2, c);
    ConnsStep(s, s2, c);
    QueuesRelay(s0, s2, c, s.conns[c].loop, Destroy(c));
    ActiveStep(s, s2, c);
  }

  lemma RemoveIs(s: State, l: LoopId)
    requires LoopsOk(s) && Enabled(s, RunTask(l)) && s.queues[l][0].RemoveInBoss?
    requires var c := s.queues[l][0].c; c in s.conns && s.conns[c].Stage() == 2 && ConnOk(s, c)
    ensures var c, s2 := s.queues[l][0].c, Do(s, RunTask(l));
            var q := s.queues[l := s.queues[l][1..]];
            && RecordChanged(s, s2, c) && ConnOk(s2, c) && !s2.panicked && s2.active == s.active
            && s2.conns[c] == s.conns[c].(removals := 1)
            && s2.queues == q[s.conns[c].loop := q[s.conns[c].loop] + [Destroy(c)]]
  {
    hide Mirror, ChansOwned;
  }

  lemma DestroyTells(s: State, l: LoopId)
    requires Enabled(s, RunTask(l)) && s.queues[l][0].Destroy? && s.onConn
    requires var c := s.queues[l][0].c; Known(s, c) && ConnOk(s, c) && s.conns[c].Stage() == 3
    ensures var c := s.queues[l][0].c;
            var s1 := Recorded(s, l, c, s.conns[c].(state := Disconnected, destroys := 1));
            && RecordChanged(s, s1, c)
            && Do(s, RunTask(l)) == CloseFd(Tell(Tell(s1, Change(c, DisableAll)), Remove(c)), s.conns[c].fd)
  {
    hide Tell, CloseFd;
  }

  lemma DestroyIs(s: State, l: LoopId)
    requires LoopsOk(s) && ConnsOk(s) && Enabled(s, RunTask(l)) && s.queues[l][0].Destroy? && s.onConn
    requires var c := s.queues[l][0].c; c in s.conns && s.conns[c].Stage() == 3
    ensures var c, s4 := s.queues[l][0].c, Do(s, RunTask(l));
            var s1 := Recorded(s, l, c, s.conns[c].(state := Disconnected, destroys := 1));
            var s2 := Tell(s1, Change(c, DisableAll));
            var s3 := Tell(s2, Remove(c));
            && RecordChanged(s, s1, c)
            && Told(s1, s2, c, EVENT_NONE, NextIndex(ChanOf(s, c).index, EVENT_NONE)) && Told(s2, s3, c, EVENT_NONE, New)
            && s4 == s3.(open := s.open - {s.conns[c].fd}) && ConnOk(s4, c) && !s4.panicked
            && s.conns[c].fd !in s.others
  {
    hide Mirror, ChansOwned, FdsDistinct, PollersMirror, Tell, CloseFd, Do, Reported;
    var c := s.queues[l][0].c;
    assert ConnOk(s, c);
    DestroyTells(s, l);
    var s1 := Recorded(s, l, c, s.conns[c].(state := Disconnected, destroys := 1));
    TellChange(s1, c, DisableAll);
    MaskBits(DisableAll, ChanOf(s, c).events);
    var s2 := Tell(s1, Change(c, DisableAll));
    ToldMirror(s1, s2, c, EVENT_NONE, NextIndex(ChanOf(s, c).index, EVENT_NONE));
    TellRemove(s2, c);
    var s3 := Tell(s2, Remove(c));
    ToldMirror(s2, s3, c, EVENT_NONE, New);
    DestroyedUnmapped(s, s3, c);
    CloseUnmapped(s3, s.conns[c].fd);
    hide ConnOk;
    DestroyConnOk(s, s3.(open := s.open - {s.conns[c].fd}), c);
  }

  lemma DestroyConnOk(s: State, s4: State, c: ConnId)
    requires c in s.conns && ConnOk(s, c) && s.conns[c].Stage() == 3 && s.conns[c].removals == 1 && Known(s4, c)
    requires s4.conns == s.conns[c := s.conns[c].(state := Disconnected, destroys := 1)]
    requires s4.connMap == s.connMap && s4.nextConnId == s.nextConnId
    requires ChanOf(s4, c) == Chan(s.conns[c].fd, EVENT_NONE, New)
    ensures ConnOk(s4, c)
  {
    MaskBits(DisableAll, EVENT_NONE);
  }

  lemma DestroyFrames(s: State, l: LoopId)
    requires LoopsOk(s) && ConnsOk(s) && Enabled(s, RunTask(l)) && s.queues[l][0].Destroy? && s.onConn
    requires var c := s.queues[l][0].c; c in s.conns && s.conns[c].Stage() == 3 && s.conns[c].destroys == 0
    ensures var c, s4 := s.queues[l][0].c, Do(s, RunTask(l));
            && OnlyTouches(s, s4, c) && ChansOwned(s4) && PollersMirror(s4.pollers)
            && s4.conns == s.conns[c := s.conns[c].(state := Disconnected, destroys := 1)]
            && s4.queues == s.queues[l := s.queues[l][1..]] && s4.active == s.active
            && s4.others == s.others <= s4.open && ConnOk(s4, c) && !s4.panicked && s4.pollers.Keys == s.pollers.Keys
  {
    hide Mirror, ChansOwned, FdsDistinct, PollersMirror, Tell, CloseFd, Do, OnlyTouches, ConnOk;
    var c := s.queues[l][0].c;
    DestroyIs(s, l);
    var s1 := Recorded(s, l, c, s.conns[c].(state := Disconnected, destroys := 1));
    var s2 := Tell(s1, Change(c, DisableAll));
    var s3 := Tell(s2, Remove(c));
    RecordTouches(s, s1, c);
    RecordOwned(s, s1, c);
    ToldTouches(s, s1, s2, c, EVENT_NONE, NextIndex(ChanOf(s, c).index, EVENT_NONE));
    ToldMirror(s1, s2, c, EVENT_NONE, NextIndex(ChanOf(s, c).index, EVENT_NONE));
    ToldOwned(s1, s2, c, EVENT_NONE, NextIndex(ChanOf(s, c).index, EVENT_NONE));
    ToldTouches(s, s2, s3, c, EVENT_NONE, New);
    ToldMirror(s2, s3, c, EVENT_NONE, New);
    ToldOwned(s2, s3, c, EVENT_NONE, New);
    CloseTouches(s, s3, c);
  }

  lemma DestroyStep(s: State, l: LoopId)
    requires Inv(s) && Enabled(s, RunTask(l)) && s.queues[l][0].Destroy? && s.onConn
    ensures Inv(Do(s, RunTask(l)))
  {
    hide Mirror, NoRepeats, Clear, QueuesOkBut, QueuesOk, FdsDistinct, ActiveOk, PollersMirror, ChansOwned, OnlyTouches;
    hide Do, Tell;
    var c := s.queues[l][0].c;
    HeadTaskOk(s, l);
    assert ConnOk(s, c);
    hide ConnOk;
    DestroyFrames(s, l);
    var s4 := Do(s, RunTask(l));
    ConnsStep(s, s4, c);
    PopClears(s, l);
    QueuesSettle(s.(queues := s4.queues), s4, c);
    NotReported(s, c);
    ActiveStep(s, s4, c);
  }

  /** Closing the descriptor of c concerns no other connection, and leaves the owners as they are. */
  lemma CloseTouches(s: State, s3: State, c: ConnId)
    requires OnlyTouches(s, s3, c) && ChansOwned(s3) && c in s.conns && s.conns[c].destroys == 0 && FdsDistinct(s)
    ensures var s4 := s3.(open := s3.open - {s.conns[c].fd});
            OnlyTouches(s, s4, c) && ChansOwned(s4)
  {
  }

  /** Closing a descriptor that no channel map holds changes only the set of open descriptors. */
  lemma CloseUnmapped(s: State, fd: Fd)
    requires PollersMirror(s.pollers) && forall l :: l in s.pollers ==> fd !in s.pollers[l].channelMap
    ensures CloseFd(s, fd) == s.(open := s.open - {fd})
  {
    forall l | l in s.pollers ensures Closed(s.pollers[l], fd) == s.pollers[l] {
      CloseMirrorsIff(s.pollers[l], fd);
    }
    assert CloseFd(s, fd).pollers == s.pollers;
  }

  /** After removeChannel the descriptor is in no channel map at all, so it may be closed. */
  lemma DestroyedUnmapped(s: State, s3: State, c: ConnId)
    requires LoopsOk(s) && ConnsOk(s) && c in s.conns && s.conns[c].destroys == 0
    requires s.conns[c].loop in s.pollers && s.conns[c].loop in s3.pollers
    requires s3.pollers == s.pollers[s.conns[c].loop := s3.pollers[s.conns[c].loop]]
    requires s.conns[c].fd !in s3.pollers[s.conns[c].loop].channelMap
    ensures forall l :: l in s3.pollers ==> s.conns[c].fd !in s3.pollers[l].channelMap
  {
    hide Mirror;
    forall l | l in s3.pollers && l != s.conns[c].loop ensures s.conns[c].fd !in s3.pollers[l].channelMap {
      if s.conns[c].fd in s.pollers[l].channelMap {
        MappedIsLive(s, l, s.conns[c].fd);
        assert false;
      }
    }
  }

  /** Changing the interest in writing of a registered connection. */
  lemma InterestStep(s: State, c: ConnId, op: Op)
    requires Inv(s) && c in s.conns && 1 <= s.conns[c].Stage() <= 3 && (op.EnableWriting? || op.DisableWriting?)
    ensures Inv(Tell(s, Change(c, op)))
  {
    hide Mirror, NoRepeats, QueuesOk, FdsDistinct, ActiveOk, PollersMirror, ChansOwned, OnlyTouches, Tell;
    assert ConnOk(s, c);
    TellChange(s, c, op);
    var s', e := Tell(s, Change(c, op)), Mask(op, ChanOf(s, c).events);
    var index := NextIndex(ChanOf(s, c).index, e);
    MaskBits(op, ChanOf(s, c).events);
    assert ConnOk(s', c);
    hide ConnOk;
    RecordTouches(s, s, c);
    ToldTouches(s, s, s', c, e, index);
    ToldMirror(s, s', c, e, index);
    ToldOwned(s, s', c, e, index);
    ConnsStep(s, s', c);
    SameConnsQueues(s, s');
    ActiveStep(s, s', c);
  }

  lemma SameConnsQueues(s: State, s': State)
    requires QueuesOk(s) && s'.conns == s.conns && s'.queues == s.queues
    ensures QueuesOk(s')
  {
    forall l, t | l in s'.queues && t in s'.queues[l] ensures TaskOk(s', l, t) { assert TaskOk(s, l, t); }
    forall c | c in s'.conns ensures NextTaskWaits(s', c) { assert NextTaskWaits(s, c); }
  }

  /** Only descriptors of others, or the reports waiting, have changed. */
  lemma SurroundingsStep(s: State, s': State)
    requires Inv(s) && s' == s.(open := s'.open, others := s'.others, active := s'.active)
    requires s'.active.Keys == s.active.Keys && s'.others <= s'.open
    requires forall c :: c in s.conns && s.conns[c].destroys == 0 ==> s.conns[c].fd in s'.open && s.conns[c].fd !in s'.others
    requires ActiveOk(s')
    ensures Inv(s')
  {
    hide Mirror, NoRepeats, QueuesOk, ActiveOk;
    forall c | c in s'.conns ensures ConnOk(s', c) { assert ConnOk(s, c); }
    SameConnsQueues(s, s');
  }

  lemma LiveFds(s: State)
    requires ConnsOk(s)
    ensures forall c :: c in s.conns && s.conns[c].destroys == 0 ==> s.conns[c].fd in s.open && s.conns[c].fd !in s.others
  {
    forall c | c in s.conns && s.conns[c].destroys == 0 ensures s.conns[c].fd in s.open && s.conns[c].fd !in s.others {
      assert ConnOk(s, c);
    }
  }

  lemma OtherStep(s: State, a: Action)
    requires Inv(s) && Enabled(s, a) && (a.OtherOpen? || a.OtherClose?)
    ensures Inv(Do(s, a))
  {
    hide Mirror, NoRepeats, QueuesOk, FdsDistinct, ConnOk;
    LiveFds(s);
    var fd := a.fd;
    if a.OtherClose? {
      forall l | l in s.pollers ensures fd !in s.pollers[l].channelMap {
        if fd in s.pollers[l].channelMap { MappedIsLive(s, l, fd); }
      }
      CloseUnmapped(s, fd);
    }
    SurroundingsStep(s, Do(s, a));
  }

  lemma AcceptIs(s: State, fd: Fd, l: LoopId)
    requires LoopsOk(s) && ConnsOk(s) && Enabled(s, Accept(fd, l))
    ensures var c, s' := s.nextConnId, Do(s, Accept(fd, l));
            && c !in s.conns && OnlyTouches(s, s', c) && ChansOwned(s') && PollersMirror(s'.pollers)
            && s'.conns == s.conns[c := Conn(l, fd, Connecting, 0, 0, 0, 0)] && ConnOk(s', c) && !s'.panicked
            && s'.queues == s.queues[l := s.queues[l] + [Establish(c)]] && s'.active == s.active
            && s'.others == s.others <= s'.open && s'.pollers.Keys == s.pollers.Keys
  {
    hide Mirror, FdsDistinct, ConnOk, OnlyTouches;
    IdsBelow(s);
    LiveFds(s);
    AcceptConnOk(s, fd, l);
    assert s.nextConnId !in s.pollers[l].chans;
    AcceptMirror(s, fd, l);
    hide PollersMirror, ChansOwned;
    AcceptTouches(s, fd, l);
  }

  lemma AcceptTouches(s: State, fd: Fd, l: LoopId)
    requires Enabled(s, Accept(fd, l)) && ChansOwned(s) && l in s.queues && s.nextConnId !in s.conns
    requires s.nextConnId !in s.pollers[l].chans
    requires forall c :: c in s.conns && s.conns[c].destroys == 0 ==> s.conns[c].fd in s.open && s.conns[c].fd !in s.others
    ensures OnlyTouches(s, Do(s, Accept(fd, l)), s.nextConnId) && ChansOwned(Do(s, Accept(fd, l)))
  {
    var s', p := Do(s, Accept(fd, l)), s.pollers[l].(chans := s.pollers[l].chans[s.nextConnId := Chan(fd, EVENT_NONE, New)]);
    assert s'.pollers == s.pollers[l := p] && s'.open == s.open + {fd} && s'.others == s.others;
    assert s'.conns == s.conns[s.nextConnId := Conn(l, fd, Connecting, 0, 0, 0, 0)];
    assert s'.queues.Keys == s.queues.Keys && s'.active == s.active && s'.connMap == s.connMap + {s.nextConnId};
    hide Do, Enqueue, Enabled;
    NewChanTouches(s, s', s.nextConnId, l, fd);
  }

  lemma NewChanTouches(s: State, s': State, c: ConnId, l: LoopId, fd: Fd)
    requires ChansOwned(s) && c !in s.conns && l in s.pollers && c !in s.pollers[l].chans
    requires s'.pollers == s.pollers[l := s.pollers[l].(chans := s.pollers[l].chans[c := Chan(fd, EVENT_NONE, New)])]
    requires s'.open == s.open + {fd} && s'.others == s.others && s'.conns == s.conns[c := Conn(l, fd, Connecting, 0, 0, 0, 0)]
    requires s'.queues.Keys == s.queues.Keys && s'.active == s.active && s'.connMap == s.connMap + {c}
    requires s.nextConnId <= s'.nextConnId
    requires forall d :: d in s.conns && s.conns[d].destroys == 0 ==> s.conns[d].fd in s.open && s.conns[d].fd !in s.others
    ensures OnlyTouches(s, s', c) && ChansOwned(s')
  {
  }

  lemma AcceptMirror(s: State, fd: Fd, l: LoopId)
    requires PollersMirror(s.pollers) && Enabled(s, Accept(fd, l)) && s.nextConnId !in s.pollers[l].chans
    ensures PollersMirror(Do(s, Accept(fd, l)).pollers)
  {
    hide Mirror;
    CallMirrors(s.pollers[l], Create(s.nextConnId, fd));
  }

  lemma IdsBelow(s: State)
    requires ConnsOk(s)
    ensures s.nextConnId !in s.conns && s.nextConnId !in s.connMap
  {
    forall c | c in s.conns ensures c < s.nextConnId { assert ConnOk(s, c); }
  }

  lemma AcceptConnOk(s: State, fd: Fd, l: LoopId)
    requires Enabled(s, Accept(fd, l)) && s.others <= s.open && l in s.queues
    ensures ConnOk(Do(s, Accept(fd, l)), s.nextConnId)
  {
    assert !Reads(EVENT_NONE);
  }

  lemma AcceptStep(s: State, fd: Fd, l: LoopId)
    requires Inv(s) && Enabled(s, Accept(fd, l))
    ensures Inv(Do(s, Accept(fd, l)))
  {
    hide Mirror, NoRepeats, Clear, QueuesOkBut, QueuesOk, FdsDistinct, ActiveOk, PollersMirror, ChansOwned, OnlyTouches;
    hide Do, ConnOk;
    AcceptIs(s, fd, l);
    var c, s' := s.nextConnId, Do(s, Accept(fd, l));
    ConnsStep(s, s', c);
    Stage1Clear(s, c);
    QueuesRelay(s, s', c, l, Establish(c));
    ActiveStep(s, s', c);
  }

  lemma ShutdownTaskStep(s: State, l: LoopId)
    requires Inv(s) && Enabled(s, RunTask(l)) && s.queues[l][0].ShutdownTask?
    ensures Inv(Do(s, RunTask(l)))
  {
    hide Mirror, ActiveOk, QueuesOk, FdsDistinct, PollersMirror, ChansOwned;
    var s' := Do(s, RunTask(l));
    HeadTaskOk(s, l);
    assert ConnOk(s, s.queues[l][0].c);
    hide ConnOk;
    assert s' == s.(queues := s.queues[l := s.queues[l][1..]]);
    hide Do;
    OnlyQueues(s, s');
    SameActive(s, s');
    PopShutdownQueues(s, s', l);
  }

  lemma OnlyQueues(s: State, s': State)
    requires LoopsOk(s) && ConnsOk(s) && s' == s.(queues := s'.queues) && s'.queues.Keys == s.queues.Keys
    ensures LoopsOk(s') && ConnsOk(s')
  {
    hide Mirror;
    forall c | c in s'.conns ensures ConnOk(s', c) { assert ConnOk(s, c); }
  }

  lemma SameActive(s: State, s': State)
    requires ActiveOk(s) && s'.active == s.active && s'.conns == s.conns
    ensures ActiveOk(s')
  {
    forall l, i | l in s'.active && 0 <= i < |s'.active[l]| ensures ReportOk(s', l, s'.active[l][i]) {
      assert ReportOk(s, l, s.active[l][i]);
    }
  }

  lemma PopShutdownQueues(s: State, s': State, l: LoopId)
    requires QueuesOk(s) && l in s.queues && s.queues[l] != [] && s.queues[l][0].ShutdownTask?
    requires s'.conns == s.conns && s'.queues == s.queues[l := s.queues[l][1..]]
    ensures QueuesOk(s')
  {
    Popped(s.queues[l]);
    forall k, t | k in s'.queues && t in s'.queues[k] ensures TaskOk(s', k, t) { assert TaskOk(s, k, t); }
    forall c | c in s'.conns ensures NextTaskWaits(s', c) { assert NextTaskWaits(s, c); }
  }

  /** A connection that the kernel reports is registered; if it is readable it has not been closed. */
  lemma ReportedOk(s: State, l: LoopId, r: Report)
    requires LoopsOk(s) && ConnsOk(s) && l in s.pollers && Reported(s, l, r)
    ensures ReportOk(s, l, r)
  {
    assert ConnOk(s, r.c);
    assert Mirrors(s.pollers[l], r.c);
    var e := ChanOf(s, r.c).events;
    NoInterestNoCallback(e, r.revents);
  }

  lemma PollStep(s: State, l: LoopId, reports: seq<Report>)
    requires Inv(s) && Enabled(s, Poll(l, reports))
    ensures Inv(Do(s, Poll(l, reports)))
  {
    hide Mirror, NoRepeats, QueuesOk, FdsDistinct, ConnOk, ChansOwned, PollersMirror;
    LiveFds(s);
    var s' := Do(s, Poll(l, reports));
    forall k, i | k in s'.active && 0 <= i < |s'.active[k]| ensures ReportOk(s', k, s'.active[k][i]) {
      if k == l { ReportedOk(s, l, reports[i]); } else { assert ReportOk(s, k, s.active[k][i]); }
    }
    SurroundingsStep(s, s');
  }

  /** Taking the first report off the list: that connection is not reported again. */
  lemma PopReport(s: State, l: LoopId)
    requires Inv(s) && l in s.active && s.active[l] != []
    ensures var s0, c := s.(active := s.active[l := s.active[l][1..]]), s.active[l][0].c;
            && Inv(s0) && ReportOk(s0, l, s.active[l][0])
            && forall k, i :: k in s0.active && 0 <= i < |s0.active[k]| ==> s0.active[k][i].c != c
  {
    hide Mirror, NoRepeats, QueuesOk, FdsDistinct, ConnOk, ChansOwned, PollersMirror;
    LiveFds(s);
    var s0, r := s.(active := s.active[l := s.active[l][1..]]), s.active[l][0];
    assert ReportOk(s, l, r);
    forall k, i | k in s0.active && 0 <= i < |s0.active[k]| ensures ReportOk(s0, k, s0.active[k][i]) && s0.active[k][i].c != r.c {
      assert s0.active[k][i] == if k == l then s.active[k][i + 1] else s.active[k][i];
      assert ReportOk(s, k, s0.active[k][i]);
    }
    assert forall i, j :: 0 <= i < j < |s0.active[l]| ==> s0.active[l][i] == s.active[l][i + 1] && s0.active[l][j] == s.active[l][j + 1];
    SurroundingsStep(s, s0);
  }

  lemma CloseIs(s: State, c: ConnId)
    requires LoopsOk(s) && c in s.conns && ConnOk(s, c) && s.conns[c].Stage() == 1
    ensures var s1 := SetConn(s, c, s.conns[c].(closes := 1));
            var s2 := Tell(s1, Change(c, DisableAll));
            && RecordChanged(s, s1, c) && Told(s1, s2, c, EVENT_NONE, NextIndex(ChanOf(s, c).index, EVENT_NONE)) && !s2.panicked
            && HandleClose(s, c) == s2.(queues := s.queues[BOSS := s.queues[BOSS] + [RemoveInBoss(c)]])
            && ConnOk(HandleClose(s, c), c)
  {
    hide Mirror, ChansOwned, PollersMirror;
    var s1 := SetConn(s, c, s.conns[c].(closes := 1));
    TellChange(s1, c, DisableAll);
    MaskBits(DisableAll, ChanOf(s, c).events);
    hide Tell;
    assert ConnOk(HandleClose(s, c), c);
  }

  lemma CloseStep(s: State, c: ConnId)
    requires Inv(s) && c in s.conns && s.conns[c].Stage() == 1
    requires forall l, i :: l in s.active && 0 <= i < |s.active[l]| ==> s.active[l][i].c != c
    ensures Inv(HandleClose(s, c))
    ensures HandleClose(s, c).conns == s.conns[c := s.conns[c].(closes := s.conns[c].closes + 1)]
    ensures Known(HandleClose(s, c), c) && ChanOf(HandleClose(s, c), c).events == EVENT_NONE
  {
    hide Mirror, NoRepeats, Clear, QueuesOkBut, QueuesOk, FdsDistinct, ActiveOk, PollersMirror, ChansOwned, OnlyTouches;
    hide Tell, HandleClose;
    assert ConnOk(s, c);
    CloseFrames(s, c);
    hide ConnOk;
    var s3 := HandleClose(s, c);
    ConnsStep(s, s3, c);
    Stage1Clear(s, c);
    QueuesRelay(s, s3, c, BOSS, RemoveInBoss(c));
    ActiveStep(s, s3, c);
  }

  lemma CloseFrames(s: State, c: ConnId)
    requires LoopsOk(s) && ConnsOk(s) && c in s.conns && ConnOk(s, c) && s.conns[c].Stage() == 1
    ensures var s3 := HandleClose(s, c);
            && OnlyTouches(s, s3, c) && ChansOwned(s3) && PollersMirror(s3.pollers)
            && s3.conns == s.conns[c := s.conns[c].(closes := 1)] && s3.active == s.active
            && s3.queues == s.queues[BOSS := s.queues[BOSS] + [RemoveInBoss(c)]]
            && s3.others == s.others <= s3.open && ConnOk(s3, c) && !s3.panicked && s3.pollers.Keys == s.pollers.Keys
            && Known(s3, c) && ChanOf(s3, c).events == EVENT_NONE
  {
    hide Mirror, FdsDistinct, PollersMirror, ChansOwned, OnlyTouches, Tell, HandleClose;
    CloseIs(s, c);
    hide ConnOk;
    var s1 := SetConn(s, c, s.conns[c].(closes := 1));
    var s2 := Tell(s1, Change(c, DisableAll));
    var s3 := HandleClose(s, c);
    RecordTouches(s, s1, c);
    RecordOwned(s, s1, c);
    ToldTouches(s, s1, s2, c, EVENT_NONE, NextIndex(ChanOf(s, c).index, EVENT_NONE));
    ToldMirror(s1, s2, c, EVENT_NONE, NextIndex(ChanOf(s, c).index, EVENT_NONE));
    ToldOwned(s1, s2, c, EVENT_NONE, NextIndex(ChanOf(s, c).index, EVENT_NONE));
    QueuedTouches(s, s2, s3, c);
  }

  lemma QueuedTouches(s: State, s2: State, s3: State, c: ConnId)
    requires OnlyTouches(s, s2, c) && ChansOwned(s2) && s3 == s2.(queues := s3.queues) && s3.queues.Keys == s2.queues.Keys
    ensures OnlyTouches(s, s3, c) && ChansOwned(s3)
  {
  }

  lemma HandleStep(s: State, l: LoopId, input: Input, drained: bool)
    requires Inv(s) && Enabled(s, Handle(l, input, drained))
    ensures Inv(Do(s, Handle(l, input, drained)))
  {
    hide Mirror, QueuesOk, FdsDistinct, ActiveOk, PollersMirror, ChansOwned, ConnOk, Tell, HandleClose, Dispatch;
    PopReport(s, l);
    var r, s0 := s.active[l][0], s.(active := s.active[l := s.active[l][1..]]);
    var c, s1 := r.c, HandleRead(s0, r.c, r.revents, input);
    if OnRead in Dispatch(r.revents) && input.Eof? {
      CloseStep(s0, c);
    }
    KnownConn(s1, c);
    if Writes(ChanOf(s1, c).events) {
      InterestStep(s1, c, DisableWriting);
    }
  }

  lemma KnownConn(s: State, c: ConnId)
    requires ConnsOk(s) && c in s.conns
    ensures Known(s, c)
  {
    assert ConnOk(s, c);
  }

  lemma UserWriteStep(s: State, c: ConnId)
    requires Inv(s) && Enabled(s, UserWrite(c))
    ensures Inv(Do(s, UserWrite(c)))
  {
    hide Mirror, QueuesOk, FdsDistinct, ActiveOk, PollersMirror, ChansOwned, Tell;
    assert ConnOk(s, c);
    InterestStep(s, c, EnableWriting);
  }

  lemma UserShutdownStep(s: State, c: ConnId)
    requires Inv(s) && Enabled(s, UserShutdown(c))
    ensures Inv(Do(s, UserShutdown(c)))
  {
    hide Mirror, NoRepeats, QueuesOk, FdsDistinct, ActiveOk, PollersMirror, ChansOwned, OnlyTouches;
    var s' := Do(s, UserShutdown(c));
    assert ConnOk(s, c);
    assert ConnOk(s', c);
    hide ConnOk;
    RecordTouches(s, s', c);
    RecordOwned(s, s', c);
    ConnsStep(s, s', c);
    ActiveStep(s, s', c);
    ShutdownQueues(s, s', c);
  }

  lemma ShutdownQueues(s: State, s': State, c: ConnId)
    requires QueuesOk(s) && c in s.conns && s.conns[c].loop in s.queues
    requires s'.conns == s.conns[c := s.conns[c].(state := Disconnecting)]
    requires s'.queues == s.queues[s.conns[c].loop := s.queues[s.conns[c].loop] + [ShutdownTask(c)]]
    ensures QueuesOk(s')
  {
    Appended(s.queues[s.conns[c].loop], ShutdownTask(c));
    forall l, t | l in s'.queues && t in s'.queues[l] ensures TaskOk(s', l, t) {
      assert t != ShutdownTask(c) ==> TaskOk(s, l, t);
    }
    forall d | d in s'.conns ensures NextTaskWaits(s', d) { assert NextTaskWaits(s, d); }
  }

  /** The step runs connectDestroyed. */
  predicate Destroys(s: State, a: Action) {
    a.RunTask? && a.loop in s.queues && s.queues[a.loop] != [] && s.queues[a.loop][0].Destroy?
  }

  /** Without a connection callback connectDestroyed panics. */
  lemma NilCallPanics(s: State, a: Action)
    requires Inv(s) && Enabled(s, a) && Destroys(s, a) && !s.onConn
    ensures Do(s, a).panicked
  {
    hide Mirror, Tell, ActiveOk, FdsDistinct, ChansOwned, PollersMirror;
    HeadTaskOk(s, a.loop);
    hide QueuesOk;
    assert ConnOk(s, s.queues[a.loop][0].c);
  }

  lemma StepKeepsInv(s: State, a: Action)
    requires Inv(s) && Enabled(s, a) && (s.onConn || !Destroys(s, a))
    ensures Inv(Do(s, a))
  {
    hide Inv;
    match a
    case OtherOpen(_) => OtherStep(s, a);
    case OtherClose(_) => OtherStep(s, a);
    case Accept(fd, l) => AcceptStep(s, fd, l);
    case RunTask(l) =>
      match s.queues[l][0] {
        case Establish(_) => EstablishStep(s, l);
        case RemoveInBoss(_) => RemoveStep(s, l);
        case Destroy(_) => DestroyStep(s, l);
        case ShutdownTask(_) => ShutdownTaskStep(s, l);
      }
    case Poll(l, reports) => PollStep(s, l, reports);
    case Handle(l, input, drained) => HandleStep(s, l, input, drained);
    case UserWrite(c) => UserWriteStep(s, c);
    case UserShutdown(c) => UserShutdownStep(s, c);
  }

  // ---------------------------------------------------------------- the theorems

  lemma InitInv(s: State)
    requires Init(s)
    ensures Inv(s)
  {
    forall l | l in s.pollers ensures Mirror(s.pollers[l]) {
      assert s.pollers[l] == Poller.State(map[], map[], map[], 0);
    }
  }

  lemma OnlyLive(s: State, a: Action)
    requires Enabled(s, a)
    ensures !s.panicked
  {
  }

  lemma InvIsLive(s: State)
    requires Inv(s)
    ensures !s.panicked
  {
  }

  /** The invariant holds as long as the process lives; it ends exactly in a call of a nil callback. */
  lemma {:induction false} RunKeepsInv(run: seq<State>, acts: seq<Action>, i: nat)
    requires IsRun(run, acts) && i < |run|
    ensures !run[i].panicked ==> Inv(run[i])
    ensures run[i].panicked <==> i > 0 && !run[i - 1].onConn && Destroys(run[i - 1], acts[i - 1])
  {
    hide Inv, Do, Enabled, Destroys;
    if i == 0 {
      InitInv(run[0]);
      InvIsLive(run[0]);
    } else {
      var s, a := run[i - 1], acts[i - 1];
      OnlyLive(s, a);
      RunKeepsInv(run, acts, i - 1);
      if Destroys(s, a) && !s.onConn {
        NilCallPanics(s, a);
      } else {
        StepKeepsInv(s, a);
        InvIsLive(run[i]);
      }
    }
  }

  lemma TaskKeepsCallback(s: State, t: Task)
    ensures DoTask(s, t).onConn == s.onConn
  {
    hide DoTask;
    TaskChanges(s, t);
  }

  lemma StepKeepsCallback(s: State, a: Action)
    requires Enabled(s, a)
    ensures Do(s, a).onConn == s.onConn
  {
    hide Tell, Enqueue, DoTask, Dispatch, Reported;
    if a.RunTask? { TaskKeepsCallback(s.(queues := s.queues[a.loop := s.queues[a.loop][1..]]), s.queues[a.loop][0]); }
  }

  lemma {:induction false} RunKeepsCallback(run: seq<State>, acts: seq<Action>, i: nat)
    requires IsRun(run, acts) && i < |run|
    ensures run[i].onConn == run[0].onConn
  {
    hide Do, Enabled;
    if i > 0 {
      RunKeepsCallback(run, acts, i - 1);
      StepKeepsCallback(run[i - 1], acts[i - 1]);
    }
  }

  /** No assertion of the server, the connections or the pollers ever fails, and the kernel refuses no
      epoll_ctl: over every interleaving, with every reuse of descriptors. A run ends in a panic exactly
      when a server that was given no connection callback destroys its first connection. */
  lemma {:induction false} NothingElsePanics(run: seq<State>, acts: seq<Action>, i: nat)
    requires IsRun(run, acts) && i < |run|
    ensures run[i].panicked <==> i > 0 && !run[0].onConn && Destroys(run[i - 1], acts[i - 1])
    ensures !run[i].panicked ==> forall l :: l in run[i].pollers ==> run[i].pollers[l].ctlErrors == 0
  {
    hide Do, Enabled, Destroys;
    RunKeepsInv(run, acts, i);
    if i > 0 { RunKeepsCallback(run, acts, i - 1); }
  }

  /** Establishing, closing, removing and destroying happen in this order and at most once each; the
      state says which have happened; connMap holds exactly the connections not yet removed. */
  lemma {:induction false} RelayInOrder(run: seq<State>, acts: seq<Action>, i: nat)
    requires IsRun(run, acts) && i < |run| && !run[i].panicked
    ensures forall c :: c in run[i].conns ==>
              var conn := run[i].conns[c];
              && conn.destroys <= conn.removals <= conn.closes <= conn.established <= 1
              && (conn.state.Connecting? <==> conn.established == 0)
              && (conn.state.Disconnected? <==> conn.destroys == 1)
    ensures run[i].connMap == set c | c in run[i].conns && run[i].conns[c].removals == 0
  {
    hide Do, Enabled;
    RunKeepsInv(run, acts, i);
    hide Mirror, QueuesOk, ActiveOk;
    forall c | c in run[i].conns
      ensures var conn := run[i].conns[c];
              && conn.destroys <= conn.removals <= conn.closes <= conn.established <= 1
              && (conn.state.Connecting? <==> conn.established == 0)
              && (conn.state.Disconnected? <==> conn.destroys == 1)
              && (c in run[i].connMap <==> conn.removals == 0)
    {
      assert ConnOk(run[i], c);
    }
  }

  /** A connection between two stages of the relay always has its next task waiting: no teardown is
      ever lost on the way from worker to boss and back. */
  lemma {:induction false} RelayNeverStalls(run: seq<State>, acts: seq<Action>, i: nat, c: ConnId)
    requires IsRun(run, acts) && i < |run| && !run[i].panicked && c in run[i].conns
    ensures NextTaskWaits(run[i], c)
  {
    hide Do, Enabled;
    RunKeepsInv(run, acts, i);
  }

  /** The descriptor is open and held in the map of loop l for the one live connection that owns it;
      no other loop holds it. */
  ghost predicate HeldOnce(s: State, l: LoopId, fd: Fd)
    requires l in s.pollers && fd in s.pollers[l].channelMap
  {
    var c := s.pollers[l].channelMap[fd];
    && fd in s.open && fd !in s.others
    && c in s.conns && s.conns[c].fd == fd && s.conns[c].loop == l
    && s.conns[c].established == 1 && s.conns[c].destroys == 0
    && (forall d :: d in s.conns && s.conns[d].fd == fd && s.conns[d].destroys == 0 ==> d == c)
    && (forall k :: k in s.pollers && k != l ==> fd !in s.pollers[k].channelMap)
  }

  lemma MappedIsHeldOnce(s: State, l: LoopId, fd: Fd)
    requires LoopsOk(s) && ConnsOk(s) && l in s.pollers && fd in s.pollers[l].channelMap
    ensures HeldOnce(s, l, fd)
  {
    hide Mirror;
    MappedIsLive(s, l, fd);
    assert ConnOk(s, s.pollers[l].channelMap[fd]);
    hide ConnOk;
    forall k | k in s.pollers && k != l ensures fd !in s.pollers[k].channelMap {
      if fd in s.pollers[k].channelMap {
        MappedIsLive(s, k, fd);
        assert false;
      }
    }
  }

  /** However descriptors are reissued, a channel map holds only open descriptors, each for the live
      connection that owns it, and no descriptor is held by two loops. */
  lemma {:induction false} FdReuseIsSafe(run: seq<State>, acts: seq<Action>, i: nat, l: LoopId, fd: Fd)
    requires IsRun(run, acts) && i < |run| && !run[i].panicked && l in run[i].pollers && fd in run[i].pollers[l].channelMap
    ensures HeldOnce(run[i], l, fd)
  {
    hide Do, Enabled, HeldOnce, LoopsOk, ConnsOk;
    RunKeepsInv(run, acts, i);
    MappedIsHeldOnce(run[i], l, fd);
  }

  /** From its establishment until it is closed, a connection is watched for reading. */
  lemma {:induction false} OpenConnIsWatched(run: seq<State>, acts: seq<Action>, i: nat, c: ConnId)
    requires IsRun(run, acts) && i < |run| && !run[i].panicked && c in run[i].conns
    requires run[i].conns[c].established == 1 && run[i].conns[c].closes == 0
    ensures var s, conn := run[i], run[i].conns[c];
            && conn.loop in s.pollers && conn.fd in s.pollers[conn.loop].kernel
            && s.pollers[conn.loop].kernel[conn.fd].1 == c && Reads(s.pollers[conn.loop].kernel[conn.fd].0)
  {
    hide Do, Enabled;
    RunKeepsInv(run, acts, i);
    WatchedWhileOpen(run[i], c);
  }

  lemma WatchedWhileOpen(s: State, c: ConnId)
    requires LoopsOk(s) && ConnsOk(s) && c in s.conns && s.conns[c].established == 1 && s.conns[c].closes == 0
    ensures var conn := s.conns[c];
            && conn.loop in s.pollers && c in s.pollers[conn.loop].chans && s.pollers[conn.loop].chans[c].fd == conn.fd
            && conn.fd in s.pollers[conn.loop].kernel
            && s.pollers[conn.loop].kernel[conn.fd].1 == c && Reads(s.pollers[conn.loop].kernel[conn.fd].0)
  {
    assert ConnOk(s, c);
    assert Mirrors(s.pollers[s.conns[c].loop], c);
  }

  // ---------------------------------------------------------------- what a report does

  /** The connection was closed: it asks for nothing any more, and its removal is the last task of the boss. */
  ghost predicate ClosedBy(s: State, t: State, c: ConnId) {
    && c in s.conns && t.conns == s.conns[c := s.conns[c].(closes := s.conns[c].closes + 1)]
    && Known(t, c) && ChanOf(t, c).events == EVENT_NONE
    && BOSS in s.queues && t.queues == s.queues[BOSS := s.queues[BOSS] + [RemoveInBoss(c)]]
  }

  /** Nothing happened to the connection but, if it was drained, the end of its interest in writing. */
  ghost predicate LeftOpenBy(s: State, t: State, c: ConnId, drained: bool) {
    && t.conns == s.conns && t.queues == s.queues && Known(s, c) && Known(t, c)
    && (Reads(ChanOf(t, c).events) <==> Reads(ChanOf(s, c).events))
    && (Writes(ChanOf(t, c).events) <==> Writes(ChanOf(s, c).events) && !drained)
  }

  /** A report closes its connection exactly if it is readable and the read finds the end of the stream.
      Otherwise only the interest in writing can end, by a write that drains the buffer. */
  lemma {:induction false} ReportDecides(run: seq<State>, acts: seq<Action>, i: nat)
    requires IsRun(run, acts) && i < |acts| && acts[i].Handle?
    ensures acts[i].loop in run[i].active && run[i].active[acts[i].loop] != []
    ensures var r := run[i].active[acts[i].loop][0];
            if r.revents & 0x2003 != 0 && acts[i].input.Eof? then ClosedBy(run[i], run[i + 1], r.c)
            else LeftOpenBy(run[i], run[i + 1], r.c, r.revents & 0x4 != 0 && acts[i].drained)
  {
    hide Do, Inv;
    assert Enabled(run[i], acts[i]) && run[i + 1] == Do(run[i], acts[i]);
    OnlyLive(run[i], acts[i]);
    RunKeepsInv(run, acts, i);
    hide IsRun, ClosedBy, LeftOpenBy;
    HandleDecides(run[i], acts[i].loop, acts[i].input, acts[i].drained);
  }

  lemma HandleDecides(s: State, l: LoopId, input: Input, drained: bool)
    requires Inv(s) && Enabled(s, Handle(l, input, drained))
    ensures var t, r := Do(s, Handle(l, input, drained)), s.active[l][0];
            if r.revents & 0x2003 != 0 && input.Eof? then ClosedBy(s, t, r.c)
            else LeftOpenBy(s, t, r.c, r.revents & 0x4 != 0 && drained)
  {
    hide Inv, Dispatch, HandleRead, HandleWrite, ClosedBy, LeftOpenBy;
    PopReport(s, l);
    var r, s0 := s.active[l][0], s.(active := s.active[l := s.active[l][1..]]);
    DispatchMeans(r.revents);
    if OnRead in Dispatch(r.revents) && input.Eof? {
      EofCloses(s0, r.c, r.revents, drained);
    } else {
      OtherwiseOpen(s0, r.c, r.revents, input, drained);
    }
    ReportsAside(s, s0, Do(s, Handle(l, input, drained)), r.c, r.revents & 0x4 != 0 && drained);
  }

  lemma ReportsAside(s: State, s0: State, t: State, c: ConnId, drained: bool)
    requires s0 == s.(active := s0.active)
    ensures ClosedBy(s0, t, c) ==> ClosedBy(s, t, c)
    ensures LeftOpenBy(s0, t, c, drained) ==> LeftOpenBy(s, t, c, drained)
  {
    hide Reads, Writes;
  }

  lemma EofCloses(s: State, c: ConnId, revents: Events, drained: bool)
    requires Inv(s) && c in s.conns && s.conns[c].Stage() == 1 && OnRead in Dispatch(revents)
    ensures ClosedBy(s, HandleWrite(HandleRead(s, c, revents, Eof), c, revents, drained), c)
  {
    hide Inv, LoopsOk, ConnsOk, ConnOk, OnlyTouches, PollersMirror, ChansOwned, Tell, HandleClose, Dispatch;
    InvParts(s, c);
    ConnCounts(s, c);
    CloseFrames(s, c);
    BossHasQueue(s);
    assert !Writes(EVENT_NONE);
  }

  lemma BossHasQueue(s: State)
    requires LoopsOk(s)
    ensures BOSS in s.queues
  {
  }

  lemma OtherwiseOpen(s: State, c: ConnId, revents: Events, input: Input, drained: bool)
    requires Inv(s) && c in s.conns && 1 <= s.conns[c].Stage() <= 3 && !(OnRead in Dispatch(revents) && input.Eof?)
    ensures LeftOpenBy(s, HandleWrite(HandleRead(s, c, revents, input), c, revents, drained), c, OnWrite in Dispatch(revents) && drained)
  {
    hide Inv, Tell, Dispatch, Mask, Reads, Writes;
    ChannelIsFree(s, c);
    TellChange(s, c, DisableWriting);
    MaskBits(DisableWriting, ChanOf(s, c).events);
  }

  /** A registered connection's channel is not new. */
  lemma ChannelIsFree(s: State, c: ConnId)
    requires Inv(s) && c in s.conns && 1 <= s.conns[c].Stage() <= 3
    ensures Known(s, c) && !ChanOf(s, c).index.New? && PollersMirror(s.pollers)
  {
    hide Mirror, QueuesOk, ActiveOk, FdsDistinct, ChansOwned;
    assert ConnOk(s, c);
  }

  /** A write that leaves bytes behind makes the connection's channel ask for writing. */
  lemma {:induction false} WriteIsWatched(run: seq<State>, acts: seq<Action>, i: nat)
    requires IsRun(run, acts) && i < |acts| && acts[i].UserWrite?
    ensures var t, c := run[i + 1], acts[i].c;
            && c in t.conns && Known(t, c) && Writes(ChanOf(t, c).events) && t.conns == run[i].conns
  {
    hide Inv;
    assert Enabled(run[i], acts[i]) && run[i + 1] == Do(run[i], acts[i]);
    OnlyLive(run[i], acts[i]);
    RunKeepsInv(run, acts, i);
    var s, c := run[i], acts[i].c;
    InvParts(s, c);
    hide IsRun, Mask, LoopsOk, ConnsOk;
    ConnCounts(s, c);
    hide ConnOk;
    ChannelIsFree(s, c);
    TellChange(s, c, EnableWriting);
    MaskBits(EnableWriting, ChanOf(s, c).events);
  }

  // ---------------------------------------------------------------- never back

  function Rank(st: ConnState): nat {
    match st case Connecting => 0 case Connected => 1 case Disconnecting => 2 case Disconnected => 3
  }

  /** The connection moved on or stayed. */
  predicate Forward(conn: Conn, conn': Conn) {
    && conn'.loop == conn.loop && conn'.fd == conn.fd && Rank(conn.state) <= Rank(conn'.state)
    && conn.established <= conn'.established && conn.closes <= conn'.closes
    && conn.removals <= conn'.removals && conn.destroys <= conn'.destroys
  }

  /** The record of its connection after a task. */
  function TaskRecord(t: Task, conn: Conn): Conn {
    match t
    case Establish(_) => conn.(state := Connected, established := conn.established + 1)
    case RemoveInBoss(_) => conn.(removals := conn.removals + 1)
    case Destroy(_) => conn.(state := Disconnected, destroys := conn.destroys + 1)
    case ShutdownTask(_) => conn
  }

  lemma TaskChanges(s: State, t: Task)
    ensures var s' := DoTask(s, t);
            && s'.others == s.others && s'.onConn == s.onConn
            && (s'.open == s.open || (t.Destroy? && t.c in s.conns && s'.open == s.open - {s.conns[t.c].fd}))
            && (s'.conns == s.conns || (t.c in s.conns && s'.conns == s.conns[t.c := TaskRecord(t, s.conns[t.c])]))
            && (s'.conns != s.conns && t.Establish? ==> s.conns[t.c].state.Connecting?)
            && (s'.conns != s.conns && t.Destroy? ==> s'.panicked || s'.open == s.open - {s.conns[t.c].fd})
  {
    hide Tell, Enqueue, Teardown;
    match t
    case Establish(_) =>
    case RemoveInBoss(_) =>
    case Destroy(_) =>
    case ShutdownTask(_) =>
  }

  lemma TaskIsForward(s: State, t: Task, c: ConnId)
    requires c in s.conns
    ensures var s' := DoTask(s, t); c in s'.conns && Forward(s.conns[c], s'.conns[c])
  {
    hide DoTask;
    TaskChanges(s, t);
  }

  lemma HandleReadChanges(s: State, d: ConnId, revents: Events, input: Input)
    ensures var s' := HandleRead(s, d, revents, input);
            && s'.open == s.open && s'.others == s.others
            && (s'.conns == s.conns || (d in s.conns && s'.conns == s.conns[d := s.conns[d].(closes := s.conns[d].closes + 1)]))
  {
    hide Tell, Enqueue, Dispatch;
  }

  lemma HandleWriteChanges(s: State, d: ConnId, revents: Events, drained: bool)
    ensures var s' := HandleWrite(s, d, revents, drained);
            s'.open == s.open && s'.others == s.others && s'.conns == s.conns
  {
    hide Tell, Enqueue, Dispatch;
  }

  lemma HandlersAreForward(s: State, d: ConnId, revents: Events, input: Input, drained: bool, c: ConnId)
    requires c in s.conns
    ensures var s' := HandleWrite(HandleRead(s, d, revents, input), d, revents, drained);
            c in s'.conns && Forward(s.conns[c], s'.conns[c])
  {
    hide HandleRead, HandleWrite;
    HandleReadChanges(s, d, revents, input);
    HandleWriteChanges(HandleRead(s, d, revents, input), d, revents, drained);
  }

  lemma StepIsForward(s: State, a: Action, c: ConnId)
    requires Enabled(s, a) && c in s.conns && s.nextConnId !in s.conns
    ensures var s' := Do(s, a); c in s'.conns && Forward(s.conns[c], s'.conns[c])
  {
    hide Tell, Enqueue, DoTask, HandleRead, HandleWrite, Reported;
    match a
    case RunTask(l) =>
      TaskIsForward(s.(queues := s.queues[l := s.queues[l][1..]]), s.queues[l][0], c);
    case Handle(l, input, drained) =>
      var r := s.active[l][0];
      HandlersAreForward(s.(active := s.active[l := s.active[l][1..]]), r.c, r.revents, input, drained, c);
    case _ =>
  }

  /** Connecting, Connected, Disconnecting, Disconnected: never back, over any stretch of a run. */
  lemma {:induction false} StateNeverGoesBack(run: seq<State>, acts: seq<Action>, i: nat, j: nat, c: ConnId)
    requires IsRun(run, acts) && i <= j < |run| && c in run[i].conns
    ensures c in run[j].conns && Forward(run[i].conns[c], run[j].conns[c])
    decreases j - i
  {
    hide Do, Enabled, Mirror;
    if i < j {
      StateNeverGoesBack(run, acts, i, j - 1, c);
      OnlyLive(run[j - 1], acts[j - 1]);
      RunKeepsInv(run, acts, j - 1);
      IdsBelow(run[j - 1]);
      StepIsForward(run[j - 1], acts[j - 1], c);
    }
  }

  // ---------------------------------------------------------------- the queued half-close

  ghost predicate HasOwner(s: State, fd: Fd) {
    exists c :: c in s.conns && s.conns[c].fd == fd && s.conns[c].destroys == 0
  }

  /** Every open descriptor belongs to somebody else or to a connection that is not destroyed. */
  ghost predicate OpenIsOwned(s: State) {
    forall fd :: fd in s.open ==> fd in s.others || HasOwner(s, fd)
  }

  /** A task leaves the open descriptors alone, except that destroying a connection closes its own. */
  lemma TaskOpens(s: State, t: Task, c: ConnId)
    requires c in s.conns
    ensures var s' := DoTask(s, t);
            && s'.open <= s.open && s'.others == s.others && c in s'.conns
            && (s'.panicked || s'.conns[c].destroys == s.conns[c].destroys || s.conns[c].fd !in s'.open)
  {
    hide DoTask;
    TaskChanges(s, t);
  }

  lemma HandlersOpen(s: State, d: ConnId, revents: Events, input: Input, drained: bool)
    ensures var s' := HandleWrite(HandleRead(s, d, revents, input), d, revents, drained);
            && s'.open == s.open && s'.others == s.others
            && forall c :: c in s.conns ==> c in s'.conns && s'.conns[c].destroys == s.conns[c].destroys
  {
    hide HandleRead, HandleWrite;
    HandleReadChanges(s, d, revents, input);
    HandleWriteChanges(HandleRead(s, d, revents, input), d, revents, drained);
  }

  lemma TaskOpenSets(s: State, t: Task)
    ensures DoTask(s, t).open <= s.open && DoTask(s, t).others == s.others
  {
    hide DoTask;
    TaskChanges(s, t);
  }

  lemma StepOpens(s: State, a: Action, c: ConnId)
    requires Enabled(s, a) && c in s.conns && s.nextConnId !in s.conns
    ensures var s' := Do(s, a);
            c in s'.conns && (s'.panicked || s'.conns[c].destroys == s.conns[c].destroys || s.conns[c].fd !in s'.open)
  {
    hide Tell, Enqueue, DoTask, HandleRead, HandleWrite, Reported;
    match a
    case RunTask(l) => TaskOpens(s.(queues := s.queues[l := s.queues[l][1..]]), s.queues[l][0], c);
    case Handle(l, input, drained) =>
      var r := s.active[l][0];
      HandlersOpen(s.(active := s.active[l := s.active[l][1..]]), r.c, r.revents, input, drained);
    case _ =>
  }

  lemma StepOpenSets(s: State, a: Action)
    requires Enabled(s, a)
    ensures var s' := Do(s, a);
            forall fd :: fd in s'.open ==>
                           && (fd in s.others ==> fd in s'.others)
                           && (fd in s.open || fd in s'.others || (a.Accept? && fd == a.fd))
  {
    hide Tell, Enqueue, DoTask, HandleRead, HandleWrite, Reported;
    match a
    case RunTask(l) => TaskOpenSets(s.(queues := s.queues[l := s.queues[l][1..]]), s.queues[l][0]);
    case Handle(l, input, drained) =>
      var r := s.active[l][0];
      HandlersOpen(s.(active := s.active[l := s.active[l][1..]]), r.c, r.revents, input, drained);
    case _ =>
  }

  lemma StepKeepsOwned(s: State, a: Action)
    requires Enabled(s, a) && s.nextConnId !in s.conns && OpenIsOwned(s) && !Do(s, a).panicked
    ensures OpenIsOwned(Do(s, a))
  {
    var s' := Do(s, a);
    StepOpenSets(s, a);
    if a.Accept? { assert s'.conns[s.nextConnId].fd == a.fd; }
    hide Do, Enabled;
    forall fd | fd in s'.open ensures fd in s'.others || HasOwner(s', fd) {
      if fd in s.open && fd !in s.others {
        var c :| c in s.conns && s.conns[c].fd == fd && s.conns[c].destroys == 0;
        StepOpens(s, a, c);
        StepIsForward(s, a, c);
      }
    }
  }

  lemma {:induction false} RunKeepsOwned(run: seq<State>, acts: seq<Action>, i: nat)
    requires IsRun(run, acts) && i < |run| && !run[i].panicked
    ensures OpenIsOwned(run[i])
  {
    hide Do, Enabled, Mirror;
    if i > 0 {
      OnlyLive(run[i - 1], acts[i - 1]);
      RunKeepsOwned(run, acts, i - 1);
      RunKeepsInv(run, acts, i - 1);
      IdsBelow(run[i - 1]);
      StepKeepsOwned(run[i - 1], acts[i - 1]);
    }
  }

  /** The descriptor number of c is open and nobody else's. */
  predicate OwnsItsFd(s: State, c: ConnId)
    requires c in s.conns
  {
    && s.conns[c].fd in s.open && s.conns[c].fd !in s.others
    && forall d :: d in s.conns && s.conns[d].fd == s.conns[c].fd && s.conns[d].destroys == 0 ==> d == c
  }

  /** A connection owns its descriptor exactly until it is destroyed. */
  lemma {:induction false} OwnsItsFdIff(run: seq<State>, acts: seq<Action>, i: nat, c: ConnId)
    requires IsRun(run, acts) && i < |run| && !run[i].panicked && c in run[i].conns
    ensures OwnsItsFd(run[i], c) <==> run[i].conns[c].destroys == 0
  {
    hide Do, Enabled;
    RunKeepsInv(run, acts, i);
    RunKeepsOwned(run, acts, i);
    hide LoopsOk;
    LiveFds(run[i]);
    assert ConnOk(run[i], c);
    hide ConnOk;
    if OwnsItsFd(run[i], c) { assert HasOwner(run[i], run[i].conns[c].fd); }
  }

  /** What a step puts on the queue of loop l. */
  function Added(s: State, a: Action, l: LoopId): seq<Task> {
    match a
    case Accept(_, k) => if k == l then [Establish(s.nextConnId)] else []
    case RunTask(k) =>
      if k in s.queues && s.queues[k] != [] && s.queues[k][0].RemoveInBoss? then
        var c := s.queues[k][0].c;
        if c in s.conns && s.conns[c].loop == l then [Destroy(c)] else []
      else []
    case Handle(k, input, _) =>
      if k in s.active && s.active[k] != [] && OnRead in Dispatch(s.active[k][0].revents) && input.Eof? && l == BOSS
      then [RemoveInBoss(s.active[k][0].c)] else []
    case UserShutdown(c) => if c in s.conns && s.conns[c].loop == l then [ShutdownTask(c)] else []
    case _ => []
  }

  function Popped1(s: State, a: Action, l: LoopId): seq<Task>
    requires l in s.queues
  {
    if a == RunTask(l) && s.queues[l] != [] then s.queues[l][1..] else s.queues[l]
  }

  lemma TaskQueues(s: State, t: Task)
    requires Known(s, t.c)
    ensures DoTask(s, t).queues == if t.RemoveInBoss?
                                   then s.queues[s.conns[t.c].loop := s.queues[s.conns[t.c].loop] + [Destroy(t.c)]] else s.queues
  {
    hide Tell, Teardown;
  }

  lemma HandlerQueues(s: State, c: ConnId, revents: Events, input: Input, drained: bool)
    requires c in s.conns && BOSS in s.queues
    ensures HandleWrite(HandleRead(s, c, revents, input), c, revents, drained).queues ==
              if OnRead in Dispatch(revents) && input.Eof?
              then s.queues[BOSS := s.queues[BOSS] + [RemoveInBoss(c)]] else s.queues
  {
    hide Tell, Dispatch;
  }

  /** Queues are first in, first out: a step takes at most the head and appends at most one task. */
  lemma QueueMoves(s: State, a: Action, l: LoopId)
    requires LoopsOk(s) && ConnsOk(s) && QueuesOk(s) && ActiveOk(s) && Enabled(s, a) && l in s.queues
    ensures l in Do(s, a).queues && Do(s, a).queues[l] == Popped1(s, a, l) + Added(s, a, l)
  {
    hide Mirror, PollersMirror, ChansOwned, ConnsOk, QueuesOk, ActiveOk, Reported, DoTask, HandleRead, HandleWrite, Tell, CloseFd;
    match a
    case RunTask(k) => TaskMoves(s, k, l);
    case Handle(k, input, drained) => HandleMoves(s, k, input, drained, l);
    case _ =>
  }

  lemma TaskMoves(s: State, k: LoopId, l: LoopId)
    requires LoopsOk(s) && ConnsOk(s) && QueuesOk(s) && Enabled(s, RunTask(k)) && l in s.queues
    ensures l in Do(s, RunTask(k)).queues
    ensures Do(s, RunTask(k)).queues[l] == Popped1(s, RunTask(k), l) + Added(s, RunTask(k), l)
  {
    hide Mirror, PollersMirror, ChansOwned, DoTask, ConnsOk, QueuesOk, NextTaskWaits;
    HeadTaskOk(s, k);
    KnownConn(s, s.queues[k][0].c);
    TaskQueues(s.(queues := s.queues[k := s.queues[k][1..]]), s.queues[k][0]);
  }

  lemma HandleMoves(s: State, k: LoopId, input: Input, drained: bool, l: LoopId)
    requires LoopsOk(s) && ActiveOk(s) && Enabled(s, Handle(k, input, drained)) && l in s.queues
    ensures l in Do(s, Handle(k, input, drained)).queues
    ensures Do(s, Handle(k, input, drained)).queues[l] ==
              Popped1(s, Handle(k, input, drained), l) + Added(s, Handle(k, input, drained), l)
  {
    var r := s.active[k][0];
    assert ReportOk(s, k, r);
    hide Mirror, PollersMirror, ChansOwned, HandleRead, HandleWrite, ActiveOk, Dispatch;
    HandlerQueues(s.(active := s.active[k := s.active[k][1..]]), r.c, r.revents, input, drained);
  }

  lemma TaskDestroys(s: State, t: Task, c: ConnId)
    requires Known(s, t.c) && c in s.conns && (t.Destroy? ==> s.conns[t.c].state.Connected? || s.conns[t.c].state.Disconnecting?)
    ensures var s' := DoTask(s, t);
            c in s'.conns && s'.conns[c].destroys == s.conns[c].destroys + if t == Destroy(c) then 1 else 0
  {
    hide Tell, Enqueue, Teardown;
  }

  /** Only its own destroy task destroys a connection. */
  lemma StepDestroys(s: State, a: Action, c: ConnId)
    requires LoopsOk(s) && ConnsOk(s) && QueuesOk(s) && Enabled(s, a) && c in s.conns && s.nextConnId !in s.conns
    ensures var s' := Do(s, a);
            && c in s'.conns
            && s'.conns[c].destroys == s.conns[c].destroys + if a.RunTask? && s.queues[a.loop][0] == Destroy(c) then 1 else 0
  {
    hide Mirror, Tell, Enqueue, DoTask, HandleRead, HandleWrite, Reported, PollersMirror, ChansOwned, FdsDistinct;
    match a
    case RunTask(l) =>
      HeadTaskOk(s, l);
      hide QueuesOk;
      assert ConnOk(s, s.queues[l][0].c);
      TaskDestroys(s.(queues := s.queues[l := s.queues[l][1..]]), s.queues[l][0], c);
    case Handle(l, input, drained) =>
      hide QueuesOk, ConnOk;
      var r := s.active[l][0];
      HandlersOpen(s.(active := s.active[l := s.active[l][1..]]), r.c, r.revents, input, drained);
    case _ => hide QueuesOk, ConnOk;
  }

  lemma InTail(q: seq<Task>, t: Task)
    requires t in q && q[0] != t
    ensures t in q[1..]
  {
    assert q == [q[0]] + q[1..];
  }

  /** Every y in the queue has an x before it. */
  predicate Precedes(q: seq<Task>, x: Task, y: Task) {
    forall n :: 0 <= n < |q| && q[n] == y ==> x in q[..n]
  }

  lemma PrecedesPop(q: seq<Task>, x: Task, y: Task)
    requires q != [] && Precedes(q, x, y) && q[0] != x
    ensures Precedes(q[1..], x, y)
  {
    forall n | 0 <= n < |q[1..]| && q[1..][n] == y ensures x in q[1..][..n] {
      assert q[n + 1] == y;
      assert q[..n + 1] == [q[0]] + q[1..][..n];
    }
  }

  lemma PrecedesAppend(q: seq<Task>, x: Task, y: Task, added: seq<Task>)
    requires Precedes(q, x, y) && |added| <= 1 && (y in added ==> x in q)
    ensures Precedes(q + added, x, y)
  {
    forall n | 0 <= n < |q + added| && (q + added)[n] == y ensures x in (q + added)[..n] {
      if n < |q| {
        assert (q + added)[..n] == q[..n];
      } else {
        assert (q + added)[..n] == q;
      }
    }
  }

  /** No y in the queue has an x before it. */
  predicate NeverBehind(q: seq<Task>, x: Task, y: Task) {
    forall n :: 0 <= n < |q| && q[n] == x ==> y !in q[n..]
  }

  lemma NeverBehindPop(q: seq<Task>, x: Task, y: Task)
    requires q != [] && NeverBehind(q, x, y)
    ensures NeverBehind(q[1..], x, y) && (q[0] == x ==> y !in q[1..])
  {
    forall n | 0 <= n < |q[1..]| && q[1..][n] == x ensures y !in q[1..][n..] {
      assert q[n + 1] == x && q[n + 1..] == q[1..][n..];
    }
    if q[0] == x { assert q[0..] == q; }
  }

  lemma NeverBehindAppend(q: seq<Task>, x: Task, y: Task, added: seq<Task>)
    requires NeverBehind(q, x, y) && y !in added
    ensures NeverBehind(q + added, x, y)
  {
    forall n | 0 <= n < |q + added| && (q + added)[n] == x ensures y !in (q + added)[n..] {
      if n < |q| {
        assert (q + added)[n..] == q[n..] + added;
      } else {
        assert forall t :: t in (q + added)[n..] ==> t in added;
      }
    }
  }

  /** The half-closes of c wait behind its destruction. */
  ghost predicate Late(s: State, c: ConnId) {
    && c in s.conns
    && (s.conns[c].destroys == 0 ==>
          && s.conns[c].Stage() == 3 && s.conns[c].loop in s.queues
          && Precedes(s.queues[s.conns[c].loop], Destroy(c), ShutdownTask(c)))
  }

  /** The half-closes of c do not wait behind its destruction, and no more of them will come. */
  ghost predicate Early(s: State, c: ConnId) {
    && c in s.conns && s.conns[c].Shutting() && s.conns[c].loop in s.queues
    && (ShutdownTask(c) in s.queues[s.conns[c].loop] ==> s.conns[c].destroys == 0)
    && NeverBehind(s.queues[s.conns[c].loop], Destroy(c), ShutdownTask(c))
  }

  /** What the next lemmas use of a step: queues are first in, first out, and connections move forward. */
  lemma StepFacts(s: State, a: Action, c: ConnId)
    requires Inv(s) && Enabled(s, a) && c in s.conns
    ensures var s', l := Do(s, a), s.conns[c].loop;
            && c in s'.conns && Forward(s.conns[c], s'.conns[c]) && l in s.queues && l in s'.queues
            && s'.queues[l] == Popped1(s, a, l) + Added(s, a, l)
            && s'.conns[c].destroys == s.conns[c].destroys + (if a.RunTask? && s.queues[a.loop][0] == Destroy(c) then 1 else 0)
            && (a.RunTask? && s.queues[a.loop][0].c == c && !s.queues[a.loop][0].RemoveInBoss? ==> a.loop == l)
    ensures a == UserShutdown(c) ==> s.conns[c].state.Connected?
  {
    hide Do, Mirror, FdsDistinct, PollersMirror, ChansOwned, ActiveOk, Reported, Forward, Added, Popped1;
    IdsBelow(s);
    KnownConn(s, c);
    if a.RunTask? { HeadTaskOk(s, a.loop); }
    hide QueuesOk, ConnOk;
    StepIsForward(s, a, c);
    QueueMoves(s, a, s.conns[c].loop);
    StepDestroys(s, a, c);
  }

  lemma AddedFacts(s: State, a: Action, l: LoopId, c: ConnId)
    ensures |Added(s, a, l)| <= 1 && (ShutdownTask(c) in Added(s, a, l) ==> a == UserShutdown(c))
  {
  }

  lemma AtStageThree(s: State, c: ConnId)
    requires Inv(s) && c in s.conns
    ensures var conn := s.conns[c];
            && conn.established <= 1 && conn.closes <= 1 && conn.removals <= 1 && conn.destroys <= 1
            && (conn.Stage() == 3 ==> conn.loop in s.queues && Destroy(c) in s.queues[conn.loop])
  {
    hide Mirror, ActiveOk, FdsDistinct, ChansOwned, PollersMirror;
    assert ConnOk(s, c);
    assert NextTaskWaits(s, c);
  }

  lemma EarlyStep(s: State, a: Action, c: ConnId)
    requires Inv(s) && Enabled(s, a) && Early(s, c)
    ensures Early(Do(s, a), c)
  {
    hide Inv, Do, Enabled, Added, NeverBehind;
    StepFacts(s, a, c);
    var s', l := Do(s, a), s.conns[c].loop;
    var q := s.queues[l];
    AddedFacts(s, a, l, c);
    if a == RunTask(l) && q != [] { NeverBehindPop(q, Destroy(c), ShutdownTask(c)); }
    NeverBehindAppend(Popped1(s, a, l), Destroy(c), ShutdownTask(c), Added(s, a, l));
  }

  lemma LateStep(s: State, a: Action, c: ConnId)
    requires Inv(s) && Enabled(s, a) && Late(s, c) && Inv(Do(s, a))
    ensures Late(Do(s, a), c)
  {
    hide Inv, Do, Enabled, Added, Precedes;
    StepFacts(s, a, c);
    AtStageThree(s, c);
    AtStageThree(Do(s, a), c);
    var s', l := Do(s, a), s.conns[c].loop;
    var q := s.queues[l];
    AddedFacts(s, a, l, c);
    if s'.conns[c].destroys == 0 {
      if a == RunTask(l) && q != [] {
        PrecedesPop(q, Destroy(c), ShutdownTask(c));
        InTail(q, Destroy(c));
      }
      PrecedesAppend(Popped1(s, a, l), Destroy(c), ShutdownTask(c), Added(s, a, l));
    }
  }

  /** The call itself: with c still in connMap its destruction is not queued yet, otherwise it is. */
  lemma ShutdownIsEarlyOrLate(s: State, c: ConnId)
    requires Inv(s) && Enabled(s, UserShutdown(c))
    ensures var s' := Do(s, UserShutdown(c)); if c in s.connMap then Early(s', c) else Late(s', c)
  {
    hide Mirror, FdsDistinct, PollersMirror, ChansOwned, ActiveOk;
    assert ConnOk(s, c);
    assert NextTaskWaits(s, c);
    var l, s' := s.conns[c].loop, Do(s, UserShutdown(c));
    var q := s.queues[l];
    assert forall t :: t in q ==> TaskOk(s, l, t);
    assert s'.queues[l] == q + [ShutdownTask(c)];
    hide QueuesOk, ConnOk;
    assert ShutdownTask(c) !in q;
    if c in s.connMap { assert Destroy(c) !in q; }
    else { PrecedesAppend(q, Destroy(c), ShutdownTask(c), [ShutdownTask(c)]); }
  }

  lemma {:induction false} EarlyOrLate(run: seq<State>, acts: seq<Action>, i: nat, j: nat, c: ConnId)
    requires IsRun(run, acts) && i < j < |run| && !run[j].panicked && acts[i] == UserShutdown(c)
    ensures if c in run[i].connMap then Early(run[j], c) else Late(run[j], c)
    decreases j - i
  {
    hide Do, Enabled, Inv, Early, Late;
    var s, a := run[j - 1], acts[j - 1];
    assert Enabled(s, a) && run[j] == Do(s, a);
    OnlyLive(s, a);
    RunKeepsInv(run, acts, j - 1);
    RunKeepsInv(run, acts, j);
    if j == i + 1 {
      ShutdownIsEarlyOrLate(s, c);
    } else {
      EarlyOrLate(run, acts, i, j - 1, c);
      if c in run[i].connMap { EarlyStep(s, a, c); } else { LateStep(s, a, c); }
    }
  }

  /** The task that `ShutdownWrite` queues uses the descriptor without looking at the state again. When it
      runs, the descriptor is the connection's own exactly if the connection was still in connMap at the
      call: later its destruction is queued already, and the task comes behind it. */
  lemma {:induction false} ShutdownHitsOwnIff(run: seq<State>, acts: seq<Action>, i: nat, j: nat, c: ConnId)
    requires IsRun(run, acts) && i < j < |acts| && acts[i] == UserShutdown(c)
    requires acts[j].RunTask? && Waits(run[j], acts[j].loop, ShutdownTask(c)) && run[j].queues[acts[j].loop][0] == ShutdownTask(c)
    ensures c in run[j].conns && (OwnsItsFd(run[j], c) <==> c in run[i].connMap)
  {
    hide Do, Reported, OwnsItsFd;
    assert Enabled(run[j], acts[j]);
    RunKeepsInv(run, acts, j);
    hide LoopsOk, ConnsOk, ActiveOk;
    HeadTaskOk(run[j], acts[j].loop);
    hide QueuesOk;
    EarlyOrLate(run, acts, i, j, c);
    OwnsItsFdIff(run, acts, j, c);
  }

  lemma CanAccept(s: State, fd: Fd, l: LoopId)
    requires fd !in s.open && l in s.pollers && !s.panicked
    ensures Enabled(s, Accept(fd, l))
  {
  }

  /** Whenever a connection that is still Connected waits to be destroyed, a call of `ShutdownWrite` and
      the destruction leave the half-close waiting while the descriptor is free. */
  lemma LateShutdownIsQueued(s: State, c: ConnId) returns (s1: State, s2: State)
    requires Inv(s) && s.onConn && c in s.conns && s.conns[c].Stage() == 3 && s.conns[c].destroys == 0 && s.conns[c].state.Connected?
    requires var l := s.conns[c].loop;
             l in s.queues && s.queues[l] == [Destroy(c)] && l in s.active && s.active[l] == []
    ensures Enabled(s, UserShutdown(c)) && s1 == Do(s, UserShutdown(c))
    ensures Enabled(s1, RunTask(s.conns[c].loop)) && s2 == Do(s1, RunTask(s.conns[c].loop))
    ensures Inv(s2) && s.conns[c].loop in s2.pollers && s.conns[c].fd !in s2.open
    ensures s.conns[c].loop in s2.queues && s2.queues[s.conns[c].loop] == [ShutdownTask(c)]
    ensures c in s2.conns && s2.conns[c].destroys == 1 && s2.conns[c].fd == s.conns[c].fd
  {
    hide Do, Mirror, QueuesOk, ActiveOk, ConnsOk, LoopsOk, Reported;
    var l := s.conns[c].loop;
    ShutdownIs(s, c);
    UserShutdownStep(s, c);
    s1 := Do(s, UserShutdown(c));
    InvIsLive(s1);
    StepKeepsCallback(s, UserShutdown(c));
    assert s1.queues[l][0] == Destroy(c) && s1.queues[l][1..] == [ShutdownTask(c)];
    DestroyStep(s1, l);
    DestroyLeaves(s1, l);
    s2 := Do(s1, RunTask(l));
  }

  /** From establishing to the boss-side removal, all on the boss loop: a run that leaves a connection
      Connected, out of connMap and about to be destroyed. */
  lemma ReachRemoved(s0: State, fd: Fd) returns (run: seq<State>, acts: seq<Action>)
    requires Init(s0) && fd !in s0.open
    ensures IsRun(run, acts) && |acts| == 5 && run[0] == s0
    ensures var s, c := run[5], s0.nextConnId;
            && Inv(s) && c in s.conns && s.conns[c] == Conn(BOSS, fd, Connected, 1, 1, 1, 0)
            && BOSS in s.queues && s.queues[BOSS] == [Destroy(c)] && BOSS in s.active && s.active[BOSS] == []
  {
    hide Do, Inv, Enabled, IsRun;
    var c := s0.nextConnId;
    var s1 := ReachAccepted(s0, fd);
    var s2 := ReachEstablished(s1, c);
    var revents, s3 := ReachReported(s2, c);
    var s4 := ReachClosed(s3, c, revents);
    var s5 := ReachBossRemoved(s4, c);
    run := [s0, s1, s2, s3, s4, s5];
    acts := [Accept(fd, BOSS), RunTask(BOSS), Poll(BOSS, [Report(c, revents)]), Handle(BOSS, Eof, false), RunTask(BOSS)];
    RunOfFive(run, acts);
  }

  lemma RunOfFive(run: seq<State>, acts: seq<Action>)
    requires |run| == 6 && |acts| == 5 && Init(run[0])
    requires Enabled(run[0], acts[0]) && run[1] == Do(run[0], acts[0])
    requires Enabled(run[1], acts[1]) && run[2] == Do(run[1], acts[1])
    requires Enabled(run[2], acts[2]) && run[3] == Do(run[2], acts[2])
    requires Enabled(run[3], acts[3]) && run[4] == Do(run[3], acts[3])
    requires Enabled(run[4], acts[4]) && run[5] == Do(run[4], acts[4])
    ensures IsRun(run, acts)
  {
    hide Do, Enabled, Init;
  }

  lemma ReachAccepted(s: State, fd: Fd) returns (s': State)
    requires Init(s) && fd !in s.open
    ensures Enabled(s, Accept(fd, BOSS)) && s' == Do(s, Accept(fd, BOSS)) && Inv(s')
    ensures var c := s.nextConnId;
            && c in s'.conns && s'.conns[c] == Conn(BOSS, fd, Connecting, 0, 0, 0, 0)
            && BOSS in s'.queues && s'.queues[BOSS] == [Establish(c)] && BOSS in s'.active && s'.active[BOSS] == []
  {
    hide Do, Inv, QueuesOk, ActiveOk, ConnsOk, PollersMirror, ChansOwned, OnlyTouches, ConnOk;
    InitInv(s);
    InitParts(s);
    AcceptStep(s, fd, BOSS);
    AcceptIs(s, fd, BOSS);
    s' := Do(s, Accept(fd, BOSS));
  }

  lemma ReachEstablished(s: State, c: ConnId) returns (s': State)
    requires Inv(s) && c in s.conns && s.conns[c].loop == BOSS && s.conns[c].Stage() == 0
    requires BOSS in s.queues && s.queues[BOSS] == [Establish(c)] && BOSS in s.active && s.active[BOSS] == []
    ensures Enabled(s, RunTask(BOSS)) && s' == Do(s, RunTask(BOSS)) && Inv(s')
    ensures c in s'.conns && s'.conns[c] == s.conns[c].(state := Connected, established := 1)
    ensures BOSS in s'.queues && s'.queues[BOSS] == [] && BOSS in s'.active && s'.active[BOSS] == []
  {
    hide Do, Inv, LoopsOk, ConnsOk, ConnOk, Reported;
    InvParts(s, c);
    KnownConn(s, c);
    EstablishStep(s, BOSS);
    FreshFdUnmapped(s, c);
    EstablishIs(s, BOSS);
    s' := Do(s, RunTask(BOSS));
  }

  lemma InitParts(s: State)
    requires Init(s)
    ensures LoopsOk(s) && ConnsOk(s)
  {
    InitInv(s);
  }

  lemma ReadableBits(e: bv32)
    requires e & 0x2003 != 0
    ensures (e & 0x2003) & 0x2003 != 0 && (e & 0x2003) & !(e | 0x8 | 0x10 | 0x20) == 0
  {
  }

  lemma ReachReported(s: State, c: ConnId) returns (revents: Events, s': State)
    requires Inv(s) && c in s.conns && s.conns[c].loop == BOSS && s.conns[c].Stage() == 1 && s.conns[c].established == 1
    requires BOSS in s.active && s.active[BOSS] == []
    ensures OnRead in Dispatch(revents)
    ensures Enabled(s, Poll(BOSS, [Report(c, revents)])) && s' == Do(s, Poll(BOSS, [Report(c, revents)])) && Inv(s')
    ensures s' == s.(active := s.active[BOSS := [Report(c, revents)]])
  {
    hide Mirror, QueuesOk, ActiveOk, FdsDistinct, PollersMirror, ChansOwned;
    assert ConnOk(s, c);
    WatchedWhileOpen(s, c);
    var e := s.pollers[BOSS].kernel[s.conns[c].fd].0;
    revents := e & 0x2003;
    ReadableBits(e);
    assert Reported(s, BOSS, Report(c, revents));
    hide ConnOk, Reported;
    PollStep(s, BOSS, [Report(c, revents)]);
    s' := Do(s, Poll(BOSS, [Report(c, revents)]));
  }

  lemma ReachClosed(s: State, c: ConnId, revents: Events) returns (s': State)
    requires Inv(s) && c in s.conns && s.conns[c].loop == BOSS && s.conns[c].Stage() == 1 && OnRead in Dispatch(revents)
    requires BOSS in s.active && s.active[BOSS] == [Report(c, revents)] && BOSS in s.queues && s.queues[BOSS] == []
    ensures Enabled(s, Handle(BOSS, Eof, false)) && s' == Do(s, Handle(BOSS, Eof, false)) && Inv(s')
    ensures c in s'.conns && s'.conns[c] == s.conns[c].(closes := 1)
    ensures BOSS in s'.queues && s'.queues[BOSS] == [RemoveInBoss(c)] && BOSS in s'.active && s'.active[BOSS] == []
  {
    hide Inv, LoopsOk, ConnsOk, ConnOk, HandleClose, Dispatch, OnlyTouches, PollersMirror, ChansOwned;
    InvIsLive(s);
    HandleStep(s, BOSS, Eof, false);
    PopReport(s, BOSS);
    var s0 := s.(active := s.active[BOSS := s.active[BOSS][1..]]);
    s' := Do(s, Handle(BOSS, Eof, false));
    assert s' == HandleClose(s0, c);
    InvParts(s0, c);
    CloseFrames(s0, c);
  }

  lemma InvParts(s: State, c: ConnId)
    requires Inv(s) && c in s.conns
    ensures LoopsOk(s) && ConnsOk(s) && QueuesOk(s) && ActiveOk(s) && ConnOk(s, c) && !s.panicked
    ensures s.conns[c].loop in s.pollers && s.conns[c].loop in s.queues && s.conns[c].loop in s.active
  {
    hide Mirror, QueuesOk, ActiveOk;
    assert ConnOk(s, c);
  }

  lemma ReachBossRemoved(s: State, c: ConnId) returns (s': State)
    requires Inv(s) && c in s.conns && s.conns[c].loop == BOSS && s.conns[c].Stage() == 2
    requires BOSS in s.queues && s.queues[BOSS] == [RemoveInBoss(c)] && BOSS in s.active && s.active[BOSS] == []
    ensures Enabled(s, RunTask(BOSS)) && s' == Do(s, RunTask(BOSS)) && Inv(s')
    ensures c in s'.conns && s'.conns[c] == s.conns[c].(removals := 1)
    ensures BOSS in s'.queues && s'.queues[BOSS] == [Destroy(c)] && BOSS in s'.active && s'.active[BOSS] == []
  {
    hide Do, Inv, LoopsOk, ConnsOk, ConnOk, Reported;
    InvParts(s, c);
    RemoveStep(s, BOSS);
    RemoveIs(s, BOSS);
    s' := Do(s, RunTask(BOSS));
  }

  /** It happens in a run of any server with a connection callback: a half-close asked for after the
      boss-side removal is about to hit a new connection that was given the same descriptor. */
  lemma LateShutdownHitsReusedFd(s0: State, fd: Fd) returns (run: seq<State>, acts: seq<Action>, c: ConnId, d: ConnId)
    requires Init(s0) && s0.onConn && fd !in s0.open
    ensures IsRun(run, acts) && run[0] == s0 && |acts| == 8 && acts[5] == UserShutdown(c)
    ensures var s := run[8];
            && BOSS in s.queues && s.queues[BOSS] == [ShutdownTask(c), Establish(d)]
            && c in s.conns && d in s.conns && d != c && s.conns[c].destroys == 1
            && s.conns[d].destroys == 0 && s.conns[d].fd == s.conns[c].fd
  {
    hide Do, Inv, Enabled, Init;
    c := s0.nextConnId;
    run, acts := ReachRemoved(s0, fd);
    RunKeepsCallback(run, acts, 5);
    var s1, s2 := LateShutdownIsQueued(run[5], c);
    d := s2.nextConnId;
    InvIsLive(s2);
    CanAccept(s2, fd, BOSS);
    AcceptLeaves(s2, fd, BOSS);
    var s3 := Do(s2, Accept(fd, BOSS));
    run, acts := run + [s1, s2, s3], acts + [UserShutdown(c), RunTask(BOSS), Accept(fd, BOSS)];
  }

  lemma AcceptLeaves(s: State, fd: Fd, l: LoopId)
    requires Inv(s) && Enabled(s, Accept(fd, l))
    ensures s.nextConnId !in s.conns
    ensures var s' := Do(s, Accept(fd, l));
            && s'.conns == s.conns[s.nextConnId := Conn(l, fd, Connecting, 0, 0, 0, 0)]
            && l in s.queues && s'.queues == s.queues[l := s.queues[l] + [Establish(s.nextConnId)]]
  {
    AcceptIs(s, fd, l);
  }

  lemma ShutdownIs(s: State, c: ConnId)
    requires LoopsOk(s) && ConnsOk(s) && c in s.conns && s.conns[c].state.Connected?
    ensures Enabled(s, UserShutdown(c))
    ensures var s', l := Do(s, UserShutdown(c)), s.conns[c].loop;
            && l in s.queues && l in s.pollers && s'.queues == s.queues[l := s.queues[l] + [ShutdownTask(c)]]
            && s'.conns == s.conns[c := s.conns[c].(state := Disconnecting)] && s'.active == s.active
  {
    assert ConnOk(s, c);
  }

  lemma DestroyLeaves(s: State, l: LoopId)
    requires LoopsOk(s) && ConnsOk(s) && Enabled(s, RunTask(l)) && s.queues[l][0].Destroy? && s.onConn
    requires var c := s.queues[l][0].c; c in s.conns && s.conns[c].Stage() == 3 && s.conns[c].destroys == 0
    ensures var c, s' := s.queues[l][0].c, Do(s, RunTask(l));
            && s'.conns == s.conns[c := s.conns[c].(state := Disconnected, destroys := 1)]
            && s'.queues == s.queues[l := s.queues[l][1..]] && s.conns[c].fd !in s'.open && l in s'.pollers
  {
    hide Do, Mirror, Tell, FdsDistinct, OnlyTouches, PollersMirror, ChansOwned, ConnOk;
    DestroyIs(s, l);
    DestroyFrames(s, l);
  }
}

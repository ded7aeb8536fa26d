/** The connector of a client (connector.go): one attempt to connect at a time, retried with growing
    delays, its descriptor watched by the loop's poller (see `Poller`) until it is closed or handed over.

    The loop runs the connector's handlers, queued closures and timer callbacks one at a time; the
    kernel answers as it likes, reports whatever is registered and reissues closed descriptors; the rest of
    the process opens, registers, unregisters and closes descriptors of its own, among them those handed
    over. C identifies channels. */
module Connector {
  import opened Wrappers
  import opened Poller

  type Fd = int

  const INITIAL_DELAY: nat := 500     // milliseconds
  const MAX_DELAY: nat := 30000

  datatype Status = Disconnected | Connecting | Connected

  /** Closures in the loop's task queue. */
  datatype Task = Start | ClearCh | AddTimer(id: nat) | CancelTimer(id: nat)

  /** A descriptor that connect0 opened, and how often it was closed and handed over. */
  datatype Socket = Socket(fd: Fd, closes: nat, hands: nat)

  datatype State<C> = State(
    status: Status,
    connect: bool,
    ch: Option<C>,                  // the current channel, None for nil
    retryDelay: nat,
    tt: Option<nat>,                // the last retry timer created
    timers: nat,                    // retry timers created so far
    queue: seq<Task>,
    armed: Option<nat>,             // the retry timer in the timer queue
    sockets: seq<Socket>,           // history: every descriptor opened by connect0
    mine: map<C, nat>,              // history: the channels created by connecting, and their sockets
    delays: seq<nat>,               // history: retry delays used since the last reset
    poller: Poller.State<C>,        // the poller of the loop, with everybody's channels
    open: set<Fd>,                  // descriptors open in the process
    panicked: bool)                 // an assertion of the poller has failed, or a nil channel was used

  /** What connect(2) answers, by the branch the code takes; a watched attempt gets a new channel. */
  datatype Answer<C> = InProgress(ch: C) | Retryable | Fatal

  // ---------------------------------------------------------------- specification

  function Min(a: nat, b: nat): nat { if a <= b then a else b }

  /** A call into the poller. */
  function Tell<C(==)>(s: State<C>, call: Call<C>): (r: State<C>)
    ensures r == s.(poller := r.poller, panicked := r.panicked)
  {
    if !Poller.Callable(s.poller, call) then s.(panicked := true)
    else match Poller.Do(s.poller, call)
      case None => s.(panicked := true)
      case Some(p) => s.(poller := p)
  }

  function Close<C>(s: State<C>, i: nat): State<C>
    requires i < |s.sockets|
  {
    s.(sockets := s.sockets[i := s.sockets[i].(closes := s.sockets[i].closes + 1)], open := s.open - {s.sockets[i].fd},
       poller := Closed(s.poller, s.sockets[i].fd))
  }

  function Retry<C>(s: State<C>, i: nat): State<C>
    requires i < |s.sockets|
  {
    var t := Close(s, i).(status := Disconnected);
    if !s.connect then t
    else t.(tt := Some(s.timers), timers := s.timers + 1, queue := s.queue + [AddTimer(s.timers)],
            delays := s.delays + [s.retryDelay], retryDelay := Min(2 * s.retryDelay, MAX_DELAY))
  }

  /** connecting: the channel is created and registered for writing. */
  function Watch<C(==)>(s: State<C>, i: nat, c: C): State<C>
    requires i < |s.sockets|
  {
    var t := Tell(s.(status := Connecting, ch := Some(c), mine := s.mine[c := i]), Create(c, s.sockets[i].fd));
    if t.panicked then t else Tell(t, Change(c, EnableWriting))
  }

  function Opened<C>(s: State<C>, fd: Fd): State<C> { s.(sockets := s.sockets + [Socket(fd, 0, 0)], open := s.open + {fd}) }

  function Connect0<C(==)>(s: State<C>, fd: Fd, answer: Answer<C>): State<C> {
    match answer
    case InProgress(c) => Watch(Opened(s, fd), |s.sockets|, c)
    case Retryable => Retry(Opened(s, fd), |s.sockets|)
    case Fatal => Close(Opened(s, fd), |s.sockets|)
  }

  function DoStart<C(==)>(s: State<C>, fd: Fd, answer: Answer<C>): State<C> {
    if s.connect then Connect0(s, fd, answer) else s
  }

  /** The current channel is there, and one that connecting made. */
  predicate Held<C(==)>(s: State<C>) { s.ch.Some? && s.ch.value in s.mine && s.mine[s.ch.value] < |s.sockets| }

  /** removeAndResetChannel; panics when the channel is nil or the poller does. */
  function Release<C(==)>(s: State<C>): State<C> {
    if !Held(s) then s.(panicked := true)
    else
      var t := Tell(s, Change(s.ch.value, DisableAll));
      if t.panicked then t
      else
        var u := Tell(t, Remove(s.ch.value));
        if u.panicked then u else u.(queue := s.queue + [ClearCh])
  }

  function HandleError<C(==)>(s: State<C>): State<C> {
    if !s.status.Connecting? then s
    else
      var t := Release(s);
      if t.panicked || !Held(s) then t else Retry(t, s.mine[s.ch.value])
  }

  function HandleWrite<C(==)>(s: State<C>, sockoptFails: bool): State<C> {
    if !s.status.Connecting? then s
    else
      var t := Release(s);
      if t.panicked || !Held(s) then t
      else
        var i := s.mine[s.ch.value];
        if sockoptFails then Retry(t, i)
        else if t.connect then t.(status := Connected, sockets := t.sockets[i := t.sockets[i].(hands := t.sockets[i].hands + 1)])
        else Close(t.(status := Connected), i)
  }

  /** handleEvent of the connector's channel: the error callback comes before the write callback. */
  function HandleEvent<C(==)>(s: State<C>, revents: Events, sockoptFails: bool): State<C> {
    var t := if OnError in Dispatch(revents) then HandleError(s) else s;
    if t.panicked then t
    else if OnWrite in Dispatch(revents) then HandleWrite(t, sockoptFails) else t
  }

  function RunTask<C(==)>(s: State<C>, fd: Fd, answer: Answer<C>): State<C>
    requires s.queue != []
  {
    var t := s.(queue := s.queue[1..]);
    match s.queue[0]
    case Start => DoStart(t, fd, answer)
    case ClearCh => t.(ch := None)
    case AddTimer(id) => t.(armed := Some(id))
    case CancelTimer(id) => if t.armed == Some(id) then t.(armed := None) else t
  }

  datatype Action<C> =
    | UserStart
    | UserStop
    | Restart(fd: Fd, answer: Answer<C>)
    | Task_(fd: Fd, answer: Answer<C>)
    | TimerFires(fd: Fd, answer: Answer<C>)
    | Event(c: C, revents: Events, sockoptFails: bool)
    | OtherOpen(fd: Fd)
    | OtherClose(fd: Fd)
    | OtherCall(call: Call<C>)

  predicate Begins(t: Task) { t.Start? || t.AddTimer? }

  /** No attempt is under way or waiting. */
  predicate Quiet<C>(s: State<C>) {
    && !s.status.Connecting? && s.armed.None?
    && forall i :: 0 <= i < |s.queue| ==> !Begins(s.queue[i])
  }

  /** No closure that clears the channel is waiting. */
  predicate NoClear<C>(s: State<C>) { forall i :: 0 <= i < |s.queue| ==> !s.queue[i].ClearCh? }

  /** The kernel reports a channel of the connector, whether or not the connector still knows it. */
  predicate Reported<C(==)>(s: State<C>, c: C, revents: Events) {
    && c in s.mine && c in s.poller.chans
    && var fd := s.poller.chans[c].fd;
       && fd in s.poller.kernel && s.poller.kernel[fd].1 == c && Reportable(s.poller.kernel[fd].0, revents)
  }

  /** A new descriptor, and a new channel. */
  predicate Unused<C(==)>(s: State<C>, fd: Fd, answer: Answer<C>) {
    fd !in s.open && (answer.InProgress? ==> answer.ch !in s.poller.chans)
  }

  /** The rest of the process uses its own channels, and those so that it fails no assertion. */
  predicate TheirCall<C(==)>(s: State<C>, call: Call<C>) {
    && call.c !in s.mine && Poller.Callable(s.poller, call)
    && match call
       case Create(_, _) => true
       case Change(c, _) =>
         s.poller.chans[c].index.New? ==> s.poller.chans[c].fd in s.open && s.poller.chans[c].fd !in s.poller.channelMap
       case Remove(c) => !s.poller.chans[c].index.New?
  }

  /** At most one attempt at a time; a restart additionally not from inside the hand-over itself. The rest
      of the process takes a channel out of the map before it closes the descriptor. */
  predicate Enabled<C(==)>(s: State<C>, a: Action<C>) {
    && !s.panicked
    && match a
       case UserStart => Quiet(s)
       case UserStop => true
       case Restart(fd, answer) => Quiet(s) && NoClear(s) && Unused(s, fd, answer)
       case Task_(fd, answer) => s.queue != [] && (s.queue[0].Start? ==> Unused(s, fd, answer))
       case TimerFires(fd, answer) => s.armed.Some? && Unused(s, fd, answer)
       case Event(c, revents, _) => Reported(s, c, revents)
       case OtherOpen(fd) => fd !in s.open
       case OtherClose(fd) => fd in s.open && fd !in s.poller.channelMap
       case OtherCall(call) => TheirCall(s, call)
  }

  function Restarted<C>(s: State<C>): State<C> {
    s.(connect := true, status := Disconnected, retryDelay := INITIAL_DELAY, delays := [])
  }

  function DoRestart<C(==)>(s: State<C>, fd: Fd, answer: Answer<C>): State<C> { DoStart(Restarted(s), fd, answer) }

  function Do<C(==)>(s: State<C>, a: Action<C>): State<C>
    requires Enabled(s, a)
  {
    match a
    case UserStart => s.(connect := true, queue := s.queue + [Start])
    case UserStop => s.(connect := false, queue := if s.tt.Some? then s.queue + [CancelTimer(s.tt.value)] else s.queue)
    case Restart(fd, answer) => DoRestart(s, fd, answer)
    case Task_(fd, answer) => RunTask(s, fd, answer)
    case TimerFires(fd, answer) => DoStart(s.(armed := None), fd, answer)
    case Event(_, revents, sockoptFails) => HandleEvent(s, revents, sockoptFails)
    case OtherOpen(fd) => s.(open := s.open + {fd})
    case OtherClose(fd) => s.(open := s.open - {fd}, poller := Closed(s.poller, fd))
    case OtherCall(call) => Tell(s, call)
  }

  predicate Init<C(==)>(s: State<C>) {
    && s.status.Disconnected? && !s.connect && s.ch.None? && s.retryDelay == INITIAL_DELAY && s.tt.None? && s.timers == 0
    && s.queue == [] && s.armed.None? && s.sockets == [] && s.mine == map[] && s.delays == []
    && s.poller == Poller.State(map[], map[], map[], 0) && !s.panicked
  }

  ghost predicate IsRun<C>(run: seq<State<C>>, acts: seq<Action<C>>) {
    && |run| == |acts| + 1
    && Init(run[0])
    && forall i :: 0 <= i < |acts| ==> Enabled(run[i], acts[i]) && run[i + 1] == Do(run[i], acts[i])
  }

  // ---------------------------------------------------------------- the invariant

  /** One attempt at a time, and no waiting closure can clear the channel of a later attempt. */
  ghost predicate OneAttempt<C>(s: State<C>) {
    && (s.status.Connecting? || s.armed.Some? ==> NoClear(s) && forall i :: 0 <= i < |s.queue| ==> !Begins(s.queue[i]))
    && !(s.status.Connecting? && s.armed.Some?)
    && (forall i, j :: 0 <= i < j < |s.queue| && Begins(s.queue[i]) ==> !Begins(s.queue[j]) && !s.queue[j].ClearCh?)
  }

  /** The channel of the attempt under way. */
  predicate Current<C(==)>(s: State<C>, c: C) { s.status.Connecting? && s.ch == Some(c) }

  /** Every socket is watched, closed once or handed over once. */
  ghost predicate SocketsOk<C>(s: State<C>) {
    && (s.status.Connecting? ==> Held(s))
    && (forall i :: 0 <= i < |s.sockets| ==>
          s.sockets[i].closes + s.sockets[i].hands == if s.status.Connecting? && s.mine[s.ch.value] == i then 0 else 1)
  }

  /** The poller mirrors the kernel and holds only open descriptors; of the connector's channels exactly
      the current one is registered, for writing. */
  ghost predicate PollerOk<C>(s: State<C>) {
    && Mirror(s.poller) && s.poller.channelMap.Keys <= s.open
    && (forall c :: c in s.mine ==>
          && c in s.poller.chans && s.mine[c] < |s.sockets| && s.poller.chans[c].fd == s.sockets[s.mine[c]].fd
          && s.poller.chans[c].index == if Current(s, c) then Add else New)
    && (forall c :: c in s.mine && Current(s, c) ==> Writes(s.poller.chans[c].events))
  }

  function Backoff(k: nat): nat { if k == 0 then INITIAL_DELAY else Min(2 * Backoff(k - 1), MAX_DELAY) }

  ghost predicate DelaysOk<C>(s: State<C>) {
    && s.retryDelay == Backoff(|s.delays|)
    && forall k :: 0 <= k < |s.delays| ==> s.delays[k] == Backoff(k)
  }

  ghost predicate Inv<C>(s: State<C>) {
    !s.panicked && OneAttempt(s) && SocketsOk(s) && PollerOk(s) && DelaysOk(s)
  }

  // ---------------------------------------------------------------- every step keeps the invariant

  /** Closing a descriptor that no channel map holds leaves the poller as it is. */
  lemma CloseIs<C>(s: State<C>, i: nat)
    requires i < |s.sockets| && Mirror(s.poller) && s.sockets[i].fd !in s.poller.channelMap
    ensures Close(s, i) == s.(sockets := s.sockets[i := s.sockets[i].(closes := s.sockets[i].closes + 1)],
                              open := s.open - {s.sockets[i].fd})
  {
    CloseMirrorsIff(s.poller, s.sockets[i].fd);
  }

  /** An attempt that is not watched: all sockets but the i-th are done with, and no channel is registered. */
  ghost predicate Unwatched<C>(s: State<C>, i: nat) {
    && !s.panicked && i < |s.sockets| && Quiet(s.(status := Disconnected)) && DelaysOk(s)
    && (forall j :: 0 <= j < |s.sockets| ==> s.sockets[j].closes + s.sockets[j].hands == if j == i then 0 else 1)
    && s.sockets[i].fd !in s.poller.channelMap && PollerOk(s.(status := Disconnected))
  }

  lemma CloseKeepsInv<C>(s: State<C>, i: nat, status: Status)
    requires Unwatched(s, i) && !status.Connecting?
    ensures Inv(Close(s, i).(status := status))
  {
    hide Mirror;
    CloseIs(s, i);
  }

  lemma RetryKeepsInv<C>(s: State<C>, i: nat)
    requires Unwatched(s, i)
    ensures Inv(Retry(s, i)) && Retry(s, i).status.Disconnected?
  {
    hide Mirror;
    CloseKeepsInv(s, i, Disconnected);
    hide SocketsOk, PollerOk, Unwatched;
    var t := Close(s, i).(status := Disconnected);
    if s.connect { TimerQueued(t, Retry(s, i)); }
  }

  lemma TimerQueued<C>(s: State<C>, t: State<C>)
    requires Inv(s) && Quiet(s)
    requires t == s.(tt := t.tt, timers := t.timers, queue := s.queue + [AddTimer(s.timers)],
                     delays := s.delays + [s.retryDelay], retryDelay := Min(2 * s.retryDelay, MAX_DELAY))
    ensures Inv(t)
  {
    hide Mirror;
    assert forall j :: 0 <= j < |s.queue| ==> t.queue[j] == s.queue[j];
  }

  lemma HandedKeepsInv<C>(s: State<C>, i: nat)
    requires Unwatched(s, i)
    ensures Inv(s.(status := Connected, sockets := s.sockets[i := s.sockets[i].(hands := s.sockets[i].hands + 1)]))
  {
    hide Mirror;
  }

  /** A call on a channel of the connector: what it does to the poller, as far as others can tell. */
  lemma TellIs<C>(s: State<C>, call: Call<C>)
    requires Mirror(s.poller) && Poller.Callable(s.poller, call) && !s.panicked
    requires call.Change? && s.poller.chans[call.c].index.New? ==> s.poller.chans[call.c].fd !in s.poller.channelMap
    requires call.Remove? ==> !s.poller.chans[call.c].index.New?
    ensures var t, c := Tell(s, call), call.c;
            && t == s.(poller := t.poller) && Mirror(t.poller) && c in t.poller.chans
            && t.poller.chans == s.poller.chans[c := t.poller.chans[c]]
            && (call.Create? ==> t.poller.chans[c] == Chan(call.fd, EVENT_NONE, New) && t.poller.channelMap == s.poller.channelMap)
            && (!call.Create? ==> t.poller.chans[c].fd == s.poller.chans[c].fd)
            && (call.Change? ==> && t.poller.chans[c].events == Mask(call.op, s.poller.chans[c].events)
                                 && t.poller.chans[c].index == NextIndex(s.poller.chans[c].index, t.poller.chans[c].events)
                                 && t.poller.channelMap.Keys == s.poller.channelMap.Keys + {s.poller.chans[c].fd})
            && (call.Remove? ==> && t.poller.chans[c].index.New?
                                 && t.poller.channelMap.Keys == s.poller.channelMap.Keys - {s.poller.chans[c].fd})
  {
    CallMirrors(s.poller, call);
    hide Mirror;
    if !call.Create? { CallShape(s.poller, call); }
  }

  lemma WatchKeepsInv<C>(s: State<C>, fd: Fd, c: C)
    requires Inv(s) && Quiet(s) && fd !in s.open && c !in s.poller.chans
    ensures var t := Watch(Opened(s, fd), |s.sockets|, c);
            && !t.panicked && SocketsOk(t) && PollerOk(t) && DelaysOk(t) && t.status.Connecting? && t.ch == Some(c)
            && t.queue == s.queue && t.armed == s.armed && t.connect == s.connect && c in t.mine
            && t.sockets == s.sockets + [Socket(fd, 0, 0)]
  {
    hide Mirror, Tell;
    var i := |s.sockets|;
    var o := Opened(s, fd).(status := Connecting, ch := Some(c), mine := s.mine[c := i]);
    TellIs(o, Create(c, fd));
    var p := Tell(o, Create(c, fd));
    TellIs(p, Change(c, EnableWriting));
    MaskBits(EnableWriting, EVENT_NONE);
    var t := Tell(p, Change(c, EnableWriting));
    assert t == Watch(Opened(s, fd), i, c);
    assert forall j :: 0 <= j < i ==> t.sockets[j] == s.sockets[j];
  }

  lemma OpenedUnwatched<C>(s: State<C>, fd: Fd)
    requires Inv(s) && Quiet(s) && fd !in s.open
    ensures Unwatched(Opened(s, fd), |s.sockets|)
  {
    hide Mirror;
    var t := Opened(s, fd);
    assert forall j :: 0 <= j < |s.sockets| ==> t.sockets[j] == s.sockets[j];
  }

  /** Every answer keeps the invariant, a watched attempt provided that no clear is waiting. */
  lemma StartKeepsInv<C>(s: State<C>, fd: Fd, answer: Answer<C>)
    requires Inv(s) && Quiet(s) && Unused(s, fd, answer) && (answer.InProgress? ==> NoClear(s))
    ensures Inv(DoStart(s, fd, answer))
  {
    hide Mirror, SocketsOk, PollerOk, DelaysOk, Unwatched;
    if s.connect {
      match answer
      case InProgress(c) => WatchKeepsInv(s, fd, c);
      case Retryable =>
        OpenedUnwatched(s, fd);
        RetryKeepsInv(Opened(s, fd), |s.sockets|);
      case Fatal =>
        OpenedUnwatched(s, fd);
        CloseKeepsInv(Opened(s, fd), |s.sockets|, s.status);
    }
  }

  /** removeAndResetChannel of an attempt under way cannot panic; its socket is then open, unregistered and
      neither closed nor handed over. */
  lemma ReleaseIs<C>(s: State<C>)
    requires Inv(s) && s.status.Connecting?
    ensures Held(s) && Unwatched(Release(s), s.mine[s.ch.value])
    ensures Release(s) == s.(poller := Release(s).poller, queue := s.queue + [ClearCh])
    ensures s.sockets[s.mine[s.ch.value]].fd in s.open
  {
    hide Mirror, Tell;
    var c := s.ch.value;
    assert c in s.mine && Current(s, c);
    CurrentIsMapped(s, c);
    TellIs(s, Change(c, DisableAll));
    var t := Tell(s, Change(c, DisableAll));
    TellIs(t, Remove(c));
    var u := Tell(t, Remove(c));
    var r := Release(s);
    assert r == u.(queue := s.queue + [ClearCh]);
    assert forall j :: 0 <= j < |s.queue| ==> r.queue[j] == s.queue[j];
  }

  /** A registered channel of the connector has its descriptor in the channel map, for itself. */
  lemma CurrentIsMapped<C>(s: State<C>, c: C)
    requires PollerOk(s) && c in s.mine && Current(s, c)
    ensures var fd := s.poller.chans[c].fd;
            && fd in s.poller.channelMap && s.poller.channelMap[fd] == c && fd in s.open
            && fd in s.poller.kernel && s.poller.kernel[fd] == (s.poller.chans[c].events, c)
  {
    assert Mirrors(s.poller, c);
  }

  lemma HandleErrorKeepsInv<C>(s: State<C>)
    requires Inv(s)
    ensures Inv(HandleError(s)) && !HandleError(s).status.Connecting?
  {
    if s.status.Connecting? {
      ReleaseIs(s);
      hide Release, Inv, Unwatched;
      InvIsLive(s);
      UnwatchedIsLive(Release(s), s.mine[s.ch.value]);
      RetryKeepsInv(Release(s), s.mine[s.ch.value]);
    }
  }

  lemma InvIsLive<C>(s: State<C>)
    requires Inv(s)
    ensures !s.panicked
  {
  }

  lemma UnwatchedIsLive<C>(s: State<C>, i: nat)
    requires Unwatched(s, i)
    ensures !s.panicked && i < |s.sockets|
  {
  }

  lemma HandleWriteKeepsInv<C>(s: State<C>, sockoptFails: bool)
    requires Inv(s)
    ensures Inv(HandleWrite(s, sockoptFails)) && !HandleWrite(s, sockoptFails).status.Connecting?
  {
    if s.status.Connecting? {
      ReleaseIs(s);
      hide Release, Inv, Unwatched, Retry;
      var t, i := Release(s), s.mine[s.ch.value];
      UnwatchedIsLive(t, i);
      assert Close(t.(status := Connected), i) == Close(t, i).(status := Connected);
      hide Close;
      if sockoptFails { RetryKeepsInv(t, i); }
      else if t.connect { HandedKeepsInv(t, i); }
      else { CloseKeepsInv(t, i, Connected); }
    }
  }

  lemma EventKeepsInv<C>(s: State<C>, revents: Events, sockoptFails: bool)
    requires Inv(s)
    ensures Inv(HandleEvent(s, revents, sockoptFails))
  {
    hide Inv, HandleError, HandleWrite, Dispatch;
    HandleErrorKeepsInv(s);
    InvIsLive(s);
    InvIsLive(HandleError(s));
    HandleWriteKeepsInv(HandleError(s), sockoptFails);
    HandleWriteKeepsInv(s, sockoptFails);
  }

  /** Taking a closure off the queue; the one that begins an attempt leaves nothing behind it that could
      disturb the attempt. */
  lemma PopKeepsInv<C>(s: State<C>)
    requires Inv(s) && s.queue != []
    ensures var t := s.(queue := s.queue[1..]);
            && Inv(t)
            && (Begins(s.queue[0]) ==> Quiet(t) && NoClear(t))
            && (s.queue[0].ClearCh? ==> !s.status.Connecting?)
  {
    hide Mirror;
    var t := s.(queue := s.queue[1..]);
    assert forall j :: 0 <= j < |t.queue| ==> t.queue[j] == s.queue[j + 1];
  }

  lemma IdleChannel<C>(s: State<C>, ch: Option<C>)
    requires Inv(s) && !s.status.Connecting?
    ensures Inv(s.(ch := ch))
  {
    hide Mirror;
  }

  lemma SameWorld<C>(s: State<C>, t: State<C>)
    requires Inv(s) && t == s.(armed := t.armed) && (t.armed.Some? ==> s.armed.Some? || (Quiet(s) && NoClear(s)))
    ensures Inv(t)
  {
    hide Mirror;
  }

  lemma TaskKeepsInv<C>(s: State<C>, fd: Fd, answer: Answer<C>)
    requires Inv(s) && s.queue != [] && (s.queue[0].Start? ==> Unused(s, fd, answer))
    ensures Inv(RunTask(s, fd, answer))
  {
    var t := s.(queue := s.queue[1..]);
    PopKeepsInv(s);
    hide Inv, Quiet, NoClear;
    match s.queue[0]
    case Start => StartKeepsInv(t, fd, answer);
    case ClearCh => IdleChannel(t, None);
    case _ => SameWorld(t, RunTask(s, fd, answer));
  }

  lemma StartQueued<C>(s: State<C>)
    requires Inv(s) && Quiet(s)
    ensures Inv(s.(connect := true, queue := s.queue + [Start]))
  {
    hide Mirror;
    assert forall j :: 0 <= j < |s.queue| ==> (s.queue + [Start])[j] == s.queue[j];
  }

  lemma StopKeepsInv<C>(s: State<C>, id: nat)
    requires Inv(s)
    ensures Inv(s.(connect := false)) && Inv(s.(connect := false, queue := s.queue + [CancelTimer(id)]))
  {
    hide Mirror;
    assert forall j :: 0 <= j < |s.queue| ==> (s.queue + [CancelTimer(id)])[j] == s.queue[j];
  }

  lemma RestartedKeepsInv<C>(s: State<C>)
    requires Inv(s) && Quiet(s)
    ensures Inv(Restarted(s))
  {
    hide Mirror;
  }

  lemma OtherOpenKeepsInv<C>(s: State<C>, fd: Fd)
    requires Inv(s)
    ensures Inv(s.(open := s.open + {fd}))
  {
    hide Mirror;
  }

  lemma OtherCloseKeepsInv<C>(s: State<C>, fd: Fd)
    requires Inv(s) && fd !in s.poller.channelMap
    ensures Inv(s.(open := s.open - {fd}, poller := Closed(s.poller, fd)))
  {
    CloseMirrorsIff(s.poller, fd);
    hide Mirror, Closed;
  }

  /** What others do to the poller; they may ask to create a channel on any descriptor. */
  lemma OtherCallKeepsInv<C>(s: State<C>, call: Call<C>)
    requires Inv(s) && TheirCall(s, call)
    ensures Inv(Tell(s, call))
  {
    hide Tell;
    if call.Change? && !s.poller.chans[call.c].index.New? { assert Mirrors(s.poller, call.c); }
    hide Mirror, OneAttempt, SocketsOk, DelaysOk;
    TellIs(s, call);
    SamePoller(s, Tell(s, call), call.c);
  }

  /** Another's channel has changed, and perhaps its place in the channel map. */
  lemma SamePoller<C>(s: State<C>, t: State<C>, c: C)
    requires Inv(s) && t == s.(poller := t.poller) && Mirror(t.poller) && c !in s.mine && c in t.poller.chans
    requires t.poller.chans == s.poller.chans[c := t.poller.chans[c]] && t.poller.channelMap.Keys <= t.open
    ensures Inv(t)
  {
    hide Mirror;
  }

  lemma StepKeepsInv<C>(s: State<C>, a: Action<C>)
    requires Inv(s) && Enabled(s, a)
    ensures Inv(Do(s, a))
  {
    hide Inv, Tell, TheirCall, Reported, HandleEvent, DoStart, RunTask, Unused, Quiet;
    match a
    case UserStart => StartQueued(s);
    case UserStop => StopKeepsInv(s, if s.tt.Some? then s.tt.value else 0);
    case Restart(fd, answer) => RestartKeepsInv(s, fd, answer);
    case Task_(fd, answer) => TaskKeepsInv(s, fd, answer);
    case TimerFires(fd, answer) => TimerKeepsInv(s, fd, answer);
    case Event(_, revents, sockoptFails) => EventKeepsInv(s, revents, sockoptFails);
    case OtherOpen(fd) => OtherOpenKeepsInv(s, fd);
    case OtherClose(fd) => OtherCloseKeepsInv(s, fd);
    case OtherCall(call) => OtherCallKeepsInv(s, call);
  }

  lemma RestartKeepsInv<C>(s: State<C>, fd: Fd, answer: Answer<C>)
    requires Inv(s) && Quiet(s) && Unused(s, fd, answer) && (answer.InProgress? ==> NoClear(s))
    ensures Inv(DoRestart(s, fd, answer))
  {
    hide Inv, DoStart;
    RestartedKeepsInv(s);
    StartKeepsInv(Restarted(s), fd, answer);
  }

  lemma TimerKeepsInv<C>(s: State<C>, fd: Fd, answer: Answer<C>)
    requires Inv(s) && s.armed.Some? && Unused(s, fd, answer)
    ensures Inv(DoStart(s.(armed := None), fd, answer))
  {
    var t := s.(armed := None);
    SameWorld(s, t);
    hide SocketsOk, PollerOk, DelaysOk, DoStart;
    StartKeepsInv(t, fd, answer);
  }

  lemma {:induction false} RunKeepsInv<C>(run: seq<State<C>>, acts: seq<Action<C>>, i: nat)
    requires IsRun(run, acts) && i < |run|
    ensures Inv(run[i])
  {
    hide Do, Enabled;
    if i == 0 {
      assert Mirror(run[0].poller);
    } else {
      hide Inv;
      RunKeepsInv(run, acts, i - 1);
      StepKeepsInv(run[i - 1], acts[i - 1]);
    }
  }

  // ---------------------------------------------------------------- the theorems

  /** No assertion of the poller fails, no epoll_ctl is refused and no nil channel is used, whatever the
      kernel reports and whatever happens to the descriptors. */
  lemma {:induction false} NothingPanics<C>(run: seq<State<C>>, acts: seq<Action<C>>, i: nat)
    requires IsRun(run, acts) && i < |run|
    ensures !run[i].panicked && run[i].poller.ctlErrors == 0
  {
    RunKeepsInv(run, acts, i);
  }

  /** Every descriptor that connect0 opened is open, registered for writing and held by the current
      connecting channel, or was closed exactly once, or was handed over exactly once. */
  lemma {:induction false} FdsAreConserved<C>(run: seq<State<C>>, acts: seq<Action<C>>, i: nat, k: nat)
    requires IsRun(run, acts) && i < |run| && k < |run[i].sockets|
    ensures var s, x := run[i], run[i].sockets[k];
            if s.status.Connecting? && Held(s) && s.mine[s.ch.value] == k then
              && x.closes == 0 && x.hands == 0 && x.fd in s.open
              && x.fd in s.poller.channelMap && s.poller.channelMap[x.fd] == s.ch.value
              && x.fd in s.poller.kernel && s.poller.kernel[x.fd].1 == s.ch.value && Writes(s.poller.kernel[x.fd].0)
            else (x.closes == 1 && x.hands == 0) || (x.closes == 0 && x.hands == 1)
  {
    hide Do, Enabled;
    RunKeepsInv(run, acts, i);
    var s := run[i];
    if s.status.Connecting? && s.mine[s.ch.value] == k { CurrentIsMapped(s, s.ch.value); }
  }

  /** When a queued closure clears the channel no attempt is under way: it never clears a newer one. */
  lemma {:induction false} ClearNeverHitsNewer<C>(run: seq<State<C>>, acts: seq<Action<C>>, i: nat)
    requires IsRun(run, acts) && i < |run| && run[i].queue != [] && run[i].queue[0].ClearCh?
    ensures !run[i].status.Connecting?
  {
    hide Do, Enabled;
    RunKeepsInv(run, acts, i);
    PopKeepsInv(run[i]);
  }

  /** When a descriptor is handed over it is open and in no channel map, so its new owner can register it. */
  lemma {:induction false} HandOverIsUnmapped<C>(run: seq<State<C>>, acts: seq<Action<C>>, i: nat, k: nat)
    requires IsRun(run, acts) && i < |acts| && k < |run[i].sockets| && k < |run[i + 1].sockets|
    requires run[i + 1].sockets[k].hands > run[i].sockets[k].hands
    ensures run[i].sockets[k].fd in run[i + 1].open && run[i].sockets[k].fd !in run[i + 1].poller.channelMap
  {
    hide Inv, Do, Enabled;
    RunKeepsInv(run, acts, i);
    HandOverIs(run[i], acts[i], k);
  }

  lemma OnlyEventsHandOver<C>(s: State<C>, a: Action<C>, k: nat)
    requires Inv(s) && Enabled(s, a) && !a.Event? && k < |s.sockets|
    ensures k < |Do(s, a).sockets| && Do(s, a).sockets[k].hands == s.sockets[k].hands
  {
    hide Inv, Tell, TheirCall, Reported;
  }

  lemma HandOverIs<C>(s: State<C>, a: Action<C>, k: nat)
    requires Inv(s) && Enabled(s, a) && k < |s.sockets| && k < |Do(s, a).sockets|
    requires Do(s, a).sockets[k].hands > s.sockets[k].hands
    ensures s.sockets[k].fd in Do(s, a).open && s.sockets[k].fd !in Do(s, a).poller.channelMap
  {
    if !a.Event? { OnlyEventsHandOver(s, a, k); }
    hide Dispatch, Inv, Tell, Release, TheirCall, Reported, DoStart, RunTask;
    HandleErrorKeepsInv(s);
    if s.status.Connecting? {
      ReleaseIs(s);
      UnwatchedIsUnmapped(Release(s), s.mine[s.ch.value]);
    }
  }

  lemma UnwatchedIsUnmapped<C>(s: State<C>, i: nat)
    requires Unwatched(s, i)
    ensures i < |s.sockets| && s.sockets[i].fd !in s.poller.channelMap && s.sockets[i].fd !in s.poller.kernel && !s.panicked
  {
  }

  function Pow2(k: nat): nat { if k == 0 then 1 else 2 * Pow2(k - 1) }

  lemma {:induction false} BackoffDoubles(k: nat)
    ensures Backoff(k) == Min(INITIAL_DELAY * Pow2(k), MAX_DELAY)
  {
    if k > 0 { BackoffDoubles(k - 1); }
  }

  /** The k-th retry since the last reset waits for 500 milliseconds doubled k times, at most 30 seconds. */
  lemma {:induction false} RetryDelaysDouble<C>(run: seq<State<C>>, acts: seq<Action<C>>, i: nat, k: nat)
    requires IsRun(run, acts) && i < |run| && k < |run[i].delays|
    ensures run[i].delays[k] == Min(INITIAL_DELAY * Pow2(k), MAX_DELAY)
  {
    hide Do, Enabled;
    RunKeepsInv(run, acts, i);
    BackoffDoubles(k);
  }

  // ---------------------------------------------------------------- restarting too early

  /** A sequence of steps from any state. */
  predicate Legal<C(==)>(s: State<C>, acts: seq<Action<C>>)
    decreases |acts|
  {
    acts == [] || (Enabled(s, acts[0]) && Legal(Do(s, acts[0]), acts[1..]))
  }

  function After<C(==)>(s: State<C>, acts: seq<Action<C>>): State<C>
    requires Legal(s, acts)
    decreases |acts|
  {
    if acts == [] then s else After(Do(s, acts[0]), acts[1..])
  }

  ghost predicate NeverPanics<C(!new)>(s: State<C>) {
    !s.panicked && forall acts :: Legal(s, acts) ==> !After(s, acts).panicked
  }

  lemma {:induction false} SoundNeverPanics<C>(s: State<C>, acts: seq<Action<C>>)
    requires Inv(s) && Legal(s, acts)
    ensures !After(s, acts).panicked
    decreases |acts|
  {
    hide Inv, Do, Enabled;
    InvIsLive(s);
    if acts != [] {
      StepKeepsInv(s, acts[0]);
      SoundNeverPanics(Do(s, acts[0]), acts[1..]);
    }
  }

  /** An attempt is watched while a clear waits, behind closures that do nothing to it. */
  ghost predicate Doomed<C>(s: State<C>, c: C) {
    && !s.panicked && s.status.Connecting? && s.armed.None?
    && (forall i :: 0 <= i < |s.queue| ==> !Begins(s.queue[i]))
    && Reported(s, c, EVENT_WRITE)
  }

  lemma EventWriteDispatches()
    ensures Dispatch(EVENT_WRITE) == [OnWrite]
  {
    assert EVENT_WRITE & (POLLERR | POLLNVAL) == 0 && EVENT_WRITE & POLLHUP == 0;
    assert !Reads(EVENT_WRITE) && Writes(EVENT_WRITE);
  }

  lemma LegalStep<C>(s: State<C>, a: Action<C>, rest: seq<Action<C>>)
    requires Enabled(s, a) && Legal(Do(s, a), rest)
    ensures Legal(s, [a] + rest) && After(s, [a] + rest) == After(Do(s, a), rest)
  {
    hide Enabled, Do;
    assert ([a] + rest)[0] == a && ([a] + rest)[1..] == rest;
  }

  lemma ReportOfClearedPanics<C>(s: State<C>, c: C)
    requires !s.panicked && s.status.Connecting? && s.ch.None? && Reported(s, c, EVENT_WRITE)
    ensures Enabled(s, Event(c, EVENT_WRITE, false)) && Do(s, Event(c, EVENT_WRITE, false)).panicked
  {
    EventWriteDispatches();
    hide Dispatch, Reported;
  }

  /** The queue runs up to the first clear, which takes the channel away; then the kernel reports it. */
  lemma {:induction false} DoomedPanics<C>(s: State<C>, c: C) returns (acts: seq<Action<C>>)
    requires Doomed(s, c) && !NoClear(s)
    ensures Legal(s, acts) && After(s, acts).panicked
    decreases |s.queue|
  {
    var a := Task_(0, Fatal);
    var t := Do(s, a);
    assert forall j :: 0 <= j < |t.queue| ==> t.queue[j] == s.queue[j + 1];
    if s.queue[0].ClearCh? {
      var e := Event(c, EVENT_WRITE, false);
      ReportOfClearedPanics(t, c);
      LegalStep(t, e, []);
      LegalStep(s, a, [e] + []);
      acts := [a] + ([e] + []);
    } else {
      var k :| 0 <= k < |s.queue| && s.queue[k].ClearCh?;
      assert t.queue[k - 1].ClearCh?;
      var rest := DoomedPanics(t, c);
      LegalStep(s, a, rest);
      acts := [a] + rest;
    }
  }

  lemma WatchedIsDoomed<C>(s: State<C>, fd: Fd, c: C)
    requires Inv(s) && Quiet(s) && fd !in s.open && c !in s.poller.chans && s.connect
    ensures var t := DoStart(s, fd, InProgress(c));
            Doomed(t, c) && t.queue == s.queue && t.connect && t.sockets == s.sockets + [Socket(fd, 0, 0)]
  {
    hide Mirror, Watch;
    WatchKeepsInv(s, fd, c);
    var t := Watch(Opened(s, fd), |s.sockets|, c);
    CurrentIsMapped(t, c);
    WriteIsReportable(t.poller.chans[c].events);
  }

  lemma WriteIsReportable(e: Events)
    requires Writes(e)
    ensures Reportable(e, EVENT_WRITE)
  {
  }

  /** Exactly when a restart is safe, for every sound state without an attempt and every answer: no sequence
      of steps after it panics iff no clear is waiting, or the attempt is not watched anyway. */
  lemma RestartIsSafeIff<C(!new)>(s: State<C>, fd: Fd, answer: Answer<C>)
    requires Inv(s) && Quiet(s) && Unused(s, fd, answer)
    ensures NeverPanics(DoRestart(s, fd, answer)) <==> NoClear(s) || !answer.InProgress?
  {
    var t := DoRestart(s, fd, answer);
    if NoClear(s) || !answer.InProgress? {
      RestartKeepsInv(s, fd, answer);
      hide Inv, DoRestart;
      InvIsLive(t);
      forall acts | Legal(t, acts) ensures !After(t, acts).panicked { SoundNeverPanics(t, acts); }
    } else {
      RestartedKeepsInv(s);
      hide Inv, DoStart;
      WatchedIsDoomed(Restarted(s), fd, answer.ch);
      var acts := DoomedPanics(t, answer.ch);
    }
  }

  /** Such a state is reached: a restart from inside the hand-over finds the clear waiting. */
  lemma HandOverLeavesClear<C>(s0: State<C>, fd: Fd, c: C) returns (run: seq<State<C>>, acts: seq<Action<C>>)
    requires Init(s0) && fd !in s0.open
    ensures IsRun(run, acts) && run[0] == s0 && |acts| == 3
    ensures var s := run[3]; Quiet(s) && !NoClear(s) && s.status.Connected? && |s.sockets| == 1 && s.sockets[0].hands == 1
  {
    hide Inv, Do, Enabled, Doomed, Quiet;
    acts := [UserStart, Task_(fd, InProgress(c)), Event(c, EVENT_WRITE, false)];
    var s1 := Started(s0);
    var s2 := FirstAttempt(s1, fd, c);
    var s3 := HandOver(s2, c);
    run := [s0, s1, s2, s3];
    assert !NoClear(s3) by { assert s3.queue[0].ClearCh?; }
  }

  lemma Started<C>(s: State<C>) returns (t: State<C>)
    requires Init(s)
    ensures Enabled(s, UserStart) && t == Do(s, UserStart) && Inv(t) && t.connect && t.queue == [Start]
    ensures t.sockets == [] && t.open == s.open && t.poller == s.poller
  {
    RunKeepsInv([s], [], 0);
    hide Inv;
    StartQueued(s);
    t := Do(s, UserStart);
  }

  lemma FirstAttempt<C>(s: State<C>, fd: Fd, c: C) returns (t: State<C>)
    requires Inv(s) && s.queue == [Start] && s.connect && s.sockets == [] && fd !in s.open && c !in s.poller.chans
    ensures Enabled(s, Task_(fd, InProgress(c))) && t == Do(s, Task_(fd, InProgress(c)))
    ensures Inv(t) && Doomed(t, c) && t.queue == [] && t.connect && t.sockets == [Socket(fd, 0, 0)]
  {
    InvIsLive(s);
    PopKeepsInv(s);
    hide Inv, DoStart, Doomed, Quiet;
    TaskKeepsInv(s, fd, InProgress(c));
    WatchedIsDoomed(s.(queue := s.queue[1..]), fd, c);
    t := Do(s, Task_(fd, InProgress(c)));
  }

  lemma HandOver<C>(s: State<C>, c: C) returns (t: State<C>)
    requires Inv(s) && Doomed(s, c) && s.queue == [] && s.connect && |s.sockets| == 1 && s.sockets[0] == Socket(s.sockets[0].fd, 0, 0)
    ensures Enabled(s, Event(c, EVENT_WRITE, false)) && t == Do(s, Event(c, EVENT_WRITE, false))
    ensures Quiet(t) && t.queue == [ClearCh] && t.status.Connected? && |t.sockets| == 1 && t.sockets[0].hands == 1
  {
    EventWriteDispatches();
    ReleaseIs(s);
    hide Dispatch, Release, Unwatched;
    UnwatchedIsLive(Release(s), s.mine[s.ch.value]);
    t := Do(s, Event(c, EVENT_WRITE, false));
  }

  // ---------------------------------------------------------------- what becomes of an attempt

  /** A retry timer was queued and remembered, or nothing changed about timers. */
  predicate TimerQueuedIff<C(==)>(s: State<C>, t: State<C>, queued: bool) {
    if queued
    then t.tt == Some(s.timers) && t.timers == s.timers + 1 && t.delays == s.delays + [s.retryDelay]
    else t.tt == s.tt && t.timers == s.timers && t.delays == s.delays && t.retryDelay == s.retryDelay
  }

  /** The i-th socket was closed and handed over so many times more, and no other socket was touched. */
  predicate SocketMoved<C(==)>(s: State<C>, t: State<C>, i: nat, closes: nat, hands: nat)
    requires i < |s.sockets|
  {
    && |t.sockets| == |s.sockets| && (forall j :: 0 <= j < |s.sockets| && j != i ==> t.sockets[j] == s.sockets[j])
    && t.sockets[i] == Socket(s.sockets[i].fd, s.sockets[i].closes + closes, s.sockets[i].hands + hands)
    && t.open == if closes > 0 then s.open - {s.sockets[i].fd} else s.open
  }

  lemma RetryDecides<C>(s: State<C>, i: nat)
    requires i < |s.sockets|
    ensures var t := Retry(s, i);
            && SocketMoved(s, t, i, 1, 0) && t.status.Disconnected? && TimerQueuedIff(s, t, s.connect)
            && t.queue == s.queue + (if s.connect then [AddTimer(s.timers)] else [])
            && t.connect == s.connect && t.armed == s.armed && t.ch == s.ch
  {
  }

  lemma ErrorDecides<C>(s: State<C>)
    requires Inv(s) && s.status.Connecting?
    ensures Held(s)
    ensures var t := HandleError(s);
            && SocketMoved(s, t, s.mine[s.ch.value], 1, 0) && t.status.Disconnected? && TimerQueuedIff(s, t, s.connect)
            && t.queue == s.queue + [ClearCh] + (if s.connect then [AddTimer(s.timers)] else [])
            && t.connect == s.connect && t.armed == s.armed && !t.panicked
  {
    ReleaseIs(s);
    hide Release, Inv, Unwatched, Retry;
    UnwatchedIsLive(Release(s), s.mine[s.ch.value]);
    RetryDecides(Release(s), s.mine[s.ch.value]);
    RetryIsLive(Release(s), s.mine[s.ch.value]);
  }

  lemma WriteDecides<C>(s: State<C>, sockoptFails: bool)
    requires Inv(s) && s.status.Connecting?
    ensures Held(s)
    ensures var t := HandleWrite(s, sockoptFails);
            && SocketMoved(s, t, s.mine[s.ch.value], if sockoptFails || !s.connect then 1 else 0,
                           if !sockoptFails && s.connect then 1 else 0)
            && t.status == (if sockoptFails then Disconnected else Connected) && TimerQueuedIff(s, t, sockoptFails && s.connect)
            && t.queue == s.queue + [ClearCh] + (if sockoptFails && s.connect then [AddTimer(s.timers)] else [])
            && t.connect == s.connect && t.armed == s.armed
  {
    ReleaseIs(s);
    hide Release, Inv, Unwatched, Retry;
    UnwatchedIsLive(Release(s), s.mine[s.ch.value]);
    RetryDecides(Release(s), s.mine[s.ch.value]);
  }

  /** What one report makes of the attempt under way, bit by bit. With POLLERR or POLLNVAL it has failed,
      whatever else is reported: the descriptor is closed, never handed over. Otherwise POLLOUT decides it by
      SO_ERROR and by whether the connector is still wanted. A failed attempt is retried by exactly one timer
      iff the connector is wanted. */
  lemma EventDecides<C>(s: State<C>, revents: Events, sockoptFails: bool)
    requires Inv(s) && s.status.Connecting?
    ensures Held(s)
    ensures var t, i := HandleEvent(s, revents, sockoptFails), s.mine[s.ch.value];
            var failed, writable := revents & 0x28 != 0, revents & 0x4 != 0;
            var retried := s.connect && (failed || (writable && sockoptFails));
            && SocketMoved(s, t, i, if failed || (writable && (sockoptFails || !s.connect)) then 1 else 0,
                           if !failed && writable && !sockoptFails && s.connect then 1 else 0)
            && t.status == (if failed || (writable && sockoptFails) then Disconnected else if writable then Connected else Connecting)
            && t.queue == s.queue + (if failed || writable then [ClearCh] else []) + (if retried then [AddTimer(s.timers)] else [])
            && TimerQueuedIff(s, t, retried) && t.connect == s.connect && t.armed == s.armed
  {
    DispatchMeans(revents);
    ErrorDecides(s);
    WriteDecides(s, sockoptFails);
    InvIsLive(s);
    hide Dispatch, Inv, HandleError, SocketMoved, TimerQueuedIff;
    NothingMoved(s);
    var t := HandleError(s);
    if OnError in Dispatch(revents) { assert HandleWrite(t, sockoptFails) == t; }
    hide HandleWrite;
  }

  lemma NothingMoved<C>(s: State<C>)
    requires Inv(s) && s.status.Connecting?
    ensures Held(s) && SocketMoved(s, s, s.mine[s.ch.value], 0, 0) && TimerQueuedIff(s, s, false)
  {
  }

  /** What start makes of the answer of connect: a watched attempt, one retry timer, or nothing more; and
      nothing at all when the connector is not wanted. */
  lemma StartDecides<C>(s: State<C>, fd: Fd, answer: Answer<C>)
    requires Inv(s) && Quiet(s) && Unused(s, fd, answer)
    ensures var t, i := DoStart(s, fd, answer), |s.sockets|;
            if !s.connect then t == s
            else
              && |t.sockets| == i + 1 && t.sockets[..i] == s.sockets && t.connect && t.armed == s.armed
              && t.sockets[i] == Socket(fd, if answer.InProgress? then 0 else 1, 0)
              && (answer.InProgress? ==> t.status.Connecting? && t.ch == Some(answer.ch) && fd in t.open
                                         && fd in t.poller.kernel && t.poller.kernel[fd].1 == answer.ch)
              && (!answer.InProgress? ==> !t.status.Connecting? && fd !in t.open)
              && t.queue == s.queue + (if answer.Retryable? then [AddTimer(s.timers)] else [])
              && TimerQueuedIff(s, t, answer.Retryable?)
  {
    if s.connect {
      var i, o := |s.sockets|, Opened(s, fd);
      match answer
      case InProgress(c) => WatchDecides(s, fd, c);
      case Retryable =>
        hide Retry, Inv;
        RetryDecides(o, i);
        assert DoStart(s, fd, answer).sockets[..i] == s.sockets;
      case Fatal =>
        hide Inv;
        assert DoStart(s, fd, answer).sockets[..i] == s.sockets;
    }
  }

  lemma WatchDecides<C>(s: State<C>, fd: Fd, c: C)
    requires Inv(s) && Quiet(s) && fd !in s.open && c !in s.poller.chans
    ensures var t := Watch(Opened(s, fd), |s.sockets|, c);
            && t.status.Connecting? && t.ch == Some(c) && t.sockets == s.sockets + [Socket(fd, 0, 0)]
            && t.connect == s.connect && t.armed == s.armed && t.queue == s.queue && TimerQueuedIff(s, t, false)
            && fd in t.open && fd in t.poller.kernel && t.poller.kernel[fd].1 == c
  {
    WatchKeepsInv(s, fd, c);
    var t := Watch(Opened(s, fd), |s.sockets|, c);
    CurrentIsMapped(t, c);
    assert t.poller.chans[c].fd == t.sockets[t.mine[c]].fd;
    assert t.mine[c] == |s.sockets|;
    hide Tell, Mirror, PollerOk, Inv;
  }

  // ---------------------------------------------------------------- stopping

  /** A step opens at most one socket, and none while the connector is not wanted. */
  lemma StepOpens<C>(s: State<C>, a: Action<C>)
    requires Inv(s) && Enabled(s, a)
    ensures |s.sockets| <= |Do(s, a).sockets| <= |s.sockets| + 1
    ensures !s.connect && !Do(s, a).connect ==> |Do(s, a).sockets| == |s.sockets|
  {
    match a
    case Event(_, revents, sockoptFails) =>
      if s.status.Connecting? {
        EventDecides(s, revents, sockoptFails);
      } else {
        hide Dispatch;
      }
    case Restart(fd, answer) =>
      RestartedKeepsInv(s);
      StartDecides(Restarted(s), fd, answer);
    case Task_(fd, answer) =>
      PopKeepsInv(s);
      if s.queue[0].Start? { StartDecides(s.(queue := s.queue[1..]), fd, answer); }
    case TimerFires(fd, answer) =>
      SameWorld(s, s.(armed := None));
      StartDecides(s.(armed := None), fd, answer);
    case OtherCall(_) => hide Tell;
    case _ =>
  }

  /** While the connector is not wanted no socket is opened. */
  lemma {:induction false} StoppedOpensNothing<C>(run: seq<State<C>>, acts: seq<Action<C>>, i: nat, j: nat)
    requires IsRun(run, acts) && i <= j < |run| && forall k :: i <= k <= j ==> !run[k].connect
    ensures |run[j].sockets| == |run[i].sockets|
    decreases j - i
  {
    hide Inv, Do, Enabled;
    if i < j {
      StoppedOpensNothing(run, acts, i, j - 1);
      RunKeepsInv(run, acts, j - 1);
      StepOpens(run[j - 1], acts[j - 1]);
    }
  }

  /** The retry timer that waits is the last one created; a connector that is not wanted has its cancelling
      queued behind it. */
  ghost predicate TimerInv<C>(s: State<C>) {
    && (s.armed.Some? ==> s.tt == s.armed)
    && (forall k :: 0 <= k < |s.queue| && s.queue[k].AddTimer? ==> s.tt == Some(s.queue[k].id))
    && (!s.connect && s.armed.Some? ==> CancelTimer(s.armed.value) in s.queue)
    && (!s.connect ==> forall k :: 0 <= k < |s.queue| && s.queue[k].AddTimer? ==> CancelTimer(s.queue[k].id) in s.queue[k..])
  }

  lemma StopKeepsTimers<C>(s: State<C>)
    requires TimerInv(s)
    ensures TimerInv(s.(connect := false, queue := if s.tt.Some? then s.queue + [CancelTimer(s.tt.value)] else s.queue))
  {
    if s.tt.Some? {
      var q := s.queue + [CancelTimer(s.tt.value)];
      forall k | 0 <= k < |q| && q[k].AddTimer? ensures CancelTimer(q[k].id) in q[k..] {
        assert q[k] == s.queue[k];
        assert q[k..][|q| - 1 - k] == CancelTimer(s.tt.value);
      }
    }
  }

  /** A closure is taken off the queue; it arms or disarms the timer. */
  lemma PopKeepsTimers<C>(s: State<C>, t: State<C>)
    requires TimerInv(s) && s.queue != [] && t == s.(queue := s.queue[1..], armed := t.armed, ch := t.ch)
    requires t.armed == match s.queue[0]
                        case AddTimer(id) => Some(id)
                        case CancelTimer(id) => if s.armed == Some(id) then None else s.armed
                        case _ => s.armed
    ensures TimerInv(t)
  {
    var q := s.queue;
    assert forall k :: 0 <= k < |t.queue| ==> t.queue[k] == q[k + 1];
    if !s.connect {
      if t.armed.Some? {
        assert q[0..] == q;
        TaskInTail(q, CancelTimer(t.armed.value));
      }
      forall k | 0 <= k < |t.queue| && t.queue[k].AddTimer? ensures CancelTimer(t.queue[k].id) in t.queue[k..] {
        assert t.queue[k..] == q[k + 1..];
      }
    }
  }

  lemma TaskInTail(q: seq<Task>, t: Task)
    requires t in q && q[0] != t
    ensures t in q[1..]
  {
    assert q == [q[0]] + q[1..];
  }

  /** The queue has grown by closures that are not about timers, or by the timer of a first retry. */
  lemma GrownKeepsTimers<C>(s: State<C>, t: State<C>, added: seq<Task>, queued: bool)
    requires TimerInv(s) && t.queue == s.queue + added + (if queued then [AddTimer(s.timers)] else [])
    requires forall k :: 0 <= k < |added| ==> !added[k].AddTimer?
    requires (t.connect == s.connect || t.connect) && (queued ==> t.connect) && (t.armed == s.armed || t.armed.None?)
    requires queued ==> t.armed.None? && t.tt == Some(s.timers) && forall k :: 0 <= k < |s.queue| ==> !s.queue[k].AddTimer?
    requires !queued ==> t.tt == s.tt
    ensures TimerInv(t)
  {
    var q, n := t.queue, |s.queue| + |added|;
    assert forall k :: 0 <= k < |s.queue| ==> q[k] == s.queue[k];
    forall k | |s.queue| <= k < n ensures !q[k].AddTimer? { assert q[k] == added[k - |s.queue|]; }
    if !t.connect { StoppedGrows(s, t, added); }
  }

  lemma StoppedGrows<C>(s: State<C>, t: State<C>, added: seq<Task>)
    requires TimerInv(s) && !s.connect && t.queue == s.queue + added && (t.armed == s.armed || t.armed.None?)
    requires forall k :: 0 <= k < |added| ==> !added[k].AddTimer?
    ensures t.armed.Some? ==> CancelTimer(t.armed.value) in t.queue
    ensures forall k :: 0 <= k < |t.queue| && t.queue[k].AddTimer? ==> CancelTimer(t.queue[k].id) in t.queue[k..]
  {
    var q := t.queue;
    forall k | 0 <= k < |q| && q[k].AddTimer? ensures CancelTimer(q[k].id) in q[k..] {
      assert k < |s.queue| && q[k] == s.queue[k] && q[k..] == s.queue[k..] + added;
    }
  }

  lemma StartKeepsTimers<C>(s: State<C>, fd: Fd, answer: Answer<C>)
    requires Inv(s) && TimerInv(s) && Quiet(s) && Unused(s, fd, answer)
    ensures TimerInv(DoStart(s, fd, answer))
  {
    StartDecides(s, fd, answer);
    hide Inv, TimerInv, DoStart;
    if s.connect { GrownKeepsTimers(s, DoStart(s, fd, answer), [], answer.Retryable?); }
  }

  lemma EventKeepsTimers<C>(s: State<C>, revents: Events, sockoptFails: bool)
    requires Inv(s) && TimerInv(s)
    ensures TimerInv(HandleEvent(s, revents, sockoptFails))
  {
    if s.status.Connecting? {
      EventDecides(s, revents, sockoptFails);
      assert s.armed.None? && forall k :: 0 <= k < |s.queue| ==> !s.queue[k].AddTimer?;
      var failed, writable := revents & 0x28 != 0, revents & 0x4 != 0;
      hide Inv, TimerInv, HandleEvent;
      GrownKeepsTimers(s, HandleEvent(s, revents, sockoptFails), if failed || writable then [ClearCh] else [],
                       s.connect && (failed || (writable && sockoptFails)));
    } else {
      hide Dispatch, Inv, TimerInv;
    }
  }

  lemma TaskKeepsTimers<C>(s: State<C>, fd: Fd, answer: Answer<C>)
    requires Inv(s) && TimerInv(s) && s.queue != [] && (s.queue[0].Start? ==> Unused(s, fd, answer))
    ensures TimerInv(RunTask(s, fd, answer))
  {
    var t := s.(queue := s.queue[1..]);
    PopKeepsInv(s);
    hide Inv, TimerInv, DoStart, Quiet, NoClear;
    match s.queue[0]
    case Start =>
      PopKeepsTimers(s, t);
      StartKeepsTimers(t, fd, answer);
    case _ => PopKeepsTimers(s, RunTask(s, fd, answer));
  }

  lemma StepKeepsTimers<C>(s: State<C>, a: Action<C>)
    requires Inv(s) && TimerInv(s) && Enabled(s, a)
    ensures TimerInv(Do(s, a))
  {
    match a
    case UserStop => StopKeepsTimers(s);
    case UserStart => GrownKeepsTimers(s, Do(s, a), [Start], false);
    case Restart(fd, answer) =>
      RestartedKeepsInv(s);
      GrownKeepsTimers(s, Restarted(s), [], false);
      StartKeepsTimers(Restarted(s), fd, answer);
    case Task_(fd, answer) => TaskKeepsTimers(s, fd, answer);
    case TimerFires(fd, answer) =>
      SameWorld(s, s.(armed := None));
      GrownKeepsTimers(s, s.(armed := None), [], false);
      StartKeepsTimers(s.(armed := None), fd, answer);
    case Event(_, revents, sockoptFails) => EventKeepsTimers(s, revents, sockoptFails);
    case OtherCall(call) =>
      hide Tell;
      GrownKeepsTimers(s, Tell(s, call), [], false);
    case _ => GrownKeepsTimers(s, Do(s, a), [], false);
  }

  lemma {:induction false} RunKeepsTimers<C>(run: seq<State<C>>, acts: seq<Action<C>>, i: nat)
    requires IsRun(run, acts) && i < |run|
    ensures TimerInv(run[i])
  {
    hide Inv, Do, Enabled;
    if i > 0 {
      hide TimerInv;
      RunKeepsTimers(run, acts, i - 1);
      RunKeepsInv(run, acts, i - 1);
      StepKeepsTimers(run[i - 1], acts[i - 1]);
    }
  }

  /** Stop is effective: once the cancelling it queued has run, a connector that is not wanted has no retry
      timer, neither armed nor on its way. */
  lemma {:induction false} StoppedHasNoTimer<C>(run: seq<State<C>>, acts: seq<Action<C>>, i: nat)
    requires IsRun(run, acts) && i < |run| && !run[i].connect && forall k :: 0 <= k < |run[i].queue| ==> !run[i].queue[k].CancelTimer?
    ensures run[i].armed.None? && forall k :: 0 <= k < |run[i].queue| ==> !run[i].queue[k].AddTimer?
  {
    hide Do, Enabled;
    RunKeepsTimers(run, acts, i);
    var s := run[i];
    forall k | 0 <= k < |s.queue| ensures !s.queue[k].AddTimer? {
      assert forall t :: t in s.queue[k..] ==> t in s.queue;
    }
  }

  // ---------------------------------------------------------------- retrying

  /** The timers whose cancelling is queued were created. */
  predicate IdsOk<C>(s: State<C>) {
    && (s.tt.Some? ==> s.tt.value < s.timers)
    && forall k :: 0 <= k < |s.queue| && s.queue[k].CancelTimer? ==> s.queue[k].id < s.timers
  }

  /** The retry is waiting in the task queue or in the timer queue, and nothing on its way cancels it. */
  predicate RetryWaits<C>(s: State<C>, id: nat) {
    s.connect && (AddTimer(id) in s.queue || s.armed == Some(id)) && CancelTimer(id) !in s.queue
  }

  /** How a step other than a stop or a closure changes what concerns timers. */
  ghost predicate Grown<C>(s: State<C>, t: State<C>, added: seq<Task>, queued: bool) {
    && t.queue == s.queue + added + (if queued then [AddTimer(s.timers)] else [])
    && (forall k :: 0 <= k < |added| ==> added[k].ClearCh? || added[k].Start?)
    && (queued ==> t.connect && t.tt == Some(s.timers) && t.timers == s.timers + 1)
    && (!queued ==> t.tt == s.tt && t.timers == s.timers)
    && (s.connect ==> t.connect)
  }

  lemma StartGrows<C>(s: State<C>, fd: Fd, answer: Answer<C>)
    requires Inv(s) && Quiet(s) && Unused(s, fd, answer)
    ensures Grown(s, DoStart(s, fd, answer), [], s.connect && answer.Retryable?)
  {
    StartDecides(s, fd, answer);
    hide Inv, DoStart;
    assert s.queue + [] == s.queue;
  }

  lemma EventGrows<C>(s: State<C>, revents: Events, sockoptFails: bool) returns (added: seq<Task>, queued: bool)
    requires Inv(s)
    ensures Grown(s, HandleEvent(s, revents, sockoptFails), added, queued)
    ensures !s.status.Connecting? ==> HandleEvent(s, revents, sockoptFails) == s
  {
    if s.status.Connecting? {
      EventDecides(s, revents, sockoptFails);
      hide Inv, HandleEvent;
      var failed, writable := revents & 0x28 != 0, revents & 0x4 != 0;
      added, queued := if failed || writable then [ClearCh] else [], s.connect && (failed || (writable && sockoptFails));
    } else {
      hide Dispatch;
      added, queued := [], false;
      assert s.queue + [] + [] == s.queue;
    }
  }

  lemma GrownKeepsIds<C>(s: State<C>, t: State<C>, added: seq<Task>, queued: bool)
    requires IdsOk(s) && Grown(s, t, added, queued)
    ensures IdsOk(t) && (queued ==> RetryWaits(t, s.timers))
  {
    var q, n := t.queue, |s.queue| + |added|;
    assert forall k :: 0 <= k < |s.queue| ==> q[k] == s.queue[k];
    forall k | |s.queue| <= k < n ensures !q[k].CancelTimer? { assert q[k] == added[k - |s.queue|]; }
    if queued { assert q[n] == AddTimer(s.timers); }
  }

  /** What a step does to the timers: it takes a closure that is not Start, it stops, or it grows. */
  lemma StepKeepsIds<C>(s: State<C>, a: Action<C>)
    requires Inv(s) && IdsOk(s) && Enabled(s, a)
    ensures IdsOk(Do(s, a)) && (Do(s, a).timers != s.timers ==> RetryWaits(Do(s, a), s.timers))
  {
    match a
    case UserStop =>
      assert forall k :: 0 <= k < |s.queue| ==> Do(s, a).queue[k] == s.queue[k];
    case UserStart => GrownKeepsIds(s, Do(s, a), [Start], false);
    case Restart(fd, answer) =>
      RestartedKeepsInv(s);
      StartGrows(Restarted(s), fd, answer);
      GrownKeepsIds(Restarted(s), Do(s, a), [], answer.Retryable?);
    case Task_(fd, answer) =>
      var p := s.(queue := s.queue[1..]);
      PopKeepsInv(s);
      assert forall k :: 0 <= k < |p.queue| ==> p.queue[k] == s.queue[k + 1];
      if s.queue[0].Start? {
        StartGrows(p, fd, answer);
        GrownKeepsIds(p, Do(s, a), [], p.connect && answer.Retryable?);
      }
    case TimerFires(fd, answer) =>
      SameWorld(s, s.(armed := None));
      StartGrows(s.(armed := None), fd, answer);
      GrownKeepsIds(s.(armed := None), Do(s, a), [], s.connect && answer.Retryable?);
    case Event(_, revents, sockoptFails) =>
      var added, queued := EventGrows(s, revents, sockoptFails);
      GrownKeepsIds(s, Do(s, a), added, queued);
    case OtherCall(call) => hide Tell;
    case _ =>
  }

  lemma {:induction false} RunKeepsIds<C>(run: seq<State<C>>, acts: seq<Action<C>>, i: nat)
    requires IsRun(run, acts) && i < |run|
    ensures IdsOk(run[i])
  {
    hide Inv, Do, Enabled;
    if i > 0 {
      hide IdsOk;
      RunKeepsIds(run, acts, i - 1);
      RunKeepsInv(run, acts, i - 1);
      StepKeepsIds(run[i - 1], acts[i - 1]);
    }
  }

  /** A waiting retry keeps waiting until it fires or the connector is stopped. */
  lemma RetryKeepsWaiting<C>(s: State<C>, a: Action<C>, id: nat)
    requires Inv(s) && RetryWaits(s, id) && Enabled(s, a) && !a.UserStop? && !a.TimerFires?
    ensures RetryWaits(Do(s, a), id)
  {
    if AddTimer(id) in s.queue {
      var k :| 0 <= k < |s.queue| && s.queue[k] == AddTimer(id);
      assert Begins(s.queue[k]);
    }
    match a
    case Event(_, revents, sockoptFails) =>
      var _, _ := EventGrows(s, revents, sockoptFails);
    case Task_(fd, answer) =>
      assert s.queue == [s.queue[0]] + s.queue[1..];
      assert !s.queue[0].Start?;
    case OtherCall(call) => hide Tell;
    case _ =>
  }

  /** A retry is never lost: whenever a step has scheduled one, its timer waits in the task queue or in the
      timer queue until it fires or the connector is stopped. */
  lemma {:induction false} RetryNeverLost<C>(run: seq<State<C>>, acts: seq<Action<C>>, i: nat, j: nat)
    requires IsRun(run, acts) && i < j < |run| && run[i + 1].timers != run[i].timers
    requires forall k :: i < k < j ==> !acts[k].UserStop? && !acts[k].TimerFires?
    ensures RetryWaits(run[j], run[i].timers)
    decreases j - i
  {
    hide Inv, Do, Enabled, RetryWaits;
    RunKeepsInv(run, acts, j - 1);
    if j == i + 1 {
      RunKeepsIds(run, acts, i);
      StepKeepsIds(run[i], acts[i]);
    } else {
      RetryNeverLost(run, acts, i, j - 1);
      RetryKeepsWaiting(run[j - 1], acts[j - 1], run[i].timers);
    }
  }

  // ---------------------------------------------------------------- the code

  /** The connector on a loop's poller and its channel objects. The sockets, their channels and the delays
      are history; `open` is the process's descriptor table. */
  class TcpConnector {
    const epoll: Epoll
    var status: Status
    var connect: bool
    var ch: Channel?
    var retryDelay: nat
    var tt: Option<nat>
    var timers: nat
    var queue: seq<Task>
    var armed: Option<nat>
    var open: set<Fd>
    var panicked: bool
    ghost var sockets: seq<Socket>
    ghost var mine: map<Channel, nat>
    ghost var delays: seq<nat>

    /** The connector's channel is one of the loop's, and one that it made for a socket. */
    ghost predicate Valid()
      reads this, epoll
    {
      ch != null ==> ch in epoll.chans && ch in mine && mine[ch] < |sockets| && ch.fd == sockets[mine[ch]].fd
    }

    ghost function Abs(): State<Channel>
      reads this, epoll, epoll.chans
    {
      State.State(status, connect, if ch == null then None else Some(ch), retryDelay, tt, timers, queue, armed,
                  sockets, mine, delays, epoll.Abs(), open, panicked)
    }

    constructor (epoll: Epoll, open: set<Fd>)
      ensures Valid() && this.epoll == epoll && this.open == open
      ensures epoll.Abs() == Poller.State(map[], map[], map[], 0) ==> Init(Abs())
    {
      this.epoll, this.open := epoll, open;
      status, connect, ch, retryDelay, tt, timers := Disconnected, false, null, INITIAL_DELAY, None, 0;
      queue, armed, sockets, mine, delays, panicked := [], None, [], map[], [], false;
    }

    /** close(2) on the i-th socket. */
    method CloseSocket(fd: Fd, ghost i: nat)
      requires Valid() && i < |sockets| && sockets[i].fd == fd
      modifies this`open, this`sockets, epoll`kernel
      ensures Valid() && Abs() == Close(old(Abs()), i)
    {
      open := open - {fd};
      epoll.Forget(fd);
      sockets := sockets[i := sockets[i].(closes := sockets[i].closes + 1)];
    }

    /** retry */
    method RetryLater(fd: Fd, ghost i: nat)
      requires Valid() && i < |sockets| && sockets[i].fd == fd
      modifies this, epoll`kernel
      ensures Valid() && Abs() == Retry(old(Abs()), i)
    {
      hide Epoll.Abs, Close;
      ghost var s := Abs();
      CloseSocket(fd, i);
      status := Disconnected;
      ghost var t := Abs();
      assert t == Close(s, i).(status := Disconnected);
      CloseLeaves(s, i);
      if connect {
        ScheduleRetry();
      }
    }

    /** AsyncScheduleDelay(c.start, c.retryDelay), and the next delay. */
    method ScheduleRetry()
      requires Valid()
      modifies this`tt, this`timers, this`queue, this`delays, this`retryDelay
      ensures Valid()
      ensures var s := old(Abs());
              Abs() == s.(tt := Some(s.timers), timers := s.timers + 1, queue := s.queue + [AddTimer(s.timers)],
                          delays := s.delays + [s.retryDelay], retryDelay := Min(2 * s.retryDelay, MAX_DELAY))
    {
      hide Epoll.Abs;
      delays := delays + [retryDelay];
      tt, timers, queue := Some(timers), timers + 1, queue + [AddTimer(timers)];
      retryDelay := Min(2 * retryDelay, MAX_DELAY);
    }

    /** connecting, on a channel object of its own. From a sound state without an attempt the poller cannot
        panic; the new channel is registered for writing, and nothing else of the connector's is. */
    method BeginConnecting(fd: Fd, ghost i: nat) returns (c: Channel)
      requires Valid() && !panicked && i < |sockets| && sockets[i].fd == fd
      modifies this, epoll
      ensures Valid() && fresh(c) && panicked == Watch(old(Abs()), i, c).panicked
      ensures !panicked ==> Abs() == Watch(old(Abs()), i, c)
    {
      hide Epoll.Abs, Poller.Do;
      ghost var s := Abs();
      epoll.ChansAre();
      status := Connecting;
      c := epoll.Open(fd);
      epoll.ChansAre();
      ch, mine := c, mine[c := i];
      ghost var t := s.(status := Connecting, ch := Some(c), mine := s.mine[c := i]);
      assert Abs() == Tell(t, Create(c, fd));
      var ok := epoll.ChangeEvents(c, EnableWriting);
      panicked := !ok;
    }

    /** connect0: which errors are waited for, which retried and which given up. */
    method ConnectOnce(fd: Fd, errno: Errno) returns (answer: Answer<Channel>)
      requires Valid() && !panicked
      modifies this, epoll
      ensures Valid() && Answers(errno, answer) && (answer.InProgress? ==> fresh(answer.ch))
      ensures panicked == Connect0(old(Abs()), fd, answer).panicked
      ensures !panicked ==> Abs() == Connect0(old(Abs()), fd, answer)
    {
      hide Watch, Retry, Close, Epoll.Abs;
      ghost var i := |sockets|;
      ghost var before := Abs();
      sockets, open := sockets + [Socket(fd, 0, 0)], open + {fd};
      ghost var s := Abs();
      assert s == Opened(before, fd);
      RetryIsLive(s, i);
      hide Opened;
      match errno {
        case Success | EINPROGRESS | EINTR | EISCONN =>
          var c := BeginConnecting(fd, i);
          answer := InProgress(c);
        case EAGAIN | EADDRINUSE | EADDRNOTAVAIL | ECONNREFUSED | ENETUNREACH =>
          RetryLater(fd, i);
          answer := Retryable;
        case OtherErrno =>
          CloseSocket(fd, i);
          answer := Fatal;
      }
    }

    /** start: with an unused descriptor, from a sound state without an attempt or a clear under way, it
        leaves a sound state. */
    method StartInLoop(fd: Fd, errno: Errno) returns (answer: Answer<Channel>)
      requires Valid() && !panicked
      modifies this, epoll
      ensures Valid() && (old(connect) ==> Answers(errno, answer)) && (answer.InProgress? ==> fresh(answer.ch))
      ensures panicked == DoStart(old(Abs()), fd, answer).panicked
      ensures !panicked ==> Abs() == DoStart(old(Abs()), fd, answer)
      ensures old(Inv(Abs()) && Quiet(Abs()) && NoClear(Abs()) && fd !in open) ==> !panicked && Inv(Abs())
    {
      hide Connect0, Inv, Quiet, NoClear, Epoll.Abs;
      ghost var s := Abs();
      epoll.ChansAre();
      answer := Fatal;
      if connect {
        answer := ConnectOnce(fd, errno);
      }
      if Inv(s) && Quiet(s) && NoClear(s) && fd !in s.open {
        StartKeepsInv(s, fd, answer);
        InvIsLive(DoStart(s, fd, answer));
      }
    }

    /** removeAndResetChannel: in a sound state with an attempt under way the channel is there, and
        afterwards its descriptor is open and in neither the channel map nor the interest set. */
    method RemoveAndResetChannel() returns (fd: Fd, ghost i: nat)
      requires Valid() && !panicked
      modifies this`queue, this`panicked, epoll`channelMap, epoll`kernel, epoll`ctlErrors, epoll.chans`index, epoll.chans`events
      ensures Valid() && panicked == Release(old(Abs())).panicked
      ensures !panicked ==> Abs() == Release(old(Abs())) && ch != null && i == mine[ch] && fd == ch.fd
      ensures old(Inv(Abs()) && status == Connecting) ==>
                !panicked && fd in open && fd !in epoll.channelMap && fd !in epoll.kernel
    {
      hide Inv, Unwatched, Epoll.Abs, Poller.Do;
      ghost var s := Abs();
      fd, i := 0, 0;
      if Inv(s) && s.status == Connecting {
        ReleaseIs(s);
        UnwatchedIsUnmapped(Release(s), s.mine[s.ch.value]);
      }
      epoll.ChansAre();
      if ch == null {
        panicked := true;
        return;
      }
      fd, i := ch.fd, mine[ch];
      var ok := epoll.ChangeEvents(ch, DisableAll);
      if !ok {
        panicked := true;
        return;
      }
      assert Abs() == Tell(s, Change(ch, DisableAll));
      epoll.ChansAre();
      ok := epoll.RemoveChannel(ch);
      if !ok {
        panicked := true;
        return;
      }
      queue := queue + [ClearCh];
      epoll.MapsAre();
    }

    /** handleError: from a sound state it leaves a sound state with no attempt under way, the descriptor of
        a connecting one closed. */
    method OnErrorEvent()
      requires Valid() && !panicked
      modifies this, epoll`channelMap, epoll`kernel, epoll`ctlErrors, epoll.chans`index, epoll.chans`events
      ensures Valid() && ch == old(ch) && panicked == HandleError(old(Abs())).panicked
      ensures !panicked ==> Abs() == HandleError(old(Abs()))
      ensures old(Inv(Abs())) ==> !panicked && Inv(Abs()) && status != Connecting
      ensures old(Inv(Abs()) && status == Connecting) ==> ch != null && ch.fd !in open && ch.fd !in epoll.channelMap
    {
      hide Inv, Release, Retry, Epoll.Abs;
      ghost var s := Abs();
      if Inv(s) {
        HandleErrorKeepsInv(s);
        InvIsLive(HandleError(s));
      }
      if status == Connecting {
        var fd, i := RemoveAndResetChannel();
        if !panicked {
          RetryCloses(Abs(), i);
          RetryLater(fd, i);
        }
      }
    }

    /** handleWrite: from a sound state it leaves a sound state with no attempt under way; the descriptor of
        a connecting one is closed, or handed to the callback while it is in no channel map. */
    method OnWriteEvent(sockoptFails: bool) returns (handed: Option<Fd>)
      requires Valid() && !panicked
      modifies this, epoll`channelMap, epoll`kernel, epoll`ctlErrors, epoll.chans`index, epoll.chans`events
      ensures Valid() && ch == old(ch) && panicked == HandleWrite(old(Abs()), sockoptFails).panicked
      ensures !panicked ==> Abs() == HandleWrite(old(Abs()), sockoptFails)
      ensures old(Inv(Abs())) ==> !panicked && Inv(Abs()) && status != Connecting
      ensures old(status) != Connecting ==> handed.None?
      ensures old(Inv(Abs()) && status == Connecting) ==>
                && ch != null && (handed.Some? <==> !sockoptFails && connect)
                && if handed.Some? then handed.value == ch.fd && ch.fd in open && ch.fd !in epoll.channelMap else ch.fd !in open
    {
      hide Inv, Release, Retry, Epoll.Abs;
      ghost var s := Abs();
      if Inv(s) {
        HandleWriteKeepsInv(s, sockoptFails);
        InvIsLive(HandleWrite(s, sockoptFails));
      }
      handed := None;
      if status == Connecting {
        var fd, i := RemoveAndResetChannel();
        if panicked {
          return;
        }
        if sockoptFails {
          RetryCloses(Abs(), i);
          RetryLater(fd, i);
        } else {
          status := Connected;
          if connect {
            handed := Some(fd);
            sockets := sockets[i := sockets[i].(hands := sockets[i].hands + 1)];
          } else {
            CloseSocket(fd, i);
          }
        }
      }
    }

    /** handleEvent of the connector's channel: the error callback comes before the write callback. */
    method OnEvent(revents: Events, sockoptFails: bool) returns (handed: Option<Fd>)
      requires Valid() && !panicked
      modifies this, epoll`channelMap, epoll`kernel, epoll`ctlErrors, epoll.chans`index, epoll.chans`events
      ensures Valid() && panicked == HandleEvent(old(Abs()), revents, sockoptFails).panicked
      ensures !panicked ==> Abs() == HandleEvent(old(Abs()), revents, sockoptFails)
      ensures old(Inv(Abs())) ==> !panicked && Inv(Abs())
      ensures old(Inv(Abs()) && status == Connecting) ==>
                (handed.Some? <==> revents & 0x28 == 0 && revents & 0x4 != 0 && !sockoptFails && connect)
    {
      hide Inv, HandleError, HandleWrite, Dispatch, Epoll.Abs;
      DispatchMeans(revents);
      assert POLLERR | POLLNVAL == 0x28;
      ghost var s := Abs();
      handed := None;
      if revents & (POLLERR | POLLNVAL) != 0 {
        OnErrorEvent();
        if panicked {
          return;
        }
      }
      if revents & POLLOUT != 0 {
        handed := OnWriteEvent(sockoptFails);
      }
    }

    /** Restart: sound if no attempt and no clear is waiting. */
    method RestartNow(fd: Fd, errno: Errno) returns (answer: Answer<Channel>)
      requires Valid() && !panicked
      modifies this, epoll
      ensures Valid() && Answers(errno, answer) && (answer.InProgress? ==> fresh(answer.ch))
      ensures panicked == DoRestart(old(Abs()), fd, answer).panicked
      ensures !panicked ==> Abs() == DoRestart(old(Abs()), fd, answer)
      ensures old(Inv(Abs()) && Quiet(Abs()) && NoClear(Abs()) && fd !in open) ==> !panicked && Inv(Abs())
    {
      hide Inv, DoStart, Epoll.Abs;
      ghost var s := Abs();
      connect, status, retryDelay, delays := true, Disconnected, INITIAL_DELAY, [];
      if Inv(s) && Quiet(s) {
        RestartedKeepsInv(s);
      }
      assert Abs() == Restarted(s);
      answer := StartInLoop(fd, errno);
    }

    /** Stop */
    method StopRetrying()
      requires Valid()
      modifies this`connect, this`queue
      ensures Valid() && !connect && (old(Inv(Abs())) ==> Inv(Abs()))
      ensures queue == old(queue) + if tt.Some? then [CancelTimer(tt.value)] else []
    {
      hide Inv;
      ghost var s := Abs();
      if Inv(s) { StopKeepsInv(s, if tt.Some? then tt.value else 0); }
      connect := false;
      if tt.Some? {
        queue := queue + [CancelTimer(tt.value)];
      }
    }
  }

  lemma CloseLeaves<C>(s: State<C>, i: nat)
    requires i < |s.sockets|
    ensures var t := Close(s, i);
            t == s.(sockets := t.sockets, open := t.open, poller := t.poller)
  {
  }

  lemma RetryIsLive<C>(s: State<C>, i: nat)
    requires i < |s.sockets|
    ensures Retry(s, i).panicked == s.panicked && Close(s, i).panicked == s.panicked
  {
  }

  lemma RetryCloses<C>(s: State<C>, i: nat)
    requires i < |s.sockets|
    ensures var t := Retry(s, i);
            && t.panicked == s.panicked && t.ch == s.ch && t.mine == s.mine && |t.sockets| == |s.sockets|
            && t.open == s.open - {s.sockets[i].fd} && t.poller.channelMap == s.poller.channelMap
  {
  }

  /** The outcomes of connect(2) that the switch in connect0 tells apart. */
  datatype Errno =
    | Success | EINPROGRESS | EINTR | EISCONN
    | EAGAIN | EADDRINUSE | EADDRNOTAVAIL | ECONNREFUSED | ENETUNREACH
    | OtherErrno

  predicate Answers<C>(errno: Errno, answer: Answer<C>) {
    && (answer.InProgress? <==> errno.Success? || errno.EINPROGRESS? || errno.EINTR? || errno.EISCONN?)
    && (answer.Fatal? <==> errno.OtherErrno?)
  }
}

/** Channels and the poller (channel.go, poller.go) against the kernel's epoll interest set. */
module Poller {
  import opened Wrappers

  type Events = bv32

  const POLLIN: Events := 0x1
  const POLLPRI: Events := 0x2
  const POLLOUT: Events := 0x4
  const POLLERR: Events := 0x8
  const POLLHUP: Events := 0x10
  const POLLNVAL: Events := 0x20
  const POLLRDHUP: Events := 0x2000

  const EVENT_NONE: Events := 0
  const EVENT_READ: Events := 0x3         // POLLIN | POLLPRI
  const EVENT_WRITE: Events := 0x4        // POLLOUT

  /** channelNew, channelAdd and channelDel. */
  datatype Index = New | Add | Del

  class Channel {
    const fd: int
    var events: Events
    var index: Index

    constructor (fd: int)
      ensures this.fd == fd && events == EVENT_NONE && index == New
    {
      this.fd := fd;
      this.events := EVENT_NONE;
      this.index := New;
    }
  }

  // ---------------------------------------------------------------- specification

  datatype Chan = Chan(fd: int, events: Events, index: Index)

  /** The poller of one loop; C identifies channels. */
  datatype State<C> = State(
    chans: map<C, Chan>,               // the channels of this loop
    channelMap: map<int, C>,
    kernel: map<int, (Events, C)>,     // the epoll interest set
    ctlErrors: nat)                    // epoll_ctl calls the kernel refused

  datatype CtlOp = CtlAdd | CtlMod | CtlDel

  /** epoll_ctl: ADD needs an absent descriptor, MOD and DEL a present one. A refused call changes
      nothing; the code only logs it. */
  function EpollCtl<C(==)>(s: State<C>, op: CtlOp, c: C): State<C>
    requires c in s.chans
  {
    var Chan(fd, events, _) := s.chans[c];
    if op.CtlAdd? == (fd in s.kernel) then s.(ctlErrors := s.ctlErrors + 1)
    else if op.CtlDel? then s.(kernel := s.kernel - {fd})
    else s.(kernel := s.kernel[fd := (events, c)])
  }

  function SetIndex<C(==)>(s: State<C>, c: C, index: Index): State<C>
    requires c in s.chans
  {
    s.(chans := s.chans[c := s.chans[c].(index := index)])
  }

  /** Poller.updateChannel; None when one of its assertions fails. */
  function Updated<C(==)>(s: State<C>, c: C): Option<State<C>>
    requires c in s.chans
  {
    var fd := s.chans[c].fd;
    var mapped := fd in s.channelMap && s.channelMap[fd] == c;
    match s.chans[c].index
    case New =>
      if fd in s.channelMap then None
      else Some(EpollCtl(SetIndex(s.(channelMap := s.channelMap[fd := c]), c, Add), CtlAdd, c))
    case Del =>
      if !mapped then None else Some(EpollCtl(SetIndex(s, c, Add), CtlAdd, c))
    case Add =>
      if !mapped then None
      else if s.chans[c].events == EVENT_NONE then Some(SetIndex(EpollCtl(s, CtlDel, c), c, Del))
      else Some(EpollCtl(s, CtlMod, c))
  }

  /** Poller.removeChannel; None when one of its assertions fails. */
  function Removed<C(==)>(s: State<C>, c: C): Option<State<C>>
    requires c in s.chans
  {
    var fd := s.chans[c].fd;
    if !(fd in s.channelMap && s.channelMap[fd] == c) || s.chans[c].index.New? then None
    else
      var t := s.(channelMap := s.channelMap - {fd});
      Some(SetIndex(if s.chans[c].index.Add? then EpollCtl(t, CtlDel, c) else t, c, New))
  }

  datatype Op = EnableReading | EnableWriting | DisableWriting | DisableAll

  function Mask(op: Op, e: Events): Events {
    match op
    case EnableReading => e | EVENT_READ
    case EnableWriting => e | EVENT_WRITE
    case DisableWriting => e & !EVENT_WRITE
    case DisableAll => EVENT_NONE
  }

  lemma MaskValues()
    ensures EVENT_READ == POLLIN | POLLPRI && EVENT_WRITE == POLLOUT && POLLIN | POLLPRI | POLLRDHUP == 0x2003
  {
  }

  /** The events for which handleEvent calls the read callback. */
  predicate Reads(e: Events) { e & 0x2003 != 0 }   // POLLIN | POLLPRI | POLLRDHUP
  predicate Writes(e: Events) { e & 0x4 != 0 }      // POLLOUT

  lemma BitFacts(e: bv32)
    ensures (e | 0x3) & 0x2003 != 0 && (e | 0x3) & 0x4 == e & 0x4
    ensures (e | 0x4) & 0x2003 == e & 0x2003 && (e | 0x4) & 0x4 != 0
    ensures (e & !0x4) & 0x2003 == e & 0x2003 && (e & !0x4) & 0x4 == 0
  {
  }

  /** What each operation does to the two interests. */
  lemma MaskBits(op: Op, e: Events)
    ensures Reads(Mask(op, e)) == match op case EnableReading => true case DisableAll => false case _ => Reads(e)
    ensures Writes(Mask(op, e)) == match op case EnableWriting => true case EnableReading => Writes(e) case _ => false
  {
    BitFacts(e);
  }

  /** Asking for reading asks for both of its events, and asking for nothing leaves none. */
  lemma MaskExact(e: Events)
    ensures Mask(EnableReading, e) & 0x1 != 0 && Mask(EnableReading, e) & 0x2 != 0 && Mask(DisableAll, e) == 0
  {
    ReadBits(e);
  }

  lemma ReadBits(e: bv32)
    ensures (e | 0x3) & 0x1 != 0 && (e | 0x3) & 0x2 != 0
  {
  }

  datatype Call<C> = Create(c: C, fd: int) | Change(c: C, op: Op) | Remove(c: C)

  predicate Callable<C(==)>(s: State<C>, call: Call<C>) { call.Create? <==> call.c !in s.chans }

  /** One call on a channel: the event mask changes first, then the poller is told. */
  function Do<C(==)>(s: State<C>, call: Call<C>): Option<State<C>>
    requires Callable(s, call)
  {
    match call
    case Create(c, fd) => Some(s.(chans := s.chans[c := Chan(fd, EVENT_NONE, New)]))
    case Change(c, op) => Updated(s.(chans := s.chans[c := s.chans[c].(events := Mask(op, s.chans[c].events))]), c)
    case Remove(c) => Removed(s, c)
  }

  // ---------------------------------------------------------------- the poller mirrors the kernel

  /** For one channel: Add iff the kernel watches its descriptor for it with exactly its events, Del iff
      it is mapped and not watched, New iff it is neither. */
  predicate Mirrors<C(==)>(s: State<C>, c: C)
    requires c in s.chans
  {
    var Chan(fd, events, index) := s.chans[c];
    var mapped := fd in s.channelMap && s.channelMap[fd] == c;
    var watched := fd in s.kernel && s.kernel[fd] == (events, c);
    && (index.Add? <==> watched)
    && (index.Del? <==> mapped && !watched)
    && (index.New? <==> !mapped && !watched)
    && (watched ==> mapped)
  }

  ghost predicate Mirror<C>(s: State<C>) {
    && (forall c :: c in s.chans ==> Mirrors(s, c))
    && (forall fd :: fd in s.channelMap ==> s.channelMap[fd] in s.chans && s.chans[s.channelMap[fd]].fd == fd)
    && (forall fd :: fd in s.kernel ==>
          && fd in s.channelMap && s.kernel[fd].1 == s.channelMap[fd]
          && s.kernel[fd].0 == s.chans[s.channelMap[fd]].events)
    && s.ctlErrors == 0
  }

  /** Before the poller is told, only the kernel's copy of the mask of c is out of date. */
  ghost predicate MirrorBut<C>(s: State<C>, c: C, events: Events) {
    c in s.chans && Mirror(s.(chans := s.chans[c := s.chans[c].(events := events)]))
  }

  /** A change at the descriptor of c that leaves it to c, or to nobody, does not concern d. */
  lemma OtherChannel<C>(s: State<C>, r: State<C>, c: C, d: C)
    requires c in s.chans && d in s.chans && d in r.chans && d != c && r.chans[d] == s.chans[d] && Mirrors(s, d)
    requires var fd := s.chans[c].fd;
             && (fd in s.channelMap ==> s.channelMap[fd] == c) && (fd in s.kernel ==> s.kernel[fd].1 == c)
             && (fd in r.channelMap ==> r.channelMap[fd] == c) && (fd in r.kernel ==> r.kernel[fd].1 == c)
             && s.channelMap - {fd} == r.channelMap - {fd} && s.kernel - {fd} == r.kernel - {fd}
    ensures Mirrors(r, d)
  {
    var fd, e := s.chans[c].fd, s.chans[d].fd;
    if e != fd {
      assert e in s.channelMap <==> e in s.channelMap - {fd};
      assert e in s.kernel <==> e in s.kernel - {fd};
    }
  }

  lemma UpdateMirrors<C>(s: State<C>, c: C, events: Events)
    requires MirrorBut(s, c, events)
    ensures Updated(s, c).None? <==> s.chans[c].index.New? && s.chans[c].fd in s.channelMap
    ensures Updated(s, c).Some? ==> Mirror(Updated(s, c).value)
  {
    var was := s.(chans := s.chans[c := s.chans[c].(events := events)]);
    assert Mirrors(was, c);
    if Updated(s, c).Some? {
      var r, fd := Updated(s, c).value, s.chans[c].fd;
      assert was.channelMap - {fd} == r.channelMap - {fd} && was.kernel - {fd} == r.kernel - {fd};
      forall d | d in r.chans ensures Mirrors(r, d) {
        if d != c { OtherChannel(was, r, c, d); }
      }
      forall e | e in r.channelMap ensures r.channelMap[e] in r.chans && r.chans[r.channelMap[e]].fd == e {
        assert e != fd ==> e in was.channelMap;
      }
    }
  }

  lemma RemoveMirrors<C>(s: State<C>, c: C)
    requires Mirror(s) && c in s.chans
    ensures Removed(s, c).None? <==> s.chans[c].index.New?
    ensures Removed(s, c).Some? ==>
              var r := Removed(s, c).value;
              Mirror(r) && s.chans[c].fd !in r.channelMap && s.chans[c].fd !in r.kernel
  {
    assert Mirrors(s, c);
    if Removed(s, c).Some? {
      var r, fd := Removed(s, c).value, s.chans[c].fd;
      assert s.channelMap - {fd} == r.channelMap - {fd} && s.kernel - {fd} == r.kernel - {fd};
      forall d | d in r.chans ensures Mirrors(r, d) {
        if d != c { OtherChannel(s, r, c, d); }
      }
    }
  }

  /** Exactly when a call runs into an assertion: a first update while another channel holds the
      descriptor, or the removal of a channel that was never registered. Otherwise every epoll_ctl is
      legal and the poller mirrors the kernel again. */
  lemma CallMirrors<C>(s: State<C>, call: Call<C>)
    requires Mirror(s) && Callable(s, call)
    ensures Do(s, call).None? <==>
              || (call.Change? && s.chans[call.c].index.New? && s.chans[call.c].fd in s.channelMap)
              || (call.Remove? && s.chans[call.c].index.New?)
    ensures Do(s, call).Some? ==> Mirror(Do(s, call).value)
  {
    match call
    case Create(c, fd) =>
      var r := Do(s, call).value;
      forall d | d in r.chans ensures Mirrors(r, d) {
        if d != c { assert Mirrors(s, d); }
      }
    case Change(c, op) =>
      var t := s.(chans := s.chans[c := s.chans[c].(events := Mask(op, s.chans[c].events))]);
      assert t.(chans := t.chans[c := t.chans[c].(events := s.chans[c].events)]) == s;
      UpdateMirrors(t, c, s.chans[c].events);
    case Remove(c) =>
      RemoveMirrors(s, c);
  }

  /** The registration after an update: only a watched channel without events is taken out again. */
  function NextIndex(index: Index, events: Events): Index {
    if index.Add? && events == EVENT_NONE then Del else Add
  }

  /** A change of events touches only its channel and leaves it registered; a removal leaves it new. */
  lemma CallShape<C>(s: State<C>, call: Call<C>)
    requires Callable(s, call) && Do(s, call).Some? && !call.Create?
    ensures var c, r := call.c, Do(s, call).value;
            && r.chans == s.chans[c := r.chans[c]] && r.chans[c].fd == s.chans[c].fd
            && (call.Change? ==> r.chans[c].events == Mask(call.op, s.chans[c].events)
                                 && r.chans[c].index == NextIndex(s.chans[c].index, r.chans[c].events))
            && (call.Remove? ==> r.chans[c].index.New? && r.chans[c].events == s.chans[c].events)
            && (call.Change? ==> r.channelMap.Keys == s.channelMap.Keys + {s.chans[c].fd})
            && (call.Remove? ==> r.channelMap.Keys == s.channelMap.Keys - {s.chans[c].fd})
  {
    match call
    case Change(c, op) => UpdateShape(s.(chans := s.chans[c := s.chans[c].(events := Mask(op, s.chans[c].events))]), c);
    case Remove(c) =>
  }

  lemma UpdateShape<C>(s: State<C>, c: C)
    requires c in s.chans && Updated(s, c).Some?
    ensures var r := Updated(s, c).value;
            && r.chans == s.chans[c := s.chans[c].(index := NextIndex(s.chans[c].index, s.chans[c].events))]
            && r.channelMap.Keys == s.channelMap.Keys + {s.chans[c].fd}
  {
    match s.chans[c].index
    case New =>
    case Add => assert s.chans[c].fd in s.channelMap;
    case Del => assert s.chans[c].fd in s.channelMap;
  }

  /** A sequence of calls on any number of channels, none of which failed an assertion. */
  ghost predicate IsRun<C>(run: seq<State<C>>, calls: seq<Call<C>>) {
    && |run| == |calls| + 1
    && run[0] == State(map[], map[], map[], 0)
    && forall i :: 0 <= i < |calls| ==> Callable(run[i], calls[i]) && Do(run[i], calls[i]) == Some(run[i + 1])
  }

  lemma {:induction false} PollerMirrorsKernel<C>(run: seq<State<C>>, calls: seq<Call<C>>, i: nat)
    requires IsRun(run, calls) && i < |run|
    ensures Mirror(run[i])
  {
    if i > 0 {
      PollerMirrorsKernel(run, calls, i - 1);
      assert Do(run[i - 1], calls[i - 1]) == Some(run[i]);
      CallMirrors(run[i - 1], calls[i - 1]);
    }
  }

  /** close(2): the kernel forgets the descriptor, the poller is not told. */
  function Closed<C>(s: State<C>, fd: int): State<C> { s.(kernel := s.kernel - {fd}) }

  /** Closing keeps the mirror exactly when no channel that is being watched holds the descriptor. */
  lemma CloseMirrorsIff<C>(s: State<C>, fd: int)
    requires Mirror(s)
    ensures Mirror(Closed(s, fd)) <==> fd in s.channelMap ==> !s.chans[s.channelMap[fd]].index.Add?
    ensures fd !in s.channelMap ==> Closed(s, fd) == s
  {
    if fd in s.channelMap {
      var c := s.channelMap[fd];
      assert Mirrors(s, c);
      if s.chans[c].index.Add? {
        assert !Mirrors(Closed(s, fd), c);
      } else {
        assert Closed(s, fd) == s;
      }
    } else {
      assert Closed(s, fd) == s;
    }
  }

  // ---------------------------------------------------------------- dispatching

  datatype Callback = OnClose | OnError | OnRead | OnWrite

  /** The callbacks of handleEvent for the events reported, in order. */
  function Dispatch(revents: Events): seq<Callback> {
    Called(revents & POLLHUP != 0 && revents & POLLIN == 0, revents & (POLLERR | POLLNVAL) != 0, Reads(revents), Writes(revents))
  }

  function Called(close: bool, error: bool, read: bool, write: bool): (r: seq<Callback>)
    ensures (OnClose in r <==> close) && (OnError in r <==> error) && (OnRead in r <==> read) && (OnWrite in r <==> write)
    ensures forall i, j :: 0 <= i < j < |r| ==> Turn(r[i]) < Turn(r[j])
  {
    (if close then [OnClose] else []) + (if error then [OnError] else []) + (if read then [OnRead] else []) +
    (if write then [OnWrite] else [])
  }

  function Turn(c: Callback): nat { match c case OnClose => 0 case OnError => 1 case OnRead => 2 case OnWrite => 3 }

  /** Which callbacks are called, bit by bit, and in which order: close, error, read, write, each at most
      once. */
  lemma DispatchMeans(revents: Events)
    ensures OnClose in Dispatch(revents) <==> revents & 0x10 != 0 && revents & 0x1 == 0
    ensures OnError in Dispatch(revents) <==> revents & 0x28 != 0
    ensures OnRead in Dispatch(revents) <==> revents & 0x2003 != 0
    ensures OnWrite in Dispatch(revents) <==> revents & 0x4 != 0
    ensures forall i, j :: 0 <= i < j < |Dispatch(revents)| ==> Turn(Dispatch(revents)[i]) < Turn(Dispatch(revents)[j])
  {
    hide Called;
    assert POLLERR | POLLNVAL == 0x28;
  }

  /** epoll reports only events in the mask, besides errors and hang-ups. */
  predicate Reportable(events: Events, revents: Events) {
    revents & !(events | POLLERR | POLLHUP | POLLNVAL) == 0
  }

  /** A channel that does not ask for reading is never told to read, and likewise for writing. */
  lemma NoInterestNoCallback(events: Events, revents: Events)
    requires Reportable(events, revents)
    ensures !Reads(events) ==> OnRead !in Dispatch(revents)
    ensures !Writes(events) ==> OnWrite !in Dispatch(revents)
  {
  }

  // ---------------------------------------------------------------- the code

  class Epoll {
    var channelMap: map<int, Channel>
    var kernel: map<int, (Events, Channel)>
    var ctlErrors: nat
    ghost var chans: set<Channel>

    ghost function Abs(): State<Channel>
      reads this, chans
    {
      State(map c | c in chans :: Chan(c.fd, c.events, c.index), channelMap, kernel, ctlErrors)
    }

    lemma MapsAre()
      ensures Abs().channelMap == channelMap && Abs().kernel == kernel
    {
    }

    lemma ChansAre()
      ensures Abs().chans.Keys == chans
    {
    }

    constructor ()
      ensures chans == {} && Abs() == State(map[], map[], map[], 0)
    {
      channelMap, kernel, ctlErrors, chans := map[], map[], 0, {};
    }

    /** NewChannel */
    method Open(fd: int) returns (c: Channel)
      modifies this`chans
      ensures fresh(c) && c.fd == fd && chans == old(chans) + {c}
      ensures Do(old(Abs()), Create(c, fd)) == Some(Abs())
    {
      ghost var s := Abs();
      c := new Channel(fd);
      chans := chans + {c};
      assert Abs().chans == s.chans[c := Chan(fd, EVENT_NONE, New)];
    }

    /** Poller.update */
    method Ctl(op: CtlOp, c: Channel)
      requires c in chans
      modifies this`kernel, this`ctlErrors
      ensures Abs() == EpollCtl(old(Abs()), op, c)
    {
      if op.CtlAdd? == (c.fd in kernel) {
        ctlErrors := ctlErrors + 1;
      } else if op.CtlDel? {
        kernel := kernel - {c.fd};
      } else {
        kernel := kernel[c.fd := (c.events, c)];
      }
    }

    /** The kernel's part of close(2). */
    method Forget(fd: int)
      modifies this`kernel
      ensures Abs() == Closed(old(Abs()), fd)
    {
      kernel := kernel - {fd};
    }

    /** `ok` is false where the code panics. */
    method UpdateChannel(c: Channel) returns (ok: bool)
      requires c in chans
      modifies this`channelMap, this`kernel, this`ctlErrors, c`index
      ensures ok == Updated(old(Abs()), c).Some?
      ensures ok ==> Abs() == Updated(old(Abs()), c).value
    {
      ghost var s := Abs();
      var fd := c.fd;
      if c.index == New || c.index == Del {
        if c.index == New {
          if fd in channelMap { return false; }
          channelMap := channelMap[fd := c];
        } else {
          if !(fd in channelMap && channelMap[fd] == c) { return false; }
        }
        c.index := Add;
        assert Abs() == SetIndex(s.(channelMap := channelMap), c, Add);
        Ctl(CtlAdd, c);
      } else {
        if !(fd in channelMap && channelMap[fd] == c) { return false; }
        if c.events == EVENT_NONE {
          Ctl(CtlDel, c);
          c.index := Del;
          assert Abs() == SetIndex(EpollCtl(s, CtlDel, c), c, Del);
        } else {
          Ctl(CtlMod, c);
        }
      }
      return true;
    }

    /** enableReading, enableWriting, disableWriting and disableAll. */
    method ChangeEvents(c: Channel, op: Op) returns (ok: bool)
      requires c in chans
      modifies this`channelMap, this`kernel, this`ctlErrors, c`index, c`events
      ensures ok == Do(old(Abs()), Change(c, op)).Some?
      ensures ok ==> Abs() == Do(old(Abs()), Change(c, op)).value
    {
      hide Updated, Mask;
      ghost var s := Abs();
      c.events := Mask(op, c.events);
      assert Abs() == s.(chans := s.chans[c := s.chans[c].(events := Mask(op, s.chans[c].events))]);
      ok := UpdateChannel(c);
    }

    method RemoveChannel(c: Channel) returns (ok: bool)
      requires c in chans
      modifies this`channelMap, this`kernel, this`ctlErrors, c`index
      ensures ok == Do(old(Abs()), Remove(c)).Some?
      ensures ok ==> Abs() == Do(old(Abs()), Remove(c)).value
    {
      ghost var s := Abs();
      if !(c.fd in channelMap && channelMap[c.fd] == c) || c.index == New {
        return false;
      }
      channelMap := channelMap - {c.fd};
      ghost var t := Abs();
      assert t == s.(channelMap := channelMap);
      if c.index == Add {
        Ctl(CtlDel, c);
      }
      ghost var u := Abs();
      c.index := New;
      assert Abs() == SetIndex(u, c, New);
      return true;
    }
  }
}

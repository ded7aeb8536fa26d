/** The outgoing byte stream of a connection (tcp_conn.go): direct writes, buffered writes, the write
    handler and the deferred half-close, over the byte buffer and the channel's interest in writing.

    `handleWrite` is a step the environment may take; the code defines it without registering it. */
module Outbound {
  import opened ByteBuffer
  import opened Poller
  import opened Lifecycle

  /** What write(2) answers. On EWOULDBLOCK it returns -1, and the code goes on with that count. */
  datatype Kernel = Wrote(n: nat) | WouldBlock | Failed

  /** What a count of -1 has done. */
  datatype Harm =
    | Unharmed
    | SliceOutOfRange   // buf[-1:] in Write panics
    | ByteRepeated      // Advance(-1) made a consumed byte readable again
    | NegativeIndex     // Advance(-1) with nothing consumed: the next use of the slice panics

  datatype Stream = Stream(
    state: ConnState,
    events: Events,
    out: View,                // the outbound buffer
    shutdownTasks: nat,       // half-closes queued by ShutdownWrite
    closed: bool,             // history: handleClose or connectDestroyed has run
    wire: seq<Byte>,          // history: bytes given to the kernel
    accepted: seq<Byte>,      // history: bytes taken from callers, in call order
    shut: bool,               // history: SHUT_WR has been issued
    dirtyShut: bool,          // history: SHUT_WR was issued with bytes still buffered
    harm: Harm)

  // ---------------------------------------------------------------- specification

  predicate Direct(s: Stream) { !Writes(s.events) && s.out.data == [] }

  /** The part of Write after the direct attempt sent n bytes. */
  function Buffered(s: Stream, rest: seq<Byte>): Stream
    requires s.out.Valid()
  {
    if rest == [] then s
    else
      s.(out := Written(s.out, rest),
         accepted := s.accepted + rest[..WriteCount(s.out, |rest|)],
         events := if Writes(s.events) then s.events else Mask(EnableWriting, s.events))
  }

  lemma BufferedLeaves(s: Stream, rest: seq<Byte>)
    requires s.out.Valid()
    ensures Buffered(s, rest).wire == s.wire && (rest == [] ==> Buffered(s, rest) == s)
  {
  }

  function Wrote1(s: Stream, p: seq<Byte>, n: nat): Stream
    requires n <= |p|
  {
    s.(wire := s.wire + p[..n], accepted := s.accepted + p[..n])
  }

  function DoWrite(s: Stream, p: seq<Byte>, k: Kernel): Stream
    requires s.out.Valid() && (k.Wrote? ==> k.n <= |p|)
  {
    if !s.state.Connected? || p == [] then s
    else if !Direct(s) then Buffered(s, p)
    else match k
      case Failed => s
      case WouldBlock => s.(harm := SliceOutOfRange)
      case Wrote(n) => Buffered(Wrote1(s, p, n), p[n..])
  }

  /** shutdownWrite */
  function Shut(s: Stream): Stream {
    if Writes(s.events) then s else s.(shut := true, dirtyShut := s.dirtyShut || s.out.data != [])
  }

  function DoHandleWrite(s: Stream, k: Kernel): Stream
    requires s.out.Valid() && (k.Wrote? ==> k.n <= |s.out.data|)
  {
    if !Writes(s.events) then s
    else match k
      case Failed => s
      case WouldBlock =>
        if s.out.past == [] then s.(harm := NegativeIndex) else s.(out := Shifted(s.out, -1), harm := ByteRepeated)
      case Wrote(n) =>
        var t := s.(wire := s.wire + s.out.data[..n], out := Shifted(s.out, n));
        if t.out.data != [] then t
        else
          var u := t.(events := Mask(DisableWriting, t.events));
          if u.state.Disconnecting? then Shut(u) else u
  }

  datatype Action =
    | Established
    | Write(p: seq<Byte>, k: Kernel)
    | HandleWrite(k: Kernel)
    | ShutdownWrite
    | RunShutdown
    | HandleClose
    | Destroyed

  predicate Enabled(s: Stream, a: Action) {
    && s.harm.Unharmed? && s.out.Valid()
    && match a
       case Established => s.state.Connecting?
       case Write(p, k) => k.Wrote? ==> k.n <= |p|
       case HandleWrite(k) => k.Wrote? ==> k.n <= |s.out.data|
       case RunShutdown => s.shutdownTasks > 0
       case Destroyed => s.state.Connected? || s.state.Disconnecting?
       case _ => true
  }

  function Do(s: Stream, a: Action): Stream
    requires Enabled(s, a)
  {
    match a
    case Established => s.(state := Connected, events := Mask(EnableReading, s.events))
    case Write(p, k) => DoWrite(s, p, k)
    case HandleWrite(k) => DoHandleWrite(s, k)
    case ShutdownWrite =>
      if s.state.Connected? then s.(state := Disconnecting, shutdownTasks := s.shutdownTasks + 1) else s
    case RunShutdown => Shut(s.(shutdownTasks := s.shutdownTasks - 1))
    case HandleClose => s.(events := Mask(DisableAll, s.events), closed := true)
    case Destroyed => s.(state := Disconnected, events := Mask(DisableAll, s.events), closed := true)
  }

  const FRESH := Stream(Connecting, EVENT_NONE, View([], [], INITIAL_CAPACITY), 0, false, [], [], false, false, Unharmed)

  ghost predicate IsRun(run: seq<Stream>, acts: seq<Action>) {
    && |run| == |acts| + 1
    && run[0] == FRESH
    && forall i :: 0 <= i < |acts| ==> Enabled(run[i], acts[i]) && run[i + 1] == Do(run[i], acts[i])
  }

  // ---------------------------------------------------------------- the invariant

  predicate Inv(s: Stream) { s.out.Valid() && (s.harm.Unharmed? ==> Sound(s)) }

  predicate Sound(s: Stream)
    requires s.out.Valid()
  {
    && s.wire + s.out.data == s.accepted
    && (forall b :: b in s.out.past ==> b in s.wire)
    && (!s.closed ==> (Writes(s.events) <==> s.out.data != []))
    && (s.dirtyShut ==> s.closed)
    && s.shutdownTasks <= 1
    && (s.shutdownTasks > 0 || s.shut ==> s.state.Disconnecting? || s.state.Disconnected?)
    && (s.shut ==> !Writes(s.events))
    && (!s.closed && s.state.Disconnecting? ==> s.shut || s.shutdownTasks > 0 || s.out.data != [])
    && (s.state.Connecting? ==> s.out.data == [])
    && (!s.closed && (s.state.Connected? || s.state.Disconnecting?) ==> Reads(s.events))
  }

  lemma BufferedKeepsInv(s: Stream, p: seq<Byte>)
    requires Inv(s) && s.harm.Unharmed? && s.state.Connected?
    ensures Inv(Buffered(s, p))
  {
    if p != [] {
      MaskBits(EnableWriting, s.events);
      WriteLeavesData(s.out, p);
      var k := WriteCount(s.out, |p|);
      assert s.wire + (s.out.data + p[..k]) == s.accepted + p[..k];
    }
  }

  lemma WriteKeepsInv(s: Stream, p: seq<Byte>, k: Kernel)
    requires Inv(s) && s.harm.Unharmed? && (k.Wrote? ==> k.n <= |p|)
    ensures Inv(DoWrite(s, p, k))
  {
    if s.state.Connected? && p != [] {
      if !Direct(s) {
        BufferedKeepsInv(s, p);
      } else if k.Wrote? {
        assert Inv(Wrote1(s, p, k.n));
        BufferedKeepsInv(Wrote1(s, p, k.n), p[k.n..]);
      }
    }
  }

  /** The bytes in front of the read index are still bytes that were sent. */
  lemma PastIsSent(s: Stream, n: nat)
    requires s.out.Valid() && n <= |s.out.data| && forall b :: b in s.out.past ==> b in s.wire
    ensures forall b :: b in Shifted(s.out, n).past ==> b in s.wire + s.out.data[..n]
  {
    assert Shifted(s.out, n).past == s.out.past + s.out.data[..n];
  }

  lemma HandleWriteKeepsInv(s: Stream, k: Kernel)
    requires Inv(s) && s.harm.Unharmed? && (k.Wrote? ==> k.n <= |s.out.data|)
    ensures Inv(DoHandleWrite(s, k))
  {
    MaskBits(DisableWriting, s.events);
    if Writes(s.events) && k.Wrote? {
      assert s.wire + s.out.data[..k.n] + s.out.data[k.n..] == s.wire + s.out.data;
      PastIsSent(s, k.n);
    }
  }

  lemma StepKeepsInv(s: Stream, a: Action)
    requires Inv(s) && Enabled(s, a)
    ensures Inv(Do(s, a))
  {
    MaskBits(EnableReading, s.events);
    MaskBits(DisableAll, s.events);
    match a
    case Write(p, k) => WriteKeepsInv(s, p, k);
    case HandleWrite(k) => HandleWriteKeepsInv(s, k);
    case _ =>
  }

  lemma {:induction false} RunKeepsInv(run: seq<Stream>, acts: seq<Action>, i: nat)
    requires IsRun(run, acts) && i < |run|
    ensures Inv(run[i])
  {
    if i > 0 {
      RunKeepsInv(run, acts, i - 1);
      StepKeepsInv(run[i - 1], acts[i - 1]);
    }
  }

  // ---------------------------------------------------------------- the theorems

  /** The bytes on the wire followed by the bytes in the buffer are the accepted bytes in call order;
      until the connection is closed, writing is watched for exactly while bytes are buffered, and reading
      from the establishment on. */
  lemma {:induction false} StreamIntegrity(run: seq<Stream>, acts: seq<Action>, i: nat)
    requires IsRun(run, acts) && i < |run| && run[i].harm.Unharmed?
    ensures run[i].wire + run[i].out.data == run[i].accepted
    ensures !run[i].closed ==> (Writes(run[i].events) <==> run[i].out.data != [])
    ensures !run[i].closed && (run[i].state.Connected? || run[i].state.Disconnecting?) ==> Reads(run[i].events)
  {
    RunKeepsInv(run, acts, i);
  }

  /** Until the connection is closed SHUT_WR is issued only with an empty buffer. */
  lemma {:induction false} HalfCloseIsClean(run: seq<Stream>, acts: seq<Action>, i: nat)
    requires IsRun(run, acts) && i < |run| && !run[i].closed && run[i].harm.Unharmed?
    ensures !run[i].dirtyShut
  {
    RunKeepsInv(run, acts, i);
  }

  /** The half-close comes: until the connection is closed, a stream that was shut down has issued SHUT_WR, or
      has the task that will do so queued, or has bytes left whose last one the write handler will follow
      with it. */
  lemma {:induction false} HalfCloseComes(run: seq<Stream>, acts: seq<Action>, i: nat)
    requires IsRun(run, acts) && i < |run| && !run[i].closed && run[i].harm.Unharmed? && run[i].state.Disconnecting?
    ensures run[i].shut || run[i].shutdownTasks > 0 || (run[i].out.data != [] && Writes(run[i].events))
  {
    RunKeepsInv(run, acts, i);
  }

  /** The write handler that sends the last byte: interest in writing is dropped, and a stream that was shut
      down issues SHUT_WR at once, with nothing cut off. */
  lemma DrainingShuts(s: Stream)
    requires Inv(s) && s.harm.Unharmed? && Writes(s.events)
    ensures var t := DoHandleWrite(s, Wrote(|s.out.data|));
            && t.out.data == [] && t.wire == s.wire + s.out.data && !Writes(t.events)
            && (t.shut <==> s.shut || s.state.Disconnecting?) && t.dirtyShut == s.dirtyShut
  {
    MaskBits(DisableWriting, s.events);
    hide Mask, Writes;
    assert s.out.data[..|s.out.data|] == s.out.data;
  }

  /** A write that is refused, by the state or by a failed direct attempt, leaves everything as it was. */
  lemma RefusedWriteLeaves(s: Stream, p: seq<Byte>, k: Kernel)
    requires s.out.Valid() && (k.Wrote? ==> k.n <= |p|)
    requires !s.state.Connected? || (Direct(s) && k.Failed?)
    ensures DoWrite(s, p, k) == s
  {
  }

  /** Exactly when the queued half-close cuts off buffered bytes: after handleClose, with bytes left and
      no write since that watched for writing again. */
  lemma {:induction false} HalfCloseCutsBytesIff(run: seq<Stream>, acts: seq<Action>, i: nat)
    requires IsRun(run, acts) && i < |acts| && acts[i] == RunShutdown && !run[i].dirtyShut
    ensures run[i + 1].dirtyShut <==> run[i].closed && run[i].out.data != [] && !Writes(run[i].events)
  {
    RunKeepsInv(run, acts, i);
    assert Enabled(run[i], acts[i]) && run[i + 1] == Do(run[i], acts[i]);
  }

  /** A connection is established and p is written, of which the kernel takes nothing. */
  lemma WrittenOnce(p: seq<Byte>) returns (s1: Stream, s2: Stream)
    requires p != []
    ensures Enabled(FRESH, Established) && s1 == Do(FRESH, Established)
    ensures Enabled(s1, Write(p, Wrote(0))) && s2 == Do(s1, Write(p, Wrote(0)))
    ensures s2.state.Connected? && s2.harm.Unharmed? && s2.out.Valid() && s2.out.data == p && s2.out.past == []
    ensures s2.accepted == p && s2.wire == [] && Writes(s2.events) && !s2.shut && s2.shutdownTasks == 0
  {
    MaskBits(EnableReading, EVENT_NONE);
    s1 := Do(FRESH, Established);
    MaskBits(EnableWriting, s1.events);
    WriteToEmptyIsComplete(s1.out, |p|);
    assert p[..0] == [] && p[0..] == p && p[..|p|] == p;
    hide Mask;
    s2 := Do(s1, Write(p, Wrote(0)));
  }

  /** And it does: a connection that was written to, lost its peer and was then shut down by its user ends
      with the bytes of p cut off. */
  lemma HalfCloseMayCutBytes(p: seq<Byte>) returns (run: seq<Stream>, acts: seq<Action>)
    requires p != []
    ensures IsRun(run, acts)
    ensures var s := run[|run| - 1]; s.shut && s.dirtyShut && s.accepted == s.out.data == p && s.wire == []
  {
    var s0 := FRESH;
    var s1, s2 := WrittenOnce(p);
    MaskBits(DisableAll, s2.events);
    hide Mask;
    var s3 := Do(s2, HandleClose);
    var s4 := Do(s3, ShutdownWrite);
    var s5 := Do(s4, RunShutdown);
    run, acts := [s0, s1, s2, s3, s4, s5], [Established, Write(p, Wrote(0)), HandleClose, ShutdownWrite, RunShutdown];
  }

  lemma QuietAfterShut(s: Stream, a: Action)
    requires Inv(s) && Enabled(s, a) && s.shut
    ensures Do(s, a).wire == s.wire && Do(s, a).shut
  {
  }

  /** No byte reaches the wire after SHUT_WR, closed or not. */
  lemma {:induction false} NothingAfterShutdown(run: seq<Stream>, acts: seq<Action>, i: nat, j: nat)
    requires IsRun(run, acts) && i <= j < |run| && run[i].shut
    ensures run[j].shut && run[j].wire == run[i].wire
    decreases j - i
  {
    if i < j {
      NothingAfterShutdown(run, acts, i, j - 1);
      RunKeepsInv(run, acts, j - 1);
      QuietAfterShut(run[j - 1], acts[j - 1]);
    }
  }

  lemma ClosedToWriters(s: Stream, a: Action)
    requires Enabled(s, a) && (s.state.Disconnecting? || s.state.Disconnected?)
    ensures var t := Do(s, a);
            && (t.state.Disconnecting? || t.state.Disconnected?) && t.accepted == s.accepted
            && t.shutdownTasks <= s.shutdownTasks
  {
    hide Mask, Writes, Written, Shifted;
  }

  /** ShutdownWrite on a connected stream is final: no byte is accepted after it, and no later call
      queues a second half-close. */
  lemma {:induction false} ShutdownWriteIsFinal(run: seq<Stream>, acts: seq<Action>, i: nat, j: nat)
    requires IsRun(run, acts) && i < j < |run| && acts[i] == ShutdownWrite && run[i].state.Connected?
    ensures run[j].state.Disconnecting? || run[j].state.Disconnected?
    ensures run[j].accepted == run[i].accepted && run[j].shutdownTasks <= 1
    decreases j - i
  {
    assert Enabled(run[j - 1], acts[j - 1]) && run[j] == Do(run[j - 1], acts[j - 1]);
    if j == i + 1 {
      RunKeepsInv(run, acts, i);
    } else {
      ShutdownWriteIsFinal(run, acts, i, j - 1);
      ClosedToWriters(run[j - 1], acts[j - 1]);
    }
  }

  /** A call of Write on a connected stream drops bytes exactly when the buffer truncates: bytes are
      buffered already, the new ones fit neither behind them nor behind a compaction, and yet are no
      more than the code takes to be room enough. */
  lemma WriteDropsIff(s: Stream, p: seq<Byte>, k: Kernel)
    requires Inv(s) && s.harm.Unharmed? && !s.closed && s.state.Connected? && p != [] && (k.Wrote? ==> k.n <= |p|)
    requires Direct(s) ==> k.Wrote?
    ensures DoWrite(s, p, k).accepted == s.accepted + p <==>
              !(&& s.out.data != [] && s.out.Writable() < |p| <= s.out.Writable() + |s.out.data|
                && s.out.Writable() + s.out.Front() < |p|)
  {
    if Direct(s) {
      WriteToEmptyIsComplete(s.out, |p| - k.n);
      assert p[..k.n] + p[k.n..] == p;
      assert p[k.n..][..|p| - k.n] == p[k.n..];
      assert s.accepted + p[..k.n] + p[k.n..] == s.accepted + p;
    } else {
      WriteIsCompleteIff(s.out, |p|);
      var n := WriteCount(s.out, |p|);
      if n == |p| { assert p[..n] == p; }
      else { assert |s.accepted + p[..n]| != |s.accepted + p|; }
    }
  }

  /** What a would-block answer does, and exactly when. A direct write panics. The write handler repeats a
      byte: one that was sent before is readable again, in front of the bytes still to be sent, so what
      will have reached the wire is no longer what was accepted; only if nothing was consumed before does
      the read index become negative. */
  lemma WouldBlockHarms(s: Stream, p: seq<Byte>)
    requires Inv(s) && s.harm.Unharmed?
    ensures DoWrite(s, p, WouldBlock).harm ==
              if s.state.Connected? && p != [] && Direct(s) then SliceOutOfRange else Unharmed
    ensures var t := DoHandleWrite(s, WouldBlock);
            if !Writes(s.events) then t == s
            else if s.out.past == [] then t.harm == NegativeIndex
            else
              && t.harm == ByteRepeated
              && (exists b :: b in s.wire && t.out.data == [b] + s.out.data)
              && t.wire + t.out.data != t.accepted && t.accepted == s.accepted
  {
    if Writes(s.events) && s.out.past != [] {
      var n := |s.out.past| - 1;
      var b := s.out.past[n];
      assert b in s.wire;
      assert Shifted(s.out, -1).data == [b] + s.out.data;
      assert |s.wire + ([b] + s.out.data)| != |s.accepted|;
    }
  }

  /** The repetition happens: after a partial write of the handler, its next call repeats the byte p[0]. */
  lemma HandlerMayRepeatByte(p: seq<Byte>) returns (run: seq<Stream>, acts: seq<Action>)
    requires |p| >= 2
    ensures IsRun(run, acts)
    ensures var s := run[|run| - 1]; s.accepted == p && s.wire == p[..1] && s.out.data == [p[0]] + p[1..]
  {
    var s0 := FRESH;
    var s1, s2 := WrittenOnce(p);
    hide Mask;
    var s3 := Do(s2, HandleWrite(Wrote(1)));
    assert s3.out.past == p[..1] && s3.out.data == p[1..] && s3.wire == p[..1];
    var s4 := Do(s3, HandleWrite(WouldBlock));
    run, acts := [s0, s1, s2, s3, s4], [Established, Write(p, Wrote(0)), HandleWrite(Wrote(1)), HandleWrite(WouldBlock)];
  }

  // ---------------------------------------------------------------- the code

  class TcpConn {
    var state: ConnState
    var events: Events
    const outbound: Buffer
    var shutdownTasks: nat
    var closed: bool
    var wire: seq<Byte>
    var accepted: seq<Byte>
    var shut: bool
    var dirtyShut: bool
    var harm: Harm

    ghost predicate Valid()
      reads this, outbound
    {
      outbound.Valid()
    }

    ghost function Abs(): Stream
      requires Valid()
      reads this, outbound, outbound.buf
    {
      Stream(state, events, outbound.Seen(), shutdownTasks, closed, wire, accepted, shut, dirtyShut, harm)
    }

    constructor ()
      ensures Valid() && fresh(outbound) && fresh(outbound.buf) && Abs() == FRESH
    {
      state, events := Connecting, EVENT_NONE;
      outbound := new Buffer();
      shutdownTasks, closed, wire, accepted, shut, dirtyShut, harm := 0, false, [], [], false, false, Unharmed;
    }

    /** Where the code slices with a negative bound the call ends with that harm done. */
    method Write(p: seq<Byte>, k: Kernel) returns (sent: nat, ok: bool)
      requires Valid() && (k.Wrote? ==> k.n <= |p|)
      modifies this`events, this`wire, this`accepted, this`harm, outbound, outbound.buf
      ensures Valid() && (outbound.buf == old(outbound.buf) || fresh(outbound.buf))
      ensures Abs() == DoWrite(old(Abs()), p, k)
      ensures sent <= |p| && wire == old(wire) + p[..sent]
      ensures ok <==> old(state).Connected? && (p == [] || !old(Direct(Abs())) || !k.Failed?)
      ensures !ok ==> sent == 0 && Abs() == old(Abs())
    {
      hide Buffered, Mask, Writes;
      sent, ok := 0, true;
      if state != Connected {
        ok := false;
        return;
      }
      if |p| == 0 {
        return;
      }
      if !Writes(events) && outbound.ReadableBytes() == 0 {
        if k.Failed? {
          ok := false;
          return;
        }
        if k.WouldBlock? {
          harm := SliceOutOfRange;
          return;
        }
        sent := k.n;
        wire, accepted := wire + p[..sent], accepted + p[..sent];
      }
      BufferedLeaves(Abs(), p[sent..]);
      if sent < |p| {
        BufferRest(p[sent..]);
      }
    }

    /** What the direct attempt did not send goes into the buffer, as far as the buffer takes it. */
    method BufferRest(rest: seq<Byte>)
      requires Valid() && rest != []
      modifies this`events, this`accepted, outbound, outbound.buf
      ensures Valid() && (outbound.buf == old(outbound.buf) || fresh(outbound.buf))
      ensures Abs() == Buffered(old(Abs()), rest)
    {
      hide Written, WriteCount, Mask, Writes;
      var n := outbound.Write(rest);
      accepted := accepted + rest[..n];
      if !Writes(events) {
        events := Mask(EnableWriting, events);
      }
    }

    method ShutdownWriteTask()
      requires Valid()
      modifies this`shut, this`dirtyShut
      ensures Valid() && Abs() == Shut(old(Abs()))
    {
      if !Writes(events) {
        shut, dirtyShut := true, dirtyShut || outbound.ReadableBytes() != 0;
      }
    }

    /** With a count of -1 the code goes on, and its buffer stays usable unless nothing was consumed. */
    method HandleWrite(k: Kernel)
      requires Valid() && !harm.NegativeIndex? && (k.Wrote? ==> k.n <= outbound.ReadableBytes())
      modifies this`events, this`wire, this`shut, this`dirtyShut, this`harm, outbound`readIndex
      ensures harm == DoHandleWrite(old(Abs()), k).harm
      ensures Valid() <==> !harm.NegativeIndex?
      ensures Valid() ==> Abs() == DoHandleWrite(old(Abs()), k)
    {
      if Writes(events) {
        var data := outbound.Peek();
        if k.Failed? {
          return;
        }
        if k.WouldBlock? {
          harm := if outbound.readIndex == 0 then NegativeIndex else ByteRepeated;
          outbound.Advance(-1);
          return;
        }
        wire := wire + data[..k.n];
        outbound.Advance(k.n);
        if outbound.ReadableBytes() == 0 {
          events := Mask(DisableWriting, events);
          if state == Disconnecting {
            ShutdownWriteTask();
          }
        }
      }
    }

    method ShutdownWrite()
      requires Valid()
      modifies this`state, this`shutdownTasks
      ensures Valid()
      ensures Abs() == if old(state).Connected?
                       then old(Abs()).(state := Disconnecting, shutdownTasks := old(shutdownTasks) + 1) else old(Abs())
    {
      if state == Connected {
        state := Disconnecting;
        shutdownTasks := shutdownTasks + 1;
      }
    }
  }
}

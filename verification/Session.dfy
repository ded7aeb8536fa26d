/** One memcached session (session.go) and the store it works on: an incremental parser that is handed
    the unread input whenever more bytes have arrived.

    What a request line asks for is given by a classifier, a function of the line alone: the code's
    tokenising, number parsing and length checks. Replies follow from the lines processed and the items
    completed, which the log records in order. */
module Session {
  import opened Wrappers
  import opened ByteBuffer
  import opened Store

  const CRLF: seq<Byte> := [CR, LF]

  datatype Request = Request(
    command: seq<Byte>, noreply: bool, policy: Policy, key: Key, flags: nat, exptime: int, valuelen: int, cas: nat)

  /** A storage command whose value is still to come. The key is a token, hence not empty; valuelen is the
      announced length plus two, and the announced length may be negative. */
  type GoodRequest = r: Request | |r.key| >= 1 && !r.policy.Invalid?
    witness Request([], false, Set, [0], 0, 0, 2, 0)

  datatype Outcome =
    | Done(erase: Option<Key>)      // processed, perhaps deleting a key; the request is over
    | Receive(request: GoodRequest) // a value follows
    | TooLarge(key: Key)            // a value follows that should be skipped; the key is deleted
    | Malformed                     // the code indexes past the tokens

  type Classifier = seq<Byte> -> Outcome

  /** What does not change while a server runs. */
  datatype Env = Env(classify: Classifier, hash: Hash)

  datatype Mode = NewCommand | RecvValue | DiscardValue
  datatype Protocol = Ascii | Binary | Auto

  /** The reply to an item is None for a bad data chunk. */
  datatype Event = Line(line: seq<Byte>) | ItemDone(policy: Policy, item: Draft, reply: Option<Reply>)

  /** A session, the store, its unread input and what it has done. */
  datatype Conf = Conf(
    mode: Mode,
    protocol: Protocol,
    command: seq<Byte>,
    noreply: bool,
    policy: Policy,
    currItem: Option<Draft>,
    bytesToDiscard: nat,
    bytesRead: nat,
    reqProcessed: nat,
    db: Db,
    input: seq<Byte>,
    log: seq<Event>,
    dead: bool)            // an assertion has failed or an index was out of range

  // ---------------------------------------------------------------- specification

  function Reset(c: Conf): Conf {
    c.(command := [], noreply := false, policy := Invalid, currItem := None, bytesToDiscard := 0)
  }

  /** What the assertions of processRequest ask for. */
  predicate RequestClear(c: Conf) {
    c.command == [] && !c.noreply && c.policy.Invalid? && c.currItem.None? && c.bytesToDiscard == 0
  }

  /** The length of the next line, or a number that is not positive when there is none to process. An
      empty line counts as none. */
  function LineEnd(c: Conf): int { SearchSpec(c.input, CRLF) }

  /** The code panics on the line: it indexes past the tokens, or makes an item of negative size. */
  predicate BadLine(env: Env, line: seq<Byte>) {
    match env.classify(line)
    case Malformed => true
    case Receive(r) => |r.key| + r.valuelen < 0
    case _ => false
  }

  /** What a line that is not bad asks for. */
  function Performed(env: Env, c: Conf, outcome: Outcome): (r: Conf)
    requires !outcome.Malformed? && (outcome.Receive? ==> |outcome.request.key| + outcome.request.valuelen >= 0)
    ensures r.input == c.input && r.bytesRead == c.bytesRead && r.dead == c.dead
  {
    match outcome
    case Done(None) => Reset(c)
    case Done(Some(k)) => Reset(c.(db := Deleted(c.db, env.hash, k).0))
    case Receive(r) =>
      c.(mode := RecvValue, command := r.command, noreply := r.noreply, policy := r.policy,
         currItem := Some(NewDraft(env.hash, r.key, r.flags, r.exptime, r.valuelen, r.cas)))
    case TooLarge(k) => Reset(c.(mode := DiscardValue, db := Deleted(c.db, env.hash, k).0))
  }

  /** processRequest, and the reset when it returns true. */
  function LineDone(env: Env, c: Conf, line: seq<Byte>): (r: Conf)
    ensures r.input == c.input
  {
    if !RequestClear(c) || BadLine(env, line) then c.(dead := true)
    else Performed(env, c.(log := c.log + [Line(line)], reqProcessed := c.reqProcessed + 1), env.classify(line))
  }

  /** A line is processed and then consumed. */
  function Processed(env: Env, c: Conf): Conf
    requires LineEnd(c) > 0
  {
    var n := LineEnd(c);
    var d := LineDone(env, c, c.input[..n]);
    if d.dead then d else d.(input := c.input[n + 2..])
  }

  predicate Receiving(c: Conf) { c.currItem.Some? && c.currItem.value.Valid() }

  predicate Full(d: Draft) { d.Valid() && d.NeedBytes() == 0 }

  /** What becomes of a full item: the store after it and the reply, or None where the code panics. */
  function Completed(hash: Hash, db: Db, d: Draft, policy: Policy): Option<(Db, Option<Reply>)>
    requires Full(d)
  {
    if d.recv < 2 then None                                    // EndWithCRLF indexes out of range
    else if !DraftEndsWithCRLF(d) then Some((db, None))        // bad data chunk
    else if d.valuelen < 0 then None                           // Key slices past the data
    else match StoreCall(db, hash, d.Finished(), policy)
      case None => None
      case Some((db', reply)) => Some((db', Some(reply)))
  }

  /** The end of recvValue. */
  function Ended(env: Env, c: Conf): Conf
    requires c.currItem.Some? && Full(c.currItem.value)
  {
    match Completed(env.hash, c.db, c.currItem.value, c.policy)
    case None => c.(dead := true)
    case Some((db, reply)) =>
      Reset(c.(db := db, log := c.log + [ItemDone(c.policy, c.currItem.value, reply)])).(mode := NewCommand)
  }

  /** Appends n bytes to the item; a full item ends the request. */
  function Take(env: Env, c: Conf, n: nat): Conf
    requires Receiving(c) && n <= |c.input| && n <= c.currItem.value.NeedBytes()
  {
    var d := c.(currItem := Some(Filled(c.currItem.value, c.input[..n])), input := c.input[n..]);
    if d.currItem.value.NeedBytes() != 0 then d else Ended(env, d)
  }

  /** recvValue */
  function Received(env: Env, c: Conf): Conf {
    if !Receiving(c) then c.(dead := true)
    else Take(env, c, Min(c.currItem.value.NeedBytes(), |c.input|))
  }

  function Discarded(c: Conf): Conf {
    if c.currItem.Some? then c.(dead := true)
    else if |c.input| < c.bytesToDiscard then c.(bytesToDiscard := c.bytesToDiscard - |c.input|, input := [])
    else Reset(c.(input := c.input[c.bytesToDiscard..])).(mode := NewCommand)
  }

  /** The loop in OnMsg goes round again. */
  predicate Busy(c: Conf) {
    !c.dead && c.input != [] && (c.mode.NewCommand? ==> LineEnd(c) > 0)
  }

  function Step(env: Env, c: Conf): (r: Conf)
    requires Busy(c)
    ensures r.dead || |r.input| < |c.input| || (|r.input| == |c.input| && !c.mode.NewCommand? && r.mode.NewCommand?)
  {
    match c.mode
    case NewCommand => Processed(env, c)
    case RecvValue => Received(env, c)
    case DiscardValue => Discarded(c)
  }

  /** The loop in OnMsg. It ends because every turn consumes input or leaves for a new command. */
  function Drain(env: Env, c: Conf): Conf
    decreases !c.dead, |c.input|, if c.mode.NewCommand? then 0 else 1
  {
    if Busy(c) then Drain(env, Step(env, c)) else c
  }

  function More(c: Conf, chunk: seq<Byte>): Conf { c.(input := c.input + chunk) }

  function Counted(c: Conf, before: nat): Conf
    requires |c.input| <= before
  {
    c.(bytesRead := c.bytesRead + (before - |c.input|))
  }

  /** OnMsg after `chunk` has arrived behind the unread input. */
  function Handled(env: Env, c: Conf, chunk: seq<Byte>): Conf {
    var start := More(c, chunk);
    DrainShrinks(env, start);
    var end := Drain(env, start);
    if end.dead then end else Counted(end, |start.input|)
  }

  lemma {:induction false} DrainShrinks(env: Env, c: Conf)
    ensures |Drain(env, c).input| <= |c.input|
    decreases !c.dead, |c.input|, if c.mode.NewCommand? then 0 else 1
  {
    if Busy(c) { DrainShrinks(env, Step(env, c)); }
  }

  // ---------------------------------------------------------------- fragmentation

  /** The turn ran out of input in the middle of a value. */
  predicate Partial(c: Conf) {
    || (c.mode.RecvValue? && Receiving(c) && c.currItem.value.NeedBytes() > |c.input|)
    || (c.mode.DiscardValue? && c.currItem.None? && |c.input| < c.bytesToDiscard)
  }

  /** Processing a line does not look at the input behind it, nor at the byte count. */
  lemma LineFrame(env: Env, c: Conf, line: seq<Byte>, input: seq<Byte>, n: nat)
    ensures LineDone(env, c.(input := input, bytesRead := n), line) == LineDone(env, c, line).(input := input, bytesRead := n)
    ensures LineDone(env, c, line).bytesRead == c.bytesRead
  {
    hide Deleted, NewDraft, BadLine;
  }

  lemma LineCommutes(env: Env, c: Conf, b: seq<Byte>)
    requires LineEnd(c) > 0
    ensures LineEnd(More(c, b)) == LineEnd(c) && Processed(env, More(c, b)) == More(Processed(env, c), b)
  {
    SearchIsStable(c.input, b, CRLF);
    hide SearchSpec, LineDone;
    var n := LineEnd(c);
    LineFrame(env, c, c.input[..n], c.input + b, c.bytesRead);
    assert More(c, b) == c.(input := c.input + b, bytesRead := c.bytesRead);
    assert (c.input + b)[..n] == c.input[..n];
    assert (c.input + b)[n + 2..] == c.input[n + 2..] + b;
  }

  lemma ReceiveCommutes(env: Env, c: Conf, b: seq<Byte>)
    requires Receiving(c) ==> c.currItem.value.NeedBytes() <= |c.input|
    ensures Received(env, More(c, b)) == More(Received(env, c), b)
  {
    hide Filled, Completed;
    if Receiving(c) {
      var n := c.currItem.value.NeedBytes();
      assert (c.input + b)[..n] == c.input[..n];
      assert (c.input + b)[n..] == c.input[n..] + b;
    }
  }

  lemma DiscardCommutes(c: Conf, b: seq<Byte>)
    requires c.currItem.None? ==> c.bytesToDiscard <= |c.input|
    ensures Discarded(More(c, b)) == More(Discarded(c), b)
  {
    if c.currItem.None? {
      var n := c.bytesToDiscard;
      assert (c.input + b)[n..] == c.input[n..] + b;
    }
  }

  /** A turn that did not run out of input does the same when more input follows. */
  lemma StepCommutes(env: Env, c: Conf, b: seq<Byte>)
    requires Busy(c) && !Partial(c)
    ensures Busy(More(c, b)) && Step(env, More(c, b)) == More(Step(env, c), b)
  {
    hide Processed, Received, Discarded, SearchSpec;
    match c.mode
    case NewCommand => LineCommutes(env, c, b);
    case RecvValue => ReceiveCommutes(env, c, b);
    case DiscardValue => DiscardCommutes(c, b);
  }

  lemma FilledTwice(d: Draft, p: seq<Byte>, q: seq<Byte>)
    requires d.Valid() && |p| + |q| <= d.NeedBytes()
    ensures Filled(Filled(d, p), q) == Filled(d, p + q)
  {
  }

  lemma TakeTwice(env: Env, c: Conf, b: seq<Byte>, m: nat)
    requires Receiving(c) && |c.input| < c.currItem.value.NeedBytes() && m <= |b| && |c.input| + m <= c.currItem.value.NeedBytes()
    ensures var x := Take(env, c, |c.input|);
            && x == c.(currItem := Some(Filled(c.currItem.value, c.input)), input := []) && Receiving(x)
            && Take(env, More(x, b), m) == Take(env, More(c, b), |c.input| + m)
  {
    var item := c.currItem.value;
    assert c.input[..|c.input|] == c.input;
    FilledTwice(item, c.input, b[..m]);
    hide Filled, Ended;
    var x := Take(env, c, |c.input|);
    assert (c.input + b)[..|c.input| + m] == c.input + b[..m];
    assert (c.input + b)[|c.input| + m..] == b[m..];
    assert More(x, b) == c.(currItem := Some(Filled(item, c.input)), input := b);
  }

  lemma ReceiveResumes(env: Env, c: Conf, b: seq<Byte>)
    requires c.mode.RecvValue? && Partial(c)
    ensures Received(env, c).input == [] && Received(env, c).dead == c.dead && Received(env, c).mode.RecvValue?
    ensures Received(env, More(Received(env, c), b)) == Received(env, More(c, b))
  {
    hide Take, Filled;
    var need := c.currItem.value.NeedBytes();
    var m := if need - |c.input| <= |b| then need - |c.input| else |b|;
    TakeTwice(env, c, b, m);
    assert More(Received(env, c), b).input == b;
  }

  lemma DiscardResumes(c: Conf, b: seq<Byte>)
    requires c.mode.DiscardValue? && Partial(c)
    ensures Discarded(c).input == [] && Discarded(c).dead == c.dead && Discarded(c).mode.DiscardValue?
    ensures Discarded(More(Discarded(c), b)) == Discarded(More(c, b))
  {
    var n, m := c.bytesToDiscard, |c.input|;
    assert More(Discarded(c), b) == c.(bytesToDiscard := n - m, input := b);
    if m + |b| >= n {
      assert (c.input + b)[n..] == b[n - m..];
      assert Discarded(More(c, b)) == Reset(c.(input := b[n - m..])).(mode := NewCommand);
    }
  }

  /** A turn that ran out of input, followed by the rest, is one turn over both. */
  lemma PartialResumes(env: Env, c: Conf, b: seq<Byte>)
    requires Busy(c) && Partial(c) && b != []
    ensures Step(env, c).input == [] && !Step(env, c).dead
    ensures Busy(More(c, b)) && Busy(More(Step(env, c), b))
    ensures Step(env, More(Step(env, c), b)) == Step(env, More(c, b))
  {
    hide Received, Discarded, Processed;
    if c.mode.RecvValue? { ReceiveResumes(env, c, b); } else { DiscardResumes(c, b); }
  }

  /** Draining what has arrived and then what arrives later is draining it all at once. */
  lemma {:induction false} DrainInPieces(env: Env, c: Conf, b: seq<Byte>)
    ensures Drain(env, More(c, b)) == Drain(env, More(Drain(env, c), b))
    decreases !c.dead, |c.input|, if c.mode.NewCommand? then 0 else 1
  {
    if Busy(c) {
      var x := Step(env, c);
      if !Partial(c) {
        StepCommutes(env, c, b);
        DrainInPieces(env, x, b);
      } else if b == [] {
        assert More(c, b) == c && More(Drain(env, c), b) == Drain(env, c);
        DrainIsDone(env, c);
      } else {
        PartialResumes(env, c, b);
        assert !Busy(x) && Drain(env, x) == x;
      }
    }
  }

  lemma {:induction false} DrainIsDone(env: Env, c: Conf)
    ensures !Busy(Drain(env, c)) && Drain(env, Drain(env, c)) == Drain(env, c)
    decreases !c.dead, |c.input|, if c.mode.NewCommand? then 0 else 1
  {
    if Busy(c) { DrainIsDone(env, Step(env, c)); }
  }

  lemma LineIgnoresCount(env: Env, c: Conf, n: nat)
    requires LineEnd(c) > 0
    ensures Processed(env, c.(bytesRead := n)) == Processed(env, c).(bytesRead := n)
    ensures Processed(env, c).bytesRead == c.bytesRead
  {
    hide SearchSpec, LineDone;
    LineFrame(env, c, c.input[..LineEnd(c)], c.input, n);
    assert c.(bytesRead := n) == c.(input := c.input, bytesRead := n);
  }

  lemma ValueIgnoresCount(env: Env, c: Conf, n: nat)
    ensures Received(env, c.(bytesRead := n)) == Received(env, c).(bytesRead := n)
    ensures Received(env, c).bytesRead == c.bytesRead
  {
    hide Filled, Completed;
  }

  lemma StepIgnoresCount(env: Env, c: Conf, n: nat)
    requires Busy(c)
    ensures Busy(c.(bytesRead := n)) && Step(env, c.(bytesRead := n)) == Step(env, c).(bytesRead := n)
    ensures Step(env, c).bytesRead == c.bytesRead
  {
    hide SearchSpec, Processed, Received;
    if c.mode.NewCommand? { LineIgnoresCount(env, c, n); }
    ValueIgnoresCount(env, c, n);
  }

  /** The loop does not touch the byte count, and would do the same under any other. */
  lemma {:induction false} DrainIgnoresCount(env: Env, c: Conf, n: nat)
    ensures Drain(env, c.(bytesRead := n)) == Drain(env, c).(bytesRead := n)
    ensures Drain(env, c).bytesRead == c.bytesRead
    decreases !c.dead, |c.input|, if c.mode.NewCommand? then 0 else 1
  {
    if Busy(c) {
      StepIgnoresCount(env, c, n);
      DrainIgnoresCount(env, Step(env, c), n);
    }
  }

  /** Fragmentation independence: two chunks one after the other leave the same lines, the same items,
      the same session and the same unread input as both at once; and if a malformed line ends the
      session, it does so either way. */
  lemma {:induction false} FragmentationIndependence(env: Env, c: Conf, a: seq<Byte>, b: seq<Byte>)
    ensures Handled(env, Handled(env, c, a), b).dead <==> Handled(env, c, a + b).dead
    ensures !Handled(env, c, a + b).dead ==> Handled(env, Handled(env, c, a), b) == Handled(env, c, a + b)
  {
    var start, mid := More(c, a), Drain(env, More(c, a));
    DrainShrinks(env, start);
    DrainInPieces(env, start, b);
    assert c.input + a + b == c.input + (a + b);
    assert More(start, b) == More(c, a + b);
    DrainShrinks(env, More(mid, b));
    DrainShrinks(env, More(c, a + b));
    DrainKeepsCount(env, start);
    if !mid.dead {
      var counted := Counted(mid, |start.input|);
      DrainIgnoresCount(env, More(mid, b), counted.bytesRead);
      assert More(counted, b) == More(mid, b).(bytesRead := counted.bytesRead);
    }
  }

  lemma DrainKeepsCount(env: Env, c: Conf)
    ensures Drain(env, c).bytesRead == c.bytesRead
  {
    DrainIgnoresCount(env, c, c.bytesRead);
  }

  /** A stream delivered as any sequence of chunks. */
  function Feed(env: Env, c: Conf, chunks: seq<seq<Byte>>): Conf {
    if chunks == [] then c else Handled(env, Feed(env, c, chunks[..|chunks| - 1]), chunks[|chunks| - 1])
  }

  function Join(chunks: seq<seq<Byte>>): seq<Byte> {
    if chunks == [] then [] else Join(chunks[..|chunks| - 1]) + chunks[|chunks| - 1]
  }

  /** Every split of a stream gives what the whole stream gives. */
  lemma {:induction false} AnySplitGivesTheSame(env: Env, c: Conf, chunks: seq<seq<Byte>>)
    requires chunks != []
    ensures Feed(env, c, chunks).dead <==> Handled(env, c, Join(chunks)).dead
    ensures !Handled(env, c, Join(chunks)).dead ==> Feed(env, c, chunks) == Handled(env, c, Join(chunks))
  {
    hide Handled;
    var init, last := chunks[..|chunks| - 1], chunks[|chunks| - 1];
    if init == [] {
      assert Join(init) == [] && [] + last == last;
      assert Feed(env, c, init) == c;
    } else {
      AnySplitGivesTheSame(env, c, init);
      FragmentationIndependence(env, c, Join(init), last);
      if Handled(env, c, Join(init)).dead {
        DeadStaysDead(env, Handled(env, c, Join(init)), last);
        DeadStaysDead(env, Feed(env, c, init), last);
      }
    }
  }

  lemma DeadStaysDead(env: Env, c: Conf, chunk: seq<Byte>)
    requires c.dead
    ensures Handled(env, c, chunk).dead
  {
  }

  // ---------------------------------------------------------------- when the session dies

  const FRESH := Conf(NewCommand, Ascii, [], false, Invalid, None, 0, 0, 0, EmptyDb(), [], [], false)

  /** At every head of the loop: the protocol is Ascii, nothing is to be discarded, no request is open
      unless a value is being received, and then some of it is missing, or all of it is nothing. */
  predicate SessionInv(c: Conf) {
    && c.protocol.Ascii? && c.bytesToDiscard == 0
    && (c.mode.RecvValue? ==>
          && Receiving(c) && c.currItem.value.keylen >= 1 && !c.policy.Invalid?
          && (!c.dead ==> c.currItem.value.NeedBytes() >= 1 || c.currItem.value.data == []))
    && (!c.mode.RecvValue? ==> RequestClear(c))
  }

  /** The next line is one the code panics on. */
  predicate AtBadLine(env: Env, c: Conf) {
    c.mode.NewCommand? && LineEnd(c) > 0 && BadLine(env, c.input[..LineEnd(c)])
  }

  /** The full items on which recvValue panics: fewer than two bytes; or a value that ends in CRLF and has
      a negative length, or is to be appended or prepended to a key that is there. */
  predicate FatalItem(db: Db, d: Draft, policy: Policy)
    requires d.Valid()
  {
    || |d.data| < 2
    || (TailIsCRLF(d.data) && (d.valuelen < 0 || (policy.Joins() && d.data[..d.keylen] in db.slots[SlotOf(d.hash)])))
  }

  lemma CompletedFailsIff(hash: Hash, db: Db, d: Draft, policy: Policy)
    requires Full(d) && d.keylen >= 1 && !policy.Invalid?
    ensures Completed(hash, db, d, policy).None? <==> FatalItem(db, d, policy)
  {
    hide StoreCall;
    if d.valuelen >= 0 {
      StorePanicsIff(db, hash, d.Finished(), policy);
      assert d.Finished().key != [];
    }
  }

  /** The item is full and fatal. One of no bytes at all is looked at only when input is there. */
  predicate AtFatalItem(c: Conf) {
    && c.mode.RecvValue? && c.currItem.Some? && Full(c.currItem.value)
    && FatalItem(c.db, c.currItem.value, c.policy)
    && (c.currItem.value.data != [] || c.input != [])
  }

  /** The input completes the item, and the item is fatal. */
  predicate CompletesFatally(c: Conf) {
    && c.mode.RecvValue? && Receiving(c) && c.currItem.value.NeedBytes() <= |c.input|
    && FatalItem(c.db, Filled(c.currItem.value, c.input[..c.currItem.value.NeedBytes()]), c.policy)
  }

  lemma LineKeepsInv(env: Env, c: Conf)
    requires SessionInv(c) && Busy(c) && c.mode.NewCommand?
    ensures SessionInv(Processed(env, c))
    ensures Processed(env, c).dead <==> AtBadLine(env, c)
    ensures Processed(env, c).dead ==> Processed(env, c) == c.(dead := true)
  {
    hide SearchSpec, Deleted;
  }

  lemma ValueKeepsInv(env: Env, c: Conf)
    requires SessionInv(c) && Busy(c) && c.mode.RecvValue?
    ensures SessionInv(Received(env, c))
    ensures Received(env, c).dead <==> CompletesFatally(c)
    ensures Received(env, c).dead ==> AtFatalItem(Received(env, c))
  {
    var item := c.currItem.value;
    var n := Min(item.NeedBytes(), |c.input|);
    var d := Filled(item, c.input[..n]);
    hide Filled, FatalItem, Completed, SearchSpec;
    if d.NeedBytes() == 0 { CompletedFailsIff(env.hash, c.db, d, c.policy); }
  }

  /** A turn fails exactly where it meets a bad line, which it leaves unread, or completes a fatal item. */
  lemma TurnKeepsInv(env: Env, c: Conf)
    requires SessionInv(c) && Busy(c)
    ensures SessionInv(Step(env, c))
    ensures Step(env, c).dead <==> AtBadLine(env, c) || CompletesFatally(c)
    ensures Step(env, c).dead ==> AtBadLine(env, Step(env, c)) || AtFatalItem(Step(env, c))
  {
    hide Processed, Received, SearchSpec, FatalItem, Filled, BadLine;
    match c.mode
    case NewCommand => LineKeepsInv(env, c);
    case RecvValue => ValueKeepsInv(env, c);
    case DiscardValue =>
  }

  /** The loop fails an assertion or an index only there. */
  lemma {:induction false} DrainKeepsInv(env: Env, c: Conf)
    requires SessionInv(c) && !c.dead
    ensures SessionInv(Drain(env, c))
    ensures Drain(env, c).dead ==> AtBadLine(env, Drain(env, c)) || AtFatalItem(Drain(env, c))
    decreases |c.input|, if c.mode.NewCommand? then 0 else 1
  {
    hide SessionInv, AtBadLine, AtFatalItem;
    if Busy(c) {
      TurnKeepsInv(env, c);
      if !Step(env, c).dead { DrainKeepsInv(env, Step(env, c)); }
    }
  }

  /** A live session at rest is at neither. */
  lemma RestIsSafe(env: Env, c: Conf)
    requires SessionInv(c) && !c.dead && !Busy(c)
    ensures !AtBadLine(env, c) && !AtFatalItem(c)
  {
  }

  /** One call of OnMsg on a sound session. */
  lemma HandledKeepsInv(env: Env, c: Conf, chunk: seq<Byte>)
    requires SessionInv(c) && !c.dead
    ensures SessionInv(Handled(env, c, chunk))
    ensures Handled(env, c, chunk).dead <==> AtBadLine(env, Handled(env, c, chunk)) || AtFatalItem(Handled(env, c, chunk))
    ensures !Handled(env, c, chunk).dead ==> !Busy(Handled(env, c, chunk))
  {
    hide FatalItem, BadLine;
    var start := More(c, chunk);
    DrainShrinks(env, start);
    DrainKeepsInv(env, start);
    DrainIsDone(env, start);
    var end := Drain(env, start);
    if !end.dead { RestIsSafe(env, end); }
  }

  /** A call of OnMsg: what the other sessions have left in the store, and the bytes that have arrived. */
  datatype Visit = Visit(db: Db, chunk: seq<Byte>)

  /** A session from its beginning. */
  function Serve(env: Env, visits: seq<Visit>): Conf {
    if visits == [] then FRESH
    else
      var c, visit := Serve(env, visits[..|visits| - 1]), visits[|visits| - 1];
      if c.dead then c else Handled(env, c.(db := visit.db), visit.chunk)
  }

  /** In every run, whatever the chunks and whatever happens to the store in between: the invariant holds,
      and the session is dead exactly when its next unread line is a bad one or the item it has just
      completed is fatal. */
  lemma {:induction false} SessionIsSound(env: Env, visits: seq<Visit>)
    ensures var c := Serve(env, visits);
            SessionInv(c) && (c.dead <==> AtBadLine(env, c) || AtFatalItem(c)) && (!c.dead ==> !Busy(c))
  {
    hide Handled, FatalItem, BadLine;
    if visits == [] {
      RestIsSafe(env, FRESH);
    } else {
      SessionIsSound(env, visits[..|visits| - 1]);
      var c, visit := Serve(env, visits[..|visits| - 1]), visits[|visits| - 1];
      if !c.dead { HandledKeepsInv(env, c.(db := visit.db), visit.chunk); }
    }
  }

  lemma LineChunk(env: Env, c: Conf, line: seq<Byte>)
    requires SessionInv(c) && !c.dead && c.mode.NewCommand? && c.input == [] && |line| > 0
    requires SearchSpec(line + CRLF, CRLF) == |line| && env.classify(line).Receive? && !BadLine(env, line)
    ensures var d, r := Handled(env, c, line + CRLF), env.classify(line).request;
            && SessionInv(d) && !d.dead && d.mode.RecvValue? && d.input == [] && d.policy == r.policy && d.db == c.db
            && d.currItem == Some(NewDraft(env.hash, r.key, r.flags, r.exptime, r.valuelen, r.cas))
  {
    hide SearchSpec;
    var start := More(c, line + CRLF);
    assert start.input == line + CRLF && start.input[..|line|] == line && start.input[|line| + 2..] == [];
    var d := Step(env, start);
    LineKeepsInv(env, start);
    assert Drain(env, start) == Drain(env, d) == d;
  }

  lemma ValueChunk(env: Env, c: Conf, value: seq<Byte>)
    requires SessionInv(c) && !c.dead && c.mode.RecvValue? && c.input == [] && value != []
    requires c.currItem.value.recv == 0 && c.currItem.value.NeedBytes() == |value|
    ensures Handled(env, c, value).dead <==> FatalItem(c.db, c.currItem.value.(data := value, recv := |value|), c.policy)
    ensures !Handled(env, c, value).dead ==>
              var d := Handled(env, c, value);
              && SessionInv(d) && d.mode.NewCommand? && d.input == []
              && Completed(env.hash, c.db, c.currItem.value.(data := value, recv := |value|), c.policy).Some?
              && d.db == Completed(env.hash, c.db, c.currItem.value.(data := value, recv := |value|), c.policy).value.0
  {
    var start := More(c, value);
    assert start.input == value && value[..|value|] == value;
    var item := Filled(c.currItem.value, value);
    assert item == c.currItem.value.(data := value, recv := |value|);
    ValueKeepsInv(env, start);
    hide Filled, FatalItem, Completed;
    var d := Step(env, start);
    assert d == Ended(env, start.(currItem := Some(item), input := []));
    assert Drain(env, start) == Drain(env, d) == d;
  }

  lemma SetCompletes(hash: Hash, db: Db, d: Draft)
    requires Full(d) && TailIsCRLF(d.data) && d.valuelen >= 0
    ensures var r := Completed(hash, db, d, Set);
            r.Some? && d.Finished().key in r.value.0.slots[SlotOf(d.hash)]
  {
  }

  /** Well-formed lines and values can kill a session: after a set of key k, an append to k does, as long as
      both values begin with the key, as NewItem makes them. */
  lemma AppendKillsSession(env: Env, set_: seq<Byte>, append: seq<Byte>, v: seq<Byte>, w: seq<Byte>)
    requires |set_| > 0 && SearchSpec(set_ + CRLF, CRLF) == |set_| && env.classify(set_).Receive?
    requires |append| > 0 && SearchSpec(append + CRLF, CRLF) == |append| && env.classify(append).Receive?
    requires var r, q := env.classify(set_).request, env.classify(append).request;
             && r.policy.Set? && q.policy.Joins() && q.key == r.key && r.valuelen >= 0 && q.valuelen >= 0
             && r.key <= v && |v| == |r.key| + r.valuelen && TailIsCRLF(v)
             && r.key <= w && |w| == |r.key| + q.valuelen && TailIsCRLF(w)
    ensures Feed(env, FRESH, [set_ + CRLF, v, append + CRLF, w]).dead
  {
    hide Handled, SearchSpec, Completed;
    var r, q := env.classify(set_).request, env.classify(append).request;
    var c1 := Handled(env, FRESH, set_ + CRLF);
    LineChunk(env, FRESH, set_);
    ValueChunk(env, c1, v);
    var c2 := Handled(env, c1, v);
    var d := c1.currItem.value.(data := v, recv := |v|);
    assert d.Finished().key == r.key;
    SetCompletes(env.hash, c1.db, d);
    LineChunk(env, c2, append);
    var c3 := Handled(env, c2, append + CRLF);
    ValueChunk(env, c3, w);
    assert w[..|r.key|] == r.key;
    FeedFour(env, FRESH, set_ + CRLF, v, append + CRLF, w);
  }

  lemma FeedOne(env: Env, c: Conf, chunks: seq<seq<Byte>>, chunk: seq<Byte>)
    ensures Feed(env, c, chunks + [chunk]) == Handled(env, Feed(env, c, chunks), chunk)
  {
    hide Handled;
    assert (chunks + [chunk])[..|chunks|] == chunks;
  }

  lemma FeedFour(env: Env, c: Conf, p: seq<Byte>, q: seq<Byte>, r: seq<Byte>, s: seq<Byte>)
    ensures Feed(env, c, [p, q, r, s]) == Handled(env, Handled(env, Handled(env, Handled(env, c, p), q), r), s)
  {
    hide Handled;
    assert [p, q, r, s] == [p, q, r] + [s] && [p, q, r] == [p, q] + [r] && [p, q] == [p] + [q] && [p] == [] + [p];
    FeedOne(env, c, [p, q, r], s);
    FeedOne(env, c, [p, q], r);
    FeedOne(env, c, [p], q);
    FeedOne(env, c, [], p);
  }

  // ---------------------------------------------------------------- what requests do

  /** A line is taken up to its CRLF and without it; what follows stays. */
  lemma LineIsTaken(env: Env, c: Conf, line: seq<Byte>, rest: seq<Byte>)
    requires SessionInv(c) && !c.dead && c.mode.NewCommand? && |line| > 0 && c.input == line + CRLF + rest
    requires SearchSpec(line + CRLF, CRLF) == |line| && !BadLine(env, line)
    ensures Busy(c) && !Step(env, c).dead && Step(env, c).input == rest
    ensures Step(env, c).log == c.log + [Line(line)] && Step(env, c).reqProcessed == c.reqProcessed + 1
  {
    SearchIsStable(line + CRLF, rest, CRLF);
    hide SearchSpec, BadLine, Deleted;
    assert c.input[..|line|] == line && c.input[|line| + 2..] == rest;
    LineKeepsInv(env, c);
  }

  /** What a line does to the store: a delete, and an object that is too large, leave the key out of it and
      touch no other; every other line leaves it alone. */
  lemma LineActsOnStore(env: Env, c: Conf, line: seq<Byte>)
    requires RequestClear(c) && !c.dead && !BadLine(env, line)
    ensures match env.classify(line)
            case Done(Some(k)) => Got(LineDone(env, c, line).db, env.hash, k).None?
            case TooLarge(k) => Got(LineDone(env, c, line).db, env.hash, k).None?
            case _ => LineDone(env, c, line).db == c.db
    ensures forall k :: env.classify(line) != Done(Some(k)) && env.classify(line) != TooLarge(k) ==>
              Got(LineDone(env, c, line).db, env.hash, k) == Got(c.db, env.hash, k)
  {
    match env.classify(line)
    case Done(Some(k)) => DeleteIsSeen(c.db, env.hash, k);
    case TooLarge(k) => DeleteIsSeen(c.db, env.hash, k);
    case _ =>
    hide Deleted, Got;
  }

  /** What a line does to the session: only a storage command leaves a request open, with its command, policy
      and an empty item of its key. */
  lemma LineActsOnSession(env: Env, c: Conf, line: seq<Byte>)
    requires RequestClear(c) && !c.dead && c.mode.NewCommand? && !BadLine(env, line)
    ensures var d := LineDone(env, c, line);
            match env.classify(line)
            case Receive(r) =>
              && d.mode.RecvValue? && d.command == r.command && d.noreply == r.noreply && d.policy == r.policy
              && d.currItem.Some? && d.currItem.value.recv == 0 && d.currItem.value.keylen == |r.key|
              && d.currItem.value.NeedBytes() == |r.key| + r.valuelen
            case TooLarge(_) => d.mode.DiscardValue? && RequestClear(d)
            case _ => d.mode.NewCommand? && RequestClear(d)
  {
    hide Deleted;
  }

  /** What a full item that is not fatal does: without CRLF it is a bad chunk and leaves the store alone;
      otherwise the store answers, and what it accepts is what its slot then holds under the key. */
  lemma ItemActs(hash: Hash, db: Db, d: Draft, policy: Policy)
    requires Full(d) && d.keylen >= 1 && policy.Plain() && !FatalItem(db, d, policy)
    ensures Completed(hash, db, d, policy).Some?
    ensures var (db', reply) := Completed(hash, db, d, policy).value;
            if !TailIsCRLF(d.data) then db' == db && reply.None?
            else
              && reply.Some? && d.valuelen >= 0
              && (!reply.value.success ==> db' == db)
              && (reply.value.success ==>
                    && d.Finished().key in db'.slots[SlotOf(d.hash)]
                    && db'.slots[SlotOf(d.hash)][d.Finished().key] == d.Finished().(cas := Token(db.issued + 1)))
  {
    hide Token;
    CompletedFailsIff(hash, db, d, policy);
  }

  // ---------------------------------------------------------------- counting

  function Total(chunks: seq<seq<Byte>>): nat { |Join(chunks)| }

  /** Every byte that has arrived is counted as read or still unread. */
  lemma {:induction false} BytesAreCounted(env: Env, c: Conf, chunks: seq<seq<Byte>>)
    requires !Feed(env, c, chunks).dead
    ensures !c.dead && Feed(env, c, chunks).bytesRead + |Feed(env, c, chunks).input| == c.bytesRead + |c.input| + Total(chunks)
  {
    if chunks != [] {
      var init, last := chunks[..|chunks| - 1], chunks[|chunks| - 1];
      var b := Feed(env, c, init);
      if b.dead {
        DeadStaysDead(env, b, last);
        assert false;
      }
      BytesAreCounted(env, c, init);
      DrainShrinks(env, More(b, last));
      DrainKeepsCount(env, More(b, last));
    }
  }

  function Lines(log: seq<Event>): nat {
    if log == [] then 0 else Lines(log[..|log| - 1]) + if log[|log| - 1].Line? then 1 else 0
  }

  lemma LinesAppend(log: seq<Event>, e: Event)
    ensures Lines(log + [e]) == Lines(log) + if e.Line? then 1 else 0
  {
    assert (log + [e])[..|log|] == log;
  }

  lemma StepCounts(env: Env, c: Conf)
    requires Busy(c) && c.reqProcessed == Lines(c.log)
    ensures Step(env, c).reqProcessed == Lines(Step(env, c).log)
  {
    hide SearchSpec, Processed, Received, Lines;
    match c.mode
    case NewCommand =>
      LineLogs(env, c);
      LinesAppend(c.log, Line(c.input[..LineEnd(c)]));
    case RecvValue =>
      var e := ValueLogs(env, c);
      LinesAppend(c.log, e);
    case DiscardValue =>
  }

  lemma LineLogs(env: Env, c: Conf)
    requires LineEnd(c) > 0
    ensures var r := Processed(env, c);
            || (r.log == c.log && r.reqProcessed == c.reqProcessed)
            || (r.log == c.log + [Line(c.input[..LineEnd(c)])] && r.reqProcessed == c.reqProcessed + 1)
  {
    hide SearchSpec, BadLine, Deleted;
  }

  lemma ValueLogs(env: Env, c: Conf) returns (e: Event)
    ensures !e.Line? && Received(env, c).reqProcessed == c.reqProcessed
    ensures Received(env, c).log == c.log || Received(env, c).log == c.log + [e]
  {
    hide Completed, Filled;
    var r := Received(env, c);
    e := if |r.log| > |c.log| then r.log[|c.log|] else ItemDone(Invalid, Draft(0, 0, 0, 0, 0, 0, [], 0), None);
  }

  lemma {:induction false} DrainCounts(env: Env, c: Conf)
    requires c.reqProcessed == Lines(c.log)
    ensures Drain(env, c).reqProcessed == Lines(Drain(env, c).log)
    decreases !c.dead, |c.input|, if c.mode.NewCommand? then 0 else 1
  {
    if Busy(c) {
      StepCounts(env, c);
      hide Step;
      DrainCounts(env, Step(env, c));
    }
  }

  /** In every run the number of requests counted is the number of lines processed. */
  lemma {:induction false} RequestsAreCounted(env: Env, visits: seq<Visit>)
    ensures Serve(env, visits).reqProcessed == Lines(Serve(env, visits).log)
  {
    if visits != [] {
      var c, visit := Serve(env, visits[..|visits| - 1]), visits[|visits| - 1];
      RequestsAreCounted(env, visits[..|visits| - 1]);
      var start := More(c.(db := visit.db), visit.chunk);
      DrainCounts(env, start);
      DrainShrinks(env, start);
    }
  }

  // ---------------------------------------------------------------- where the protocol is not met

  /** The value of an oversized object is not skipped: by the time it is discarded the count is 0. */
  lemma DiscardSkipsNothing(env: Env, c: Conf)
    requires SessionInv(c) && Busy(c) && c.mode.DiscardValue?
    ensures Step(env, c) == c.(mode := NewCommand)
  {
    assert c.input[0..] == c.input;
  }

  /** In every run, a live session that waits for a command holds a complete line exactly when its unread
      input begins with an empty one: nothing else is ever left unprocessed. */
  lemma UnreadLineIff(env: Env, visits: seq<Visit>)
    requires !Serve(env, visits).dead && Serve(env, visits).mode.NewCommand?
    ensures (exists n :: OccursAt(Serve(env, visits).input, CRLF, n)) <==> CRLF <= Serve(env, visits).input
  {
    SessionIsSound(env, visits);
    hide Serve;
    var c := Serve(env, visits);
    SearchFailsIff(c.input, CRLF);
    if CRLF <= c.input { assert OccursAt(c.input, CRLF, 0); }
  }

  lemma SearchFailsIff(data: seq<Byte>, s: seq<Byte>)
    requires s != []
    ensures SearchSpec(data, s) == -1 <==> forall n :: !OccursAt(data, s, n)
  {
  }

  /** An empty line is never consumed: the session waits on it for ever, whatever follows. */
  lemma {:induction false} EmptyLineBlocks(env: Env, c: Conf, chunks: seq<seq<Byte>>)
    requires c.mode.NewCommand? && !c.dead && CRLF <= c.input
    ensures Feed(env, c, chunks).mode.NewCommand? && !Feed(env, c, chunks).dead
    ensures Feed(env, c, chunks).input == c.input + Join(chunks)
    ensures Feed(env, c, chunks).log == c.log && Feed(env, c, chunks).db == c.db
  {
    if chunks == [] {
      assert c.input + [] == c.input;
    } else {
      var init, last := chunks[..|chunks| - 1], chunks[|chunks| - 1];
      EmptyLineBlocks(env, c, init);
      var start := More(Feed(env, c, init), last);
      assert start.input == c.input + Join(init) + last == c.input + (Join(init) + last);
      assert OccursAt(start.input, CRLF, 0) by { assert start.input[0..2] == c.input[..2]; }
      assert LineEnd(start) == 0;
    }
  }

  /** A value is taken to be keylen bytes longer than announced: a received item consumes keylen +
      valuelen bytes, and its key is the beginning of them, not the key of the command. */
  lemma ItemSwallowsKeyLength(env: Env, c: Conf, r: GoodRequest)
    requires !c.dead && c.mode.RecvValue? && c.policy == r.policy && r.valuelen >= 0 && |c.input| >= |r.key| + r.valuelen
    requires c.currItem == Some(NewDraft(env.hash, r.key, r.flags, r.exptime, r.valuelen, r.cas))
    ensures var n, s := |r.key| + r.valuelen, Received(env, c);
            var d := Draft(|r.key|, r.valuelen, r.flags, r.exptime, r.cas, env.hash(r.key), c.input[..n], n);
            && s.input == c.input[n..]
            && s.dead == Completed(env.hash, c.db, d, r.policy).None?
            && (!s.dead ==>
                  && s.mode.NewCommand?
                  && s.log == c.log + [ItemDone(r.policy, d, Completed(env.hash, c.db, d, r.policy).value.1)])
            && d.Finished().hash == env.hash(r.key) && (d.Finished().key == r.key <==> r.key <= c.input)
  {
    var n := |r.key| + r.valuelen;
    var item := NewDraft(env.hash, r.key, r.flags, r.exptime, r.valuelen, r.cas);
    var d := Draft(|r.key|, r.valuelen, r.flags, r.exptime, r.cas, env.hash(r.key), c.input[..n], n);
    assert Filled(item, c.input[..n]) == d;
    hide Filled, Completed;
    var s := Received(env, c);
    assert s == Ended(env, c.(currItem := Some(d), input := c.input[n..]));
    assert d.Finished().key == c.input[..|r.key|];
    assert c.input[..n][..|r.key|] == c.input[..|r.key|];
  }

  // ---------------------------------------------------------------- the code

  class ClientSession {
    const env: Env
    const m: Memcached
    var mode: Mode
    var protocol: Protocol
    var command: seq<Byte>
    var noreply: bool
    var policy: Policy
    var currItem: ItemBuffer?
    var bytesToDiscard: nat
    var bytesRead: nat
    var reqProcessed: nat
    var log: seq<Event>

    ghost function ItemRepr(): set<object>
      reads this
    {
      if currItem == null then {} else {currItem, currItem.data}
    }

    ghost predicate Valid(buf: Buffer)
      reads this, buf, ItemRepr(), m.slots
    {
      && buf.Valid() && m.Valid() && m.hash == env.hash
      && (currItem != null ==> currItem.Valid() && currItem.data != buf.buf)
    }

    ghost function Abs(buf: Buffer): Conf
      requires Valid(buf)
      reads this, buf, buf.buf, ItemRepr(), m, m.slots
    {
      Conf(mode, protocol, command, noreply, policy, if currItem == null then None else Some(currItem.Seen()),
           bytesToDiscard, bytesRead, reqProcessed, m.Abs(), buf.Seen().data, log, false)
    }

    constructor (env: Env, m: Memcached)
      requires m.hash == env.hash
      ensures this.env == env && this.m == m && currItem == null
      ensures mode == NewCommand && protocol == Ascii && command == [] && !noreply && policy == Invalid
      ensures bytesToDiscard == 0 && bytesRead == 0 && reqProcessed == 0 && log == []
    {
      this.env, this.m := env, m;
      mode, protocol, command, noreply, policy, currItem := NewCommand, Ascii, [], false, Invalid, null;
      bytesToDiscard, bytesRead, reqProcessed, log := 0, 0, 0, [];
    }

    method ResetRequest(ghost buf: Buffer)
      requires Valid(buf)
      modifies this
      ensures Valid(buf) && currItem == null && Abs(buf) == Reset(old(Abs(buf)))
    {
      command, noreply, policy, currItem, bytesToDiscard := [], false, Invalid, null, 0;
    }

    /** The end of DoUpdate for a value that will be received. */
    method StartItem(r: GoodRequest, ghost buf: Buffer)
      requires Valid(buf) && |r.key| + r.valuelen >= 0
      modifies this
      ensures Valid(buf) && fresh(ItemRepr() - old(ItemRepr()))
      ensures Abs(buf) == old(Abs(buf)).(mode := RecvValue, command := r.command, noreply := r.noreply, policy := r.policy,
                                         currItem := Some(NewDraft(env.hash, r.key, r.flags, r.exptime, r.valuelen, r.cas)))
    {
      command, noreply, policy := r.command, r.noreply, r.policy;
      currItem := new ItemBuffer(env.hash, r.key, r.flags, r.exptime, r.valuelen, r.cas);
      mode := RecvValue;
    }

    /** m.Delete, called for a delete and for an object that is too large. */
    method EraseKey(k: Key, ghost buf: Buffer)
      requires Valid(buf)
      modifies m.slots
      ensures Valid(buf) && Abs(buf) == old(Abs(buf)).(db := Deleted(old(Abs(buf)).db, env.hash, k).0)
    {
      var _ := m.Delete(k);
    }

    /** processRequest, and resetRequest when it returns true; false where the code panics. */
    method ProcessRequest(line: seq<Byte>, ghost buf: Buffer) returns (ok: bool)
      requires Valid(buf)
      modifies this, m.slots
      ensures Valid(buf) && fresh(ItemRepr() - old(ItemRepr()))
      ensures ok == !LineDone(env, old(Abs(buf)), line).dead
      ensures ok ==> Abs(buf) == LineDone(env, old(Abs(buf)), line)
    {
      hide Performed;
      if !(command == [] && !noreply && policy == Invalid && currItem == null && bytesToDiscard == 0) {
        return false;
      }
      var outcome := env.classify(line);
      if outcome.Malformed? || (outcome.Receive? && |outcome.request.key| + outcome.request.valuelen < 0) {
        return false;
      }
      reqProcessed, log := reqProcessed + 1, log + [Line(line)];
      Perform(outcome, buf);
      return true;
    }

    method Perform(outcome: Outcome, ghost buf: Buffer)
      requires Valid(buf) && !outcome.Malformed?
      requires outcome.Receive? ==> |outcome.request.key| + outcome.request.valuelen >= 0
      modifies this, m.slots
      ensures Valid(buf) && fresh(ItemRepr() - old(ItemRepr()))
      ensures Abs(buf) == Performed(env, old(Abs(buf)), outcome)
    {
      hide Deleted, NewDraft;
      match outcome {
        case Receive(r) => StartItem(r, buf);
        case Done(erase) =>
          if erase.Some? {
            EraseKey(erase.value, buf);
          }
          ResetRequest(buf);
        case TooLarge(k) =>
          EraseKey(k, buf);
          mode := DiscardValue;
          ResetRequest(buf);
      }
    }

    method TakeLine(buf: Buffer, search: int) returns (ok: bool)
      requires Valid(buf) && search == LineEnd(Abs(buf)) && search > 0
      modifies this, buf`readIndex, m.slots
      ensures Valid(buf) && fresh(ItemRepr() - old(ItemRepr()))
      ensures ok == !Processed(env, old(Abs(buf))).dead
      ensures ok ==> Abs(buf) == Processed(env, old(Abs(buf)))
    {
      hide SearchSpec, LineDone;
      var line := buf.Peek()[..search];
      ok := ProcessRequest(line, buf);
      if ok {
        buf.Advance(search + 2);
      }
    }

    /** The end of recvValue; false where the code panics. */
    method FinishItem(ghost buf: Buffer) returns (ok: bool)
      requires Valid(buf) && currItem != null && Full(currItem.Seen())
      modifies this, m`issued, m.slots
      ensures Valid(buf) && ItemRepr() <= old(ItemRepr())
      ensures ok == !Ended(env, old(Abs(buf))).dead
      ensures ok ==> Abs(buf) == Ended(env, old(Abs(buf)))
    {
      hide StoreCall, DraftEndsWithCRLF;
      ghost var c := Abs(buf);
      var crlf, short := currItem.EndWithCRLF();
      if short {
        return false;
      }
      var answer := None;
      if crlf {
        if currItem.valuelen < 0 {
          return false;
        }
        var item := currItem.Split();
        var reply, panicked := m.Store(item, policy);
        if panicked {
          return false;
        }
        answer := Some(reply);
      }
      var d := Draft(currItem.keylen, currItem.valuelen, currItem.flags, currItem.exptime, currItem.cas, currItem.hash,
                     currItem.data[..], currItem.recvBytes);
      assert Completed(env.hash, c.db, c.currItem.value, c.policy) == Some((m.Abs(), answer));
      log := log + [ItemDone(policy, d, answer)];
      ResetRequest(buf);
      mode := NewCommand;
      return true;
    }

    /** The beginning of recvValue. */
    method FillItem(buf: Buffer)
      requires Valid(buf) && currItem != null
      modifies buf`readIndex, currItem`recvBytes, currItem.data
      ensures Valid(buf)
      ensures var c := old(Abs(buf));
              var n := Min(c.currItem.value.NeedBytes(), |c.input|);
              Abs(buf) == c.(currItem := Some(Filled(c.currItem.value, c.input[..n])), input := c.input[n..])
    {
      hide Filled;
      var avail := buf.ReadableBytes();
      if currItem.NeedBytes() <= avail {
        avail := currItem.NeedBytes();
      }
      currItem.Append(buf.Peek()[..avail]);
      buf.Advance(avail);
    }

    method ReceiveValue(buf: Buffer) returns (ok: bool)
      requires Valid(buf) && mode == RecvValue
      modifies this, buf`readIndex, ItemRepr(), m`issued, m.slots
      ensures Valid(buf) && ItemRepr() <= old(ItemRepr())
      ensures ok == !Received(env, old(Abs(buf))).dead
      ensures ok ==> Abs(buf) == Received(env, old(Abs(buf)))
    {
      hide Filled, Ended;
      if currItem == null {
        return false;
      }
      FillItem(buf);
      ok := true;
      if currItem.NeedBytes() == 0 {
        ok := FinishItem(buf);
      }
    }

    method DiscardBytes(buf: Buffer) returns (ok: bool)
      requires Valid(buf) && mode == DiscardValue
      modifies this, buf`readIndex, buf`writeIndex
      ensures Valid(buf) && ItemRepr() <= old(ItemRepr())
      ensures ok == !Discarded(old(Abs(buf))).dead
      ensures ok ==> Abs(buf) == Discarded(old(Abs(buf)))
    {
      if currItem != null {
        return false;
      }
      if buf.ReadableBytes() < bytesToDiscard {
        bytesToDiscard := bytesToDiscard - buf.ReadableBytes();
        buf.Reset(0);
      } else {
        buf.Advance(bytesToDiscard);
        ResetRequest(buf);
        mode := NewCommand;
      }
      return true;
    }

    /** One turn of the loop in OnMsg. */
    method Turn(buf: Buffer) returns (ok: bool)
      requires Valid(buf) && Busy(Abs(buf))
      modifies this, buf`readIndex, buf`writeIndex, ItemRepr(), m`issued, m.slots
      ensures Valid(buf) && fresh(ItemRepr() - old(ItemRepr()))
      ensures ok == !Step(env, old(Abs(buf))).dead
      ensures ok ==> Abs(buf) == Step(env, old(Abs(buf)))
    {
      hide Processed, Received, Discarded;
      match mode {
        case NewCommand =>
          var search := buf.Search(CRLF);
          ok := TakeLine(buf, search);
        case RecvValue => ok := ReceiveValue(buf);
        case DiscardValue => ok := DiscardBytes(buf);
      }
    }

    /** One turn of the loop with its test for a line; `go` is false where the code breaks off. */
    method Round(buf: Buffer) returns (ok: bool, go: bool)
      requires Valid(buf) && SessionInv(Abs(buf)) && buf.ReadableBytes() > 0
      modifies this, buf`readIndex, buf`writeIndex, ItemRepr(), m`issued, m.slots
      ensures Valid(buf) && fresh(ItemRepr() - old(ItemRepr()))
      ensures !ok ==> Drain(env, old(Abs(buf))).dead
      ensures ok ==> SessionInv(Abs(buf)) && Drain(env, Abs(buf)) == Drain(env, old(Abs(buf)))
      ensures ok && !go ==> mode == NewCommand && !Busy(Abs(buf)) && Abs(buf) == old(Abs(buf))
      ensures ok && go ==>
                || buf.ReadableBytes() < old(buf.ReadableBytes())
                || (buf.ReadableBytes() == old(buf.ReadableBytes()) && old(mode) != NewCommand && mode == NewCommand)
    {
      hide Step, Drain, SearchSpec, SessionInv, AtBadLine, CompletesFatally, AtFatalItem;
      var search := buf.Search(CRLF);
      if mode == NewCommand && search <= 0 {
        return true, false;
      }
      TurnKeepsInv(env, Abs(buf));
      DeadIsDone(env, Abs(buf));
      ok := Turn(buf);
      go := true;
    }

    /** The protocol is Ascii in every run; with Binary the loop of the code would not end. A half-close is
        asked for when more than 1024 bytes are left that hold no line to process. */
    method OnMsg(buf: Buffer) returns (ok: bool, shutdown: bool)
      requires Valid(buf) && SessionInv(Abs(buf))
      modifies this, buf`readIndex, buf`writeIndex, ItemRepr(), m`issued, m.slots
      ensures Valid(buf)
      ensures ok == !Handled(env, old(Abs(buf)), []).dead
      ensures ok ==> Abs(buf) == Handled(env, old(Abs(buf)), [])
      ensures ok ==> (shutdown <==> mode == NewCommand && |Abs(buf).input| > 1024)
    {
      hide Step, Drain, SessionInv, Busy;
      ghost var start := Abs(buf);
      assert More(start, []) == start;
      var initialReadable := buf.ReadableBytes();
      var go := true;
      shutdown := false;
      while go && buf.ReadableBytes() > 0
        invariant Valid(buf) && fresh(ItemRepr() - old(ItemRepr()))
        invariant SessionInv(Abs(buf)) && Drain(env, Abs(buf)) == Drain(env, start)
        invariant !go ==> !Busy(Abs(buf)) && mode == NewCommand
        invariant shutdown <==> !go && buf.ReadableBytes() > 1024
        decreases go, buf.ReadableBytes(), if mode == NewCommand then 0 else 1
      {
        ok, go := Round(buf);
        if !ok {
          return;
        }
        shutdown := !go && buf.ReadableBytes() > 1024;
      }
      NotBusyIsDone(env, Abs(buf));
      DrainShrinks(env, start);
      bytesRead := bytesRead + (initialReadable - buf.ReadableBytes());
      return true, shutdown;
    }
  }

  lemma NotBusyIsDone(env: Env, c: Conf)
    requires !Busy(c) || c.input == []
    ensures Drain(env, c) == c
  {
  }

  lemma DeadIsDone(env: Env, c: Conf)
    requires Busy(c)
    ensures Drain(env, c) == Drain(env, Step(env, c))
    ensures Step(env, c).dead ==> Drain(env, c).dead
  {
  }
}

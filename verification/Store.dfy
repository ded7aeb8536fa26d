/** The sharded item store of the memcached example (memcached_server.go, item.go). Every operation
    holds the lock of its slot throughout, so operations are atomic; the cas counter is global. */
module Store {
  import opened Wrappers
  import opened ByteBuffer

  type Key = seq<Byte>

  const SLOTS: nat := 1024
  const CR: Byte := 13
  const LF: Byte := 10

  /** A complete item: its data split at keylen. NewItem computed `hash` from the key it was given, which
      need not be the key the data begin with. */
  datatype Item = Item(key: Key, value: seq<Byte>, flags: nat, exptime: int, cas: nat, hash: nat)

  datatype Policy = Invalid | Set | Add | Replace | Append | Prepend | Cas {
    /** The policies that store the item as it is. */
    predicate Plain() { Set? || Add? || Replace? || Cas? }
    predicate Joins() { Append? || Prepend? }
  }

  // ---------------------------------------------------------------- one flat map

  /** What the store means: one map from keys to items, and the number of tokens issued. */
  datatype Flat = Flat(items: map<Key, Item>, issued: nat)

  datatype Reply = Reply(success: bool, exist: bool)

  /** The token that the n-th atomic increment returns. */
  function Token(n: nat): nat { n % TWO_64 }

  predicate Admits(policy: Policy, old_: Option<Item>, item: Item) {
    match policy
    case Set => true
    case Add => old_.None?
    case Replace => old_.Some?
    case Cas => old_.Some? && old_.value.cas == item.cas
    case _ => false
  }

  function Lookup<V>(m: map<Key, V>, k: Key): Option<V> { if k in m then Some(m[k]) else None }

  function FlatStore(f: Flat, item: Item, policy: Policy): (Flat, Reply)
    requires policy.Plain()
  {
    var k := item.key;
    if Admits(policy, Lookup(f.items, k), item) then
      (Flat(f.items[k := item.(cas := Token(f.issued + 1))], f.issued + 1), Reply(true, k in f.items))
    else (f, Reply(false, k in f.items))
  }

  function FlatDelete(f: Flat, k: Key): (Flat, bool) { (f.(items := f.items - {k}), k in f.items) }

  // ---------------------------------------------------------------- the slots

  type Slots = s: seq<map<Key, Item>> | |s| == SLOTS witness seq(SLOTS, _ => map[])

  datatype Db = Db(slots: Slots, issued: nat)

  function EmptyDb(): Db { Db(seq(SLOTS, _ => map[]), 0) }

  type Hash = Key -> nat

  function SlotOf(h: nat): nat { h % SLOTS }

  /** Store for the policies that do not build a new item. */
  function Stored(db: Db, item: Item, policy: Policy): (Db, Reply)
    requires policy.Plain()
  {
    var i, k := SlotOf(item.hash), item.key;
    var exist := k in db.slots[i];
    if Admits(policy, Lookup(db.slots[i], k), item) then
      (Db(db.slots[i := db.slots[i][k := item.(cas := Token(db.issued + 1))]], db.issued + 1), Reply(true, exist))
    else (db, Reply(false, exist))
  }

  function Got(db: Db, hash: Hash, k: Key): Option<Item> { Lookup(db.slots[SlotOf(hash(k))], k) }

  function Deleted(db: Db, hash: Hash, k: Key): (Db, bool) {
    var i := SlotOf(hash(k));
    (db.(slots := db.slots[i := db.slots[i] - {k}]), k in db.slots[i])
  }

  /** Every key lives in the slot of its hash. */
  ghost predicate Placed(db: Db, hash: Hash) {
    forall i, k :: 0 <= i < SLOTS && k in db.slots[i] ==> SlotOf(hash(k)) == i
  }

  ghost predicate Refines(db: Db, hash: Hash, f: Flat) {
    && Placed(db, hash) && f.issued == db.issued
    && (forall k :: k in f.items ==> k in db.slots[SlotOf(hash(k))] && db.slots[SlotOf(hash(k))][k] == f.items[k])
    && (forall i, k :: 0 <= i < SLOTS && k in db.slots[i] ==> k in f.items)
  }

  predicate WellHashed(item: Item, hash: Hash) { item.hash == hash(item.key) }

  lemma PutRefines(db: Db, hash: Hash, f: Flat, k: Key, item: Item, issued: nat)
    requires Refines(db, hash, f)
    ensures var i := SlotOf(hash(k));
            Refines(Db(db.slots[i := db.slots[i][k := item]], issued), hash, Flat(f.items[k := item], issued))
  {
    var i := SlotOf(hash(k));
    var slots := db.slots[i := db.slots[i][k := item]];
    assert forall j, x :: 0 <= j < SLOTS && x in slots[j] ==> x in db.slots[j] || (j == i && x == k);
  }

  /** For well-hashed items the slots behave as one flat map, replies included. */
  lemma StoreRefines(db: Db, hash: Hash, f: Flat, item: Item, policy: Policy)
    requires Refines(db, hash, f) && WellHashed(item, hash) && policy.Plain()
    ensures Refines(Stored(db, item, policy).0, hash, FlatStore(f, item, policy).0)
    ensures Stored(db, item, policy).1 == FlatStore(f, item, policy).1
  {
    var k := item.key;
    GetRefines(db, hash, f, k);
    PutRefines(db, hash, f, k, item.(cas := Token(db.issued + 1)), db.issued + 1);
    assert f.issued == db.issued;
    hide Refines, Token, SlotOf;
  }

  lemma GetRefines(db: Db, hash: Hash, f: Flat, k: Key)
    requires Refines(db, hash, f)
    ensures Got(db, hash, k) == Lookup(f.items, k)
  {
  }

  lemma DeleteRefines(db: Db, hash: Hash, f: Flat, k: Key)
    requires Refines(db, hash, f)
    ensures Refines(Deleted(db, hash, k).0, hash, FlatDelete(f, k).0)
    ensures Deleted(db, hash, k).1 == FlatDelete(f, k).1
  {
    var db' := Deleted(db, hash, k).0;
    forall i, x | 0 <= i < SLOTS && x in db'.slots[i] ensures SlotOf(hash(x)) == i && x in FlatDelete(f, k).0.items {
      assert x in db.slots[i];
    }
  }

  /** An item whose hash is not that of its key is stored where its key is not looked for: a Set is seen
      by the next Get of the key exactly when the two hashes share a slot. */
  lemma SetIsVisibleIff(db: Db, hash: Hash, item: Item)
    requires forall i, k :: 0 <= i < SLOTS && k in db.slots[i] ==> db.slots[i][k].cas != Token(db.issued + 1)
    ensures Got(Stored(db, item, Set).0, hash, item.key) == Some(item.(cas := Token(db.issued + 1))) <==>
              SlotOf(item.hash) == SlotOf(hash(item.key))
  {
    var k, i, j := item.key, SlotOf(item.hash), SlotOf(hash(item.key));
    var db' := Stored(db, item, Set).0;
    if i != j {
      assert db'.slots[j] == db.slots[j];
    }
  }

  // ---------------------------------------------------------------- compare and swap over runs

  /** The changes a run has made. */
  datatype Event = Wrote(key: Key, token: nat) | Erased(key: Key)

  datatype Op = StoreOp(item: Item, policy: Policy) | DeleteOp(key: Key)

  datatype State = State(db: Db, log: seq<Event>)

  predicate Callable(op: Op, hash: Hash) {
    op.StoreOp? ==> WellHashed(op.item, hash) && op.policy.Plain()
  }

  function Do(s: State, hash: Hash, op: Op): State
    requires Callable(op, hash)
  {
    match op
    case StoreOp(item, policy) =>
      var (db, reply) := Stored(s.db, item, policy);
      State(db, if reply.success then s.log + [Wrote(item.key, Token(s.db.issued + 1))] else s.log)
    case DeleteOp(k) =>
      var (db, done) := Deleted(s.db, hash, k);
      State(db, if done then s.log + [Erased(k)] else s.log)
  }

  ghost predicate IsRun(run: seq<State>, ops: seq<Op>, hash: Hash) {
    && |run| == |ops| + 1
    && run[0] == State(EmptyDb(), [])
    && forall i :: 0 <= i < |ops| ==> Callable(ops[i], hash) && run[i + 1] == Do(run[i], hash, ops[i])
  }

  /** The last change made to a key. */
  function LastOn(log: seq<Event>, k: Key): Option<Event> {
    if log == [] then None
    else if log[|log| - 1].key == k then Some(log[|log| - 1])
    else LastOn(log[..|log| - 1], k)
  }

  /** Token t was issued by a store to k, and nothing has been stored or deleted under k since. */
  ghost predicate Current(log: seq<Event>, k: Key, t: nat) {
    exists i :: 0 <= i < |log| && log[i] == Wrote(k, t) && forall j :: i < j < |log| ==> log[j].key != k
  }

  lemma {:induction false} LastOnMeaning(log: seq<Event>, k: Key, t: nat)
    ensures LastOn(log, k) == Some(Wrote(k, t)) <==> Current(log, k, t)
  {
    if log != [] {
      var n := |log| - 1;
      if log[n].key == k {
        if log[n] == Wrote(k, t) { assert Current(log, k, t); }
      } else {
        LastOnMeaning(log[..n], k, t);
        if Current(log[..n], k, t) {
          var i :| 0 <= i < n && log[..n][i] == Wrote(k, t) && forall j :: i < j < n ==> log[..n][j].key != k;
          assert log[i] == Wrote(k, t) && forall j :: i < j < |log| ==> j == n || log[j] == log[..n][j];
        }
        if Current(log, k, t) {
          var i :| 0 <= i < |log| && log[i] == Wrote(k, t) && forall j :: i < j < |log| ==> log[j].key != k;
          assert i < n && log[..n][i] == Wrote(k, t) && forall j :: i < j < n ==> log[..n][j] == log[j];
        }
      }
    }
  }

  lemma LastOnAppend(log: seq<Event>, e: Event, k: Key)
    ensures LastOn(log + [e], k) == if e.key == k then Some(e) else LastOn(log, k)
  {
    assert (log + [e])[..|log|] == log;
  }

  /** What is found under k is what was last stored under it. */
  ghost predicate Agrees(s: State, hash: Hash, k: Key) {
    match LastOn(s.log, k)
    case None => Got(s.db, hash, k).None?
    case Some(Erased(_)) => Got(s.db, hash, k).None?
    case Some(Wrote(_, t)) => Got(s.db, hash, k).Some? && Got(s.db, hash, k).value.cas == t
  }

  ghost predicate Inv(s: State, hash: Hash) {
    && Placed(s.db, hash)
    && (forall k :: Agrees(s, hash, k))
    && (s.db.issued < TWO_64 ==> TokensOk(s))
  }

  /** Tokens grow along the log and stay below what has been issued. */
  ghost predicate TokensOk(s: State) {
    && (forall i :: 0 <= i < |s.log| && s.log[i].Wrote? ==> 1 <= s.log[i].token <= s.db.issued)
    && (forall i, j :: 0 <= i < j < |s.log| && s.log[i].Wrote? && s.log[j].Wrote? ==> s.log[i].token < s.log[j].token)
  }

  lemma StepKeepsPlaced(s: State, hash: Hash, op: Op)
    requires Placed(s.db, hash) && Callable(op, hash)
    ensures Placed(Do(s, hash, op).db, hash)
  {
    var s' := Do(s, hash, op);
    if op.DeleteOp? {
      forall i, k | 0 <= i < SLOTS && k in s'.db.slots[i] ensures SlotOf(hash(k)) == i {
        assert k in s.db.slots[i];
      }
    }
  }

  lemma StepAgrees(s: State, hash: Hash, op: Op, k: Key)
    requires Placed(s.db, hash) && Callable(op, hash) && Agrees(s, hash, k)
    ensures Agrees(Do(s, hash, op), hash, k)
  {
    var s' := Do(s, hash, op);
    if s'.log != s.log { LastOnAppend(s.log, s'.log[|s.log|], k); }
  }

  lemma StepKeepsInv(s: State, hash: Hash, op: Op)
    requires Inv(s, hash) && Callable(op, hash)
    ensures Inv(Do(s, hash, op), hash)
  {
    hide Agrees, Placed;
    forall k ensures Agrees(Do(s, hash, op), hash, k) {
      StepAgrees(s, hash, op, k);
    }
    StepKeepsPlaced(s, hash, op);
  }

  lemma {:induction false} RunKeepsInv(run: seq<State>, ops: seq<Op>, hash: Hash, i: nat)
    requires IsRun(run, ops, hash) && i < |run|
    ensures Inv(run[i], hash)
  {
    if i > 0 {
      RunKeepsInv(run, ops, hash, i - 1);
      StepKeepsInv(run[i - 1], hash, ops[i - 1]);
    }
  }

  /** Issued tokens are unique and increasing, as long as the counter has not wrapped. */
  lemma {:induction false} TokensAreFresh(run: seq<State>, ops: seq<Op>, hash: Hash, i: nat)
    requires IsRun(run, ops, hash) && i < |run| && run[i].db.issued < TWO_64
    ensures TokensOk(run[i])
  {
    RunKeepsInv(run, ops, hash, i);
  }

  /** In every run a Cas with token t succeeds iff t was issued by a store to that key and no store or
      delete of that key has succeeded since. */
  lemma {:induction false} CasSucceedsIff(run: seq<State>, ops: seq<Op>, hash: Hash, i: nat, item: Item)
    requires IsRun(run, ops, hash) && i < |run| && WellHashed(item, hash)
    ensures Stored(run[i].db, item, Cas).1.success <==> Current(run[i].log, item.key, item.cas)
  {
    RunKeepsInv(run, ops, hash, i);
    assert Agrees(run[i], hash, item.key);
    LastOnMeaning(run[i].log, item.key, item.cas);
    var last := LastOn(run[i].log, item.key);
    LastOnKey(run[i].log, item.key);
  }

  /** The key has been stored and not been deleted since. */
  ghost predicate Present(log: seq<Event>, k: Key) { exists t :: Current(log, k, t) }

  lemma PresentMeaning(log: seq<Event>, k: Key)
    ensures Present(log, k) <==> LastOn(log, k).Some? && LastOn(log, k).value.Wrote?
  {
    LastOnKey(log, k);
    if Present(log, k) {
      var t :| Current(log, k, t);
      LastOnMeaning(log, k, t);
    }
    if LastOn(log, k).Some? && LastOn(log, k).value.Wrote? {
      LastOnMeaning(log, k, LastOn(log, k).value.token);
      assert Current(log, k, LastOn(log, k).value.token);
    }
  }

  /** In every run a Get finds something exactly under the keys that are present. */
  lemma {:induction false} GetFindsIff(run: seq<State>, ops: seq<Op>, hash: Hash, i: nat, k: Key)
    requires IsRun(run, ops, hash) && i < |run|
    ensures Got(run[i].db, hash, k).Some? <==> Present(run[i].log, k)
  {
    RunKeepsInv(run, ops, hash, i);
    assert Agrees(run[i], hash, k);
    PresentMeaning(run[i].log, k);
  }

  /** In every run: Set succeeds always, Add iff the key is absent, Replace iff it is present; the reply says
      whether it was present. (For Cas see CasSucceedsIff.) */
  lemma {:induction false} StoreSucceedsIff(run: seq<State>, ops: seq<Op>, hash: Hash, i: nat, item: Item, policy: Policy)
    requires IsRun(run, ops, hash) && i < |run| && WellHashed(item, hash) && policy.Plain()
    ensures Stored(run[i].db, item, policy).1.exist <==> Present(run[i].log, item.key)
    ensures policy.Set? ==> Stored(run[i].db, item, policy).1.success
    ensures policy.Add? ==> (Stored(run[i].db, item, policy).1.success <==> !Present(run[i].log, item.key))
    ensures policy.Replace? ==> (Stored(run[i].db, item, policy).1.success <==> Present(run[i].log, item.key))
  {
    GetFindsIff(run, ops, hash, i, item.key);
    hide IsRun, Present;
  }

  /** A successful store is what the next Get of its key finds, under a new token; a refused one changes
      nothing; and no store concerns another key. */
  lemma StoreIsSeen(db: Db, hash: Hash, item: Item, policy: Policy)
    requires WellHashed(item, hash) && policy.Plain()
    ensures Stored(db, item, policy).1.success ==>
              Got(Stored(db, item, policy).0, hash, item.key) == Some(item.(cas := Token(db.issued + 1)))
    ensures Stored(db, item, policy).1.success ==> Stored(db, item, policy).0.issued == db.issued + 1
    ensures !Stored(db, item, policy).1.success ==> Stored(db, item, policy).0 == db
    ensures forall k :: k != item.key ==> Got(Stored(db, item, policy).0, hash, k) == Got(db, hash, k)
  {
    hide Token;
  }

  /** A delete reports whether the key was there; the next Get of it finds nothing, and no other key is
      concerned. */
  lemma DeleteIsSeen(db: Db, hash: Hash, k: Key)
    ensures Deleted(db, hash, k).1 <==> Got(db, hash, k).Some?
    ensures Got(Deleted(db, hash, k).0, hash, k).None? && Deleted(db, hash, k).0.issued == db.issued
    ensures forall x :: x != k ==> Got(Deleted(db, hash, k).0, hash, x) == Got(db, hash, x)
  {
  }

  lemma {:induction false} LastOnKey(log: seq<Event>, k: Key)
    ensures LastOn(log, k).Some? ==> LastOn(log, k).value.key == k
  {
    if log != [] { LastOnKey(log[..|log| - 1], k); }
  }

  /** The flat map after a sequence of operations. */
  function FlatAfter(ops: seq<Op>, hash: Hash): Flat
    requires forall i :: 0 <= i < |ops| ==> Callable(ops[i], hash)
  {
    if ops == [] then Flat(map[], 0)
    else
      var f := FlatAfter(ops[..|ops| - 1], hash);
      assert Callable(ops[|ops| - 1], hash);
      match ops[|ops| - 1]
      case StoreOp(item, policy) => FlatStore(f, item, policy).0
      case DeleteOp(k) => FlatDelete(f, k).0
  }

  /** In every run the slots refine the flat map, so sharding is invisible. */
  lemma {:induction false} SlotsRefineFlatMap(run: seq<State>, ops: seq<Op>, hash: Hash, i: nat)
    requires IsRun(run, ops, hash) && i < |run|
    ensures Refines(run[i].db, hash, FlatAfter(ops[..i], hash))
  {
    if i > 0 {
      SlotsRefineFlatMap(run, ops, hash, i - 1);
      assert ops[..i][..i - 1] == ops[..i - 1] && ops[..i][i - 1] == ops[i - 1];
      var f := FlatAfter(ops[..i - 1], hash);
      assert run[i] == Do(run[i - 1], hash, ops[i - 1]);
      match ops[i - 1]
      case StoreOp(item, policy) => StoreRefines(run[i - 1].db, hash, f, item, policy);
      case DeleteOp(k) => DeleteRefines(run[i - 1].db, hash, f, k);
    }
  }

  // ---------------------------------------------------------------- items under construction

  /** An item that is being filled: `recv` bytes of its data have been written. The length of the value
      is negative when the announced one was below -2. */
  datatype Draft = Draft(
    keylen: nat, valuelen: int, flags: nat, exptime: int, cas: nat, hash: nat, data: seq<Byte>, recv: nat)
  {
    predicate Valid() { keylen + valuelen == |data| && recv <= |data| }
    function NeedBytes(): int { keylen + valuelen - recv }
    /** data[:keylen] and data[keylen:] */
    function Finished(): Item
      requires keylen <= |data|
    {
      Item(data[..keylen], data[keylen..], flags, exptime, cas, hash)
    }
  }

  function Zeros(n: nat): (z: seq<Byte>)
    ensures |z| == n
  {
    seq(n, _ => 0)
  }

  /** NewItem as coded: the key is measured and hashed, but not copied into the data. */
  function NewDraft(hash: Hash, key: Key, flags: nat, exptime: int, valuelen: int, cas: nat): (d: Draft)
    requires |key| + valuelen >= 0
    ensures d.Valid() && d.NeedBytes() == |key| + valuelen
  {
    Draft(|key|, valuelen, flags, exptime, cas, hash(key), Zeros(|key| + valuelen), 0)
  }

  /** NewItem as intended. */
  function RepairedDraft(hash: Hash, key: Key, flags: nat, exptime: int, valuelen: nat, cas: nat): (d: Draft)
    ensures d.Valid() && d.NeedBytes() == valuelen
  {
    Draft(|key|, valuelen, flags, exptime, cas, hash(key), key + Zeros(valuelen), |key|)
  }

  function Filled(d: Draft, p: seq<Byte>): (r: Draft)
    requires d.Valid() && |p| <= d.NeedBytes()
    ensures r.Valid() && r.NeedBytes() == d.NeedBytes() - |p|
    ensures r.data[..r.recv] == d.data[..d.recv] + p
    ensures r == d.(data := r.data, recv := r.recv)
  {
    d.(data := d.data[..d.recv] + p + d.data[d.recv + |p|..], recv := d.recv + |p|)
  }

  /** The bytes received so far end in CRLF. With fewer than two of them the code indexes out of range. */
  predicate DraftEndsWithCRLF(d: Draft)
    requires 2 <= d.recv <= |d.data|
  {
    d.data[d.recv - 2] == CR && d.data[d.recv - 1] == LF
  }

  predicate TailIsCRLF(v: seq<Byte>) { |v| >= 2 && v[|v| - 2] == CR && v[|v| - 1] == LF }

  /** Append cuts the CRLF off the old value, prepend off the new one. */
  predicate Sliceable(policy: Policy, old_: Item, item: Item) {
    if policy.Append? then |old_.value| >= 2 else |item.value| >= 2
  }

  /** The two parts that append and prepend put together. */
  function Parts(policy: Policy, old_: Item, item: Item): (parts: (seq<Byte>, seq<Byte>))
    requires Sliceable(policy, old_, item)
    ensures |parts.0| + |parts.1| == |item.value| + |old_.value| - 2
  {
    if policy.Append? then (old_.value[..|old_.value| - 2], item.value)
    else (item.value[..|item.value| - 2], old_.value)
  }

  /** The joined item, or None where an assertion behind it, or an index in it, fails. */
  function Joined(start: Draft, parts: (seq<Byte>, seq<Byte>)): (r: Option<Draft>)
    requires start.Valid() && |parts.0| + |parts.1| <= start.NeedBytes()
    ensures r.Some? ==> r.value.Valid() && r.value.keylen == start.keylen && r.value.valuelen == start.valuelen
  {
    var d := Filled(Filled(start, parts.0), parts.1);
    if d.NeedBytes() == 0 && d.recv >= 2 && DraftEndsWithCRLF(d) then Some(d) else None
  }

  /** The item that append and prepend begin with. */
  function JoinStart(hash: Hash, old_: Item, item: Item, cas: nat): (d: Draft)
    requires |item.value| + |old_.value| >= 2
    ensures d.Valid() && d.NeedBytes() == |item.key| + |item.value| + |old_.value| - 2
  {
    NewDraft(hash, item.key, item.flags, item.exptime, |item.value| + |old_.value| - 2, cas)
  }

  /** As coded, append and prepend to an existing item panic for every non-empty key. */
  lemma JoinPanicsIff(hash: Hash, policy: Policy, old_: Item, item: Item, cas: nat)
    requires Sliceable(policy, old_, item)
    ensures var parts := Parts(policy, old_, item);
            Joined(JoinStart(hash, old_, item, cas), parts).None? <==> item.key != [] || !TailIsCRLF(parts.0 + parts.1)
  {
    var start, parts := JoinStart(hash, old_, item, cas), Parts(policy, old_, item);
    FilledTwiceIs(start, parts);
    assert start.data[..start.recv] + parts.0 + parts.1 == parts.0 + parts.1;
    hide Filled, DraftEndsWithCRLF, TailIsCRLF, Parts;
  }

  lemma FilledTwiceIs(start: Draft, parts: (seq<Byte>, seq<Byte>))
    requires start.Valid() && |parts.0| + |parts.1| <= start.NeedBytes()
    ensures var d := Filled(Filled(start, parts.0), parts.1);
            && d.data[..d.recv] == start.data[..start.recv] + parts.0 + parts.1
            && (d.recv >= 2 && DraftEndsWithCRLF(d) <==> TailIsCRLF(start.data[..start.recv] + parts.0 + parts.1))
  {
    var d := Filled(Filled(start, parts.0), parts.1);
    assert d.recv >= 2 ==> d.data[..d.recv][d.recv - 2] == d.data[d.recv - 2] && d.data[..d.recv][d.recv - 1] == d.data[d.recv - 1];
  }

  /** With the key copied they join the values under the same key, and fail only where the joined bytes do
      not end in CRLF. */
  lemma RepairedJoinConcatenates(hash: Hash, policy: Policy, old_: Item, item: Item, cas: nat)
    requires Sliceable(policy, old_, item)
    ensures var parts := Parts(policy, old_, item);
            var start := RepairedDraft(hash, item.key, item.flags, item.exptime, |item.value| + |old_.value| - 2, cas);
            var r := Joined(start, parts);
            && (r.Some? <==> TailIsCRLF(item.key + parts.0 + parts.1))
            && (r.Some? ==> r.value.Finished() == Item(item.key, parts.0 + parts.1, item.flags, item.exptime, cas, hash(item.key)))
            && (policy.Append? ==> parts == (old_.value[..|old_.value| - 2], item.value))
            && (policy.Prepend? ==> parts == (item.value[..|item.value| - 2], old_.value))
  {
    var parts := Parts(policy, old_, item);
    var start := RepairedDraft(hash, item.key, item.flags, item.exptime, |item.value| + |old_.value| - 2, cas);
    FilledTwiceIs(start, parts);
    var d := Filled(Filled(start, parts.0), parts.1);
    assert d.data[..d.recv] == d.data;
    assert start.data[..start.recv] == item.key;
    assert d.data == item.key + (parts.0 + parts.1);
  }

  /** Store for every policy; None where the code panics. */
  function StoreCall(db: Db, hash: Hash, item: Item, policy: Policy): Option<(Db, Reply)> {
    if policy.Invalid? then None
    else if policy.Plain() then Some(Stored(db, item, policy))
    else
      var i, k := SlotOf(item.hash), item.key;
      if k !in db.slots[i] then Some((db, Reply(false, false)))
      else
        var old_ := db.slots[i][k];
        if !Sliceable(policy, old_, item) then None
        else match Joined(JoinStart(hash, old_, item, Token(db.issued + 1)), Parts(policy, old_, item))
          case None => None
          case Some(d) => Some((Db(db.slots[i := db.slots[i][k := d.Finished()]], db.issued + 1), Reply(true, true)))
  }

  /** What append and prepend do where they do not panic: without an old item they are refused; otherwise the
      key is empty and the new item is the two values with the first CRLF cut out. */
  lemma JoinIsSeen(db: Db, hash: Hash, item: Item, policy: Policy)
    requires policy.Joins() && StoreCall(db, hash, item, policy).Some?
    ensures var i, k, r := SlotOf(item.hash), item.key, StoreCall(db, hash, item, policy).value;
            if k !in db.slots[i] then r == (db, Reply(false, false))
            else
              var old_ := db.slots[i][k];
              && r.1 == Reply(true, true) && k == [] && Sliceable(policy, old_, item) && k in r.0.slots[i]
              && r.0.issued == db.issued + 1
              && r.0.slots[i][k].value == (if policy.Append? then old_.value[..|old_.value| - 2] + item.value
                                           else item.value[..|item.value| - 2] + old_.value)
              && r.0.slots[i][k].cas == Token(db.issued + 1)
  {
    hide Token, JoinStart, Joined, Parts, Stored;
    var i, k := SlotOf(item.hash), item.key;
    if k in db.slots[i] { JoinedValue(hash, policy, db.slots[i][k], item, Token(db.issued + 1)); }
  }

  lemma JoinedValue(hash: Hash, policy: Policy, old_: Item, item: Item, cas: nat)
    requires policy.Joins() && Sliceable(policy, old_, item)
    requires Joined(JoinStart(hash, old_, item, cas), Parts(policy, old_, item)).Some?
    ensures var r := Joined(JoinStart(hash, old_, item, cas), Parts(policy, old_, item)).value.Finished();
            && item.key == [] && r.cas == cas
            && r.value == (if policy.Append? then old_.value[..|old_.value| - 2] + item.value
                           else item.value[..|item.value| - 2] + old_.value)
  {
    var start, parts := JoinStart(hash, old_, item, cas), Parts(policy, old_, item);
    JoinPanicsIff(hash, policy, old_, item, cas);
    FilledTwiceIs(start, parts);
    hide Filled;
    var d := Filled(Filled(start, parts.0), parts.1);
    assert d.data[..d.recv] == d.data == parts.0 + parts.1;
  }

  /** An append or prepend to an item that is there panics: for every non-empty key, and otherwise if the
      value to be cut is too short or the joined value does not end in CRLF. */
  predicate JoinFails(policy: Policy, old_: Item, item: Item) {
    || item.key != []
    || !Sliceable(policy, old_, item)
    || var parts := Parts(policy, old_, item); !TailIsCRLF(parts.0 + parts.1)
  }

  /** Exactly which calls panic. */
  lemma StorePanicsIff(db: Db, hash: Hash, item: Item, policy: Policy)
    ensures StoreCall(db, hash, item, policy).None? <==>
              || policy.Invalid?
              || (&& policy.Joins() && item.key in db.slots[SlotOf(item.hash)]
                  && JoinFails(policy, db.slots[SlotOf(item.hash)][item.key], item))
  {
    hide Joined, Parts, JoinStart, Stored, TailIsCRLF;
    var i, k := SlotOf(item.hash), item.key;
    if policy.Joins() && k in db.slots[i] {
      var old_ := db.slots[i][k];
      if Sliceable(policy, old_, item) { JoinPanicsIff(hash, policy, old_, item, Token(db.issued + 1)); }
    }
  }

  // ---------------------------------------------------------------- the code

  class ItemBuffer {
    const keylen: nat
    const valuelen: int
    const flags: nat
    const exptime: int
    const cas: nat
    const hash: nat
    const data: array<Byte>
    var recvBytes: nat

    ghost predicate Valid()
      reads this
    {
      data.Length == keylen + valuelen && recvBytes <= data.Length
    }

    ghost function Seen(): Draft
      reads this, data
    {
      Draft(keylen, valuelen, flags, exptime, cas, hash, data[..], recvBytes)
    }

    /** NewItem */
    constructor (hash: Hash, key: Key, flags: nat, exptime: int, valuelen: int, cas: nat)
      requires |key| + valuelen >= 0
      ensures Valid() && fresh(data) && Seen() == NewDraft(hash, key, flags, exptime, valuelen, cas)
    {
      this.keylen, this.valuelen, this.recvBytes := |key|, valuelen, 0;
      this.flags, this.exptime, this.cas, this.hash := flags, exptime, cas, hash(key);
      this.data := new Byte[|key| + valuelen](_ => 0);
    }

    function NeedBytes(): (n: int)
      reads this, data
      ensures n == Seen().NeedBytes()
    {
      keylen + valuelen - recvBytes
    }

    method Append(p: seq<Byte>)
      requires Valid() && |p| <= NeedBytes()
      modifies this`recvBytes, data
      ensures Valid() && Seen() == Filled(old(Seen()), p)
    {
      forall i | 0 <= i < |p| { data[recvBytes + i] := p[i]; }
      recvBytes := recvBytes + |p|;
      assert data[..] == Filled(old(Seen()), p).data;
    }

    /** `panicked` where fewer than two bytes have been received. */
    method EndWithCRLF() returns (r: bool, panicked: bool)
      requires Valid()
      ensures panicked == (Seen().recv < 2)
      ensures !panicked ==> r == DraftEndsWithCRLF(Seen())
    {
      if recvBytes < 2 {
        return false, true;
      }
      return data[recvBytes - 2] == CR && data[recvBytes - 1] == LF, false;
    }

    /** The two Appends of append and prepend, and the two assertions behind them. */
    method Complete(first: seq<Byte>, second: seq<Byte>) returns (panicked: bool)
      requires Valid() && |first| + |second| <= NeedBytes()
      modifies this`recvBytes, data
      ensures Valid() && panicked == Joined(old(Seen()), (first, second)).None?
      ensures !panicked ==> Seen() == Joined(old(Seen()), (first, second)).value
    {
      hide Filled, DraftEndsWithCRLF;
      Append(first);
      Append(second);
      if NeedBytes() != 0 {
        return true;
      }
      var crlf, short := EndWithCRLF();
      return short || !crlf;
    }

    /** The finished item, as its key and value. */
    method Split() returns (item: Item)
      requires Valid() && valuelen >= 0
      ensures item == Seen().Finished()
    {
      item := Item(data[..keylen], data[keylen..], flags, exptime, cas, hash);
    }
  }

  class Memcached {
    const hash: Hash
    const slots: array<map<Key, Item>>
    var issued: nat

    ghost predicate Valid()
      reads slots
    {
      slots.Length == SLOTS
    }

    ghost function Abs(): Db
      requires Valid()
      reads this, slots
    {
      Db(slots[..], issued)
    }

    constructor (hash: Hash)
      ensures Valid() && fresh(slots) && this.hash == hash && Abs() == EmptyDb()
    {
      this.hash, this.issued := hash, 0;
      this.slots := new map<Key, Item>[SLOTS](_ => map[]);
      new;
      assert slots[..] == seq(SLOTS, _ => map[]);
    }

    /** atomic.AddUint64(&_g_cas, 1) */
    method NextCas() returns (t: nat)
      modifies this`issued
      ensures issued == old(issued) + 1 && t == Token(issued)
    {
      issued := issued + 1;
      t := issued % TWO_64;
    }

    /** items[keyStr] = item, with a new token. */
    method Put(i: nat, k: Key, item: Item)
      requires Valid() && i < SLOTS
      modifies this`issued, slots
      ensures Valid()
      ensures var was := old(Abs());
              Abs() == Db(was.slots[i := was.slots[i][k := item.(cas := Token(was.issued + 1))]], was.issued + 1)
    {
      var t := NextCas();
      slots[i] := slots[i][k := item.(cas := t)];
    }

    /** The branch of Store for append and prepend. */
    method StoreJoined(item: Item, policy: Policy) returns (reply: Reply, panicked: bool)
      requires Valid() && policy.Joins()
      modifies this`issued, slots
      ensures Valid()
      ensures panicked == StoreCall(old(Abs()), hash, item, policy).None?
      ensures !panicked ==> StoreCall(old(Abs()), hash, item, policy) == Some((Abs(), reply))
    {
      hide Joined, Parts, JoinStart;
      var i, k := item.hash % SLOTS, item.key;
      reply, panicked := Reply(false, false), true;
      if k !in slots[i] {
        return reply, false;
      }
      var oldItem := slots[i][k];
      if (policy == Append && |oldItem.value| < 2) || (policy == Prepend && |item.value| < 2) {
        return;
      }
      var t := NextCas();
      var joined;
      joined, panicked := Join(oldItem, item, policy, t);
      if !panicked {
        slots[i] := slots[i][k := joined];
        reply := Reply(true, true);
      }
    }

    /** The new item of append and prepend, with its two assertions. */
    method Join(oldItem: Item, item: Item, policy: Policy, cas: nat) returns (joined: Item, panicked: bool)
      requires Sliceable(policy, oldItem, item)
      ensures panicked == Joined(JoinStart(hash, oldItem, item, cas), Parts(policy, oldItem, item)).None?
      ensures !panicked ==>
                joined == Joined(JoinStart(hash, oldItem, item, cas), Parts(policy, oldItem, item)).value.Finished()
    {
      hide Joined;
      joined, panicked := oldItem, true;
      var newItem := new ItemBuffer(hash, item.key, item.flags, item.exptime, |item.value| + |oldItem.value| - 2, cas);
      var first, second;
      if policy == Append {
        first, second := oldItem.value[..|oldItem.value| - 2], item.value;
      } else {
        first, second := item.value[..|item.value| - 2], oldItem.value;
      }
      assert (first, second) == Parts(policy, oldItem, item);
      panicked := newItem.Complete(first, second);
      if !panicked {
        joined := newItem.Split();
      }
    }

    method Store(item: Item, policy: Policy) returns (reply: Reply, panicked: bool)
      requires Valid()
      modifies this`issued, slots
      ensures Valid()
      ensures panicked == StoreCall(old(Abs()), hash, item, policy).None?
      ensures !panicked ==> StoreCall(old(Abs()), hash, item, policy) == Some((Abs(), reply))
    {
      hide Joined, Parts;
      var i, k := item.hash % SLOTS, item.key;
      var exist := k in slots[i];
      reply, panicked := Reply(false, exist), false;
      if policy == Set {
        Put(i, k, item);
        reply := Reply(true, exist);
      } else if policy == Add {
        if !exist {
          Put(i, k, item);
          reply := Reply(true, exist);
        }
      } else if policy == Replace {
        if exist {
          Put(i, k, item);
          reply := Reply(true, exist);
        }
      } else if policy == Append || policy == Prepend {
        reply, panicked := StoreJoined(item, policy);
      } else if policy == Cas {
        if exist && slots[i][k].cas == item.cas {
          Put(i, k, item);
          reply := Reply(true, exist);
        }
      } else {
        panicked := true;
      }
    }

    method Get(k: Key) returns (item: Option<Item>)
      requires Valid()
      ensures item == Got(Abs(), hash, k)
    {
      var i := hash(k) % SLOTS;
      item := if k in slots[i] then Some(slots[i][k]) else None;
    }

    method Delete(k: Key) returns (success: bool)
      requires Valid()
      modifies slots
      ensures Valid() && (Abs(), success) == Deleted(old(Abs()), hash, k)
    {
      var i := hash(k) % SLOTS;
      success := k in slots[i];
      if success {
        slots[i] := slots[i] - {k};
      } else {
        assert slots[i] - {k} == slots[i];
        assert slots[..][i := slots[i] - {k}] == slots[..];
      }
    }
  }
}

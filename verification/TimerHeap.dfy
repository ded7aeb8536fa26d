/** The indexed binary heap of timer tasks (timer.go) driven by the algorithms of Go's
    container/heap: Push, Pop, Remove, up and down over Len, Less, Swap, Push and Pop. */
module TimerHeap {

  /** Nanoseconds since the epoch. */
  type Time = int

  class TimerTask {
    var expire: Time
    const interval: int
    var repeat: bool
    var index: int
    var canceled: bool

    constructor (expire: Time, interval: int)
      ensures this.expire == expire && this.interval == interval
      ensures repeat == (interval > 0) && index == -1 && !canceled
    {
      this.expire := expire;
      this.interval := interval;
      this.repeat := interval > 0;
      this.index := -1;
      this.canceled := false;
    }
  }

  // ---------------------------------------------------------------- heap order

  /** The expiries of the tasks of a heap; they do not change while the heap is rearranged. */
  type Keys = map<TimerTask, Time>

  function At(key: Keys, t: TimerTask): Time { if t in key then key[t] else 0 }

  ghost function KeysOf(ts: set<TimerTask>): Keys
    reads ts
  {
    map t | t in ts :: t.expire
  }

  ghost predicate Keyed(key: Keys, ts: set<TimerTask>)
    reads ts
  {
    forall t :: t in ts ==> At(key, t) == t.expire
  }

  function Parent(k: int): int
    requires k > 0
  {
    (k - 1) / 2
  }

  /** The edge from the parent of k to k is in order. */
  predicate Edge(key: Keys, ts: seq<TimerTask>, k: int)
    requires 0 < k < |ts|
  {
    At(key, ts[Parent(k)]) <= At(key, ts[k])
  }

  predicate Ordered(key: Keys, ts: seq<TimerTask>, n: int)
    requires n <= |ts|
  {
    forall k :: 0 < k < n ==> Edge(key, ts, k)
  }

  /** The first n tasks are a heap, except perhaps for the edge above `up` and those below `down`;
      the children of `mid` are in order with the parent of `mid`. */
  predicate OrderedBut(key: Keys, ts: seq<TimerTask>, n: int, up: int, down: int, mid: int)
    requires n <= |ts| && 0 <= mid < |ts|
  {
    && (forall k :: 0 < k < n && k != up && Parent(k) != down ==> Edge(key, ts, k))
    && (mid > 0 ==> forall k :: 0 < k < n && Parent(k) == mid ==> At(key, ts[Parent(mid)]) <= At(key, ts[k]))
  }

  function Swapped(s: seq<TimerTask>, i: int, j: int): (r: seq<TimerTask>)
    requires 0 <= i < |s| && 0 <= j < |s|
    ensures |r| == |s|
  {
    s[i := s[j]][j := s[i]]
  }

  /** The root has the least key. */
  lemma {:induction false} RootIsLeast(key: Keys, ts: seq<TimerTask>, i: int)
    requires 0 <= i < |ts| && Ordered(key, ts, |ts|)
    ensures At(key, ts[0]) <= At(key, ts[i])
    decreases i
  {
    if i > 0 {
      assert Edge(key, ts, i);
      RootIsLeast(key, ts, Parent(i));
    }
  }

  /** Exchanging j with its later parent moves the gap in the order to the parent. */
  lemma UpStep(key: Keys, ts: seq<TimerTask>, n: int, j: int)
    requires 0 < j < n <= |ts| && OrderedBut(key, ts, n, j, -1, j)
    requires At(key, ts[j]) < At(key, ts[Parent(j)])
    ensures OrderedBut(key, Swapped(ts, Parent(j), j), n, Parent(j), -1, Parent(j))
  {
    var i, r := Parent(j), Swapped(ts, Parent(j), j);
    forall k | 0 < k < n && k != i ensures Edge(key, r, k) {
      if k != j { assert Edge(key, ts, k); }
    }
    if i > 0 {
      assert Edge(key, ts, i);
      forall k | 0 < k < n && Parent(k) == i ensures At(key, r[Parent(i)]) <= At(key, r[k]) {
        if k != j { assert Edge(key, ts, k); }
      }
    }
  }

  /** Exchanging i with its earliest child j moves the gap below j; the edge above i is mended. */
  lemma DownStep(key: Keys, ts: seq<TimerTask>, n: int, up: int, i: int, j: int)
    requires 0 <= i < j < n <= |ts| && Parent(j) == i && (up == i || up == -1)
    requires OrderedBut(key, ts, n, up, i, i)
    requires At(key, ts[j]) < At(key, ts[i])
    requires forall k :: 0 < k < n && Parent(k) == i ==> At(key, ts[j]) <= At(key, ts[k])
    ensures OrderedBut(key, Swapped(ts, i, j), n, -1, j, j)
  {
    var r := Swapped(ts, i, j);
    forall k | 0 < k < n && Parent(k) != j ensures Edge(key, r, k) {
      if k != i && Parent(k) != i { assert Edge(key, ts, k); }
    }
    forall k | 0 < k < n && Parent(k) == j ensures At(key, r[Parent(j)]) <= At(key, r[k]) {
      assert Edge(key, ts, k);
    }
  }

  /** When no child of i is earlier, the order below i is whole. */
  lemma DownStops(key: Keys, ts: seq<TimerTask>, n: int, up: int, i: int)
    requires 0 <= i <= n <= |ts| && i < |ts| && OrderedBut(key, ts, n, up, i, i)
    requires forall k :: 0 < k < n && Parent(k) == i ==> At(key, ts[i]) <= At(key, ts[k])
    ensures OrderedBut(key, ts, n, up, -1, i)
    ensures up == -1 ==> Ordered(key, ts, n)
  {
    forall k | 0 < k < n && k != up ensures Edge(key, ts, k) {
      if Parent(k) == i { assert At(key, ts[i]) <= At(key, ts[k]); }
    }
  }

  /** Putting any other task at position i disturbs only the edges at i. */
  lemma ReplaceAt(key: Keys, ts: seq<TimerTask>, i: int)
    requires 0 <= i < |ts| && Ordered(key, ts, |ts|)
    ensures OrderedBut(key, Swapped(ts, i, |ts| - 1), |ts| - 1, i, i, i)
  {
    var n, r := |ts| - 1, Swapped(ts, i, |ts| - 1);
    forall k | 0 < k < n && k != i && Parent(k) != i ensures Edge(key, r, k) { assert Edge(key, ts, k); }
    if i > 0 {
      assert Edge(key, ts, i);
      forall k | 0 < k < n && Parent(k) == i ensures At(key, r[Parent(i)]) <= At(key, r[k]) {
        assert Edge(key, ts, k);
      }
    }
  }

  // ---------------------------------------------------------------- the heap

  class TimerTaskHeap {
    var tasks: seq<TimerTask>
    ghost var members: set<TimerTask>   // the tasks in the heap

    /** Position and back-pointer agree both ways: the slice lists the members without repetition. */
    ghost predicate Linked()
      reads this, members
    {
      && (forall i :: 0 <= i < |tasks| ==> tasks[i] in members && tasks[i].index == i)
      && (forall x :: x in members ==> 0 <= x.index < |tasks| && tasks[x.index] == x)
    }

    ghost predicate Valid()
      reads this, members
    {
      Linked() && Ordered(KeysOf(members), tasks, |tasks|)
    }

    constructor ()
      ensures Valid() && tasks == [] && members == {}
    {
      tasks := [];
      members := {};
    }

    /** Ties are broken by position, as in the source. */
    function Less(i: int, j: int): bool
      requires 0 <= i < |tasks| && 0 <= j < |tasks|
      reads this, tasks
    {
      if tasks[i].expire < tasks[j].expire then true
      else if tasks[i].expire == tasks[j].expire then i < j
      else false
    }

    /** Every comparison the heap algorithms make goes through here: the first position is always the
        larger one, so the positional tie-break never decides. */
    function LessAbove(i: int, j: int): (r: bool)
      requires 0 <= j < i < |tasks|
      reads this, tasks
      ensures r == (tasks[i].expire < tasks[j].expire)
    {
      Less(i, j)
    }

    method Swap(i: int, j: int)
      requires 0 <= i < |tasks| && 0 <= j < |tasks| && Linked()
      modifies this`tasks, members`index
      ensures tasks == Swapped(old(tasks), i, j) && Linked()
    {
      tasks := tasks[i := tasks[j]][j := tasks[i]];
      tasks[i].index := i;
      tasks[j].index := j;
    }

    /** heap.up */
    method Up(j0: int, ghost n: int, ghost key: Keys)
      requires 0 <= j0 < n <= |tasks| && Linked() && Keyed(key, members)
      requires OrderedBut(key, tasks, n, j0, -1, j0)
      modifies this`tasks, members`index
      ensures |tasks| == |old(tasks)| && Linked()
      ensures Ordered(key, tasks, n) && tasks[n..] == old(tasks)[n..]
    {
      var j := j0;
      while true
        invariant 0 <= j < n <= |tasks| && |tasks| == |old(tasks)| && Linked()
        invariant tasks[n..] == old(tasks)[n..]
        invariant OrderedBut(key, tasks, n, j, -1, j)
        decreases j
      {
        var i := if j == 0 then 0 else (j - 1) / 2;  // Go's (j-1)/2 truncates towards zero
        if i == j || !LessAbove(j, i) {
          break;
        }
        UpStep(key, tasks, n, j);
        Swap(i, j);
        j := i;
      }
    }

    /** The child that `down` compares with. */
    function EarlierChild(i: int, n: int): (j: int)
      requires 0 <= i && 2 * i + 1 < n <= |tasks|
      reads this, tasks
      ensures i < j < n && Parent(j) == i
      ensures forall k :: 0 < k < n && Parent(k) == i ==> tasks[j].expire <= tasks[k].expire
    {
      var j1 := 2 * i + 1;
      var j2 := j1 + 1;
      assert forall k :: 0 < k < n && Parent(k) == i ==> k == j1 || k == j2;
      if j2 < n && LessAbove(j2, j1) then j2 else j1
    }

    /** heap.down: sinks the task at i0 within the first n tasks; tells whether it moved. */
    method Down(i0: int, n: int, ghost key: Keys) returns (moved: bool)
      requires 0 <= i0 <= n <= |tasks| && i0 < |tasks| && Linked() && Keyed(key, members)
      requires OrderedBut(key, tasks, n, i0, i0, i0)
      modifies this`tasks, members`index
      ensures |tasks| == |old(tasks)| && Linked() && tasks[n..] == old(tasks)[n..]
      ensures moved ==> Ordered(key, tasks, n)
      ensures !moved ==> tasks == old(tasks) && OrderedBut(key, tasks, n, i0, -1, i0)
    {
      var i := i0;
      while true
        invariant i0 <= i <= n <= |tasks| && i < |tasks| && |tasks| == |old(tasks)| && Linked()
        invariant tasks[n..] == old(tasks)[n..]
        invariant i == i0 ==> tasks == old(tasks)
        invariant OrderedBut(key, tasks, n, if i == i0 then i0 else -1, i, i)
        decreases n - i
      {
        if 2 * i + 1 >= n {
          DownStops(key, tasks, n, if i == i0 then i0 else -1, i);
          return i > i0;
        }
        var j := EarlierChild(i, n);
        if !LessAbove(j, i) {
          DownStops(key, tasks, n, if i == i0 then i0 else -1, i);
          return i > i0;
        }
        DownStep(key, tasks, n, if i == i0 then i0 else -1, i, j);
        Swap(i, j);
        i := j;
      }
    }

    /** The heap.Interface Push, then heap.up. */
    method Push(x: TimerTask)
      requires Valid() && x !in members
      modifies this, members`index, x`index
      ensures Valid() && members == old(members) + {x}
    {
      ghost var key := KeysOf(members + {x});
      tasks := tasks + [x];
      members := members + {x};
      x.index := |tasks| - 1;
      forall k | 0 < k < |tasks| - 1 ensures Edge(key, tasks, k) {
        assert Edge(old(KeysOf(members)), old(tasks), k);
      }
      Up(|tasks| - 1, |tasks|, key);
      assert key == KeysOf(members);
    }

    /** The heap.Interface Pop: drops the last task and marks it as outside. */
    method PopLast(ghost key: Keys) returns (x: TimerTask)
      requires |tasks| > 0 && Linked() && Keyed(key, members) && Ordered(key, tasks, |tasks| - 1)
      modifies this, members`index
      ensures x == old(tasks)[|old(tasks)| - 1] && x.index == -1
      ensures Valid() && members == old(members) - {x} && x in old(members)
    {
      var n := |tasks|;
      x := tasks[n - 1];
      x.index := -1;
      tasks := tasks[..n - 1];
      members := members - {x};
      forall k | 0 < k < |tasks| ensures Edge(KeysOf(members), tasks, k) { assert Edge(key, old(tasks), k); }
    }

    /** heap.Pop */
    method Pop() returns (x: TimerTask)
      requires Valid() && |tasks| > 0
      modifies this, members`index
      ensures Valid() && x == old(tasks)[0] && x.index == -1
      ensures members == old(members) - {x} && x in old(members)
    {
      ghost var key := KeysOf(members);
      var n := |tasks| - 1;
      ReplaceAt(key, tasks, 0);
      Swap(0, n);
      var moved := Down(0, n, key);
      assert tasks[n] == tasks[n..][0] == old(tasks)[0];
      x := PopLast(key);
    }

    /** heap.Remove: takes out the task at any position. */
    method Remove(i: int) returns (x: TimerTask)
      requires Valid() && 0 <= i < |tasks|
      modifies this, members`index
      ensures Valid() && x == old(tasks)[i] && x.index == -1
      ensures members == old(members) - {x} && x in old(members)
    {
      ghost var key := KeysOf(members);
      var n := |tasks| - 1;
      if n != i {
        MoveToEnd(i, key);
      }
      x := PopLast(key);
    }

    /** The rearranging half of heap.Remove. */
    method MoveToEnd(i: int, ghost key: Keys)
      requires 0 <= i < |tasks| - 1 && Linked() && Keyed(key, members) && Ordered(key, tasks, |tasks|)
      modifies this`tasks, members`index
      ensures |tasks| == |old(tasks)| && Linked() && Ordered(key, tasks, |tasks| - 1)
      ensures tasks[|tasks| - 1] == old(tasks)[i]
    {
      var n := |tasks| - 1;
      ReplaceAt(key, tasks, i);
      Swap(i, n);
      var moved := Down(i, n, key);
      assert tasks[n] == tasks[n..][0] == old(tasks)[i];
      if !moved {
        Up(i, n, key);
        assert tasks[n] == tasks[n..][0];
      }
    }

    /** The tasks that are due, earliest first; what stays is due later. */
    method GetAndRemoveExpired(t: Time) returns (ret: seq<TimerTask>)
      requires Valid()
      modifies this, members`index
      ensures Valid() && members == set x | x in old(members) && x.expire > t
      ensures forall x :: x in ret <==> x in old(members) && x.expire <= t
      ensures forall i, j :: 0 <= i < j < |ret| ==> ret[i] != ret[j] && ret[i].expire <= ret[j].expire
      ensures forall i :: 0 <= i < |ret| ==> ret[i].index == -1
    {
      ret := [];
      while true
        invariant Valid() && members <= old(members)
        invariant forall x :: x in ret <==> x in old(members) && x !in members
        invariant forall i :: 0 <= i < |ret| ==> ret[i].expire <= t && ret[i].index == -1
        invariant forall i, j :: 0 <= i < j < |ret| ==> ret[i] != ret[j] && ret[i].expire <= ret[j].expire
        invariant forall i, x :: 0 <= i < |ret| && x in members ==> ret[i].expire <= x.expire
        decreases |members|
      {
        if |tasks| == 0 {
          break;
        }
        var pop := tasks[0];
        AllLater();
        if pop.expire < t || pop.expire == t {
          var tmp := Pop();
          assert tmp == pop;
          ret := ret + [pop];
        } else {
          break;
        }
      }
    }

    lemma AllLater()
      requires Valid() && |tasks| > 0
      ensures forall x :: x in members ==> tasks[0].expire <= x.expire
    {
      forall x | x in members ensures tasks[0].expire <= x.expire {
        RootIsLeast(KeysOf(members), tasks, x.index);
      }
    }

    /** The slice is an enumeration of the members: the heap operations lose and duplicate nothing. */
    lemma TasksAreMembers()
      requires Linked()
      ensures multiset(tasks) == multiset(members) && |tasks| == |members|
    {
      forall x ensures multiset(tasks)[x] == multiset(members)[x] {
        if x in members { OccursOnce(tasks, x.index); }
        else { assert x !in tasks; }
      }
      assert multiset(tasks) == multiset(members);
      assert |multiset(tasks)| == |tasks| && |multiset(members)| == |members|;
    }
  }

  lemma OccursOnce(s: seq<TimerTask>, i: int)
    requires 0 <= i < |s| && forall j :: 0 <= j < |s| && j != i ==> s[j] != s[i]
    ensures multiset(s)[s[i]] == 1
  {
    assert s == s[..i] + [s[i]] + s[i + 1..];
    assert s[i] !in s[..i] && s[i] !in s[i + 1..];
    assert multiset(s[..i])[s[i]] == 0 && multiset(s[i + 1..])[s[i]] == 0;
  }
}

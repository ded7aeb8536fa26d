/** The byte buffer of a connection (buffer.go): one byte slice with a read index and a write index,
    specified as a first-in first-out queue of bytes. */
module ByteBuffer {

  newtype Byte = x: int | 0 <= x < 256

  const INITIAL_CAPACITY: nat := 1024
  const EXTRA_SIZE: nat := 65536

  /** The observable value of a buffer: the bytes in front of the read index, the readable bytes and the
      length of the slice. */
  datatype View = View(past: seq<Byte>, data: seq<Byte>, cap: nat) {
    predicate Valid() { |past| + |data| <= cap }
    function Front(): nat { |past| }
    function Writable(): nat
      requires Valid()
    {
      cap - |past| - |data|
    }
  }

  // ---------------------------------------------------------------- specification of Write

  function Min(a: nat, b: nat): nat { if a <= b then a else b }

  /** Where `makeSpace` leaves the buffer when it is asked for n bytes. */
  function MadeSpace(v: View, n: nat): View
    requires v.Valid()
  {
    if v.Writable() + |v.data| < n then v.(cap := v.cap + n) else v.(past := [])
  }

  function Ensured(v: View, n: nat): (r: View)
    requires v.Valid()
    ensures r.Valid() && r.data == v.data
  {
    if v.Writable() < n then MadeSpace(v, n) else v
  }

  /** How many of n bytes `Write` takes. */
  function WriteCount(v: View, n: nat): (k: nat)
    requires v.Valid()
    ensures k <= n
  {
    Min(n, Ensured(v, n).Writable())
  }

  function Written(v: View, p: seq<Byte>): (r: View)
    requires v.Valid()
    ensures r.Valid()
  {
    Ensured(v, |p|).(data := v.data + p[..WriteCount(v, |p|)])
  }

  /** Exactly when `Write` keeps everything. The third case is the one `makeSpace` should have
      tested for before it chose to compact. */
  lemma WriteIsCompleteIff(v: View, n: nat)
    requires v.Valid()
    ensures WriteCount(v, n) == n <==>
              v.Writable() >= n || v.Writable() + |v.data| < n || v.Writable() + v.Front() >= n
  {
  }

  /** An empty buffer never truncates a write, whatever its indices are. */
  lemma WriteToEmptyIsComplete(v: View, n: nat)
    requires v.Valid() && v.data == []
    ensures WriteCount(v, n) == n
  {
  }

  /** A write of a non-empty slice leaves the buffer non-empty. */
  lemma WriteLeavesData(v: View, p: seq<Byte>)
    requires v.Valid() && p != []
    ensures Written(v, p).data != []
  {
    if v.data == [] { WriteToEmptyIsComplete(v, |p|); }
  }

  /** Truncation is reachable from a fresh buffer with two writes: 1000 bytes and then 100 keep 24. */
  lemma TwoWritesCanLoseBytes(p: seq<Byte>, q: seq<Byte>)
    requires |p| == 1000 && |q| == 100
    ensures var fresh0 := View([], [], INITIAL_CAPACITY);
            && Written(fresh0, p).data == p
            && Written(Written(fresh0, p), q).data == p + q[..24]
  {
  }

  /** The view after a `readv` delivered the bytes p: the slice takes what fits, the stack buffer is
      appended with `Write`. */
  function ReadIn(v: View, p: seq<Byte>): (r: View)
    requires v.Valid()
    ensures r.Valid()
  {
    if |p| <= v.Writable() then v.(data := v.data + p)
    else Written(v.(data := v.data + p[..v.Writable()]), p[v.Writable()..])
  }

  /** How much of one `readv` survives. */
  function ReadInCount(v: View, n: nat): nat
    requires v.Valid()
  {
    if n <= v.Writable() then n
    else v.Writable() + WriteCount(v.(data := seq(v.cap - v.Front(), _ => 0)), n - v.Writable())
  }

  /** `ReadFd` keeps a prefix of the bytes the kernel delivered. It keeps all of them iff they fit
      behind the write index, or the overflow is longer than the then full readable part, or it fits
      into the consumed front. */
  lemma ReadInKeepsPrefix(v: View, p: seq<Byte>)
    requires v.Valid()
    ensures ReadInCount(v, |p|) <= |p|
    ensures ReadIn(v, p).data == v.data + p[..ReadInCount(v, |p|)]
    ensures ReadInCount(v, |p|) == |p| <==>
              var over := |p| - v.Writable();
              over <= 0 || v.cap - v.Front() < over || over <= v.Front()
  {
    if |p| > v.Writable() {
      var m := v.(data := v.data + p[..v.Writable()]);
      var over := p[v.Writable()..];
      assert |m.data| == v.cap - v.Front();
      var k := WriteCount(m, |over|);
      assert k == WriteCount(v.(data := seq(v.cap - v.Front(), _ => 0)), |over|);
      assert v.data + p[..v.Writable()] + over[..k] == v.data + p[..v.Writable() + k];
      WriteIsCompleteIff(m, |over|);
    }
  }

  // ---------------------------------------------------------------- the guard as intended

  /** `makeSpace` with its guard testing the consumed front instead of the readable part. */
  function RepairedEnsured(v: View, n: nat): (r: View)
    requires v.Valid()
    ensures r.Valid() && r.data == v.data && r.Writable() >= n
  {
    if v.Writable() >= n then v
    else if v.Writable() + v.Front() < n then v.(cap := v.cap + n)
    else v.(past := [])
  }

  /** `Write` over that `makeSpace`: it copies what fits behind the write index, as `Written` does. */
  function RepairedWritten(v: View, p: seq<Byte>): (r: View)
    requires v.Valid()
    ensures r.Valid()
  {
    var room := RepairedEnsured(v, |p|);
    room.(data := v.data + p[..Min(|p|, room.Writable())])
  }

  /** With that guard every write is a total append: the room always suffices, and no byte that was
      readable is lost. */
  lemma RepairedIsTotal(v: View, p: seq<Byte>)
    requires v.Valid()
    ensures RepairedWritten(v, p).data == v.data + p
  {
    assert p[..|p|] == p;
  }

  /** The code and the repair agree exactly where the code does not truncate. */
  lemma RepairAgreesIff(v: View, p: seq<Byte>)
    requires v.Valid()
    ensures Written(v, p).data == RepairedWritten(v, p).data <==>
              v.Writable() >= |p| || v.Writable() + |v.data| < |p| || v.Writable() + v.Front() >= |p|
  {
    RepairedIsTotal(v, p);
    WriteIsCompleteIff(v, |p|);
    if WriteCount(v, |p|) == |p| {
      assert p[..|p|] == p;
    } else {
      assert |Written(v, p).data| != |v.data + p|;
    }
  }

  // ---------------------------------------------------------------- searching

  predicate OccursAt(hay: seq<Byte>, s: seq<Byte>, i: int) {
    0 <= i && i + |s| <= |hay| && hay[i..i + |s|] == s
  }

  /** bytes.Index from position i on: the first occurrence, or -1. */
  function IndexFrom(hay: seq<Byte>, s: seq<Byte>, i: nat): (r: int)
    ensures r == -1 || (i <= r && OccursAt(hay, s, r))
    ensures forall j {:trigger OccursAt(hay, s, j)} :: i <= j && (r == -1 || j < r) ==> !OccursAt(hay, s, j)
    decreases |hay| - i
  {
    if i + |s| > |hay| then -1
    else if OccursAt(hay, s, i) then i
    else IndexFrom(hay, s, i + 1)
  }

  function SearchSpec(data: seq<Byte>, s: seq<Byte>): (r: int)
    ensures r == -1 || OccursAt(data, s, r)
  {
    if |s| == 0 || |s| > |data| then -1 else IndexFrom(data, s, 0)
  }

  /** The first occurrence in a stream does not move when more bytes arrive behind it. */
  lemma SearchIsStable(a: seq<Byte>, b: seq<Byte>, s: seq<Byte>)
    requires SearchSpec(a, s) >= 0
    ensures SearchSpec(a + b, s) == SearchSpec(a, s)
  {
    var i := SearchSpec(a, s);
    var j := SearchSpec(a + b, s);
    assert OccursAt(a + b, s, i) by { assert (a + b)[i..i + |s|] == a[i..i + |s|]; }
    forall k | 0 <= k < i ensures !OccursAt(a + b, s, k) {
      assert OccursAt(a + b, s, k) <==> OccursAt(a, s, k) by { assert (a + b)[k..k + |s|] == a[k..k + |s|]; }
    }
  }

  // ---------------------------------------------------------------- the class

  /** The boundary between consumed and readable bytes n further on. */
  function Shifted(v: View, n: int): (r: View)
    requires v.Valid() && -|v.past| <= n <= |v.data|
    ensures r.Valid() && r.past + r.data == v.past + v.data && |r.past| == |v.past| + n
    ensures n >= 0 ==> r.data == v.data[n..]
    ensures n < 0 ==> r.data == v.past[|v.past| + n..] + v.data
  {
    var all := v.past + v.data;
    View(all[..|v.past| + n], all[|v.past| + n..], v.cap)
  }

  datatype Readv = Failed | Delivered(bytes: seq<Byte>)

  class Buffer {
    var buf: array<Byte>
    var readIndex: int
    var writeIndex: int

    ghost predicate Valid()
      reads this
    {
      0 <= readIndex <= writeIndex <= buf.Length
    }

    ghost function Seen(): (v: View)
      requires Valid()
      reads this, buf
      ensures v.Valid()
    {
      View(buf[..readIndex], buf[readIndex..writeIndex], buf.Length)
    }

    constructor ()
      ensures Valid() && fresh(buf) && Seen() == View([], [], INITIAL_CAPACITY)
    {
      buf := new Byte[INITIAL_CAPACITY](_ => 0);
      readIndex := 0;
      writeIndex := 0;
    }

    function ReadableBytes(): (n: nat)
      requires Valid()
      reads this, buf
      ensures n == |Seen().data|
    {
      writeIndex - readIndex
    }

    function WritableBytes(): (n: nat)
      requires Valid()
      reads this, buf
      ensures n == Seen().Writable()
    {
      buf.Length - writeIndex
    }

    function Peek(): (s: seq<Byte>)
      requires Valid()
      reads this, buf
      ensures s == Seen().data
    {
      buf[readIndex..writeIndex]
    }

    /** Moves the read index forwards or backwards without a test. The buffer is usable afterwards exactly
        when the index stays inside; then the boundary between consumed and readable bytes has moved. */
    method Advance(n: int)
      requires Valid()
      modifies this`readIndex
      ensures readIndex == old(readIndex) + n
      ensures Valid() <==> -|old(Seen().past)| <= n <= |old(Seen().data)|
      ensures Valid() ==> Seen() == Shifted(old(Seen()), n)
    {
      ghost var v := Seen();
      readIndex := readIndex + n;
      if Valid() {
        assert v.past + v.data == buf[..writeIndex];
        assert Seen() == Shifted(v, n);
      }
    }

    /** The first n bytes of the slice become readable; usable afterwards exactly when there are so many. */
    method Reset(n: int)
      requires Valid()
      modifies this`readIndex, this`writeIndex
      ensures Valid() <==> 0 <= n <= buf.Length
      ensures Valid() ==> Seen() == View([], buf[..n], buf.Length)
    {
      readIndex := 0;
      writeIndex := n;
    }

    method Next(n: int) returns (ret: seq<Byte>)
      requires Valid()
      modifies this
      ensures Valid() && buf == old(buf)
      ensures n < 0 || n >= |old(Seen().data)| ==> ret == old(Seen().data) && Seen() == View([], [], buf.Length)
      ensures 0 <= n < |old(Seen().data)| ==>
                ret == old(Seen().data)[..n] && Seen() == Shifted(old(Seen()), n)
      ensures ret + Seen().data == old(Seen().data)
    {
      if n < 0 || n >= ReadableBytes() {
        ret := buf[readIndex..writeIndex];
        Reset(0);
      } else {
        ret := buf[readIndex..readIndex + n];
        assert ret == Seen().data[..n];
        Advance(n);
      }
    }

    method Read(dst: array<Byte>) returns (n: nat)
      requires Valid() && dst != buf
      modifies this, dst
      ensures Valid() && buf == old(buf)
      ensures n == Min(dst.Length, |old(Seen().data)|)
      ensures dst[..n] + Seen().data == old(Seen().data)
      ensures dst[n..] == old(dst[n..])
    {
      n := if dst.Length <= ReadableBytes() then dst.Length else ReadableBytes();
      forall i | 0 <= i < n { dst[i] := buf[readIndex + i]; }
      readIndex := readIndex + n;
    }

    method Search(s: seq<Byte>) returns (i: int)
      requires Valid()
      ensures i == SearchSpec(Seen().data, s)
      ensures s != [] ==> (i >= 0 <==> exists j :: OccursAt(Seen().data, s, j))
    {
      if |s| == 0 || |s| > ReadableBytes() {
        return -1;
      }
      i := IndexFrom(Peek(), s, 0);
    }

    method MakeSpace(n: nat)
      requires Valid()
      modifies this, buf
      ensures Valid() && (buf == old(buf) || fresh(buf))
      ensures Seen() == MadeSpace(old(Seen()), n)
    {
      if WritableBytes() + ReadableBytes() < n {
        var grown := new Byte[buf.Length + n](i requires 0 <= i reads this, buf => if i < buf.Length then buf[i] else 0);
        buf := grown;
      } else {
        // copy(b.buf, b.buf[readIndex:writeIndex]); source and destination may overlap
        forall i | 0 <= i < writeIndex - readIndex { buf[i] := buf[readIndex + i]; }
        writeIndex := writeIndex - readIndex;
        readIndex := 0;
      }
    }

    method EnsureWritableBytes(n: nat)
      requires Valid()
      modifies this, buf
      ensures Valid() && (buf == old(buf) || fresh(buf))
      ensures Seen() == Ensured(old(Seen()), n)
    {
      if WritableBytes() < n {
        MakeSpace(n);
      }
    }

    /** copy(b.buf[writeIndex:], p) followed by the move of writeIndex. */
    method CopyIn(p: seq<Byte>) returns (n: nat)
      requires Valid()
      modifies this`writeIndex, buf
      ensures Valid()
      ensures n == Min(|p|, old(Seen().Writable()))
      ensures Seen() == old(Seen()).(data := old(Seen().data) + p[..n])
    {
      n := if |p| <= buf.Length - writeIndex then |p| else buf.Length - writeIndex;
      ghost var before := buf[readIndex..writeIndex];
      forall i | 0 <= i < n { buf[writeIndex + i] := p[i]; }
      writeIndex := writeIndex + n;
      assert buf[readIndex..writeIndex] == before + p[..n];
    }

    /** Appends the prefix whose length it returns; the rest of p is dropped. */
    method Write(p: seq<Byte>) returns (n: nat)
      requires Valid()
      modifies this, buf
      ensures Valid() && (buf == old(buf) || fresh(buf))
      ensures n == WriteCount(old(Seen()), |p|)
      ensures Seen() == Written(old(Seen()), p)
    {
      EnsureWritableBytes(|p|);
      n := CopyIn(p);
    }

    method ReadFd(kernel: Readv) returns (n: int, ok: bool)
      requires Valid()
      requires kernel.Delivered? ==> |kernel.bytes| <= WritableBytes() + EXTRA_SIZE
      modifies this, buf
      ensures Valid() && (buf == old(buf) || fresh(buf))
      ensures ok == kernel.Delivered?
      ensures ok ==> n == |kernel.bytes| && Seen() == ReadIn(old(Seen()), kernel.bytes)
      ensures !ok ==> Seen() == old(Seen())
    {
      if kernel.Failed? {
        return -1, false;
      }
      n, ok := |kernel.bytes|, true;
      var direct := CopyIn(kernel.bytes);  // readv fills the slice first, then the stack buffer
      if direct < n {
        var _ := Write(kernel.bytes[direct..]);
      } else {
        assert kernel.bytes[..n] == kernel.bytes;
      }
    }

    /** `ok` is false where make refuses a negative length. A negative reserve cuts the contents off and
        leaves the write index outside the slice. */
    method Shrink(reserve: int) returns (ok: bool)
      requires Valid()
      modifies this
      ensures ok == (|old(Seen().data)| + reserve >= 0)
      ensures !ok ==> Valid() && Seen() == old(Seen())
      ensures ok ==> fresh(buf) && (Valid() <==> reserve >= 0)
      ensures ok && Valid() ==> Seen() == View([], old(Seen().data), |old(Seen().data)| + reserve)
    {
      var data := Peek();
      if |data| + reserve < 0 {
        return false;
      }
      var smaller := new Byte[|data| + reserve](_ => 0);
      forall i | 0 <= i < |data| && i < smaller.Length { smaller[i] := data[i]; }
      buf := smaller;
      readIndex := 0;
      writeIndex := |data|;
      return true;
    }
  }
}

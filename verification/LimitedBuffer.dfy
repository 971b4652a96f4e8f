/** The output buffer of a command: it keeps the first `max` bytes and notices when it could
    not keep everything. */
module LimitedBuffer {
  import opened Wire

  datatype Buf = Buf(content: seq<Byte>, truncated: bool)

  const EMPTY := Buf([], false)

  function Cap(max: int): nat { if max < 0 then 0 else max }

  function First(bytes: seq<Byte>, n: nat): (first: seq<Byte>)
    ensures first <= bytes && |first| == if n < |bytes| then n else |bytes|
  {
    if n < |bytes| then bytes[..n] else bytes
  }

  /** One write: keep what fits of everything so far. A full buffer counts every write, even an
      empty one, as truncated. */
  function AfterWrite(max: int, b: Buf, p: seq<Byte>): Buf {
    Buf(First(b.content + p, Cap(max)), b.truncated || |b.content| >= max || |b.content| + |p| > max)
  }

  class Buffer {
    const max: int
    var buf: seq<Byte>
    var truncated: bool

    ghost function State(): Buf
      reads this
    {
      Buf(buf, truncated)
    }

    ghost predicate Valid()
      reads this
    {
      |buf| <= Cap(max)
    }

    constructor (max: int)
      ensures Valid() && this.max == max && State() == EMPTY
    {
      this.max, buf, truncated := max, [], false;
    }

    /** Never fails, and always reports the whole write. */
    method Write(p: seq<Byte>) returns (n: nat)
      requires Valid()
      modifies this
      ensures Valid() && n == |p|
      ensures State() == AfterWrite(max, old(State()), p)
      ensures old(buf) <= buf <= old(buf) + p
      ensures |old(buf)| + |p| <= max ==> buf == old(buf) + p
      ensures |old(buf)| + |p| > max ==> truncated && (max >= 0 ==> |buf| == max)
    {
      var remaining := max - |buf|;
      if remaining <= 0 {
        truncated := true;
        assert First(old(buf) + p, Cap(max)) == buf;
        return |p|;
      }
      if |p| > remaining {
        buf := buf + p[..remaining];
        truncated := true;
        assert First(old(buf) + p, Cap(max)) == buf;
        return |p|;
      }
      buf := buf + p;
      return |p|;
    }
  }

  function AfterWrites(max: int, writes: seq<seq<Byte>>): Buf {
    if writes == [] then EMPTY else AfterWrite(max, AfterWrites(max, writes[..|writes| - 1]), writes[|writes| - 1])
  }

  function Joined(writes: seq<seq<Byte>>): seq<Byte> {
    if writes == [] then [] else Joined(writes[..|writes| - 1]) + writes[|writes| - 1]
  }

  /** An empty write that arrived when the buffer was full already. */
  ghost predicate EmptyWriteWhenFull(max: int, writes: seq<seq<Byte>>) {
    exists i :: 0 <= i < |writes| && EmptyAt(max, writes, i)
  }

  ghost predicate EmptyAt(max: int, writes: seq<seq<Byte>>, i: nat)
    requires i < |writes|
  {
    writes[i] == [] && |Joined(writes[..i])| >= max
  }

  lemma {:induction false} JoinedInOrder(a: seq<seq<Byte>>, b: seq<seq<Byte>>)
    ensures Joined(a + b) == Joined(a) + Joined(b)
    ensures |b| == 1 ==> Joined(b) == b[0]
  {
    if b == [] {
      assert a + b == a;
    } else {
      var n := |b| - 1;
      JoinedInOrder(a, b[..n]);
      assert (a + b)[..|a| + n] == a + b[..n] && (a + b)[|a| + n] == b[n];
      JoinsApart(Joined(a), Joined(b[..n]), b[n]);
    }
  }

  lemma JoinsApart(a: seq<Byte>, b: seq<Byte>, c: seq<Byte>)
    ensures a + b + c == a + (b + c)
    ensures b == [] ==> b + c == c
  {
  }

  /** Refinement: after any writes the content is the first bytes of all of them joined, and the
      flag is set exactly when there were more, or an empty write came to a full buffer. */
  lemma {:induction false} BufferKeepsTheFirstBytes(max: int, writes: seq<seq<Byte>>)
    ensures AfterWrites(max, writes).content == First(Joined(writes), Cap(max))
    ensures AfterWrites(max, writes).content <= Joined(writes)
    ensures AfterWrites(max, writes).truncated <==> |Joined(writes)| > Cap(max) || EmptyWriteWhenFull(max, writes)
  {
    if writes != [] {
      var n := |writes| - 1;
      var before, p := writes[..n], writes[n];
      BufferKeepsTheFirstBytes(max, before);
      assert forall i :: 0 <= i < n ==> before[..i] == writes[..i];
      assert forall i :: 0 <= i < n ==> (EmptyAt(max, before, i) <==> EmptyAt(max, writes, i));
      assert EmptyWriteWhenFull(max, writes) <==> EmptyWriteWhenFull(max, before) || EmptyAt(max, writes, n);
      FirstOfFirst(Joined(before), p, Cap(max));
    }
  }

  lemma FirstOfFirst(a: seq<Byte>, b: seq<Byte>, n: nat)
    ensures First(First(a, n) + b, n) == First(a + b, n)
  {
  }
}

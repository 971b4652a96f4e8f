/** The length-prefixed frame that carries a workspace root and a command to the child. */
module Wire {
  import opened Wrappers

  type Byte = x: int | 0 <= x < 256

  const MAX_FRAME_FIELD_BYTES := 0x80_0000  // 8 MiB

  const UINT32 := 0x1_0000_0000

  /** A field may end before its length prefix or its payload does, or claim too much. */
  datatype ReadError = ShortRead | LengthClaim(n: nat)

  // ---------------------------------------------------------------------------------------
  // The format
  // ---------------------------------------------------------------------------------------

  /** Big-endian; a length is reduced to 32 bits before it is written. */
  function BigEndian(n: nat): (bytes: seq<Byte>)
    ensures |bytes| == 4
  {
    var u: int := n % UINT32;
    [LowByte(u / 0x100_0000), LowByte(u / 0x1_0000), LowByte(u / 0x100), LowByte(u)]
  }

  function LowByte(x: int): Byte { x % 0x100 }

  function FromBigEndian(bytes: seq<Byte>): (n: nat)
    requires |bytes| == 4
    ensures n < UINT32
  {
    var b0: int, b1: int, b2: int, b3: int := bytes[0], bytes[1], bytes[2], bytes[3];
    b0 * 0x100_0000 + b1 * 0x1_0000 + b2 * 0x100 + b3
  }

  function Field(s: seq<Byte>): seq<Byte> { BigEndian(|s|) + s }

  function Frame(root: seq<Byte>, command: seq<Byte>): seq<Byte> { Field(root) + Field(command) }

  /** Reading a field off the front of a stream gives it and what is left. */
  function Unfield(stream: seq<Byte>): Result<(seq<Byte>, seq<Byte>), ReadError> {
    if |stream| < 4 then Err(ShortRead) else
      var n := FromBigEndian(stream[..4]);
      if n > MAX_FRAME_FIELD_BYTES then Err(LengthClaim(n))
      else if |stream| < 4 + n then Err(ShortRead)
      else Ok((stream[4..4 + n], stream[4 + n..]))
  }

  datatype Framed = Framed(root: seq<Byte>, command: seq<Byte>, rest: seq<Byte>)

  function Unframe(stream: seq<Byte>): Result<Framed, ReadError> {
    var first := Unfield(stream);
    if first.Err? then Err(first.error) else
      var second := Unfield(first.value.1);
      if second.Err? then Err(second.error) else Ok(Framed(first.value.0, second.value.0, second.value.1))
  }

  // ---------------------------------------------------------------------------------------
  // Writers and readers
  // ---------------------------------------------------------------------------------------

  function Min(a: nat, b: nat): nat { if a <= b then a else b }

  /** A writer that takes `room` more bytes and then fails. */
  class Writer {
    var written: seq<Byte>
    var room: nat

    constructor (room: nat)
      ensures written == [] && this.room == room
    {
      written, this.room := [], room;
    }

    /** Takes everything or, having taken what it had room for, fails. */
    method Write(bytes: seq<Byte>) returns (ok: bool)
      modifies this
      ensures Took(this, old(written), old(room), bytes, ok)
    {
      var n := Min(room, |bytes|);
      ok := n == |bytes|;
      written := written + bytes[..n];
      room := room - n;
    }
  }

  /** A write of `bytes` succeeded exactly if there was room; if not, a proper prefix got out. */
  ghost predicate Took(w: Writer, written: seq<Byte>, room: nat, bytes: seq<Byte>, ok: bool)
    reads w
  {
    && (ok <==> |bytes| <= room)
    && w.written == written + bytes[..Min(room, |bytes|)]
    && w.room == room - Min(room, |bytes|)
  }

  /** Two writes, the second only after the first succeeded, are one write of both. */
  lemma TookBoth(w: Writer, written: seq<Byte>, room: nat, a: seq<Byte>, b: seq<Byte>, ok: bool)
    requires |a| <= room && Took(w, written + a, room - |a|, b, ok)
    ensures Took(w, written, room, a + b, ok)
  {
    assert (a + b)[..Min(room, |a + b|)] == a + b[..Min(room - |a|, |b|)];
  }

  lemma TookFirst(w: Writer, written: seq<Byte>, room: nat, a: seq<Byte>, b: seq<Byte>)
    requires Took(w, written, room, a, false)
    ensures Took(w, written, room, a + b, false)
  {
    assert (a + b)[..room] == a[..room];
  }

  lemma TookAll(w: Writer, written: seq<Byte>, room: nat, a: seq<Byte>)
    requires Took(w, written, room, a, true)
    ensures w.written == written + a && w.room == room - |a|
  {
    assert a[..|a|] == a;
  }

  method WriteField(w: Writer, s: seq<Byte>) returns (ok: bool)
    modifies w
    ensures Took(w, old(w.written), old(w.room), Field(s), ok)
  {
    hide Took;
    ghost var written, room := w.written, w.room;
    var length := BigEndian(|s|);
    ok := w.Write(length);
    if !ok {
      TookFirst(w, written, room, length, s);
      return;
    }
    TookAll(w, written, room, length);
    ok := w.Write(s);
    TookBoth(w, written, room, length, s, ok);
  }

  method WriteFrame(w: Writer, root: seq<Byte>, command: seq<Byte>) returns (ok: bool)
    modifies w
    ensures Took(w, old(w.written), old(w.room), Frame(root, command), ok)
  {
    hide Took, Field;
    ghost var written, room := w.written, w.room;
    ok := WriteField(w, root);
    if !ok {
      TookFirst(w, written, room, Field(root), Field(command));
      return;
    }
    TookAll(w, written, room, Field(root));
    ok := WriteField(w, command);
    TookBoth(w, written, room, Field(root), Field(command), ok);
  }

  class Reader {
    const data: seq<Byte>
    var pos: nat

    ghost predicate Valid()
      reads this
    {
      pos <= |data|
    }

    constructor (data: seq<Byte>)
      ensures Valid() && this.data == data && pos == 0
    {
      this.data, pos := data, 0;
    }

    /** Fills the buffer or fails; a short stream is used up. */
    method ReadFull(buf: array<Byte>) returns (ok: bool)
      requires Valid()
      modifies this, buf
      ensures Valid()
      ensures ok <==> old(pos) + buf.Length <= |data|
      ensures ok ==> pos == old(pos) + buf.Length && buf[..] == data[old(pos)..pos]
      ensures !ok ==> pos == |data|
    {
      var i := 0;
      while i < buf.Length
        invariant 0 <= i <= buf.Length && pos == old(pos) + i <= |data|
        invariant buf[..i] == data[old(pos)..pos]
      {
        if pos == |data| { return false; }
        buf[i] := data[pos];
        pos := pos + 1;
        i := i + 1;
      }
      assert buf[..buf.Length] == buf[..];
      return true;
    }
  }

  method ReadField(r: Reader) returns (s: Result<seq<Byte>, ReadError>)
    requires r.Valid()
    modifies r
    ensures r.Valid()
    ensures match Unfield(r.data[old(r.pos)..])
      case Ok((field, rest)) => s == Ok(field) && r.data[r.pos..] == rest
      case Err(e) => s == Err(e)
  {
    ghost var stream := r.data[r.pos..];
    var lenBuf := new Byte[4](_ => 0);
    var ok := r.ReadFull(lenBuf);
    if !ok { return Err(ShortRead); }
    assert stream[..4] == lenBuf[..];
    var n := FromBigEndian(lenBuf[..]);
    if n > MAX_FRAME_FIELD_BYTES { return Err(LengthClaim(n)); }
    var payload := new Byte[n](_ => 0);
    ok := r.ReadFull(payload);
    if !ok { return Err(ShortRead); }
    assert stream[4..4 + n] == payload[..] && stream[4 + n..] == r.data[r.pos..];
    return Ok(payload[..]);
  }

  /** Reads exactly one frame, or fails; never part of one. */
  method ReadFrame(r: Reader) returns (f: Result<(seq<Byte>, seq<Byte>), ReadError>)
    requires r.Valid()
    modifies r
    ensures r.Valid()
    ensures match Unframe(r.data[old(r.pos)..])
      case Ok(framed) => f == Ok((framed.root, framed.command)) && r.data[r.pos..] == framed.rest
      case Err(e) => f == Err(e)
  {
    var root := ReadField(r);
    if root.Err? { return Err(root.error); }
    var command := ReadField(r);
    if command.Err? { return Err(command.error); }
    return Ok((root.value, command.value));
  }

  // ---------------------------------------------------------------------------------------
  // The code
  // ---------------------------------------------------------------------------------------

  /** The first byte weighs most. */
  lemma BigEndianRoundTrip(n: nat)
    ensures FromBigEndian(BigEndian(n)) == n % 0x1_0000_0000
    ensures var b := BigEndian(n);
      (b[0] as int) * 0x100_0000 + (b[1] as int) * 0x1_0000 + (b[2] as int) * 0x100 + (b[3] as int) == n % 0x1_0000_0000
  {
    var u: int := n % UINT32;
    var a: int, b: int, c: int := u / 0x100, u / 0x1_0000, u / 0x100_0000;
    assert b == a / 0x100 && c == b / 0x100 && c < 0x100;
  }

  /** Where everything is in a frame: the root before the command, each behind its own length. */
  lemma FrameLayout(root: seq<Byte>, command: seq<Byte>)
    ensures var frame, n := Frame(root, command), |root|;
      && |frame| == 8 + n + |command|
      && frame[..4] == BigEndian(n) && frame[4..4 + n] == root
      && frame[4 + n..8 + n] == BigEndian(|command|) && frame[8 + n..] == command
  {
    assert Frame(root, command) == BigEndian(|root|) + root + BigEndian(|command|) + command;
  }

  lemma BigEndianIsCanonical(bytes: seq<Byte>)
    requires |bytes| == 4
    ensures BigEndian(FromBigEndian(bytes)) == bytes
  {
    var b0: int, b1: int, b2: int, b3: int := bytes[0], bytes[1], bytes[2], bytes[3];
    var n: int := FromBigEndian(bytes);
    assert n / 0x100 == b0 * 0x1_0000 + b1 * 0x100 + b2;
    assert n / 0x1_0000 == b0 * 0x100 + b1;
    assert n / 0x100_0000 == b0;
    assert LowByte(n) == b3 && LowByte(n / 0x100) == b2 && LowByte(n / 0x1_0000) == b1 && LowByte(n / 0x100_0000) == b0;
  }

  /** What a reader makes of a written field, of whatever length: a field that fits is read
      back; a longer one is rejected, or cut to its length's low 32 bits. */
  lemma FieldReadsBack(s: seq<Byte>, rest: seq<Byte>)
    ensures var n := |s| % UINT32;
      Unfield(Field(s) + rest) ==
      if n > MAX_FRAME_FIELD_BYTES then Err(LengthClaim(n)) else Ok((s[..n], s[n..] + rest))
  {
    var stream := Field(s) + rest;
    var n := |s| % UINT32;
    BigEndianRoundTrip(|s|);
    assert stream[..4] == BigEndian(|s|);
    if n <= MAX_FRAME_FIELD_BYTES {
      assert stream == BigEndian(|s|) + (s + rest);
      assert stream[4..4 + n] == s[..n];
      assert stream[4 + n..] == s[n..] + rest;
    }
  }

  /** The round trip succeeds exactly for fields of at most 8 MiB. */
  lemma RoundTripExactlyUpToCap(root: seq<Byte>, command: seq<Byte>, rest: seq<Byte>)
    ensures Unframe(Frame(root, command) + rest) == Ok(Framed(root, command, rest)) <==>
            |root| <= 8 * 1024 * 1024 && |command| <= 8 * 1024 * 1024
  {
    hide Frame, Field, Unfield;
    var stream, more := Frame(root, command) + rest, Field(command) + rest;
    FrameThenRest(root, command, rest);
    FieldReadsBackExactly(root, more);
    if Unfield(stream) == Ok((root, more)) {
      FieldReadsBackExactly(command, rest);
    }
  }

  lemma FrameThenRest(root: seq<Byte>, command: seq<Byte>, rest: seq<Byte>)
    ensures Frame(root, command) + rest == Field(root) + (Field(command) + rest)
  {
  }

  /** One field survives exactly when it fits; and never turns into itself with other company. */
  lemma FieldReadsBackExactly(s: seq<Byte>, rest: seq<Byte>)
    ensures Unfield(Field(s) + rest) == Ok((s, rest)) <==> |s| <= MAX_FRAME_FIELD_BYTES
    ensures Unfield(Field(s) + rest).Ok? && Unfield(Field(s) + rest).value.0 == s ==> |s| <= MAX_FRAME_FIELD_BYTES
  {
    hide Field, Unfield;
    FieldReadsBack(s, rest);
    WholeSlice(s, rest);
    var n := |s| % UINT32;
    if |s| > MAX_FRAME_FIELD_BYTES && n <= MAX_FRAME_FIELD_BYTES {
      assert |s[..n]| != |s|;
    }
  }

  lemma WholeSlice(s: seq<Byte>, rest: seq<Byte>)
    ensures s[..|s|] == s && s[|s|..] + rest == rest
  {
  }

  lemma UnfieldIsCanonical(stream: seq<Byte>)
    requires Unfield(stream).Ok?
    ensures var (field, rest) := Unfield(stream).value;
      stream == Field(field) + rest && |field| <= MAX_FRAME_FIELD_BYTES
  {
    BigEndianIsCanonical(stream[..4]);
    var n := FromBigEndian(stream[..4]);
    assert stream == stream[..4] + stream[4..4 + n] + stream[4 + n..];
  }

  /** The encoding is canonical: what an accepted stream's frame consumed is the one encoding
      of what was read. */
  lemma AcceptedStreamsAreFrames(stream: seq<Byte>)
    requires Unframe(stream).Ok?
    ensures var f := Unframe(stream).value;
      && stream == Frame(f.root, f.command) + f.rest
      && |f.root| <= MAX_FRAME_FIELD_BYTES && |f.command| <= MAX_FRAME_FIELD_BYTES
  {
    UnfieldIsCanonical(stream);
    var (root, more) := Unfield(stream).value;
    UnfieldIsCanonical(more);
    var (command, rest) := Unfield(more).value;
    assert Field(root) + (Field(command) + rest) == Frame(root, command) + rest;
  }

  /** Every proper prefix of a readable frame is rejected as too short: frames are prefix-free. */
  lemma ProperPrefixesAreShort(root: seq<Byte>, command: seq<Byte>, n: nat)
    requires |root| <= MAX_FRAME_FIELD_BYTES && |command| <= MAX_FRAME_FIELD_BYTES
    requires n < |Frame(root, command)|
    ensures Unframe(Frame(root, command)[..n]) == Err(ShortRead)
  {
    hide Field, Unfield;
    if n < |Field(root)| {
      assert Frame(root, command)[..n] == Field(root)[..n];
      CutFieldIsShort(root, n);
    } else {
      var m := n - |Field(root)|;
      assert Frame(root, command)[..n] == Field(root) + Field(command)[..m];
      FieldReadsBackExactly(root, Field(command)[..m]);
      CutFieldIsShort(command, m);
    }
  }

  lemma CutFieldIsShort(s: seq<Byte>, n: nat)
    requires |s| <= MAX_FRAME_FIELD_BYTES && n < |Field(s)|
    ensures Unfield(Field(s)[..n]) == Err(ShortRead)
  {
    BigEndianRoundTrip(|s|);
    if n >= 4 {
      assert Field(s)[..n][..4] == BigEndian(|s|);
    }
  }
}

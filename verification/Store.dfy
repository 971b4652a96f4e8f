/** The SQLite repository: a flat message table with MAX(seq) + 1 numbering refines a map from
    session to append-ordered list. */
module Store {
  import opened Wrappers
  import opened Domain
  import C = Conversation

  type Time = int  // an instant

  datatype Session = Session(id: string, title: string, createdAt: Time, updatedAt: Time)

  datatype Record = Record(id: string, sessionId: string, message: Message, createdAt: Time)

  datatype SessionRow = SessionRow(id: string, title: string, createdAt: string, updatedAt: string)

  /** An absent value is SQL NULL. The role column holds one of the four known roles. */
  datatype Row = Row(
    id: string, sessionId: string, seqNo: int, role: Role, content: string,
    toolCalls: Option<string>, toolCallId: Option<string>, createdAt: string)

  datatype StoreError =
    | NotFound | DuplicateId | UnknownSession | UnknownRole | InvalidJson | SeqTaken
    | Unmarshalable | Undecodable | EngineFailed

  /** JSON and time formats. Encoding may reject raw arguments that are not JSON, and compacts
      the ones it accepts. */
  datatype Codec = Codec(
    encode: seq<ToolCall> -> Option<string>, decode: string -> Option<seq<ToolCall>>, compact: Compactor,
    jsonValid: string -> bool, format: Time -> string, parse: string -> Option<Time>)

  ghost predicate GoodCodec(c: Codec) {
    && (forall calls :: c.encode(calls).Some? ==>
          c.jsonValid(c.encode(calls).value) && c.decode(c.encode(calls).value) == Some(CompactCalls(c.compact, calls)))
    && (forall args :: c.compact(c.compact(args)) == c.compact(args))
    && (forall t :: c.parse(c.format(t)) == Some(t))
  }

  // ---------------------------------------------------------------------------------------
  // Rows and records
  // ---------------------------------------------------------------------------------------

  /** No calls are NULL, as is an empty id of an answered call. */
  function ToRow(c: Codec, id: string, seqNo: int, r: Record): Option<Row> {
    var calls := if r.message.toolCalls == [] then Some(None) else
                   var json := c.encode(r.message.toolCalls);
                   if json.None? then None else Some(json);
    if calls.None? then None else
      Some(Row(id, r.sessionId, seqNo, r.message.role, r.message.content, calls.value,
               if r.message.toolCallId == "" then None else Some(r.message.toolCallId), c.format(r.createdAt)))
  }

  function FromRow(c: Codec, row: Row): Option<Record> {
    var createdAt := c.parse(row.createdAt);
    var calls := if row.toolCalls.None? then Some([]) else c.decode(row.toolCalls.value);
    if createdAt.None? || calls.None? then None else
      Some(Record(row.id, row.sessionId,
        Message(row.role, row.content, calls.value, if row.toolCallId.None? then "" else row.toolCallId.value),
        createdAt.value))
  }

  /** What a record reads back as. */
  function Kept(c: Codec, r: Record): Record { r.(message := CompactMessage(c.compact, r.message)) }

  function ReadRecords(c: Codec, list: seq<Record>): seq<Record> {
    seq(|list|, i requires 0 <= i < |list| => Kept(c, list[i]))
  }

  lemma RowRoundTrip(c: Codec, id: string, seqNo: int, r: Record)
    requires GoodCodec(c) && ToRow(c, id, seqNo, r).Some?
    ensures FromRow(c, ToRow(c, id, seqNo, r).value) == Some(Kept(c, r.(id := id)))
    ensures var row := ToRow(c, id, seqNo, r).value;
      && row.id == id && row.sessionId == r.sessionId && row.seqNo == seqNo
      && row.role == r.message.role && row.content == r.message.content
      && (row.toolCalls.None? <==> r.message.toolCalls == [])
      && (row.toolCallId.None? <==> r.message.toolCallId == "")
  {
    var calls := r.message.toolCalls;
    if calls == [] {
      assert CompactCalls(c.compact, calls) == [];
    } else {
      assert c.decode(c.encode(calls).value) == Some(CompactCalls(c.compact, calls));
    }
    assert c.parse(c.format(r.createdAt)) == Some(r.createdAt);
  }

  /** Reading back changes the arguments of calls and nothing else, and it changes them once:
      every record, every call, its id and its name survive, in order. */
  lemma ReadingChangesOnlyArguments(c: Codec, list: seq<Record>)
    requires GoodCodec(c)
    ensures var back := ReadRecords(c, list);
      && |back| == |list|
      && (forall i :: 0 <= i < |list| ==>
            && back[i] == list[i].(message := list[i].message.(toolCalls := back[i].message.toolCalls))
            && |back[i].message.toolCalls| == |list[i].message.toolCalls|
            && forall j :: 0 <= j < |list[i].message.toolCalls| ==>
                 back[i].message.toolCalls[j] ==
                 list[i].message.toolCalls[j].(args := c.compact(list[i].message.toolCalls[j].args)))
      && ReadRecords(c, back) == back
  {
    var back := ReadRecords(c, list);
    forall i | 0 <= i < |list| ensures Kept(c, back[i]) == back[i] {
      CompactedOnce(c, list[i].message.toolCalls);
    }
  }

  lemma CompactedOnce(c: Codec, calls: seq<ToolCall>)
    requires GoodCodec(c)
    ensures CompactCalls(c.compact, CompactCalls(c.compact, calls)) == CompactCalls(c.compact, calls)
  {
    assert forall i :: 0 <= i < |calls| ==> c.compact(c.compact(calls[i].args)) == c.compact(calls[i].args);
  }

  /** What a session's records say. */
  function Said(list: seq<Record>): seq<Message> {
    seq(|list|, i requires 0 <= i < |list| => list[i].message)
  }

  /** So a session is as grammatical, and as far answered, when it is read as when it was
      appended; and what the turn loop is handed is what it reads back. */
  lemma ReadSessionsStandWhereTheyStood(c: Codec, list: seq<Record>)
    ensures Said(ReadRecords(c, list)) == ReadBack(c.compact, Said(list))
    ensures C.PhaseAfter(C.Fresh, Said(ReadRecords(c, list))) == C.PhaseAfter(C.Fresh, Said(list))
    ensures C.Grammatical(Said(ReadRecords(c, list))) <==> C.Grammatical(Said(list))
    ensures C.AllAnswered(Said(ReadRecords(c, list))) <==> C.AllAnswered(Said(list))
  {
    assert Said(ReadRecords(c, list)) == ReadBack(c.compact, Said(list));
    hide ReadBack, C.PhaseAfter, C.AllAnswered;
    C.ReadBackKeepsPhase(c.compact, C.Fresh, Said(list));
    C.ReadBackKeepsAnswers(c.compact, Said(list));
  }

  // ---------------------------------------------------------------------------------------
  // The table
  // ---------------------------------------------------------------------------------------

  /** The rows of one session, in table order. */
  function OfSession(rows: seq<Row>, sid: string): seq<Row> {
    if rows == [] then [] else
      OfSession(rows[..|rows| - 1], sid) + if rows[|rows| - 1].sessionId == sid then [rows[|rows| - 1]] else []
  }

  /** COALESCE(MAX(seq), 0) over one session. */
  function MaxSeq(rows: seq<Row>, sid: string): int {
    var own := OfSession(rows, sid);
    if own == [] then 0 else MaxOf(own)
  }

  function MaxOf(rows: seq<Row>): (m: int)
    requires rows != []
    ensures forall r :: r in rows ==> r.seqNo <= m
    ensures exists r :: r in rows && r.seqNo == m
  {
    var last := rows[|rows| - 1];
    assert last in rows;
    if |rows| == 1 then last.seqNo else
      var before := rows[..|rows| - 1];
      assert rows == before + [last];
      var m := MaxOf(before);
      if last.seqNo > m then last.seqNo else m
  }

  /** The sequence numbers of a session are exactly 1, 2, and so on, in table order. */
  predicate Numbered(own: seq<Row>) {
    forall i :: 0 <= i < |own| ==> own[i].seqNo == i + 1
  }

  lemma {:induction false} OfSessionMembers(rows: seq<Row>, sid: string)
    ensures forall r :: r in OfSession(rows, sid) <==> r in rows && r.sessionId == sid
  {
    if rows != [] {
      OfSessionMembers(rows[..|rows| - 1], sid);
      assert rows == rows[..|rows| - 1] + [rows[|rows| - 1]];
    }
  }

  /** The next number is one more than the session's length, and no row has it. */
  lemma NextSeqIsFree(rows: seq<Row>, sid: string)
    requires Numbered(OfSession(rows, sid))
    ensures MaxSeq(rows, sid) == |OfSession(rows, sid)|
    ensures forall r :: r in rows && r.sessionId == sid ==> r.seqNo != MaxSeq(rows, sid) + 1
  {
    var own := OfSession(rows, sid);
    OfSessionMembers(rows, sid);
    if own != [] {
      var m := MaxOf(own);
      assert own[|own| - 1] in own;
    }
  }

  /** ORDER BY seq: some arrangement of the rows, with ascending numbers. */
  ghost predicate OrderedBySeq(result: seq<Row>, rows: seq<Row>) {
    multiset(result) == multiset(rows) && forall i, j :: 0 <= i < j < |result| ==> result[i].seqNo <= result[j].seqNo
  }

  ghost predicate Sorts(sort: seq<Row> -> seq<Row>) {
    forall rows :: OrderedBySeq(sort(rows), rows)
  }

  lemma SameMembers(result: seq<Row>, own: seq<Row>)
    requires multiset(result) == multiset(own)
    ensures |result| == |own|
    ensures forall r :: r in result <==> r in own
  {
    assert |multiset(result)| == |multiset(own)|;
    forall r ensures r in result <==> r in own {
      assert r in multiset(result) <==> r in multiset(own);
    }
  }

  lemma LastIsLast(result: seq<Row>, own: seq<Row>)
    requires Numbered(own) && OrderedBySeq(result, own) && own != []
    ensures |result| == |own| && result[|own| - 1] == own[|own| - 1]
  {
    SameMembers(result, own);
    var n := |own| - 1;
    assert own[n] in result && result[n] in own;
    var i :| 0 <= i <= n && result[i] == own[n];
    var j :| 0 <= j <= n && own[j] == result[n];
    assert result[i].seqNo <= result[n].seqNo;
  }

  lemma MultisetWithoutLast(rows: seq<Row>)
    requires rows != []
    ensures multiset(rows) == multiset(rows[..|rows| - 1]) + multiset{rows[|rows| - 1]}
  {
    assert rows == rows[..|rows| - 1] + [rows[|rows| - 1]];
  }

  lemma WithoutLastStaysOrdered(result: seq<Row>, own: seq<Row>)
    requires OrderedBySeq(result, own) && own != [] && |result| == |own| && result[|own| - 1] == own[|own| - 1]
    ensures OrderedBySeq(result[..|own| - 1], own[..|own| - 1])
  {
    var n := |own| - 1;
    MultisetWithoutLast(result);
    MultisetWithoutLast(own);
    assert multiset(result[..n]) == multiset(result) - multiset{own[n]};
    assert multiset(own[..n]) == multiset(own) - multiset{own[n]};
  }

  /** However the engine sorts, ordering a numbered session by seq is its table order. */
  lemma {:induction false} OrderIsTableOrder(result: seq<Row>, own: seq<Row>)
    requires Numbered(own) && OrderedBySeq(result, own)
    ensures result == own
  {
    SameMembers(result, own);
    if own != [] {
      var n := |own| - 1;
      LastIsLast(result, own);
      WithoutLastStaysOrdered(result, own);
      hide OrderedBySeq;
      OrderIsTableOrder(result[..n], own[..n]);
      assert result == result[..n] + [result[n]] && own == own[..n] + [own[n]];
    }
  }

  // ---------------------------------------------------------------------------------------
  // What the tables stand for
  // ---------------------------------------------------------------------------------------

  function SessionToRow(c: Codec, s: Session): SessionRow {
    SessionRow(s.id, s.title, c.format(s.createdAt), c.format(s.updatedAt))
  }

  function SessionFromRow(c: Codec, row: SessionRow): Option<Session> {
    var createdAt, updatedAt := c.parse(row.createdAt), c.parse(row.updatedAt);
    if createdAt.None? || updatedAt.None? then None
    else Some(Session(row.id, row.title, createdAt.value, updatedAt.value))
  }

  /** The session table holds exactly the known sessions. */
  ghost predicate SessionsHold(c: Codec, sessions: seq<SessionRow>, known: map<string, Session>) {
    && (forall s :: s in sessions ==> s.id in known && SessionFromRow(c, s) == Some(known[s.id]))
    && known.Keys == IdsOf(sessions)
  }

  function IdsOf(sessions: seq<SessionRow>): set<string> {
    set s | s in sessions :: s.id
  }

  /** The rows of a session are numbered from 1 and read back as the list. */
  ghost predicate Holds(c: Codec, own: seq<Row>, list: seq<Record>) {
    Numbered(own) && |own| == |list| && forall i :: 0 <= i < |own| ==> FromRow(c, own[i]) == Some(Kept(c, list[i]))
  }

  predicate DistinctIds(rows: seq<Row>) {
    forall i, j :: 0 <= i < j < |rows| ==> rows[i].id != rows[j].id
  }

  /** The message table holds exactly the lists. */
  ghost predicate RowsHold(c: Codec, rows: seq<Row>, lists: map<string, seq<Record>>) {
    && DistinctIds(rows)
    && (forall r :: r in rows ==> r.sessionId in lists)
    && (forall sid :: sid in lists ==> Holds(c, OfSession(rows, sid), lists[sid]))
  }

  lemma NewSession(c: Codec, sessions: seq<SessionRow>, known: map<string, Session>, s: Session)
    requires GoodCodec(c) && SessionsHold(c, sessions, known) && s.id !in known
    ensures SessionsHold(c, sessions + [SessionToRow(c, s)], known[s.id := s])
  {
    assert c.parse(c.format(s.createdAt)) == Some(s.createdAt);
    assert c.parse(c.format(s.updatedAt)) == Some(s.updatedAt);
    var more := sessions + [SessionToRow(c, s)];
    assert more[|sessions|] == SessionToRow(c, s);
  }

  lemma SessionIsFound(c: Codec, sessions: seq<SessionRow>, known: map<string, Session>, id: string)
    requires SessionsHold(c, sessions, known)
    ensures (forall s :: s in sessions ==> s.id != id) ==> id !in known
    ensures forall s :: s in sessions && s.id == id ==> id in known && SessionFromRow(c, s) == Some(known[id])
  {
  }

  lemma NewList(c: Codec, rows: seq<Row>, lists: map<string, seq<Record>>, sid: string)
    requires RowsHold(c, rows, lists) && sid !in lists
    ensures RowsHold(c, rows, lists[sid := []])
    ensures OfSession(rows, sid) == []
  {
    NoRowsOf(rows, sid);
  }

  lemma {:induction false} NoRowsOf(rows: seq<Row>, sid: string)
    requires forall r :: r in rows ==> r.sessionId != sid
    ensures OfSession(rows, sid) == []
  {
    if rows != [] {
      assert rows[|rows| - 1] in rows;
      NoRowsOf(rows[..|rows| - 1], sid);
    }
  }

  /** A row with its session's next number extends that session's list and no other. */
  lemma NewRow(c: Codec, rows: seq<Row>, lists: map<string, seq<Record>>, row: Row, record: Record)
    requires RowsHold(c, rows, lists)
    requires row.sessionId in lists && row.seqNo == MaxSeq(rows, row.sessionId) + 1
    requires forall r :: r in rows ==> r.id != row.id
    requires FromRow(c, row) == Some(Kept(c, record))
    ensures RowsHold(c, rows + [row], lists[row.sessionId := lists[row.sessionId] + [record]])
  {
    hide FromRow, Kept, MaxSeq, Holds, OfSession, DistinctIds;
    var lists' := lists[row.sessionId := lists[row.sessionId] + [record]];
    var rows' := rows + [row];
    NewIdIsDistinct(rows, row);
    forall sid | sid in lists' ensures Holds(c, OfSession(rows', sid), lists'[sid]) {
      NewRowOfSession(rows, row, sid);
      assert Holds(c, OfSession(rows, sid), lists[sid]);
      if sid == row.sessionId {
        NextSeqIsFreeOf(c, rows, lists[sid], sid);
        HoldsOneMore(c, OfSession(rows, sid), lists[sid], row, record);
      }
    }
  }

  lemma NextSeqIsFreeOf(c: Codec, rows: seq<Row>, list: seq<Record>, sid: string)
    requires Holds(c, OfSession(rows, sid), list)
    ensures MaxSeq(rows, sid) == |OfSession(rows, sid)|
  {
    NextSeqIsFree(rows, sid);
  }

  lemma NewIdIsDistinct(rows: seq<Row>, row: Row)
    requires DistinctIds(rows) && forall r :: r in rows ==> r.id != row.id
    ensures DistinctIds(rows + [row])
  {
  }

  lemma NewRowOfSession(rows: seq<Row>, row: Row, sid: string)
    ensures OfSession(rows + [row], sid) ==
            if row.sessionId == sid then OfSession(rows, sid) + [row] else OfSession(rows, sid)
  {
    assert (rows + [row])[..|rows|] == rows;
  }

  lemma HoldsOneMore(c: Codec, own: seq<Row>, list: seq<Record>, row: Row, record: Record)
    requires Holds(c, own, list) && row.seqNo == |own| + 1 && FromRow(c, row) == Some(Kept(c, record))
    ensures Holds(c, own + [row], list + [record])
  {
    hide FromRow, Kept;
  }

  /** The UNIQUE constraint on (session_id, seq) can never fire for the number MAX(seq) + 1. */
  lemma UniqueNeverFires(c: Codec, rows: seq<Row>, lists: map<string, seq<Record>>, sid: string)
    requires RowsHold(c, rows, lists)
    ensures forall r :: r in rows && r.sessionId == sid ==> r.seqNo != MaxSeq(rows, sid) + 1
  {
    forall r | r in rows && r.sessionId == sid ensures r.seqNo != MaxSeq(rows, sid) + 1 {
      assert Holds(c, OfSession(rows, sid), lists[sid]);
      NextSeqIsFree(rows, sid);
    }
  }

  // ---------------------------------------------------------------------------------------
  // The repository
  // ---------------------------------------------------------------------------------------

  class Repo {
    const codec: Codec
    const orderBySeq: seq<Row> -> seq<Row>  // the engine's sort

    var sessions: seq<SessionRow>
    var rows: seq<Row>

    /** What the tables stand for. */
    ghost var known: map<string, Session>
    ghost var lists: map<string, seq<Record>>

    ghost predicate Valid()
      reads this
    {
      && GoodCodec(codec) && Sorts(orderBySeq)
      && known.Keys == lists.Keys
      && SessionsHold(codec, sessions, known)
      && RowsHold(codec, rows, lists)
    }

    constructor (codec: Codec, orderBySeq: seq<Row> -> seq<Row>)
      requires GoodCodec(codec) && Sorts(orderBySeq)
      ensures Valid() && this.codec == codec && known == map[] && lists == map[]
    {
      this.codec, this.orderBySeq := codec, orderBySeq;
      sessions, rows, known, lists := [], [], map[], map[];
    }

    /** Looks a session up by its primary key. */
    method FindSession(id: string) returns (found: Option<SessionRow>)
      requires Valid()
      ensures found.Some? <==> id in known
      ensures found.Some? ==> SessionFromRow(codec, found.value) == Some(known[id])
    {
      SessionIsFound(codec, sessions, known, id);
      hide SessionsHold, SessionFromRow, RowsHold, GoodCodec, Sorts;
      for i := 0 to |sessions|
        invariant forall j :: 0 <= j < i ==> sessions[j].id != id
      {
        if sessions[i].id == id { return Some(sessions[i]); }
      }
      return None;
    }

    /** The engine may fail any statement for reasons of its own: then `broken`. */
    method CreateSession(s: Session, broken: bool) returns (e: Option<StoreError>)
      requires Valid()
      modifies this
      ensures Valid() && rows == old(rows)
      ensures e.None? <==> !broken && s.id !in old(known)
      ensures e.None? ==> known == old(known)[s.id := s] && lists == old(lists)[s.id := []]
      ensures e.Some? ==>
        && e.value == (if broken then EngineFailed else DuplicateId)
        && known == old(known) && lists == old(lists) && sessions == old(sessions)
    {
      hide SessionsHold, RowsHold, GoodCodec, Sorts, SessionFromRow;
      if broken { return Some(EngineFailed); }
      var found := FindSession(s.id);
      if found.Some? { return Some(DuplicateId); }
      NewSession(codec, sessions, known, s);
      NewList(codec, rows, lists, s.id);
      sessions := sessions + [SessionToRow(codec, s)];
      known := known[s.id := s];
      lists := lists[s.id := []];
      return None;
    }

    method GetSession(id: string, broken: bool) returns (r: Result<Session, StoreError>)
      requires Valid()
      ensures r == if broken then Err(EngineFailed) else if id in known then Ok(known[id]) else Err(NotFound)
    {
      if broken { return Err(EngineFailed); }
      var found := FindSession(id);
      if found.None? { return Err(NotFound); }
      var session := SessionFromRow(codec, found.value);
      if session.None? { return Err(Undecodable); }
      return Ok(session.value);
    }

    /** One INSERT. A record without an id gets `newId`. Whatever makes it fail, nothing
        changes; and neither the UNIQUE constraint on (session_id, seq) nor the JSON check is
        ever what makes it fail. */
    method AppendMessage(r: Record, newId: string, broken: bool) returns (e: Option<StoreError>)
      requires Valid()
      modifies this
      ensures Valid() && known == old(known) && sessions == old(sessions)
      ensures var id := if r.id == "" then newId else r.id;
        && (e.None? <==>
              && !broken
              && (r.message.toolCalls == [] || codec.encode(r.message.toolCalls).Some?)
              && !r.message.role.Other?
              && r.sessionId in old(known)
              && (forall row :: row in old(rows) ==> row.id != id))
        && (e.None? ==>
              && r.sessionId in old(lists)
              && lists == old(lists)[r.sessionId := old(lists)[r.sessionId] + [r.(id := id)]])
      ensures e.Some? ==> e.value != SeqTaken && e.value != InvalidJson && rows == old(rows) && lists == old(lists)
    {
      hide SessionsHold, RowsHold, GoodCodec, Sorts, FromRow, Kept, MaxSeq, SessionFromRow;
      var id := r.id;
      if id == "" { id := newId; }
      var row := ToRow(codec, id, MaxSeq(rows, r.sessionId) + 1, r);
      if row.None? { return Some(Unmarshalable); }
      if broken { return Some(EngineFailed); }
      RowRoundTrip(codec, id, row.value.seqNo, r);
      EncodedIsValid(codec, id, row.value.seqNo, r);
      UniqueNeverFires(codec, rows, lists, r.sessionId);
      var session := FindSession(r.sessionId);
      e := Refusal(row.value, session.Some?);
      if e.Some? { return; }
      NewRow(codec, rows, lists, row.value, r.(id := id));
      rows := rows + [row.value];
      lists := lists[r.sessionId := lists[r.sessionId] + [r.(id := id)]];
    }

    /** The constraints of the messages table, checked against every row. */
    method Refusal(row: Row, sessionKnown: bool) returns (e: Option<StoreError>)
      ensures e.None? ==>
        && !row.role.Other? && (row.toolCalls.None? || codec.jsonValid(row.toolCalls.value)) && sessionKnown
        && (forall r :: r in rows ==> r.id != row.id && !(r.sessionId == row.sessionId && r.seqNo == row.seqNo))
      ensures e.Some? ==>
        || (e.value == UnknownRole && row.role.Other?)
        || (e.value == InvalidJson && row.toolCalls.Some? && !codec.jsonValid(row.toolCalls.value))
        || (e.value == UnknownSession && !sessionKnown)
        || (e.value == DuplicateId && exists r :: r in rows && r.id == row.id)
        || (e.value == SeqTaken && exists r :: r in rows && r.sessionId == row.sessionId && r.seqNo == row.seqNo)
    {
      if row.role.Other? { return Some(UnknownRole); }
      if row.toolCalls.Some? && !codec.jsonValid(row.toolCalls.value) { return Some(InvalidJson); }
      if !sessionKnown { return Some(UnknownSession); }
      for i := 0 to |rows|
        invariant forall j :: 0 <= j < i ==>
          rows[j].id != row.id && !(rows[j].sessionId == row.sessionId && rows[j].seqNo == row.seqNo)
      {
        if rows[i].id == row.id { return Some(DuplicateId); }
        if rows[i].sessionId == row.sessionId && rows[i].seqNo == row.seqNo { return Some(SeqTaken); }
      }
      return None;
    }

    /** The session's appends in order, whatever order the engine keeps its rows in. */
    method Messages(sid: string, broken: bool) returns (r: Result<seq<Record>, StoreError>)
      requires Valid()
      ensures r == if broken then Err(EngineFailed) else Ok(ReadRecords(codec, if sid in lists then lists[sid] else []))
    {
      hide RowsHold, SessionsHold, Sorts, FromRow, OfSession, GoodCodec;
      if broken { return Err(EngineFailed); }
      ghost var list := if sid in lists then lists[sid] else [];
      ListIsHeld(codec, rows, lists, sid);
      var selected := orderBySeq(OfSession(rows, sid));
      Sorted(orderBySeq, OfSession(rows, sid));
      OrderIsTableOrder(selected, OfSession(rows, sid));
      var out: seq<Record> := [];
      for i := 0 to |selected|
        invariant out == ReadRecords(codec, list)[..i]
      {
        var record := FromRow(codec, selected[i]);
        if record.None? { return Err(Undecodable); }
        out := out + [record.value];
      }
      assert ReadRecords(codec, list)[..|list|] == ReadRecords(codec, list);
      return Ok(out);
    }
  }

  lemma ListIsHeld(c: Codec, rows: seq<Row>, lists: map<string, seq<Record>>, sid: string)
    requires RowsHold(c, rows, lists)
    ensures Holds(c, OfSession(rows, sid), if sid in lists then lists[sid] else [])
  {
    if sid !in lists { NewList(c, rows, lists, sid); }
  }

  lemma Sorted(sort: seq<Row> -> seq<Row>, rows: seq<Row>)
    requires Sorts(sort)
    ensures OrderedBySeq(sort(rows), rows)
  {
  }

  lemma EncodedIsValid(c: Codec, id: string, seqNo: int, r: Record)
    requires GoodCodec(c) && ToRow(c, id, seqNo, r).Some?
    ensures var row := ToRow(c, id, seqNo, r).value; row.toolCalls.None? || c.jsonValid(row.toolCalls.value)
  {
    if r.message.toolCalls != [] {
      assert c.jsonValid(c.encode(r.message.toolCalls).value);
    }
  }
}

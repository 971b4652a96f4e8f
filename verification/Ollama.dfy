/** The producer side of a turn: an NDJSON body becomes a stream of events on a channel. */
module Ollama {
  import opened Wrappers
  import opened Domain

  datatype WireToolCall = WireToolCall(id: string, name: string, arguments: string)

  /** One scanned line, after trimming and decoding. */
  datatype Line =
    | Blank
    | Undecodable
    | Reply(content: string, calls: seq<WireToolCall>, done: bool)

  /** A body is its lines and how it ends: with a read error, or by closing. */
  datatype Body = Body(lines: seq<Line>, readFails: bool)

  const DECODE_ERROR := Failure("ollama: decode stream line")
  const READ_ERROR := Failure("ollama: stream read")
  const CLOSED_EARLY := Failure("ollama: connection closed before terminal event")

  /** A supply of identifiers, indexed by the call that may need one. */
  type Ids = nat -> string

  ghost predicate NeverEmpty(ids: Ids) { forall i: nat :: ids(i) != "" }

  ghost predicate NeverTwice(ids: Ids) { forall i: nat, j: nat :: i != j ==> ids(i) != ids(j) }

  ghost predicate NewTo(ids: Ids, wire: seq<WireToolCall>) {
    forall i: nat, j :: 0 <= j < |wire| ==> ids(i) != wire[j].id
  }

  // ---------------------------------------------------------------------------------------
  // Tool calls on the wire
  // ---------------------------------------------------------------------------------------

  /** The source tells a nil list from an empty one nowhere after this point. */
  method FromWireToolCalls(wire: seq<WireToolCall>, ids: Ids) returns (calls: seq<ToolCall>)
    ensures calls == FromWire(wire, ids) && TakenOver(wire, ids, calls)
  {
    CallsAreTakenOver(wire, ids);
    if |wire| == 0 { return []; }
    var out := new ToolCall[|wire|](_ => ToolCall("", "", ""));
    for i := 0 to |wire|
      invariant forall j :: 0 <= j < i ==> out[j] == FromWire(wire, ids)[j]
    {
      var id := wire[i].id;
      if id == "" { id := ids(i); }
      out[i] := ToolCall(id, wire[i].name, wire[i].arguments);
    }
    calls := out[..];
    assert calls == FromWire(wire, ids);
  }

  method ToWireToolCalls(calls: seq<ToolCall>) returns (wire: seq<WireToolCall>)
    ensures wire == ToWire(calls)
  {
    if |calls| == 0 { return []; }
    var out := new WireToolCall[|calls|](_ => WireToolCall("", "", ""));
    for i := 0 to |calls|
      invariant forall j :: 0 <= j < i ==> out[j] == ToWire(calls)[j]
    {
      out[i] := WireToolCall(calls[i].id, calls[i].name, calls[i].args);
    }
    wire := out[..];
    assert wire == ToWire(calls);
  }

  function FromWire(wire: seq<WireToolCall>, ids: Ids): seq<ToolCall> {
    seq(|wire|, i requires 0 <= i < |wire| =>
      ToolCall(if wire[i].id == "" then ids(i) else wire[i].id, wire[i].name, wire[i].arguments))
  }

  function ToWire(calls: seq<ToolCall>): seq<WireToolCall> {
    seq(|calls|, i requires 0 <= i < |calls| => WireToolCall(calls[i].id, calls[i].name, calls[i].args))
  }

  /** The calls are those on the wire, in order. One that has an id keeps it; one that has none gets
      one of its own, that no other call of the answer has, if the supply is good for that. */
  ghost predicate TakenOver(wire: seq<WireToolCall>, ids: Ids, calls: seq<ToolCall>) {
    && |calls| == |wire|
    && (forall i :: 0 <= i < |wire| ==>
          && calls[i].name == wire[i].name && calls[i].args == wire[i].arguments
          && (wire[i].id != "" ==> calls[i].id == wire[i].id)
          && (NeverEmpty(ids) ==> calls[i].id != ""))
    && (NeverTwice(ids) ==>
          forall i, j :: 0 <= i < j < |wire| && wire[i].id == wire[j].id == "" ==> calls[i].id != calls[j].id)
    && (NewTo(ids, wire) ==>
          forall i, j :: 0 <= i < |wire| && 0 <= j < |wire| && wire[i].id == "" ==> calls[i].id != wire[j].id)
  }

  lemma CallsAreTakenOver(wire: seq<WireToolCall>, ids: Ids)
    ensures TakenOver(wire, ids, FromWire(wire, ids))
  {
    var calls := FromWire(wire, ids);
    assert forall i :: 0 <= i < |wire| && wire[i].id == "" ==> calls[i].id == ids(i);
  }

  /** So with a good supply any two calls of an answer can be told apart by their ids, exactly if
      those that had one already can. */
  lemma CallsCanBeToldApart(wire: seq<WireToolCall>, ids: Ids)
    requires NeverEmpty(ids) && NeverTwice(ids) && NewTo(ids, wire)
    ensures var calls := FromWire(wire, ids);
      (forall i, j :: 0 <= i < j < |calls| ==> calls[i].id != calls[j].id) <==>
      (forall i, j :: 0 <= i < j < |wire| && wire[i].id != "" ==> wire[i].id != wire[j].id)
  {
    CallsAreTakenOver(wire, ids);
    var calls := FromWire(wire, ids);
    hide FromWire, NeverEmpty, NeverTwice, NewTo;
    assert forall i :: 0 <= i < |wire| && wire[i].id != "" ==> calls[i].id == wire[i].id;
    assert forall i, j :: 0 <= i < |wire| && 0 <= j < |wire| && wire[i].id == "" ==> calls[i].id != wire[j].id;
  }

  /** Replaying stored calls to the server and reading them back changes nothing, exactly
      when every stored call has an id; and reading never yields a call without one. */
  lemma WireRoundTrip(calls: seq<ToolCall>, wire: seq<WireToolCall>, ids: Ids)
    requires NeverEmpty(ids)
    ensures FromWire(ToWire(calls), ids) == calls <==> forall c :: c in calls ==> c.id != ""
    ensures forall c :: c in FromWire(wire, ids) ==> c.id != ""
  {
    var back := FromWire(ToWire(calls), ids);
    assert forall i :: 0 <= i < |calls| ==> (back[i] == calls[i] <==> calls[i].id != "");
    if forall c :: c in calls ==> c.id != "" {
      assert back == calls;
    } else {
      var i :| 0 <= i < |calls| && calls[i].id == "";
      assert back[i] != calls[i];
    }
  }

  // ---------------------------------------------------------------------------------------
  // What a body means
  // ---------------------------------------------------------------------------------------

  /** The events that lines `i` and on stand for: their non-empty contents up to and including
      the first done line, then one terminal event. */
  function ScriptFrom(body: Body, ids: Ids, i: nat): seq<StreamEvent>
    requires i <= |body.lines|
    decreases |body.lines| - i
  {
    if i == |body.lines| then
      [Broken(if body.readFails then READ_ERROR else CLOSED_EARLY)]
    else
      match body.lines[i]
      case Blank => ScriptFrom(body, ids, i + 1)
      case Undecodable => [Broken(DECODE_ERROR)]
      case Reply(content, calls, done) =>
        Then(content, if done then [Done(FromWire(calls, ids))] else ScriptFrom(body, ids, i + 1))
  }

  /** Empty contents are not sent. */
  function Then(content: string, rest: seq<StreamEvent>): seq<StreamEvent> {
    if content == "" then rest else [Delta(content)] + rest
  }

  function Script(body: Body, ids: Ids): seq<StreamEvent> { ScriptFrom(body, ids, 0) }

  /** A done line or an undecodable one ends the stream. */
  predicate Stops(line: Line) { line.Undecodable? || (line.Reply? && line.done) }

  function FirstStop(lines: seq<Line>, from: nat := 0): (n: nat)
    requires from <= |lines|
    ensures from <= n <= |lines|
    ensures forall i :: from <= i < n ==> !Stops(lines[i])
    ensures n < |lines| ==> Stops(lines[n])
    decreases |lines| - from
  {
    if from == |lines| || Stops(lines[from]) then from else FirstStop(lines, from + 1)
  }

  /** The non-empty contents of lines `i` up to, not including, `n`. */
  function Contents(lines: seq<Line>, i: nat, n: nat): seq<string>
    requires i <= n <= |lines|
    decreases n - i
  {
    if i == n then [] else
      (if lines[i].Reply? && lines[i].content != "" then [lines[i].content] else []) + Contents(lines, i + 1, n)
  }

  /** Every line gives its content, if it has any, in its place. */
  lemma {:induction false} ContentsInOrder(lines: seq<Line>, i: nat, k: nat, n: nat)
    requires i <= k < n <= |lines|
    ensures Contents(lines, i, i) == []
    ensures Contents(lines, i, n) ==
            Contents(lines, i, k)
            + (if lines[k].Reply? && lines[k].content != "" then [lines[k].content] else [])
            + Contents(lines, k + 1, n)
    decreases k - i
  {
    if i < k {
      ContentsInOrder(lines, i + 1, k, n);
    }
  }

  /** A line is heard exactly if none before it stops the stream. */
  lemma HeardUpToFirstStop(lines: seq<Line>, n: nat)
    requires n < |lines|
    ensures n < LinesHeard(lines) <==>
      forall i :: 0 <= i < n ==> !lines[i].Undecodable? && !(lines[i].Reply? && lines[i].done)
  {
  }

  /** How many lines the stream gets to see. */
  function LinesHeard(lines: seq<Line>): (n: nat)
    ensures n <= |lines|
  {
    var n := FirstStop(lines);
    if n < |lines| then n + 1 else n
  }

  function Deltas(contents: seq<string>): seq<StreamEvent> {
    seq(|contents|, i requires 0 <= i < |contents| => Delta(contents[i]))
  }

  /** How the stream of `body` ends. */
  function LastEvent(body: Body, ids: Ids): StreamEvent {
    var n := FirstStop(body.lines);
    if n == |body.lines| then Broken(if body.readFails then READ_ERROR else CLOSED_EARLY)
    else if body.lines[n].Undecodable? then Broken(DECODE_ERROR)
    else Done(FromWire(body.lines[n].calls, ids))
  }

  /** The shape of every script, read off the lines as a whole. */
  lemma ScriptShape(body: Body, ids: Ids)
    ensures Script(body, ids) == Deltas(Contents(body.lines, 0, LinesHeard(body.lines))) + [LastEvent(body, ids)]
    ensures Terminal(LastEvent(body, ids))
  {
    ScriptShapeFrom(body, ids, 0);
  }

  /** The calls on the lines before `n`. */
  function CallsBefore(lines: seq<Line>, n: nat): seq<WireToolCall>
    requires n <= |lines|
  {
    if n == 0 then []
    else CallsBefore(lines, n - 1) + if lines[n - 1].Reply? then lines[n - 1].calls else []
  }

  /** Only the done line's calls are delivered: they are all the calls the stream saw exactly
      when no line before that one carries any. */
  lemma AllCallsDeliveredExactlyWhenOnDoneLine(body: Body, ids: Ids)
    requires FirstStop(body.lines) < |body.lines| && body.lines[FirstStop(body.lines)].Reply?
    ensures var n := FirstStop(body.lines);
      LastEvent(body, ids) == Done(FromWire(CallsBefore(body.lines, n + 1), ids)) <==>
      forall i :: 0 <= i < n && body.lines[i].Reply? ==> body.lines[i].calls == []
  {
    var lines, n := body.lines, FirstStop(body.lines);
    NoCallsBefore(lines, n);
    assert CallsBefore(lines, n + 1) == CallsBefore(lines, n) + lines[n].calls;
    assert |FromWire(CallsBefore(lines, n + 1), ids)| == |CallsBefore(lines, n)| + |FromWire(lines[n].calls, ids)|;
    assert [] + lines[n].calls == lines[n].calls;
  }

  lemma {:induction false} NoCallsBefore(lines: seq<Line>, n: nat)
    requires n <= |lines|
    ensures CallsBefore(lines, n) == [] <==> forall i :: 0 <= i < n && lines[i].Reply? ==> lines[i].calls == []
  {
    if n > 0 {
      NoCallsBefore(lines, n - 1);
    }
  }

  lemma {:induction false} ScriptShapeFrom(body: Body, ids: Ids, i: nat)
    requires i <= FirstStop(body.lines)
    ensures ScriptFrom(body, ids, i) == Deltas(Contents(body.lines, i, LinesHeard(body.lines))) + [LastEvent(body, ids)]
    decreases |body.lines| - i
  {
    var n := LinesHeard(body.lines);
    if i < FirstStop(body.lines) {
      ScriptShapeFrom(body, ids, i + 1);
      hide LastEvent, LinesHeard, FromWire;
      var rest := Contents(body.lines, i + 1, n);
      if body.lines[i].Reply? && body.lines[i].content != "" {
        var content := body.lines[i].content;
        assert Deltas([content] + rest) == [Delta(content)] + Deltas(rest);
      } else {
        assert Contents(body.lines, i, n) == rest;
      }
    } else if i < |body.lines| {
      assert Contents(body.lines, i + 1, n) == [];
    }
  }

  // ---------------------------------------------------------------------------------------
  // The stream goroutine
  // ---------------------------------------------------------------------------------------

  /** The sending end of an unbuffered channel under a cancellable context. A send is a race
      between the receiver and cancellation; `sent` is what the receiver got. */
  class StreamChannel {
    var sent: seq<StreamEvent>
    var closed: bool
    var cancelled: bool
    ghost var lost: bool  // an event lost to the context

    constructor ()
      ensures sent == [] && !closed && !lost
    {
      sent, closed, cancelled, lost := [], false, *, false;
    }

    /** Sending on a closed channel would panic. Once the context is done either side of the
        race may win; after a lost event nothing more is sent. */
    method Send(ev: StreamEvent) returns (ok: bool)
      requires !closed && !lost
      modifies this`sent, this`cancelled, this`lost
      ensures lost <==> !ok
      ensures ok ==> sent == old(sent) + [ev]
      ensures !ok ==> sent == old(sent) && cancelled
      ensures old(cancelled) ==> cancelled
    {
      if * { cancelled := true; }
      if cancelled { ok := *; } else { ok := true; }
      if ok { sent := sent + [ev]; }
      lost := !ok;
    }

    method Close()
      requires !closed
      modifies this`closed
      ensures closed
    {
      closed := true;
    }
  }

  /** Delivers the body's script: all of it, or, exactly if an event lost to the context, a
      proper prefix; and closes the channel once, as its last act, in every case. */
  method Stream(body: Body, ids: Ids, ch: StreamChannel)
    requires !ch.closed && !ch.lost && ch.sent == []
    modifies ch
    ensures ch.closed && (ch.lost ==> ch.cancelled)
    ensures if ch.lost then ch.sent < Script(body, ids) else ch.sent == Script(body, ids)
  {
    Scan(body, ids, ch);
    ch.Close();
  }

  /** The body of the goroutine, up to its deferred closes. */
  method Scan(body: Body, ids: Ids, ch: StreamChannel)
    requires !ch.closed && !ch.lost && ch.sent == []
    modifies ch`sent, ch`cancelled, ch`lost
    ensures ch.lost ==> ch.cancelled
    ensures if ch.lost then ch.sent < Script(body, ids) else ch.sent == Script(body, ids)
  {
    hide FromWire, Owes;
    ghost var script := Script(body, ids);
    var i := 0;
    OwesAll(script);
    while i < |body.lines|
      invariant 0 <= i <= |body.lines|
      invariant !ch.lost && Owes(ch.sent, ScriptFrom(body, ids, i), script)
    {
      var line := body.lines[i];
      i := i + 1;
      match line
      case Blank =>
      case Undecodable =>
        PaysLast(ch.sent, Broken(DECODE_ERROR), script);
        var _ := ch.Send(Broken(DECODE_ERROR));
        return;
      case Reply(content, wire, done) =>
        if content != "" {
          ghost var rest := if done then [Done(FromWire(wire, ids))] else ScriptFrom(body, ids, i);
          PaysOne(ch.sent, Delta(content), rest, script);
          var ok := ch.Send(Delta(content));
          if !ok { return; }
        }
        if done {
          var calls := FromWireToolCalls(wire, ids);
          PaysLast(ch.sent, Done(calls), script);
          var _ := ch.Send(Done(calls));
          return;
        }
    }
    if body.readFails {
      PaysLast(ch.sent, Broken(READ_ERROR), script);
      var _ := ch.Send(Broken(READ_ERROR));
      return;
    }
    PaysLast(ch.sent, Broken(CLOSED_EARLY), script);
    var _ := ch.Send(Broken(CLOSED_EARLY));
  }

  /** What is sent and what is still owed make up the script. */
  ghost predicate Owes(sent: seq<StreamEvent>, rest: seq<StreamEvent>, script: seq<StreamEvent>) {
    sent + rest == script
  }

  lemma OwesAll(script: seq<StreamEvent>)
    ensures Owes([], script, script)
  {
  }

  lemma PaysOne(sent: seq<StreamEvent>, ev: StreamEvent, rest: seq<StreamEvent>, script: seq<StreamEvent>)
    requires Owes(sent, [ev] + rest, script)
    ensures Owes(sent + [ev], rest, script) && sent < script
  {
    assert sent + [ev] + rest == sent + ([ev] + rest);
  }

  lemma PaysLast(sent: seq<StreamEvent>, ev: StreamEvent, script: seq<StreamEvent>)
    requires Owes(sent, [ev], script)
    ensures sent + [ev] == script && sent < script
  {
  }
}

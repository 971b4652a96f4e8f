/** The synchronous turn loop. Providers, tools, the repository and the context are free to
    behave in any way their ports allow; whatever they do, a Send leaves behind exactly the
    messages and the events of some well-formed report. */
module AgentLoop {
  import opened Wrappers
  import opened Domain
  import opened Conversation

  const DEFAULT_MAX_ITERATIONS := 10

  datatype SendError = SessionNotFound | LookupFailed

  /** The result fed back for a call of a tool nobody registered; `quote` is JSON quoting. */
  function UnknownTool(quote: string -> string, name: string): string {
    "{" + quote("error") + ":" + quote("unknown tool " + name) + "}"
  }

  /** It is one JSON object whose one field says which tool: no two names share a result. */
  lemma UnknownToolSaysWhich(quote: string -> string, name: string, other: string)
    requires forall s, t :: quote(s) == quote(t) ==> s == t
    ensures var head, said := "{" + quote("error") + ":", quote("unknown tool " + name);
      var result := UnknownTool(quote, name);
      && head <= result && result[|head|..|head| + |said|] == said && result[|head| + |said|..] == "}"
    ensures UnknownTool(quote, name) == UnknownTool(quote, other) <==> name == other
  {
    var head := "{" + quote("error") + ":";
    var said, told := quote("unknown tool " + name), quote("unknown tool " + other);
    assert UnknownTool(quote, name) == head + said + "}" && UnknownTool(quote, other) == head + told + "}";
    if UnknownTool(quote, name) == UnknownTool(quote, other) {
      assert said == (head + said + "}")[|head|..|head| + |said|];
      assert told == (head + told + "}")[|head|..|head| + |told|];
      assert ("unknown tool " + name)[13..] == name && ("unknown tool " + other)[13..] == other;
    }
  }

  ghost predicate HeardTurn(stream: seq<StreamEvent>, texts: seq<string>, calls: seq<ToolCall>) {
    texts == TextsOf(stream) && calls == CallsOf(stream) && !VerdictOf(stream).Failed?
  }

  ghost predicate HeardTurns(streams: seq<seq<StreamEvent>>, turns: seq<Turn>) {
    && |streams| == |turns|
    && forall i :: 0 <= i < |turns| ==> HeardTurn(streams[i], turns[i].texts, turns[i].calls)
  }

  /** What the provider streamed in each turn, against what the report says was made of it. */
  ghost predicate HeardBy(streams: seq<seq<StreamEvent>>, r: Report) {
    if r.Refused? then streams == [] else
      && |r.turns| <= |streams|
      && HeardTurns(streams[..|r.turns|], r.turns)
      && HeardTail(streams[|r.turns|..], r.tail)
  }

  ghost predicate HeardTail(rest: seq<seq<StreamEvent>>, t: Tail) {
    if rest == [] then t.texts == [] && !t.stored else
      && |rest| == 1
      && t.texts <= TextsOf(rest[0])
      && (t.terminal.Some? ==> t.texts == TextsOf(rest[0]))
      && (t.stored ==> HeardTurn(rest[0], t.texts, t.calls))
      && (VerdictOf(rest[0]).Failed? && t.terminal.Some? ==> t.terminal.value == Error(VerdictOf(rest[0]).cause))
  }

  /** Who is to blame for how a run ended: an error is the port's that failed, or the stream's
      own, or the bound after that many turns; and a run that lost nothing completes. */
  ghost predicate Blames(r: Report, fault: Option<Cause>, streams: seq<seq<StreamEvent>>, max: nat) {
    match r.LastWord()
    case None => true
    case Some(TurnComplete) => fault.None?
    case Some(Error(c)) =>
      if fault.Some? then c == fault.value
      else (r.Report? && |r.turns| == max && c == MaxIterations) || LastFailed(streams, c)
    case _ => false
  }

  ghost predicate LastFailed(streams: seq<seq<StreamEvent>>, c: Cause) {
    streams != [] && VerdictOf(streams[|streams| - 1]) == Failed(c)
  }

  /** The results that registered tools gave for these calls. */
  function Ran(tools: set<string>, calls: seq<ToolCall>, results: seq<string>): seq<(ToolCall, string)>
    requires |results| <= |calls|
  {
    if results == [] then [] else
      var n := |results| - 1;
      Ran(tools, calls, results[..n]) + if calls[n].name in tools then [(calls[n], results[n])] else []
  }

  function TurnsRan(tools: set<string>, turns: seq<Turn>): seq<(ToolCall, string)>
    requires forall t :: t in turns ==> FullTurn(t)
  {
    if turns == [] then [] else
      TurnsRan(tools, turns[..|turns| - 1]) + TurnRan(tools, turns[|turns| - 1])
  }

  function TurnRan(tools: set<string>, t: Turn): seq<(ToolCall, string)>
    requires FullTurn(t)
  {
    Ran(tools, t.calls, t.results)
  }

  /** The call that was announced but has no stored result. */
  function OpenCall(t: Tail): Option<ToolCall>
    requires GoodTail(t)
  {
    if t.started && t.ahead.None? then Some(t.calls[|t.results|]) else None
  }

  /** Every result is what the tool gave, each call of a registered tool having run once and in
      order; at most one more ran, that of the open call, whose result was then lost. */
  ghost predicate Worked(tools: set<string>, quote: string -> string, r: Report, ran: seq<(ToolCall, string)>)
    requires Shaped(r)
  {
    if r.Refused? then ran == [] else
      var last := r.tail.results + Optional(r.tail.ahead);
      && MostlyRan(tools, TurnsRan(tools, r.turns) + Ran(tools, r.tail.calls, last), ran, OpenCall(r.tail))
      && (forall t :: t in r.turns ==> UnknownsSaid(tools, quote, t.calls, t.results))
      && UnknownsSaid(tools, quote, r.tail.calls, last)
  }

  /** The results for tools nobody registered say so. */
  predicate UnknownsSaid(tools: set<string>, quote: string -> string, calls: seq<ToolCall>, results: seq<string>) {
    && |results| <= |calls|
    && forall j :: 0 <= j < |results| && calls[j].name !in tools ==> results[j] == UnknownTool(quote, calls[j].name)
  }

  /** What the provider was asked with in each turn, and perhaps once more: the session before
      that turn, as it reads back. */
  ghost predicate AskedFor(compact: Compactor, base: seq<Message>, input: string, turns: seq<Turn>,
                           requests: seq<seq<Message>>)
  {
    && (forall t :: t in turns ==> FullTurn(t))
    && |turns| <= |requests| <= |turns| + 1
    && forall i :: 0 <= i < |requests| ==>
         requests[i] == ReadBack(compact, base + Opening(input, turns[..i]))
  }

  ghost predicate AskedBy(compact: Compactor, base: seq<Message>, r: Report, requests: seq<seq<Message>>) {
    if r.Refused? then requests == [] else AskedFor(compact, base, r.input, r.turns, requests)
  }

  /** The bound that options given in this order leave: the last positive one, if there is one. */
  predicate IsBound(bounds: seq<int>, bound: nat) {
    if exists i :: 0 <= i < |bounds| && bounds[i] > 0
    then exists i :: 0 <= i < |bounds| && bounds[i] == bound > 0 && forall j :: i < j < |bounds| ==> bounds[j] <= 0
    else bound == DEFAULT_MAX_ITERATIONS
  }

  /** A later option wins over all before it, unless it is not positive: then it counts for nothing. */
  lemma LaterOptionWins(bounds: seq<int>, option: int, bound: nat)
    ensures IsBound([], bound) <==> bound == 10
    ensures IsBound(bounds + [option], bound) <==> if option > 0 then bound == option else IsBound(bounds, bound)
  {
    var more, n := bounds + [option], |bounds|;
    assert more[n] == option && forall i :: 0 <= i < n ==> more[i] == bounds[i];
    assert option > 0 ==> (IsBound(more, bound) <==> more[n] == bound);
  }

  /** Applies the options in order; one that is not positive changes nothing. */
  method BoundOf(bounds: seq<int>) returns (bound: nat)
    ensures IsBound(bounds, bound)
  {
    bound := DEFAULT_MAX_ITERATIONS;
    ghost var last: Option<nat> := None;
    for i := 0 to |bounds|
      invariant last.None? ==> bound == DEFAULT_MAX_ITERATIONS && forall j :: 0 <= j < i ==> bounds[j] <= 0
      invariant last.Some? ==>
        last.value < i && bounds[last.value] == bound > 0 && forall j :: last.value < j < i ==> bounds[j] <= 0
    {
      if bounds[i] > 0 {
        bound := bounds[i];
        last := Some(i);
      }
    }
  }

  class Agent {
    const maxIterations: nat
    const tools: set<string>
    const quote: string -> string
    const compact: Compactor  // what the repository's JSON does to arguments

    // The repository: each known session's messages.
    var store: map<string, seq<Message>>

    // The current Send: its context, its channel, and what the provider streamed to it.
    var cancelled: bool
    var events: seq<AgentEvent>
    var closed: bool
    ghost var streams: seq<seq<StreamEvent>>
    ghost var began: nat  // how long the session was

    // What its ports did: the failure of one, an event that lost to the context, what the provider
    // was asked with each time, and which tools ran with which result. After a failure no port is
    // called again, and after a lost event nothing is.
    ghost var fault: Option<Cause>
    ghost var lost: bool
    ghost var requests: seq<seq<Message>>
    ghost var ran: seq<(ToolCall, string)>

    /** An agent over a repository that already holds some sessions. */
    constructor (bounds: seq<int>, tools: set<string>, quote: string -> string, compact: Compactor,
                 sessions: map<string, seq<Message>>)
      ensures IsBound(bounds, maxIterations)
      ensures this.tools == tools && this.quote == quote && this.compact == compact && store == sessions
    {
      var bound := BoundOf(bounds);
      maxIterations := bound;
      this.tools, this.quote, this.compact := tools, quote, compact;
      store, cancelled, events, closed, streams := sessions, false, [], true, [];
      fault, lost, requests, ran, began := None, false, [], [], 0;
    }

    // -------------------------------------------------------------------------------------
    // The ports
    // -------------------------------------------------------------------------------------

    method GetSession(sid: string) returns (failure: Option<SendError>)
      requires fault.None?
      modifies this`fault
      ensures failure == Some(LookupFailed) <==> fault.Some?
      ensures fault.None? ==> failure == if sid in store then None else Some(SessionNotFound)
    {
      if * {
        fault := Some(Failure("lookup"));
        return Some(LookupFailed);
      }
      failure := if sid in store then None else Some(SessionNotFound);
    }

    /** Appends at the end of the session, or fails and changes nothing. */
    method AppendMessage(sid: string, m: Message) returns (failure: Option<Cause>)
      requires sid in store && fault.None? && !lost
      modifies this`store, this`fault
      ensures fault == failure
      ensures failure.None? ==> store == old(store)[sid := old(store)[sid] + [m]]
      ensures failure.Some? ==> store == old(store)
    {
      if * {
        store := store[sid := store[sid] + [m]];
        failure := None;
      } else {
        var what: string := *;
        failure := Some(Failure(what));
      }
      fault := failure;
    }

    method Messages(sid: string) returns (r: Result<seq<Message>, Cause>)
      requires sid in store && fault.None? && !lost
      modifies this`fault
      ensures r.Ok? ==> r.value == ReadBack(compact, store[sid]) && fault.None?
      ensures r.Err? ==> fault == Some(r.error)
    {
      if * {
        r := Ok(ReadBack(compact, store[sid]));
      } else {
        var what: string := *;
        r := Err(Failure(what));
        fault := Some(Failure(what));
      }
    }

    /** A provider may stream anything at all before it closes its channel, but it is only ever
        asked when all calls of the current Send are answered. Whether those of earlier Sends
        are is another matter. */
    method Chat(messages: seq<Message>) returns (r: Result<seq<StreamEvent>, Cause>)
      requires PhaseAfter(Fresh, messages) == Ready && fault.None? && !lost
      requires began <= |messages| && AllAnswered(messages[began..])
      modifies this`streams, this`fault, this`requests
      ensures requests == old(requests) + [messages]
      ensures r.Ok? ==> streams == old(streams) + [r.value] && fault.None?
      ensures r.Err? ==> streams == old(streams) && fault == Some(r.error)
    {
      requests := requests + [messages];
      if * {
        var stream: seq<StreamEvent> := *;
        streams := streams + [stream];
        r := Ok(stream);
      } else {
        var what: string := *;
        r := Err(Failure(what));
        fault := Some(Failure(what));
      }
    }

    method Invoke(call: ToolCall) returns (r: Result<string, Cause>)
      requires call.name in tools && fault.None? && !lost
      modifies this`fault, this`ran
      ensures r.Ok? ==> ran == old(ran) + [(call, r.value)] && fault.None?
      ensures r.Err? ==> ran == old(ran) && fault == Some(r.error)
    {
      var what: string := *;
      if * {
        r := Ok(what);
        ran := ran + [(call, what)];
      } else {
        r := Err(Failure(what));
        fault := Some(Failure(what));
      }
    }

    /** A send races with cancellation; it can only lose once the context is done. */
    method Emit(ev: AgentEvent) returns (ok: bool)
      requires !closed && !lost
      modifies this`events, this`cancelled, this`lost
      ensures lost <==> !ok
      ensures ok ==> events == old(events) + [ev]
      ensures !ok ==> events == old(events) && cancelled
      ensures lost || old(cancelled) ==> cancelled
    {
      if * { cancelled := true; }
      if cancelled { ok := *; } else { ok := true; }
      if ok { events := events + [ev]; }
      lost := !ok;
    }

    /** The last word of a run: whether it is heard no longer matters to the run. */
    method EmitLast(ev: AgentEvent) returns (ghost terminal: Option<AgentEvent>)
      requires !closed && !lost
      modifies this`events, this`cancelled, this`lost
      ensures lost <==> terminal.None?
      ensures terminal.None? || terminal.value == ev
      ensures events == old(events) + Optional(terminal)
      ensures lost || old(cancelled) ==> cancelled
    {
      var ok := Emit(ev);
      terminal := if ok then Some(ev) else None;
    }

    // -------------------------------------------------------------------------------------
    // The loop
    // -------------------------------------------------------------------------------------

    /** Runs one Send to its end. A session that is unknown or cannot be looked up fails before
        anything happens. */
    method Send(sid: string, input: string) returns (r: Result<(), SendError>, ghost report: Report)
      requires sid in store ==> Grammatical(store[sid])
      modifies this
      ensures r == Err(LookupFailed) ==> fault.Some?
      ensures r == Err(SessionNotFound) ==> sid !in old(store) && fault.None?
      ensures sid !in old(store) ==> r.Err?
      ensures r.Err? ==> store == old(store) && events == old(events)
      ensures r.Ok? ==>
        && sid in store && OnlyIn(sid, old(store), store)
        && Leaves(report, input, maxIterations, old(store)[sid], store[sid], events, streams)
        && Blames(report, fault, streams, maxIterations)
        && Worked(tools, quote, report, ran)
        && AskedBy(compact, old(store)[sid], report, requests) && |requests| <= maxIterations
        && closed && (lost <==> report.LastWord().None?) && (lost ==> cancelled)
        && Grammatical(store[sid])
        && (fault.None? && !lost ==> !LeavesCallsOpen(report) && AllAnswered(store[sid][|old(store)[sid]|..]))
    {
      hide OnlyIn, Leaves, Blames, Worked, AskedBy, Grammatical, LeavesCallsOpen, AllAnswered;
      report := Refused(None);
      cancelled := *;  // this Send's own context
      fault, lost, requests, ran := None, false, [], [];
      var failure := GetSession(sid);
      if failure.Some? {
        return Err(failure.value), report;
      }
      events, closed, streams, began := [], false, [], |store[sid]|;
      report := Run(sid, input);
      LeavesItGrammatical(report, input, maxIterations, old(store)[sid], store[sid], events, streams);
      if fault.None? && !lost {
        OnlyFailuresLeaveCallsOpen(report, input, maxIterations, old(store)[sid], store[sid], events, streams, fault);
      }
      r := Ok(());
    }

    method Run(sid: string, input: string) returns (ghost report: Report)
      requires sid in store && Grammatical(store[sid]) && began == |store[sid]|
      requires !closed && events == [] && streams == [] && fault.None? && !lost && requests == [] && ran == []
      modifies this
      ensures sid in store && OnlyIn(sid, old(store), store)
      ensures Leaves(report, input, maxIterations, old(store)[sid], store[sid], events, streams)
      ensures Blames(report, fault, streams, maxIterations)
      ensures Worked(tools, quote, report, ran)
      ensures AskedBy(compact, old(store)[sid], report, requests) && |requests| <= maxIterations
      ensures lost || old(cancelled) ==> cancelled
      ensures lost <==> report.LastWord().None?
      ensures closed
    {
      hide OnlyIn, Leaves, Blames, Worked, AskedBy, Grammatical;
      report := Iterate(sid, input);
      closed := true;
    }

    /** Everything before the deferred close. */
    method Iterate(sid: string, input: string) returns (ghost report: Report)
      requires sid in store && Grammatical(store[sid]) && began == |store[sid]|
      requires !closed && events == [] && streams == [] && fault.None? && !lost && requests == [] && ran == []
      modifies this`store, this`events, this`cancelled, this`lost, this`streams, this`fault, this`requests, this`ran
      ensures sid in store && OnlyIn(sid, old(store), store)
      ensures Leaves(report, input, maxIterations, old(store)[sid], store[sid], events, streams)
      ensures Blames(report, fault, streams, maxIterations)
      ensures Worked(tools, quote, report, ran)
      ensures AskedBy(compact, old(store)[sid], report, requests) && |requests| <= maxIterations
      ensures lost || old(cancelled) ==> cancelled
      ensures lost <==> report.LastWord().None?
    {
      hide AllAnswered, Underway, Leaves, Reply, Answers, Announcements, Texts, Optional;
      hide HeardTurn, HeardTail, PhaseAfter, Grammatical, AskedFor, AskedBy;
      hide OnlyIn, UnknownsSaid, UnknownTool, Blames, Worked, RanSoFar, Shaped, ErrorIs, MostlyRan, Ran;
      ghost var terminal: Option<AgentEvent>;
      ghost var base := store[sid];
      OnlyInNothing(sid, store);
      var failure := AppendMessage(sid, Message(User, input, [], ""));
      if failure.Some? {
        terminal := EmitLast(Error(failure.value));
        StopsRefused(input, maxIterations, base, terminal);
        RefusalBlames(terminal, fault, maxIterations);
        RefusedWorked(tools, quote, terminal);
        RefusedAsksNothing(compact, base, terminal);
        return Refused(terminal);
      }
      ghost var turns: seq<Turn> := [];
      OnlyInOnce(sid, old(store), old(store), store[sid]);
      Starts(input, base);
      NothingRan(tools, quote);
      NothingAsked(compact, base, input);
      var i := 0;
      while i < maxIterations
        invariant i == |turns| <= maxIterations
        invariant sid in store && OnlyIn(sid, old(store), store)
        invariant Underway(turns, input, base, store[sid], events, streams)
        invariant fault.None? && RanSoFar(tools, quote, turns, ran)
        invariant |requests| == i && AskedFor(compact, base, input, turns, requests)
        invariant !lost && (old(cancelled) ==> cancelled)
      {
        var done;
        ghost var turn;
        done, report, turn := AnswerAndAct(sid, input, old(store), turns);
        if done { return; }
        turns := turns + [turn];
        i := i + 1;
      }
      ghost var e := events;
      terminal := EmitLast(Error(MaxIterations));
      RunsOut(turns, input, maxIterations, base, store[sid], e, streams, terminal);
      report := Report(input, turns, QUIET.(terminal := terminal));
      BoundBlames(report, fault, streams, maxIterations);
      NothingMoreRan(tools, quote, report, ran);
      AskedInReport(compact, base, report, requests);
    }

    /** One round of the loop: an answer, and what it asks for. It ends the run, or the turn is
        complete. */
    method AnswerAndAct(sid: string, input: string, ghost before: map<string, seq<Message>>, ghost turns: seq<Turn>)
      returns (done: bool, ghost report: Report, ghost turn: Turn)
      requires sid in store && sid in before && OnlyIn(sid, before, store)
      requires Grammatical(before[sid]) && began == |before[sid]|
      requires !closed && !lost && fault.None? && |requests| == |turns| < maxIterations
      requires AskedFor(compact, before[sid], input, turns, requests)
      requires Underway(turns, input, before[sid], store[sid], events, streams) && RanSoFar(tools, quote, turns, ran)
      modifies this`store, this`events, this`cancelled, this`lost, this`streams, this`fault, this`requests, this`ran
      ensures sid in store && OnlyIn(sid, before, store)
      ensures lost || old(cancelled) ==> cancelled
      ensures |requests| <= |turns| + 1
      ensures done ==>
        && Leaves(report, input, maxIterations, before[sid], store[sid], events, streams)
        && Blames(report, fault, streams, maxIterations)
        && Worked(tools, quote, report, ran)
        && AskedBy(compact, before[sid], report, requests)
        && (lost <==> report.LastWord().None?)
      ensures !done ==>
        && !lost && fault.None?
        && Underway(turns + [turn], input, before[sid], store[sid], events, streams)
        && RanSoFar(tools, quote, turns + [turn], ran)
        && |requests| == |turns| + 1 && AskedFor(compact, before[sid], input, turns + [turn], requests)
    {
      hide AllAnswered, Underway, Leaves, Reply, Answers, Announcements, Texts, Optional;
      hide HeardTurn, HeardTail, PhaseAfter, Grammatical, AskedFor, AskedBy;
      hide OnlyIn, UnknownsSaid, UnknownTool, Blames, Worked, RanSoFar, Shaped, ErrorIs, MostlyRan, Ran;
      ghost var base, h, e, s, held := before[sid], store[sid], events, streams, store;
      ReadyForAnotherTurn(turns, input, base, h, e, s);
      NoCallIsOpen(turns, input, base, h, e, s);
      report, turn := Refused(None), Turn([], [], []);
      ghost var heard, texts, terminal;
      var toolCalls, ok;
      ghost var earlier := requests;
      toolCalls, ok, heard, texts, terminal := AnswerOnce(sid);
      AsksOnceMore(compact, turns, input, base, h, e, s, earlier, requests);
      if !ok {
        StopsUnanswered(turns, input, maxIterations, base, h, e, s, heard, texts, terminal);
        report := Report(input, turns, QUIET.(texts := texts, terminal := terminal));
        ErrorBlames(report, fault, s, heard, maxIterations);
        NothingMoreRan(tools, quote, report, ran);
        AskedInReport(compact, base, report, requests);
        return true, report, turn;
      }
      OnlyInOnce(sid, before, held, store[sid]);
      if toolCalls == [] {
        terminal := EmitLast(TurnComplete);
        ghost var tail := Tail(texts, true, [], [], false, None, terminal);
        StopsComplete(turns, input, maxIterations, base, h, e, s, heard, tail);
        report := Report(input, turns, tail);
        CompletionBlames(report, fault, streams, maxIterations);
        NothingMoreRan(tools, quote, report, ran);
        AskedInReport(compact, base, report, requests);
        return true, report, turn;
      }
      ghost var results, started, ahead;
      ghost var sofar, answered := ran, store;
      ok, results, started, ahead, terminal := RunToolCalls(sid, toolCalls);
      OnlyInOnce(sid, before, answered, store[sid]);
      if !ok {
        ghost var tail := Tail(texts, true, toolCalls, results, started, ahead, terminal);
        StopsAnswered(turns, input, maxIterations, base, h, e, s, heard, tail);
        report := Report(input, turns, tail);
        PortBlames(report, fault, streams, maxIterations);
        SomeMoreRan(tools, quote, report, sofar, ran);
        AskedInReport(compact, base, report, requests);
        return true, report, turn;
      }
      turn := Turn(texts, toolCalls, results);
      GoesOn(turns, input, base, h, e, s, heard, turn);
      TurnWorked(tools, quote, turns, sofar, turn);
      AskedForTurn(compact, base, input, turns, turn, requests);
      return false, report, turn;
    }

    /** One provider round trip: load the history, ask, drain the stream, store the answer. */
    method AnswerOnce(sid: string)
      returns (toolCalls: seq<ToolCall>, ok: bool,
               ghost heard: seq<seq<StreamEvent>>, ghost texts: seq<string>, ghost terminal: Option<AgentEvent>)
      requires sid in store && PhaseAfter(Fresh, store[sid]) == Ready
      requires began <= |store[sid]| && AllAnswered(store[sid][began..])
      requires !closed && !lost && fault.None?
      modifies this`store, this`events, this`cancelled, this`lost, this`streams, this`fault, this`requests
      ensures lost || old(cancelled) ==> cancelled
      ensures
        || requests == old(requests) + [ReadBack(compact, old(store)[sid])]
        || (requests == old(requests) && !ok && heard == [] && fault.Some?)
      ensures streams == old(streams) + heard
      ensures ok ==>
        && store == old(store)[sid := old(store)[sid] + [Reply(texts, toolCalls)]]
        && events == old(events) + Texts(texts)
        && |heard| == 1 && HeardTurn(heard[0], texts, toolCalls)
        && fault.None? && !lost
      ensures !ok ==>
        && store == old(store)
        && (terminal.Some? ==> ErrorIs(terminal.value, fault, heard))
        && events == old(events) + Texts(texts) + Optional(terminal)
        && IsError(terminal) && (lost <==> terminal.None?)
        && HeardTail(heard, QUIET.(texts := texts, terminal := terminal))
    {
      hide AllAnswered, ReadBack, PhaseAfter, Texts, TextsOf, CallsOf, VerdictOf, Join;
      NoTextYet(events);
      heard, texts := [], [];
      var messages := Messages(sid);
      if messages.Err? {
        terminal := EmitLast(Error(messages.error));
        return [], false, heard, texts, terminal;
      }
      ReadBackIsReady(compact, store[sid], began);
      var chat := Chat(messages.value);
      if chat.Err? {
        terminal := EmitLast(Error(chat.error));
        return [], false, heard, texts, terminal;
      }
      heard := [chat.value];
      var text;
      toolCalls, ok, text, texts, terminal := Drain(chat.value);
      if !ok {
        return [], false, heard, texts, terminal;
      }
      var failure := AppendMessage(sid, Message(Assistant, text, toolCalls, ""));
      if failure.Some? {
        terminal := EmitLast(Error(failure.value));
        return [], false, heard, texts, terminal;
      }
      return toolCalls, true, heard, texts, None;
    }

    /** Reads the stream to its end, passing its texts on and accumulating them. */
    method Drain(stream: seq<StreamEvent>)
      returns (toolCalls: seq<ToolCall>, ok: bool, text: string,
               ghost texts: seq<string>, ghost terminal: Option<AgentEvent>)
      requires !closed && !lost
      modifies this`events, this`cancelled, this`lost
      ensures lost || old(cancelled) ==> cancelled
      ensures ok ==> text == Join(texts)
      ensures texts <= TextsOf(stream)
      ensures events == old(events) + Texts(texts) + Optional(terminal)
      ensures ok ==>
        && !lost && terminal.None? && texts == TextsOf(stream) && toolCalls == CallsOf(stream)
        && !VerdictOf(stream).Failed?
      ensures !ok ==>
        && (terminal.Some? ==>
              texts == TextsOf(stream) && VerdictOf(stream).Failed? && terminal.value == Error(VerdictOf(stream).cause))
        && (lost <==> terminal.None?)
    {
      hide Texts, TextsOf, VerdictOf, CallsOf;
      toolCalls, text, texts, terminal := [], "", [], None;
      NoTextYet(events);
      var i := 0;
      while i < |stream|
        invariant 0 <= i <= |stream|
        invariant text == Join(texts) && toolCalls == [] && terminal.None?
        invariant i <= StopAt(stream) && texts == Pieces(stream, i)
        invariant events == old(events) + Texts(texts)
        invariant !lost && (old(cancelled) ==> cancelled)
      {
        var ev := stream[i];
        WhereReadingStands(stream, i);
        if ev.err.Some? {
          terminal := EmitLast(Error(ev.err.value));
          return toolCalls, false, text, texts, terminal;
        }
        if ev.delta != "" {
          var sent;
          sent, text, texts := PassOn(ev.delta, text, texts, old(events));
          if !sent {
            return toolCalls, false, text, texts, None;
          }
        }
        if ev.done {
          return ev.calls, true, text, texts, None;
        }
        i := i + 1;
      }
      WhereReadingStands(stream, i);
      return [], true, text, texts, None;
    }

    /** Accumulates one piece of text and shows it to the consumer. */
    method PassOn(delta: string, text: string, ghost texts: seq<string>, ghost before: seq<AgentEvent>)
      returns (sent: bool, grown: string, ghost shown: seq<string>)
      requires !closed && !lost && text == Join(texts) && events == before + Texts(texts)
      modifies this`events, this`cancelled, this`lost
      ensures lost || old(cancelled) ==> cancelled
      ensures sent ==> shown == texts + [delta] && grown == Join(shown)
      ensures lost <==> !sent
      ensures !sent ==> shown == texts
      ensures events == before + Texts(shown)
    {
      GrowsBy(texts, delta);
      grown := text + delta;
      sent := Emit(TextDelta(delta));
      shown := if sent then texts + [delta] else texts;
    }

    /** Runs the calls of one answer in order, storing and announcing each result. */
    method RunToolCalls(sid: string, calls: seq<ToolCall>)
      returns (ok: bool, ghost results: seq<string>, ghost started: bool, ghost ahead: Option<string>,
               ghost terminal: Option<AgentEvent>)
      requires sid in store && !closed && !lost && fault.None?
      modifies this`store, this`events, this`cancelled, this`lost, this`fault, this`ran
      ensures lost || old(cancelled) ==> cancelled
      ensures UnknownsSaid(tools, quote, calls, results)
      ensures ok ==>
        && |results| == |calls|
        && store == old(store)[sid := old(store)[sid] + Answers(calls, results)]
        && events == old(events) + Announcements(calls, results)
        && !lost && fault.None? && ran == old(ran) + Ran(tools, calls, results)
      ensures !ok ==>
        && |results| < |calls|
        && (terminal.Some? ==> fault.Some? && terminal.value == Error(fault.value))
        && MostlyRan(tools, old(ran) + Ran(tools, calls, results + Optional(ahead)), ran,
             if started && ahead.None? then Some(calls[|results|]) else None)
        && UnknownsSaid(tools, quote, calls, results + Optional(ahead))
        && store == old(store)[sid := old(store)[sid] + Answers(calls, results + Optional(ahead))]
        && events == old(events) + Announcements(calls, results) +
             (if started then [ToolCallStarted(calls[|results|])] else []) + Optional(terminal)
        && GoodStop(started, ahead, terminal) && (lost <==> terminal.None?)
    {
      hide Ran, MostlyRan, Answers, Announcements, GoodStop;
      results, started, ahead, terminal := [], false, None, None;
      ghost var base := old(store)[sid];
      NothingAnswered(base, events, calls);
      NothingRanOf(tools, ran, calls);
      for i := 0 to |calls|
        invariant |results| == i && UnknownsSaid(tools, quote, calls, results)
        invariant store == old(store)[sid := base + Answers(calls, results)]
        invariant events == old(events) + Announcements(calls, results)
        invariant fault.None? && ran == old(ran) + Ran(tools, calls, results)
        invariant !lost && (old(cancelled) ==> cancelled)
      {
        ghost var result;
        ghost var sofar := ran;
        ok, result, started, ahead, terminal := RunToolCall(sid, calls[i]);
        if !ok {
          if ahead.Some? {
            OneMoreResult(base, calls, results, ahead.value);
            OneMoreRan(tools, old(ran), calls, results, ahead.value);
          } else {
            assert sofar + [] == sofar;
            assert results + Optional(ahead) == results;
          }
          return false, results, started, ahead, terminal;
        }
        OneMoreResult(base, calls, results, result.value);
        OneMoreAnnouncement(old(events), calls, results, result.value);
        OneMoreRan(tools, old(ran), calls, results, result.value);
        results := results + [result.value];
      }
      return true, results, false, None, None;
    }

    /** Runs one call. */
    method RunToolCall(sid: string, call: ToolCall)
      returns (ok: bool, ghost finished: Option<string>, ghost started: bool, ghost ahead: Option<string>,
               ghost terminal: Option<AgentEvent>)
      requires sid in store && !closed && !lost && fault.None?
      modifies this`store, this`events, this`cancelled, this`lost, this`fault, this`ran
      ensures lost || old(cancelled) ==> cancelled
      ensures ok ==>
        && finished.Some? && !lost && fault.None?
        && ran == old(ran) + (if call.name in tools then [(call, finished.value)] else [])
        && (call.name !in tools ==> finished.value == UnknownTool(quote, call.name))
        && store == old(store)[sid := old(store)[sid] + [Answer(call, finished.value)]]
        && events == old(events) + [ToolCallStarted(call), ToolCallFinished(finished.value)]
      ensures !ok ==>
        && (terminal.Some? ==> fault.Some? && terminal.value == Error(fault.value))
        && MostlyRan(tools,
             old(ran) + (if ahead.Some? && call.name in tools then [(call, ahead.value)] else []), ran,
             if started && ahead.None? then Some(call) else None)
        && (ahead.Some? && call.name !in tools ==> ahead.value == UnknownTool(quote, call.name))
        && (ahead.None? ==> store == old(store))
        && (ahead.Some? ==> store == old(store)[sid := old(store)[sid] + [Answer(call, ahead.value)]])
        && events == old(events) + (if started then [ToolCallStarted(call)] else []) + Optional(terminal)
        && GoodStop(started, ahead, terminal) && (lost <==> terminal.None?)
    {
      finished, started, ahead, terminal := None, false, None, None;
      var announced := Emit(ToolCallStarted(call));
      if !announced {
        return false, None, false, None, None;
      }
      var result;
      if call.name !in tools {
        result := UnknownTool(quote, call.name);
      } else {
        var invoked := Invoke(call);
        if invoked.Err? {
          terminal := EmitLast(Error(invoked.error));
          return false, None, true, None, terminal;
        }
        result := invoked.value;
      }
      var failure := AppendMessage(sid, Message(Tool, result, [], call.id));
      if failure.Some? {
        terminal := EmitLast(Error(failure.value));
        return false, None, true, None, terminal;
      }
      announced := Emit(ToolCallFinished(result));
      if !announced {
        return false, None, true, Some(result), None;
      }
      assert [ToolCallStarted(call)] + [ToolCallFinished(result)] == [ToolCallStarted(call), ToolCallFinished(result)];
      return true, Some(result), true, None, None;
    }
  }

  /** What the error of an unanswered turn is: a port's, or the stream's. */
  ghost predicate ErrorIs(ev: AgentEvent, fault: Option<Cause>, heard: seq<seq<StreamEvent>>) {
    ev.Error? && if fault.Some? then ev.cause == fault.value else LastFailed(heard, ev.cause)
  }

  /** All that was kept, and at most the open call's run besides. */
  predicate MostlyRan(tools: set<string>, kept: seq<(ToolCall, string)>, ran: seq<(ToolCall, string)>,
                      open: Option<ToolCall>)
  {
    && kept <= ran && |ran| <= |kept| + 1
    && (|ran| > |kept| ==> open == Some(ran[|kept|].0) && ran[|kept|].0.name in tools)
  }

  /** Of all sessions, at most this one changed. */
  ghost predicate OnlyIn(sid: string, before: map<string, seq<Message>>, after: map<string, seq<Message>>) {
    sid in after && after == before[sid := after[sid]]
  }

  lemma OnlyInNothing(sid: string, store: map<string, seq<Message>>)
    requires sid in store
    ensures OnlyIn(sid, store, store)
  {
  }

  lemma OnlyInOnce(sid: string, before: map<string, seq<Message>>, after: map<string, seq<Message>>, h: seq<Message>)
    requires OnlyIn(sid, before, after)
    ensures OnlyIn(sid, before, after[sid := h])
  {
  }

  /** How a call can stop the loop: unannounced, or announced and then failed or cut off. */
  predicate GoodStop(started: bool, ahead: Option<string>, terminal: Option<AgentEvent>) {
    && IsError(terminal)
    && (ahead.Some? ==> started && terminal.None?)
    && (!started ==> terminal.None?)
  }

  // ---------------------------------------------------------------------------------------
  // Bookkeeping: how the report grows with the store and the trace
  // ---------------------------------------------------------------------------------------

  lemma NoTextYet(e: seq<AgentEvent>)
    ensures Texts([]) == [] && e == e + Texts([])
  {
  }

  lemma GrowsBy(texts: seq<string>, delta: string)
    ensures Join(texts + [delta]) == Join(texts) + delta
    ensures Texts(texts + [delta]) == Texts(texts) + [TextDelta(delta)]
  {
    assert (texts + [delta])[..|texts|] == texts;
  }

  /** What the next event of a stream decides. */
  lemma WhereReadingStands(stream: seq<StreamEvent>, i: nat)
    requires i <= StopAt(stream)
    ensures Pieces(stream, i) <= TextsOf(stream)
    ensures i == |stream| ==> Pieces(stream, i) == TextsOf(stream) && CallsOf(stream) == [] && VerdictOf(stream).HungUp?
    ensures i < |stream| && stream[i].err.Some? ==>
      Pieces(stream, i) == TextsOf(stream) && VerdictOf(stream) == Failed(stream[i].err.value)
    ensures i < |stream| && stream[i].err.None? && stream[i].done ==>
      Pieces(stream, i + 1) == TextsOf(stream) && CallsOf(stream) == stream[i].calls && VerdictOf(stream).Asked?
    ensures i < |stream| && stream[i].err.None? && !stream[i].done ==> i < StopAt(stream)
  {
    PiecesGrow(stream, i, StopAt(stream) + if VerdictOf(stream).Asked? then 1 else 0);
  }

  lemma NothingAnswered(base: seq<Message>, e: seq<AgentEvent>, calls: seq<ToolCall>)
    ensures base == base + Answers(calls, []) && e == e + Announcements(calls, [])
  {
  }

  lemma OneMoreResult(base: seq<Message>, calls: seq<ToolCall>, results: seq<string>, result: string)
    requires |results| < |calls|
    ensures base + Answers(calls, results) + [Answer(calls[|results|], result)] ==
            base + Answers(calls, results + [result])
  {
    assert Answers(calls, results) + [Answer(calls[|results|], result)] == Answers(calls, results + [result]);
  }

  lemma OneMoreAnnouncement(e: seq<AgentEvent>, calls: seq<ToolCall>, results: seq<string>, result: string)
    requires |results| < |calls|
    ensures e + Announcements(calls, results) + [ToolCallStarted(calls[|results|]), ToolCallFinished(result)] ==
            e + Announcements(calls, results + [result])
  {
    var more, pair := results + [result], [ToolCallStarted(calls[|results|]), ToolCallFinished(result)];
    assert more[..|results|] == results;
    assert Announcements(calls, more) == Announcements(calls, results) + pair;
  }

  function Opening(input: string, turns: seq<Turn>): seq<Message>
    requires forall t :: t in turns ==> FullTurn(t)
  {
    [Message(User, input, [], "")] + TurnsMessages(turns)
  }

  /** Between turns: the session `h`, grown from `base`, the trace `e` and the streams `s` so
      far are those of the completed turns. */
  ghost predicate Underway(turns: seq<Turn>, input: string, base: seq<Message>,
                           h: seq<Message>, e: seq<AgentEvent>, s: seq<seq<StreamEvent>>)
  {
    && (forall t :: t in turns ==> FullTurn(t))
    && h == base + Opening(input, turns)
    && e == TurnsEvents(turns)
    && HeardTurns(s, turns)
  }

  /** At the end: they are those of the report. */
  ghost predicate Leaves(r: Report, input: string, max: nat, base: seq<Message>,
                         h: seq<Message>, e: seq<AgentEvent>, s: seq<seq<StreamEvent>>)
  {
    && GoodReport(r, max)
    && (r.Report? ==> r.input == input)
    && h == base + MessagesOf(r)
    && e == EventsOf(r)
    && HeardBy(s, r) && |s| <= max
  }

  lemma LeavesItGrammatical(r: Report, input: string, max: nat, base: seq<Message>,
                            h: seq<Message>, e: seq<AgentEvent>, s: seq<seq<StreamEvent>>)
    requires Leaves(r, input, max, base, h, e, s) && Grammatical(base)
    ensures Grammatical(h) && Shaped(r)
  {
    SendKeepsGrammar(base, r, max);
  }

  /** Every request is a session that the user's message and the turns so far have grown: what was
      there before this Send, that message, and the answers and results of the turns before it, each
      as it reads back, and all of it still there at the end. */
  lemma RequestsAreSessionsSoFar(compact: Compactor, r: Report, input: string, max: nat, base: seq<Message>,
                                 h: seq<Message>, e: seq<AgentEvent>, s: seq<seq<StreamEvent>>,
                                 requests: seq<seq<Message>>)
    requires Leaves(r, input, max, base, h, e, s) && AskedBy(compact, base, r, requests)
    ensures r.Refused? ==> requests == []
    ensures r.Report? ==> Shaped(r) && |r.turns| <= |requests| <= |r.turns| + 1
    ensures forall i :: 0 <= i < |requests| ==>
      && base + [Message(User, input, [], "")] + TurnsMessages(r.turns[..i]) <= h
      && requests[i] == ReadBack(compact, base + [Message(User, input, [], "")] + TurnsMessages(r.turns[..i]))
  {
    hide ReadBack, TurnsMessages, TailMessages, EventsOf, HeardBy;
    var user := [Message(User, input, [], "")];
    forall i | 0 <= i < |requests|
      ensures base + user + TurnsMessages(r.turns[..i]) <= h
      ensures requests[i] == ReadBack(compact, base + user + TurnsMessages(r.turns[..i]))
    {
      var turns := TurnsMessages(r.turns[..i]);
      assert base + (user + turns) == base + user + turns;
      TurnsGrow(r.turns, i);
      PrefixOfSession(base, user, turns, TurnsMessages(r.turns), TailMessages(r.tail));
    }
  }

  lemma PrefixOfSession<T>(a: seq<T>, b: seq<T>, c: seq<T>, d: seq<T>, e: seq<T>)
    requires c <= d
    ensures a + b + c <= a + (b + d + e)
  {
  }

  lemma {:induction false} TurnsGrow(turns: seq<Turn>, n: nat)
    requires (forall t :: t in turns ==> FullTurn(t)) && n <= |turns|
    ensures TurnsMessages(turns[..n]) <= TurnsMessages(turns)
    decreases |turns|
  {
    if n == |turns| {
      assert turns[..n] == turns;
    } else {
      assert turns[..|turns| - 1][..n] == turns[..n];
      TurnsGrow(turns[..|turns| - 1], n);
    }
  }

  /** Only a port that failed, or an event that lost to the context, leaves a call open. */
  lemma OnlyFailuresLeaveCallsOpen(r: Report, input: string, max: nat, base: seq<Message>, h: seq<Message>,
                                   e: seq<AgentEvent>, s: seq<seq<StreamEvent>>, fault: Option<Cause>)
    requires Leaves(r, input, max, base, h, e, s) && Blames(r, fault, s, max)
    requires fault.None? && r.LastWord().Some?
    ensures !LeavesCallsOpen(r) && |base| <= |h| && AllAnswered(h[|base|..])
  {
    SendAnswered(r);
    Appended(base, MessagesOf(r));
    hide AllAnswered, MessagesOf, EventsOf;
    if LeavesCallsOpen(r) {
      OpenTail(r, max);
      StoredAnswerDidNotFail(s, r);
    }
  }

  lemma Appended<T>(a: seq<T>, b: seq<T>)
    ensures (a + b)[|a|..] == b
  {
  }

  /** Calls are left open only by a stored answer that was not the last thing within the bound,
      and then the last word, if there is one, is an error. */
  lemma OpenTail(r: Report, max: nat)
    requires GoodReport(r, max) && LeavesCallsOpen(r)
    ensures r.tail.stored && |r.turns| < max && IsError(r.tail.terminal)
  {
  }

  lemma StoredAnswerDidNotFail(s: seq<seq<StreamEvent>>, r: Report)
    requires HeardBy(s, r) && r.Report? && r.tail.stored
    ensures s != [] && !VerdictOf(s[|s| - 1]).Failed?
  {
    assert s[|s| - 1] == s[|r.turns|..][0];
  }

  lemma GoesOn(turns: seq<Turn>, input: string, base: seq<Message>, h: seq<Message>, e: seq<AgentEvent>,
               s: seq<seq<StreamEvent>>, heard: seq<seq<StreamEvent>>, turn: Turn)
    requires Underway(turns, input, base, h, e, s)
    requires FullTurn(turn) && |heard| == 1 && HeardTurn(heard[0], turn.texts, turn.calls)
    ensures Underway(turns + [turn], input, base,
              h + [Reply(turn.texts, turn.calls)] + Answers(turn.calls, turn.results),
              e + Texts(turn.texts) + Announcements(turn.calls, turn.results), s + heard)
  {
    hide TurnMessages, TurnEvents, HeardTurn;
    var more := turns + [turn];
    assert more[..|turns|] == turns;
    assert TurnsMessages(more) == TurnsMessages(turns) + TurnMessages(turn);
    assert TurnsEvents(more) == TurnsEvents(turns) + TurnEvents(turn);
    TurnParts(base + Opening(input, turns), TurnsEvents(turns), turn);
    assert base + Opening(input, turns) + TurnMessages(turn) == base + Opening(input, more);
  }

  lemma TurnParts(h: seq<Message>, e: seq<AgentEvent>, t: Turn)
    requires FullTurn(t)
    ensures h + [Reply(t.texts, t.calls)] + Answers(t.calls, t.results) == h + TurnMessages(t)
    ensures e + Texts(t.texts) + Announcements(t.calls, t.results) == e + TurnEvents(t)
  {
  }

  lemma HeardUpTo(turns: seq<Turn>, s: seq<seq<StreamEvent>>, heard: seq<seq<StreamEvent>>, r: Report)
    requires r.Report? && r.turns == turns && HeardTurns(s, turns) && HeardTail(heard, r.tail)
    ensures HeardBy(s + heard, r)
    ensures |s| == |turns| && |heard| <= 1
  {
    assert (s + heard)[..|turns|] == s && (s + heard)[|turns|..] == heard;
  }

  lemma StopsUnanswered(turns: seq<Turn>, input: string, max: nat,
                        base: seq<Message>, h: seq<Message>, e: seq<AgentEvent>, s: seq<seq<StreamEvent>>,
                        heard: seq<seq<StreamEvent>>, texts: seq<string>, terminal: Option<AgentEvent>)
    requires Underway(turns, input, base, h, e, s) && |turns| < max
    requires IsError(terminal) && HeardTail(heard, QUIET.(texts := texts, terminal := terminal))
    ensures Leaves(Report(input, turns, QUIET.(texts := texts, terminal := terminal)), input, max, base,
                   h, e + Texts(texts) + Optional(terminal), s + heard)
    ensures Shaped(Report(input, turns, QUIET.(texts := texts, terminal := terminal)))
  {
    hide HeardTurns, HeardTail, TurnsMessages, TurnsEvents, TailMessages, TailEvents, Texts, Join;
    UnstoredTail(texts, terminal);
    HeardUpTo(turns, s, heard, Report(input, turns, QUIET.(texts := texts, terminal := terminal)));
    assert base + Opening(input, turns) == base + (Opening(input, turns) + []);
    assert e + Texts(texts) + Optional(terminal) == e + (Texts(texts) + Optional(terminal));
  }

  lemma RunsOut(turns: seq<Turn>, input: string, max: nat, base: seq<Message>, h: seq<Message>, e: seq<AgentEvent>,
                s: seq<seq<StreamEvent>>, terminal: Option<AgentEvent>)
    requires Underway(turns, input, base, h, e, s) && |turns| == max
    requires terminal.None? || terminal.value == Error(MaxIterations)
    ensures Leaves(Report(input, turns, QUIET.(terminal := terminal)), input, max, base, h, e + Optional(terminal), s)
    ensures Shaped(Report(input, turns, QUIET.(terminal := terminal)))
  {
    hide HeardTurns, TurnsMessages, TurnsEvents, TailMessages, TailEvents, Join;
    UnstoredTail([], terminal);
    HeardUpTo(turns, s, [], Report(input, turns, QUIET.(terminal := terminal)));
    NothingBetween(s);
    NothingBetween(Opening(input, turns));
    NothingBefore(Optional(terminal));
  }

  lemma NothingBefore(e: seq<AgentEvent>)
    ensures Texts([]) + e == e
  {
  }

  lemma UnstoredTail(texts: seq<string>, terminal: Option<AgentEvent>)
    requires IsError(terminal)
    ensures var tail := QUIET.(texts := texts, terminal := terminal);
            TailMessages(tail) == [] && TailEvents(tail) == Texts(texts) + Optional(terminal)
  {
  }

  lemma StopsAnswered(turns: seq<Turn>, input: string, max: nat,
                      base: seq<Message>, h: seq<Message>, e: seq<AgentEvent>, s: seq<seq<StreamEvent>>,
                      heard: seq<seq<StreamEvent>>, t: Tail)
    requires Underway(turns, input, base, h, e, s) && |turns| < max
    requires GoodTail(t) && t.stored && |heard| == 1 && HeardTurn(heard[0], t.texts, t.calls)
    ensures var started := if t.started then [ToolCallStarted(t.calls[|t.results|])] else [];
            Leaves(Report(input, turns, t), input, max, base,
              h + [Reply(t.texts, t.calls)] + Answers(t.calls, t.results + Optional(t.ahead)),
              e + Texts(t.texts) + Announcements(t.calls, t.results) + started + Optional(t.terminal), s + heard)
    ensures Shaped(Report(input, turns, t))
  {
    HeardUpTo(turns, s, heard, Report(input, turns, t));
    hide HeardTurns, HeardTail, HeardTurn, HeardBy, TurnsMessages, TurnsEvents;
    hide Reply, Answers, Texts, Announcements, TailEvents;
    StopsAnsweredMessages(turns, input, base, t);
    StopsAnsweredEvents(turns, t);
  }

  lemma StopsAnsweredMessages(turns: seq<Turn>, input: string, base: seq<Message>, t: Tail)
    requires GoodTail(t) && t.stored && forall u :: u in turns ==> FullTurn(u)
    ensures base + Opening(input, turns) + [Reply(t.texts, t.calls)]
            + Answers(t.calls, t.results + Optional(t.ahead)) ==
            base + MessagesOf(Report(input, turns, t))
  {
    hide TurnsMessages, Reply, Answers;
    var reply, answers := [Reply(t.texts, t.calls)], Answers(t.calls, t.results + Optional(t.ahead));
    assert TailMessages(t) == reply + answers;
    FourParts(base, Opening(input, turns), reply, answers);
  }

  lemma FourParts<T>(a: seq<T>, b: seq<T>, c: seq<T>, d: seq<T>)
    ensures a + b + c + d == a + (b + (c + d))
  {
  }

  lemma StopsAnsweredEvents(turns: seq<Turn>, t: Tail)
    requires GoodTail(t) && forall u :: u in turns ==> FullTurn(u)
    ensures var started := if t.started then [ToolCallStarted(t.calls[|t.results|])] else [];
            TurnsEvents(turns) + Texts(t.texts) + Announcements(t.calls, t.results) + started + Optional(t.terminal) ==
            TurnsEvents(turns) + TailEvents(t)
  {
    hide TurnsEvents, Texts, Announcements;
    var started := if t.started then [ToolCallStarted(t.calls[|t.results|])] else [];
    FiveParts(TurnsEvents(turns), Texts(t.texts), Announcements(t.calls, t.results), started, Optional(t.terminal));
  }

  lemma FiveParts<T>(a: seq<T>, b: seq<T>, c: seq<T>, d: seq<T>, e: seq<T>)
    ensures a + b + c + d + e == a + (b + c + d + e)
  {
  }

  /** The same for an answer that asks for nothing. */
  lemma StopsComplete(turns: seq<Turn>, input: string, max: nat,
                      base: seq<Message>, h: seq<Message>, e: seq<AgentEvent>, s: seq<seq<StreamEvent>>,
                      heard: seq<seq<StreamEvent>>, t: Tail)
    requires Underway(turns, input, base, h, e, s) && |turns| < max
    requires GoodTail(t) && t.stored && t.calls == [] && |heard| == 1 && HeardTurn(heard[0], t.texts, t.calls)
    ensures Leaves(Report(input, turns, t), input, max, base,
              h + [Reply(t.texts, t.calls)], e + Texts(t.texts) + Optional(t.terminal), s + heard)
    ensures Shaped(Report(input, turns, t))
  {
    StopsAnswered(turns, input, max, base, h, e, s, heard, t);
    NothingToAnswer(t);
    hide *;
    NothingBetween(h + [Reply(t.texts, t.calls)]);
    NothingBetween(e + Texts(t.texts));
  }

  lemma NothingToAnswer(t: Tail)
    requires GoodTail(t) && t.calls == []
    ensures !t.started
    ensures Answers(t.calls, t.results + Optional(t.ahead)) == [] && Announcements(t.calls, t.results) == []
  {
  }

  lemma NothingBetween<T>(a: seq<T>)
    ensures a + [] == a
  {
  }

  lemma StopsRefused(input: string, max: nat, base: seq<Message>, terminal: Option<AgentEvent>)
    requires IsError(terminal)
    ensures Leaves(Refused(terminal), input, max, base, base, [] + Optional(terminal), [])
  {
    assert base + [] == base;
  }

  lemma Starts(input: string, base: seq<Message>)
    ensures Underway([], input, base, base + [Message(User, input, [], "")], [], [])
  {
    assert Opening(input, []) == [Message(User, input, [], "")];
  }

  /** Between turns the session is ready for another answer, even if a call of an earlier Send
      was never answered. */
  lemma ReadyForAnotherTurn(turns: seq<Turn>, input: string, base: seq<Message>,
                            h: seq<Message>, e: seq<AgentEvent>, s: seq<seq<StreamEvent>>)
    requires Grammatical(base)
    requires Underway(turns, input, base, h, e, s)
    ensures PhaseAfter(Fresh, h) == Ready
  {
    var user := [Message(User, input, [], "")];
    PhaseAfterAppend(Fresh, base, user + TurnsMessages(turns));
    assert PhaseAfter(PhaseAfter(Fresh, base), user) == Ready;
    PhaseAfterAppend(PhaseAfter(Fresh, base), user, TurnsMessages(turns));
    TurnsPhase(turns);
  }

  /** And every call of this Send is answered. */
  lemma NoCallIsOpen(turns: seq<Turn>, input: string, base: seq<Message>,
                     h: seq<Message>, e: seq<AgentEvent>, s: seq<seq<StreamEvent>>)
    requires Underway(turns, input, base, h, e, s)
    ensures |base| <= |h| && AllAnswered(h[|base|..])
  {
    hide AllAnswered;
    assert h[|base|..] == Opening(input, turns);
    TurnsAnswered(turns);
    TurnsBeginWithReply(turns);
    UserAnswered(input, TurnsMessages(turns));
  }

  /** Reading the session back changes neither. */
  lemma ReadBackIsReady(compact: Compactor, ms: seq<Message>, from: nat)
    requires PhaseAfter(Fresh, ms) == Ready && from <= |ms| && AllAnswered(ms[from..])
    ensures PhaseAfter(Fresh, ReadBack(compact, ms)) == Ready
    ensures |ReadBack(compact, ms)| == |ms| && AllAnswered(ReadBack(compact, ms)[from..])
  {
    ReadBackKeepsPhase(compact, Fresh, ms);
    ReadBackKeepsAnswers(compact, ms[from..]);
    assert ReadBack(compact, ms)[from..] == ReadBack(compact, ms[from..]);
  }

  // ---------------------------------------------------------------------------------------
  // Bookkeeping: what the ports did
  // ---------------------------------------------------------------------------------------

  lemma RefusalBlames(terminal: Option<AgentEvent>, fault: Option<Cause>, max: nat)
    requires fault.Some? && (terminal.None? || terminal.value == Error(fault.value))
    ensures Blames(Refused(terminal), fault, [], max)
  {
  }

  lemma PortBlames(r: Report, fault: Option<Cause>, s: seq<seq<StreamEvent>>, max: nat)
    requires r.Report?
    requires r.tail.terminal.Some? ==> fault.Some? && r.tail.terminal.value == Error(fault.value)
    ensures Blames(r, fault, s, max)
  {
  }

  lemma ErrorBlames(r: Report, fault: Option<Cause>, s: seq<seq<StreamEvent>>, heard: seq<seq<StreamEvent>>, max: nat)
    requires r.Report? && (r.tail.terminal.Some? ==> ErrorIs(r.tail.terminal.value, fault, heard))
    ensures Blames(r, fault, s + heard, max)
  {
    assert heard != [] ==> (s + heard)[|s + heard| - 1] == heard[|heard| - 1];
  }

  lemma CompletionBlames(r: Report, fault: Option<Cause>, s: seq<seq<StreamEvent>>, max: nat)
    requires r.Report? && fault.None? && (r.tail.terminal.None? || r.tail.terminal == Some(TurnComplete))
    ensures Blames(r, fault, s, max)
  {
  }

  lemma BoundBlames(r: Report, fault: Option<Cause>, s: seq<seq<StreamEvent>>, max: nat)
    requires r.Report? && fault.None? && |r.turns| == max
    requires r.tail.terminal.None? || r.tail.terminal == Some(Error(MaxIterations))
    ensures Blames(r, fault, s, max)
  {
  }

  lemma NothingAsked(compact: Compactor, base: seq<Message>, input: string)
    ensures AskedFor(compact, base, input, [], [])
  {
  }

  lemma RefusedAsksNothing(compact: Compactor, base: seq<Message>, terminal: Option<AgentEvent>)
    ensures AskedBy(compact, base, Refused(terminal), [])
  {
  }

  lemma AsksOnceMore(compact: Compactor, turns: seq<Turn>, input: string, base: seq<Message>,
                     h: seq<Message>, e: seq<AgentEvent>, s: seq<seq<StreamEvent>>,
                     before: seq<seq<Message>>, requests: seq<seq<Message>>)
    requires Underway(turns, input, base, h, e, s)
    requires |before| == |turns| && AskedFor(compact, base, input, turns, before)
    requires requests == before || requests == before + [ReadBack(compact, h)]
    ensures AskedFor(compact, base, input, turns, requests)
  {
    hide ReadBack, TurnsMessages;
    assert turns[..|turns|] == turns;
  }

  lemma AskedForTurn(compact: Compactor, base: seq<Message>, input: string, turns: seq<Turn>, turn: Turn,
                     requests: seq<seq<Message>>)
    requires AskedFor(compact, base, input, turns, requests) && |requests| == |turns| + 1 && FullTurn(turn)
    ensures AskedFor(compact, base, input, turns + [turn], requests)
  {
    hide ReadBack, TurnsMessages;
    assert forall i :: 0 <= i <= |turns| ==> (turns + [turn])[..i] == turns[..i];
  }

  lemma AskedInReport(compact: Compactor, base: seq<Message>, r: Report, requests: seq<seq<Message>>)
    requires r.Report? && AskedFor(compact, base, r.input, r.turns, requests)
    ensures AskedBy(compact, base, r, requests)
  {
  }

  ghost predicate RanSoFar(tools: set<string>, quote: string -> string, turns: seq<Turn>, ran: seq<(ToolCall, string)>)
  {
    && (forall t :: t in turns ==> FullTurn(t) && UnknownsSaid(tools, quote, t.calls, t.results))
    && ran == TurnsRan(tools, turns)
  }

  lemma NothingRan(tools: set<string>, quote: string -> string)
    ensures RanSoFar(tools, quote, [], [])
  {
  }

  lemma TurnWorked(tools: set<string>, quote: string -> string, turns: seq<Turn>, ran: seq<(ToolCall, string)>, t: Turn)
    requires RanSoFar(tools, quote, turns, ran) && FullTurn(t) && UnknownsSaid(tools, quote, t.calls, t.results)
    ensures RanSoFar(tools, quote, turns + [t], ran + Ran(tools, t.calls, t.results))
  {
    assert (turns + [t])[..|turns|] == turns;
  }

  lemma RefusedWorked(tools: set<string>, quote: string -> string, terminal: Option<AgentEvent>)
    ensures Worked(tools, quote, Refused(terminal), [])
  {
  }

  lemma NothingMoreRan(tools: set<string>, quote: string -> string, r: Report, ran: seq<(ToolCall, string)>)
    requires Shaped(r) && r.Report? && RanSoFar(tools, quote, r.turns, ran)
    requires r.tail.results == [] && r.tail.ahead.None?
    ensures Worked(tools, quote, r, ran)
  {
    assert r.tail.results + Optional(r.tail.ahead) == [];
    assert ran + [] == ran;
  }

  lemma SomeMoreRan(tools: set<string>, quote: string -> string, r: Report,
                    before: seq<(ToolCall, string)>, ran: seq<(ToolCall, string)>)
    requires Shaped(r) && r.Report? && RanSoFar(tools, quote, r.turns, before)
    requires UnknownsSaid(tools, quote, r.tail.calls, r.tail.results + Optional(r.tail.ahead))
    requires MostlyRan(tools, before + Ran(tools, r.tail.calls, r.tail.results + Optional(r.tail.ahead)), ran,
               OpenCall(r.tail))
    ensures Worked(tools, quote, r, ran)
  {
  }

  lemma NothingRanOf(tools: set<string>, ran: seq<(ToolCall, string)>, calls: seq<ToolCall>)
    ensures ran == ran + Ran(tools, calls, [])
  {
  }

  lemma OneMoreRan(tools: set<string>, before: seq<(ToolCall, string)>, calls: seq<ToolCall>, results: seq<string>,
                   result: string)
    requires |results| < |calls|
    ensures before + Ran(tools, calls, results)
            + (if calls[|results|].name in tools then [(calls[|results|], result)] else []) ==
            before + Ran(tools, calls, results + [result])
  {
    assert (results + [result])[..|results|] == results;
  }
}

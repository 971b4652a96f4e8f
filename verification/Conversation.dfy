/** What one Send leaves behind: a report of how far it got, the messages and the events
    that report stands for, and what those two always have to do with each other. */
module Conversation {
  import opened Wrappers
  import opened Domain

  // ---------------------------------------------------------------------------------------
  // What the agent makes of a provider's stream
  // ---------------------------------------------------------------------------------------

  datatype Verdict = Asked(calls: seq<ToolCall>) | HungUp | Failed(cause: Cause)

  /** Reading stops at the first error or done event. */
  function StopAt(stream: seq<StreamEvent>, from: nat := 0): (n: nat)
    requires from <= |stream|
    ensures from <= n <= |stream|
    ensures forall i :: from <= i < n ==> !Terminal(stream[i])
    ensures n < |stream| ==> Terminal(stream[n])
    decreases |stream| - from
  {
    if from == |stream| || Terminal(stream[from]) then from else StopAt(stream, from + 1)
  }

  /** A channel that closes first hangs up. */
  function VerdictOf(stream: seq<StreamEvent>): Verdict {
    var n := StopAt(stream);
    if n == |stream| then HungUp
    else if stream[n].err.Some? then Failed(stream[n].err.value)
    else Asked(stream[n].calls)
  }

  /** The non-empty texts among the first `n` events. */
  function Pieces(stream: seq<StreamEvent>, n: nat): seq<string>
    requires n <= |stream|
  {
    if n == 0 then []
    else Pieces(stream, n - 1) + if stream[n - 1].delta == "" then [] else [stream[n - 1].delta]
  }

  /** The texts read before reading stops. A done event may carry a last one. */
  function TextsOf(stream: seq<StreamEvent>): seq<string> {
    Pieces(stream, StopAt(stream) + if VerdictOf(stream).Asked? then 1 else 0)
  }

  lemma {:induction false} PiecesGrow(stream: seq<StreamEvent>, m: nat, n: nat)
    requires m <= n <= |stream|
    ensures Pieces(stream, m) <= Pieces(stream, n)
  {
    if m < n {
      PiecesGrow(stream, m, n - 1);
    }
  }

  /** The calls a stored answer carries: none when the stream hung up. */
  function CallsOf(stream: seq<StreamEvent>): seq<ToolCall> {
    var v := VerdictOf(stream);
    if v.Asked? then v.calls else []
  }

  /** What reading makes of any stream: it heeds the first event that fails or is done, and nothing
      after it. Failing wins over being done, an error's own text is not read, and that of a done
      event is; of the events before, all texts are read that are not empty, and nothing else. */
  lemma WhatReadingMakes(before: seq<StreamEvent>, ev: StreamEvent, after: seq<StreamEvent>)
    requires forall i :: 0 <= i < |before| ==> before[i].err.None? && !before[i].done
    requires ev.err.Some? || ev.done
    ensures var stream := before + [ev] + after;
      && (ev.err.Some? ==> VerdictOf(stream) == Failed(ev.err.value) && TextsOf(stream) == TextsOf(before))
      && (ev.err.None? ==>
            && VerdictOf(stream) == Asked(ev.calls) && CallsOf(stream) == ev.calls
            && TextsOf(stream) == TextsOf(before) + if ev.delta == "" then [] else [ev.delta])
    ensures VerdictOf(before).HungUp? && CallsOf(before) == [] && "" !in TextsOf(before)
    ensures before == [] ==> TextsOf(before) == []
    ensures before != [] ==>
      var n := |before| - 1;
      TextsOf(before) == TextsOf(before[..n]) + if before[n].delta == "" then [] else [before[n].delta]
  {
    var stream, n := before + [ev] + after, |before|;
    assert stream[n] == ev && forall i :: 0 <= i < n ==> stream[i] == before[i];
    assert StopAt(stream) == n && StopAt(before) == n;
    SamePieces(before, stream, n);
    NoEmptyPieces(before, n);
    if n > 0 {
      assert StopAt(before[..n - 1]) == n - 1;
      SamePieces(before[..n - 1], before, n - 1);
    }
  }

  lemma {:induction false} SamePieces(a: seq<StreamEvent>, b: seq<StreamEvent>, n: nat)
    requires n <= |a| && n <= |b| && forall i :: 0 <= i < n ==> a[i] == b[i]
    ensures Pieces(a, n) == Pieces(b, n)
  {
    if n > 0 {
      SamePieces(a, b, n - 1);
    }
  }

  lemma {:induction false} NoEmptyPieces(stream: seq<StreamEvent>, n: nat)
    requires n <= |stream|
    ensures "" !in Pieces(stream, n)
  {
    if n > 0 {
      NoEmptyPieces(stream, n - 1);
    }
  }

  // ---------------------------------------------------------------------------------------
  // Reports
  // ---------------------------------------------------------------------------------------

  /** A turn that asked for tools, all of which ran: the texts its consumer got, the calls,
      and one result per call. */
  datatype Turn = Turn(texts: seq<string>, calls: seq<ToolCall>, results: seq<string>)

  /** How a run ended. `texts` and `results` are what the consumer got of the last, unfinished
      turn; `stored` says its answer was stored; `started` that the next call was announced;
      `ahead` is a result that was stored but never announced; `terminal` the last event. */
  datatype Tail = Tail(
    texts: seq<string>, stored: bool, calls: seq<ToolCall>, results: seq<string>,
    started: bool, ahead: Option<string>, terminal: Option<AgentEvent>)

  datatype Report =
    | Refused(last: Option<AgentEvent>)  // the user's own message was not stored
    | Report(input: string, turns: seq<Turn>, tail: Tail)
  {
    function LastWord(): Option<AgentEvent> {
      if Refused? then last else tail.terminal
    }
  }

  const QUIET := Tail([], false, [], [], false, None, None)

  predicate FullTurn(t: Turn) { 0 < |t.calls| == |t.results| }

  predicate IsError(ev: Option<AgentEvent>) { ev.None? || ev.value.Error? }

  predicate GoodTail(t: Tail) {
    && (t.terminal.None? || t.terminal.value.TurnComplete? || t.terminal.value.Error?)
    && |t.results| <= |t.calls|
    && (!t.stored ==> t.calls == [])
    && (t.stored && t.calls != [] ==> |t.results| < |t.calls|)
    && (t.stored && t.calls == [] ==> !IsError(t.terminal) || t.terminal.None?)
    && (!(t.stored && t.calls == []) ==> IsError(t.terminal))
    && (t.started ==> |t.results| < |t.calls|)
    && (t.ahead.Some? ==> t.started && t.terminal.None?)
    && (t.calls != [] && !t.started ==> t.terminal.None?)
  }

  predicate Shaped(r: Report) {
    r.Report? ==> (forall t :: t in r.turns ==> FullTurn(t)) && GoodTail(r.tail)
  }

  /** The reports a run bounded by `max` turns can end with. The bound is reported exactly
      when that many turns each asked for tools and all of those ran. */
  predicate GoodReport(r: Report, max: nat) {
    && Shaped(r)
    && match r
       case Refused(last) => IsError(last)
       case Report(_, turns, tail) =>
         && |turns| <= max
         && (|turns| == max ==>
               && tail == QUIET.(terminal := tail.terminal)
               && (tail.terminal.None? || tail.terminal.value == Error(MaxIterations)))
  }

  // ---------------------------------------------------------------------------------------
  // The messages and events of a report
  // ---------------------------------------------------------------------------------------

  function Answer(call: ToolCall, result: string): Message {
    Message(Tool, result, [], call.id)
  }

  function Answers(calls: seq<ToolCall>, results: seq<string>): seq<Message>
    requires |results| <= |calls|
  {
    seq(|results|, i requires 0 <= i < |results| => Answer(calls[i], results[i]))
  }

  function Announcements(calls: seq<ToolCall>, results: seq<string>): seq<AgentEvent>
    requires |results| <= |calls|
  {
    if results == [] then [] else
      var n := |results| - 1;
      Announcements(calls, results[..n]) + [ToolCallStarted(calls[n]), ToolCallFinished(results[n])]
  }

  function Texts(texts: seq<string>): seq<AgentEvent> {
    seq(|texts|, i requires 0 <= i < |texts| => TextDelta(texts[i]))
  }

  function Reply(texts: seq<string>, calls: seq<ToolCall>): Message {
    Message(Assistant, Join(texts), calls, "")
  }

  function TurnMessages(t: Turn): seq<Message>
    requires FullTurn(t)
  {
    [Reply(t.texts, t.calls)] + Answers(t.calls, t.results)
  }

  function TurnEvents(t: Turn): seq<AgentEvent>
    requires FullTurn(t)
  {
    Texts(t.texts) + Announcements(t.calls, t.results)
  }

  function TurnsMessages(turns: seq<Turn>): seq<Message>
    requires forall t :: t in turns ==> FullTurn(t)
  {
    if turns == [] then [] else
      TurnsMessages(turns[..|turns| - 1]) + TurnMessages(turns[|turns| - 1])
  }

  function TurnsEvents(turns: seq<Turn>): seq<AgentEvent>
    requires forall t :: t in turns ==> FullTurn(t)
  {
    if turns == [] then [] else
      TurnsEvents(turns[..|turns| - 1]) + TurnEvents(turns[|turns| - 1])
  }

  function Optional<T>(o: Option<T>): seq<T> { if o.None? then [] else [o.value] }

  function TailMessages(t: Tail): seq<Message>
    requires GoodTail(t)
  {
    if !t.stored then [] else
      [Reply(t.texts, t.calls)] + Answers(t.calls, t.results + Optional(t.ahead))
  }

  function TailEvents(t: Tail): seq<AgentEvent>
    requires GoodTail(t)
  {
    Texts(t.texts) + Announcements(t.calls, t.results) +
    (if t.started then [ToolCallStarted(t.calls[|t.results|])] else []) + Optional(t.terminal)
  }

  /** What a run adds to its session. */
  function MessagesOf(r: Report): seq<Message>
    requires Shaped(r)
  {
    if r.Refused? then [] else
      [Message(User, r.input, [], "")] + TurnsMessages(r.turns) + TailMessages(r.tail)
  }

  /** What a run's consumer receives. */
  function EventsOf(r: Report): seq<AgentEvent>
    requires Shaped(r)
  {
    if r.Refused? then Optional(r.last) else TurnsEvents(r.turns) + TailEvents(r.tail)
  }

  // ---------------------------------------------------------------------------------------
  // The grammar of a session
  // ---------------------------------------------------------------------------------------

  /** Where a session stands: before any message; owed an answer to everything said so far;
      owed the results of calls, whose ids are listed in order; answered; or broken. */
  datatype Phase = Fresh | Ready | Awaiting(ids: seq<string>) | Answered | Bad

  function CallIds(calls: seq<ToolCall>): seq<string> {
    seq(|calls|, i requires 0 <= i < |calls| => calls[i].id)
  }

  /** A user message may always follow, even one that cuts off outstanding calls: it begins a
      new Send. An assistant message needs everything before it in its Send answered. */
  function Advance(p: Phase, m: Message): Phase {
    match m.role
    case User => if p.Bad? || m.toolCalls != [] then Bad else Ready
    case Assistant =>
      if !p.Ready? then Bad else if m.toolCalls == [] then Answered else Awaiting(CallIds(m.toolCalls))
    case Tool =>
      if !p.Awaiting? || p.ids == [] || p.ids[0] != m.toolCallId || m.toolCalls != [] then Bad
      else if |p.ids| == 1 then Ready else Awaiting(p.ids[1..])
    case _ => Bad
  }

  function PhaseAfter(p: Phase, ms: seq<Message>): Phase {
    if ms == [] then p else Advance(PhaseAfter(p, ms[..|ms| - 1]), ms[|ms| - 1])
  }

  /** A session in good order: the grammar accepts it. */
  predicate Grammatical(ms: seq<Message>) { !PhaseAfter(Fresh, ms).Bad? }

  lemma {:induction false} PhaseAfterAppend(p: Phase, a: seq<Message>, b: seq<Message>)
    ensures PhaseAfter(p, a + b) == PhaseAfter(PhaseAfter(p, a), b)
  {
    if b == [] {
      assert a + b == a;
    } else {
      assert (a + b)[..|a + b| - 1] == a + b[..|b| - 1];
      PhaseAfterAppend(p, a, b[..|b| - 1]);
    }
  }

  lemma {:induction false} AnswersPhase(calls: seq<ToolCall>, results: seq<string>)
    requires |results| <= |calls| && calls != []
    ensures PhaseAfter(Awaiting(CallIds(calls)), Answers(calls, results)) ==
            if |results| == |calls| then Ready else Awaiting(CallIds(calls)[|results|..])
  {
    if results != [] {
      var n := |results| - 1;
      AnswersPhase(calls, results[..n]);
      assert Answers(calls, results)[..n] == Answers(calls, results[..n]);
      assert CallIds(calls)[n..][1..] == CallIds(calls)[n + 1..];
    }
  }

  lemma ReplyPhase(texts: seq<string>, calls: seq<ToolCall>, results: seq<string>)
    requires |results| <= |calls|
    ensures PhaseAfter(Ready, [Reply(texts, calls)] + Answers(calls, results)) ==
            if calls == [] then Answered
            else if |results| == |calls| then Ready else Awaiting(CallIds(calls)[|results|..])
  {
    PhaseAfterAppend(Ready, [Reply(texts, calls)], Answers(calls, results));
    assert PhaseAfter(Ready, [Reply(texts, calls)]) == Advance(Ready, Reply(texts, calls));
    if calls != [] {
      AnswersPhase(calls, results);
    }
  }

  lemma {:induction false} TurnsPhase(turns: seq<Turn>)
    requires forall t :: t in turns ==> FullTurn(t)
    ensures PhaseAfter(Ready, TurnsMessages(turns)) == Ready
  {
    if turns != [] {
      var n := |turns| - 1;
      assert turns[n] in turns;
      TurnsPhase(turns[..n]);
      ReplyPhase(turns[n].texts, turns[n].calls, turns[n].results);
      PhaseAfterAppend(Ready, TurnsMessages(turns[..n]), TurnMessages(turns[n]));
    }
  }

  /** The phase a run leaves its session in. */
  function PhaseOf(r: Report): Phase
    requires r.Report? && GoodTail(r.tail)
  {
    var got := r.tail.results + Optional(r.tail.ahead);
    if !r.tail.stored then Ready
    else if r.tail.calls == [] then Answered
    else if |got| == |r.tail.calls| then Ready
    else Awaiting(CallIds(r.tail.calls)[|got|..])
  }

  /** Every run keeps a grammatical session grammatical, wherever it stops, and says how. */
  lemma SendKeepsGrammar(history: seq<Message>, r: Report, max: nat)
    requires Grammatical(history)
    requires GoodReport(r, max)
    ensures Grammatical(history + MessagesOf(r))
    ensures r.Refused? ==> MessagesOf(r) == []
    ensures r.Report? ==> PhaseAfter(Fresh, history + MessagesOf(r)) == PhaseOf(r)
  {
    PhaseAfterAppend(Fresh, history, MessagesOf(r));
    if r.Report? {
      var user := [Message(User, r.input, [], "")];
      var start := PhaseAfter(Fresh, history);
      assert PhaseAfter(start, user) == Ready;
      PhaseAfterAppend(start, user + TurnsMessages(r.turns), TailMessages(r.tail));
      PhaseAfterAppend(start, user, TurnsMessages(r.turns));
      TurnsPhase(r.turns);
      if r.tail.stored {
        ReplyPhase(r.tail.texts, r.tail.calls, r.tail.results + Optional(r.tail.ahead));
      }
    }
  }

  /** A session after any number of Sends, one after the other. */
  function History(reports: seq<Report>): seq<Message>
    requires forall r :: r in reports ==> Shaped(r)
  {
    if reports == [] then [] else History(reports[..|reports| - 1]) + MessagesOf(reports[|reports| - 1])
  }

  lemma {:induction false} SendsKeepGrammar(reports: seq<Report>, max: nat)
    requires forall r :: r in reports ==> Shaped(r) && GoodReport(r, max)
    ensures Grammatical(History(reports))
  {
    hide Shaped, Grammatical, MessagesOf;
    if reports == [] {
      NothingIsGrammatical();
    } else {
      var n := |reports| - 1;
      SendsKeepGrammar(reports[..n], max);
      SendKeepsGrammar(History(reports[..n]), reports[n], max);
    }
  }

  lemma NothingIsGrammatical()
    ensures Grammatical([])
  {
  }

  /** In a grammatical session every result is preceded, at the right distance, by the
      assistant message that asked for it, with all earlier results of that message between. */
  lemma {:induction false} EveryResultHasItsCall(ms: seq<Message>) returns (at: nat)
    requires Grammatical(ms) && PhaseAfter(Fresh, ms).Awaiting?
    ensures at < |ms| && ms[at].role == Assistant
    ensures |ms| - 1 - at < |ms[at].toolCalls|
    ensures PhaseAfter(Fresh, ms).ids == CallIds(ms[at].toolCalls)[|ms| - 1 - at..]
    ensures forall k :: at < k < |ms| ==> ms[k].role == Tool && ms[k].toolCallId == ms[at].toolCalls[k - at - 1].id
  {
    var n := |ms| - 1;
    if ms[n].role == Assistant {
      at := n;
    } else {
      var before := ms[..n];
      at := EveryResultHasItsCall(before);
      hide PhaseAfter, CallIds;
      assert PhaseAfter(Fresh, ms) == Advance(PhaseAfter(Fresh, before), ms[n]) by { UnfoldPhase(Fresh, ms); }
      IdsOfCalls(ms[at].toolCalls, n - 1 - at);
      OneOff(CallIds(ms[at].toolCalls), n - 1 - at);
      assert forall k :: at < k < n ==> before[k] == ms[k];
    }
  }

  lemma UnfoldPhase(p: Phase, ms: seq<Message>)
    requires ms != []
    ensures PhaseAfter(p, ms) == Advance(PhaseAfter(p, ms[..|ms| - 1]), ms[|ms| - 1])
  {
  }

  lemma OneOff<T>(s: seq<T>, i: nat)
    requires i < |s|
    ensures s[i..][0] == s[i] && s[i..][1..] == s[i + 1..]
  {
  }

  lemma IdsOfCalls(calls: seq<ToolCall>, i: nat)
    requires i < |calls|
    ensures |CallIds(calls)| == |calls| && CallIds(calls)[i] == calls[i].id
  {
  }

  /** The assistant message at `at` is followed by one result per call, in order. */
  ghost predicate AnsweredBlock(ms: seq<Message>, at: nat)
    requires at < |ms|
  {
    && ms[at].role == Assistant && at + |ms[at].toolCalls| < |ms|
    && forall k :: at < k <= at + |ms[at].toolCalls| ==>
         ms[k].role == Tool && ms[k].toolCallId == ms[at].toolCalls[k - at - 1].id
  }

  /** An assistant message is the first of its Send, or directly follows a complete block of
      answers: the calls of every earlier assistant message of that Send were all answered. */
  lemma {:induction false} LaterAssistantStandsOnAnswers(ms: seq<Message>, i: nat) returns (at: nat)
    requires Grammatical(ms) && 0 < i < |ms| && ms[i].role == Assistant
    ensures ms[i - 1].role == User ||
            (at < i && AnsweredBlock(ms, at) && at + |ms[at].toolCalls| == i - 1)
  {
    PrefixGrammatical(ms, i + 1);
    PrefixGrammatical(ms, i);
    assert ms[..i + 1][..i] == ms[..i];
    assert PhaseAfter(Fresh, ms[..i]).Ready?;
    at := 0;
    if ms[i - 1].role != User {
      at := ReadyAfterAnswers(ms[..i]);
    }
  }

  /** A session that is ready without a user message at its end has just had a last answer. */
  lemma ReadyAfterAnswers(ms: seq<Message>) returns (at: nat)
    requires ms != [] && PhaseAfter(Fresh, ms).Ready? && ms[|ms| - 1].role != User
    ensures at < |ms| && AnsweredBlock(ms, at) && at + |ms[at].toolCalls| == |ms| - 1
  {
    var n := |ms| - 1;
    at := EveryResultHasItsCall(ms[..n]);
    assert CallIds(ms[at].toolCalls)[n - 1 - at..][0] == ms[n].toolCallId;
  }

  lemma {:induction false} PrefixGrammatical(ms: seq<Message>, n: nat)
    requires Grammatical(ms) && n <= |ms|
    ensures Grammatical(ms[..n])
    decreases |ms|
  {
    if n == |ms| {
      assert ms[..n] == ms;
    } else {
      assert ms[..|ms| - 1][..n] == ms[..n];
      PrefixGrammatical(ms[..|ms| - 1], n);
    }
  }

  // ---------------------------------------------------------------------------------------
  // Are all calls answered?
  // ---------------------------------------------------------------------------------------

  ghost predicate AllAnswered(ms: seq<Message>) {
    forall at :: 0 <= at < |ms| && ms[at].role == Assistant ==> AnsweredBlock(ms, at)
  }

  /** Nothing that follows answers an open call, unless it begins with a result. */
  lemma AnsweredApart(a: seq<Message>, b: seq<Message>)
    requires b == [] || b[0].role != Tool
    ensures AllAnswered(a + b) <==> AllAnswered(a) && AllAnswered(b)
  {
    var ms := a + b;
    hide AnsweredBlock;
    if AllAnswered(ms) {
      forall at | 0 <= at < |a| && a[at].role == Assistant ensures AnsweredBlock(a, at) {
        BlockInFront(a, b, at);
        assert ms[at] == a[at];
      }
      forall at | 0 <= at < |b| && b[at].role == Assistant ensures AnsweredBlock(b, at) {
        BlockBehind(a, b, at);
        assert ms[|a| + at] == b[at];
      }
    }
    if AllAnswered(a) && AllAnswered(b) {
      forall at | 0 <= at < |ms| && ms[at].role == Assistant ensures AnsweredBlock(ms, at) {
        if at < |a| {
          BlockInFront(a, b, at);
        } else {
          BlockBehind(a, b, at - |a|);
        }
      }
    }
  }

  lemma BlockInFront(a: seq<Message>, b: seq<Message>, at: nat)
    requires at < |a| && (b == [] || b[0].role != Tool)
    ensures AnsweredBlock(a + b, at) <==> AnsweredBlock(a, at)
  {
    var n := |a[at].toolCalls|;
    assert (a + b)[at] == a[at];
    assert b != [] ==> (a + b)[|a|] == b[0];
    assert AnsweredBlock(a + b, at) ==> at + n < |a|;
    assert forall k :: at < k < |a| ==> (a + b)[k] == a[k];
    if AnsweredBlock(a, at) {
      assert forall k :: at < k <= at + n ==> a[k].role == Tool && a[k].toolCallId == a[at].toolCalls[k - at - 1].id;
    }
  }

  lemma BlockBehind(a: seq<Message>, b: seq<Message>, at: nat)
    requires at < |b|
    ensures AnsweredBlock(a + b, |a| + at) <==> AnsweredBlock(b, at)
  {
    var n := |b[at].toolCalls|;
    assert forall k :: at < k < |b| ==> (a + b)[|a| + k] == b[k];
    assert forall k :: |a| + at < k < |a| + |b| ==> (a + b)[k] == b[k - |a|];
  }

  lemma ReplyAnswered(texts: seq<string>, calls: seq<ToolCall>, results: seq<string>)
    requires |results| <= |calls|
    ensures AllAnswered([Reply(texts, calls)] + Answers(calls, results)) <==> |results| == |calls|
  {
    var ms := [Reply(texts, calls)] + Answers(calls, results);
    assert ms[0] == Reply(texts, calls);
    assert AnsweredBlock(ms, 0) <==> |results| == |calls|;
  }

  lemma {:induction false} TurnsAnswered(turns: seq<Turn>)
    requires forall t :: t in turns ==> FullTurn(t)
    ensures AllAnswered(TurnsMessages(turns))
  {
    if turns != [] {
      var n := |turns| - 1;
      assert turns[n] in turns;
      TurnsAnswered(turns[..n]);
      ReplyAnswered(turns[n].texts, turns[n].calls, turns[n].results);
      AnsweredApart(TurnsMessages(turns[..n]), TurnMessages(turns[n]));
    }
  }

  /** A run that stopped between the results of an answer leaves calls open. */
  predicate LeavesCallsOpen(r: Report)
    requires Shaped(r)
  {
    r.Report? && PhaseOf(r).Awaiting?
  }

  lemma TailAnswered(t: Tail)
    requires GoodTail(t)
    ensures AllAnswered(TailMessages(t)) <==> !t.stored || |t.results + Optional(t.ahead)| == |t.calls|
  {
    if t.stored {
      ReplyAnswered(t.texts, t.calls, t.results + Optional(t.ahead));
    }
  }

  lemma UserAnswered(input: string, ms: seq<Message>)
    requires ms == [] || ms[0].role != Tool
    ensures AllAnswered([Message(User, input, [], "")] + ms) <==> AllAnswered(ms)
  {
    AnsweredApart([Message(User, input, [], "")], ms);
  }

  lemma SendAnswered(r: Report)
    requires Shaped(r)
    ensures AllAnswered(MessagesOf(r)) <==> !LeavesCallsOpen(r)
  {
    if r.Report? {
      var turns, tail := TurnsMessages(r.turns), TailMessages(r.tail);
      TurnsBeginWithReply(r.turns);
      TurnsAnswered(r.turns);
      TailAnswered(r.tail);
      hide AllAnswered, TurnsMessages;
      UserAnswered(r.input, turns);
      AnsweredApart([Message(User, r.input, [], "")] + turns, tail);
    }
  }

  lemma {:induction false} TurnsBeginWithReply(turns: seq<Turn>)
    requires forall t :: t in turns ==> FullTurn(t)
    ensures TurnsMessages(turns) == [] || TurnsMessages(turns)[0].role == Assistant
  {
    if turns != [] {
      TurnsBeginWithReply(turns[..|turns| - 1]);
    }
  }

  /** In the whole session every call is answered exactly when no Send of it was cut off between
      two results. */
  lemma {:induction false} HistoryAnsweredExactlyWhenNoSendWasCutOff(reports: seq<Report>)
    requires forall r :: r in reports ==> Shaped(r)
    ensures AllAnswered(History(reports)) <==> forall r :: r in reports ==> !LeavesCallsOpen(r)
  {
    if reports != [] {
      var n := |reports| - 1;
      var before, last := reports[..n], reports[n];
      assert last in reports;
      HistoryAnsweredExactlyWhenNoSendWasCutOff(before);
      assert AllAnswered(History(reports)) <==> AllAnswered(History(before)) && !LeavesCallsOpen(last) by {
        SendAnswered(last);
        SendBeginsWithUser(last);
        hide AllAnswered, LeavesCallsOpen, Shaped, MessagesOf;
        AnsweredApart(History(before), MessagesOf(last));
      }
      hide *;
      LastOrBefore(reports);
    }
  }

  lemma LastOrBefore<T>(s: seq<T>)
    requires s != []
    ensures forall x :: x in s <==> x in s[..|s| - 1] || x == s[|s| - 1]
  {
  }

  lemma SendBeginsWithUser(r: Report)
    requires Shaped(r)
    ensures MessagesOf(r) == [] || MessagesOf(r)[0].role == User
  {
  }

  /** Such a session goes to the provider as it is: a Send cut off after the first of two results,
      and the next Send's user message. It is ready for an answer, with a call left open. */
  lemma CutOffSendLeavesACallOpen(a: ToolCall, b: ToolCall, max: nat) returns (r: Report, next: seq<Message>)
    requires max > 0
    ensures GoodReport(r, max) && LeavesCallsOpen(r)
    ensures next == [Message(User, "go on", [], "")]
    ensures MessagesOf(r) + next == [
              Message(User, "run both", [], ""), Message(Assistant, "", [a, b], ""), Message(Tool, "done", [], a.id),
              Message(User, "go on", [], "")]
    ensures PhaseAfter(Fresh, MessagesOf(r) + next) == Ready && !AllAnswered(MessagesOf(r) + next)
  {
    r := Report("run both", [], Tail([], true, [a, b], ["done"], false, None, None));
    next := [Message(User, "go on", [], "")];
    CutOffMessages(a, b, r);
    SendAnswered(r);
    hide AllAnswered, MessagesOf, Advance, Grammatical, PhaseOf;
    SendKeepsGrammar([], r, max);
    assert [] + MessagesOf(r) == MessagesOf(r);
    UserComesNext(PhaseAfter(Fresh, MessagesOf(r)), "go on");
    PhaseAfterAppend(Fresh, MessagesOf(r), next);
    AnsweredApart(MessagesOf(r), next);
  }

  lemma CutOffMessages(a: ToolCall, b: ToolCall, r: Report)
    requires r == Report("run both", [], Tail([], true, [a, b], ["done"], false, None, None))
    ensures MessagesOf(r) == [
              Message(User, "run both", [], ""), Message(Assistant, "", [a, b], ""), Message(Tool, "done", [], a.id)]
    ensures PhaseOf(r).Awaiting?
  {
    assert r.tail.results + Optional(r.tail.ahead) == ["done"];
    assert Answers([a, b], ["done"]) == [Answer(a, "done")];
  }

  lemma UserComesNext(p: Phase, input: string)
    requires !p.Bad?
    ensures PhaseAfter(p, [Message(User, input, [], "")]) == Ready
  {
    assert [Message(User, input, [], "")][..0] == [];
  }

  // ---------------------------------------------------------------------------------------
  // Reading a session back
  // ---------------------------------------------------------------------------------------

  /** Reading back changes the arguments of calls, and nothing else of any message. */
  lemma ReadBackChangesOnlyArguments(compact: Compactor, ms: seq<Message>)
    ensures var back := ReadBack(compact, ms);
      && |back| == |ms|
      && forall i :: 0 <= i < |ms| ==>
           && back[i].role == ms[i].role && back[i].content == ms[i].content && back[i].toolCallId == ms[i].toolCallId
           && |back[i].toolCalls| == |ms[i].toolCalls|
           && forall j :: 0 <= j < |ms[i].toolCalls| ==>
                && back[i].toolCalls[j].id == ms[i].toolCalls[j].id
                && back[i].toolCalls[j].name == ms[i].toolCalls[j].name
                && back[i].toolCalls[j].args == compact(ms[i].toolCalls[j].args)
  {
  }

  /** Compacting arguments does not touch what the grammar reads. */
  lemma {:induction false} ReadBackKeepsPhase(compact: Compactor, p: Phase, ms: seq<Message>)
    ensures PhaseAfter(p, ReadBack(compact, ms)) == PhaseAfter(p, ms)
  {
    var back := ReadBack(compact, ms);
    if ms != [] {
      var n := |ms| - 1;
      ReadBackKeepsPhase(compact, p, ms[..n]);
      assert back[..n] == ReadBack(compact, ms[..n]);
      assert CallIds(back[n].toolCalls) == CallIds(ms[n].toolCalls);
    }
  }

  lemma ReadBackKeepsAnswers(compact: Compactor, ms: seq<Message>)
    ensures AllAnswered(ReadBack(compact, ms)) <==> AllAnswered(ms)
  {
    var back := ReadBack(compact, ms);
    forall at | 0 <= at < |ms| ensures AnsweredBlock(back, at) <==> AnsweredBlock(ms, at) {
      BlockReadBack(compact, ms, at);
    }
    hide AnsweredBlock;
    assert forall at :: 0 <= at < |ms| ==> back[at].role == ms[at].role;
  }

  lemma BlockReadBack(compact: Compactor, ms: seq<Message>, at: nat)
    requires at < |ms|
    ensures AnsweredBlock(ReadBack(compact, ms), at) <==> AnsweredBlock(ms, at)
  {
    var back := ReadBack(compact, ms);
    var calls := ms[at].toolCalls;
    assert back[at].toolCalls == CompactCalls(compact, calls);
    assert forall i :: 0 <= i < |calls| ==> back[at].toolCalls[i].id == calls[i].id;
    assert forall k :: 0 <= k < |ms| ==> back[k].role == ms[k].role && back[k].toolCallId == ms[k].toolCallId;
    if AnsweredBlock(back, at) {
      forall k | at < k <= at + |calls| ensures ms[k].role == Tool && ms[k].toolCallId == calls[k - at - 1].id {
        assert back[k].toolCallId == back[at].toolCalls[k - at - 1].id;
      }
    }
  }

  // ---------------------------------------------------------------------------------------
  // The grammar of an event trace
  // ---------------------------------------------------------------------------------------

  datatype Hearing = Between | Running | Over | Garbled

  function Hear(h: Hearing, ev: AgentEvent): Hearing {
    match ev
    case TextDelta(_) => if h.Between? then Between else Garbled
    case ToolCallStarted(_) => if h.Between? then Running else Garbled
    case ToolCallFinished(_) => if h.Running? then Between else Garbled
    case TurnComplete => if h.Between? then Over else Garbled
    case Error(_) => if h.Between? || h.Running? then Over else Garbled
  }

  function HearAll(h: Hearing, es: seq<AgentEvent>): Hearing {
    if es == [] then h else Hear(HearAll(h, es[..|es| - 1]), es[|es| - 1])
  }

  lemma {:induction false} HearAllAppend(h: Hearing, a: seq<AgentEvent>, b: seq<AgentEvent>)
    ensures HearAll(h, a + b) == HearAll(HearAll(h, a), b)
  {
    if b == [] {
      assert a + b == a;
    } else {
      assert (a + b)[..|a + b| - 1] == a + b[..|b| - 1];
      HearAllAppend(h, a, b[..|b| - 1]);
    }
  }

  /** What it means for a trace to be well-formed: a terminal event is the last one; a finished call
      directly follows its start, and what follows a start is its finish or an error; and it is over
      exactly after a terminal event, and running exactly after a start. */
  lemma AcceptedTraces(es: seq<AgentEvent>, i: nat)
    requires !HearAll(Between, es).Garbled? && i < |es|
    ensures es[i].TurnComplete? || es[i].Error? ==> i == |es| - 1
    ensures es[i].ToolCallFinished? ==> i > 0 && es[i - 1].ToolCallStarted?
    ensures es[i].ToolCallStarted? && i + 1 < |es| ==> es[i + 1].ToolCallFinished? || es[i + 1].Error?
    ensures HearAll(Between, es).Over? <==> es[|es| - 1].TurnComplete? || es[|es| - 1].Error?
    ensures HearAll(Between, es).Running? <==> es[|es| - 1].ToolCallStarted?
  {
    assert es[..0] == [] && HearAll(Between, []) == Between;
    hide HearAll;
    HeardSoFar(es, i);
    HeardSoFar(es, i + 1);
    if i > 0 { HeardSoFar(es, i - 1); }
    if i + 1 < |es| { HeardSoFar(es, i + 2); }
    UnfoldHearing(es, |es|);
    assert es[..|es|] == es;
    UnfoldHearing(es, i + 1);
    if i > 0 { UnfoldHearing(es, i); }
    if i + 1 < |es| { UnfoldHearing(es, i + 2); }
  }

  lemma UnfoldHearing(es: seq<AgentEvent>, n: nat)
    requires 0 < n <= |es|
    ensures HearAll(Between, es[..n]) == Hear(HearAll(Between, es[..n - 1]), es[n - 1])
  {
    assert es[..n][..n - 1] == es[..n - 1];
  }

  lemma {:induction false} HeardSoFar(es: seq<AgentEvent>, n: nat)
    requires !HearAll(Between, es).Garbled? && n <= |es|
    ensures !HearAll(Between, es[..n]).Garbled?
    decreases |es|
  {
    if n == |es| {
      assert es[..n] == es;
    } else {
      assert es[..|es| - 1][..n] == es[..n];
      HeardSoFar(es[..|es| - 1], n);
    }
  }

  lemma {:induction false} HearTexts(texts: seq<string>)
    ensures HearAll(Between, Texts(texts)) == Between
  {
    if texts != [] {
      var n := |texts| - 1;
      HearTexts(texts[..n]);
      assert Texts(texts)[..n] == Texts(texts[..n]);
    }
  }

  lemma {:induction false} HearAnnouncements(calls: seq<ToolCall>, results: seq<string>)
    requires |results| <= |calls|
    ensures HearAll(Between, Announcements(calls, results)) == Between
  {
    if results != [] {
      var n := |results| - 1;
      HearAnnouncements(calls, results[..n]);
      var pair := [ToolCallStarted(calls[n]), ToolCallFinished(results[n])];
      assert pair[..1] == [pair[0]];
      assert HearAll(Between, pair[..1]) == Running;
      HearAllAppend(Between, Announcements(calls, results[..n]), pair);
    }
  }

  lemma {:induction false} HearTurns(turns: seq<Turn>)
    requires forall t :: t in turns ==> FullTurn(t)
    ensures HearAll(Between, TurnsEvents(turns)) == Between
  {
    if turns != [] {
      var n := |turns| - 1;
      var t := turns[n];
      assert t in turns;
      HearTurns(turns[..n]);
      HearAllAppend(Between, TurnsEvents(turns[..n]), TurnEvents(t));
      HearAllAppend(Between, Texts(t.texts), Announcements(t.calls, t.results));
      HearTexts(t.texts);
      HearAnnouncements(t.calls, t.results);
    }
  }

  /** Every trace is texts and started/finished pairs, then at most one terminal event, last;
      only the end can leave a started call unfinished. */
  lemma EventsAreWellFormed(r: Report, max: nat)
    requires GoodReport(r, max)
    ensures HearAll(Between, EventsOf(r)) ==
            if r.LastWord().Some? then Over
            else if r.Report? && r.tail.started then Running else Between
  {
    hide Texts, Announcements, TurnsEvents;
    if r.Refused? {
      if r.last.Some? { HearOne(Between, r.last.value); }
    } else {
      var t := r.tail;
      HearTurns(r.turns);
      HearAllAppend(Between, TurnsEvents(r.turns), TailEvents(t));
      HearTail(t);
    }
  }

  lemma HearOne(h: Hearing, ev: AgentEvent)
    ensures HearAll(h, [ev]) == Hear(h, ev)
  {
    assert [ev][..0] == [];
  }

  lemma HearTail(t: Tail)
    requires GoodTail(t)
    ensures HearAll(Between, TailEvents(t)) == if t.terminal.Some? then Over else if t.started then Running else Between
  {
    hide Texts, Announcements;
    var shown := Texts(t.texts) + Announcements(t.calls, t.results);
    var started := if t.started then [ToolCallStarted(t.calls[|t.results|])] else [];
    assert HearAll(Between, shown) == Between by {
      HearTexts(t.texts);
      HearAnnouncements(t.calls, t.results);
      HearAllAppend(Between, Texts(t.texts), Announcements(t.calls, t.results));
    }
    HearAllAppend(Between, shown, started);
    HearAllAppend(Between, shown + started, Optional(t.terminal));
    if t.started { HearOne(Between, started[0]); }
    if t.terminal.Some? { HearOne(HearAll(Between, shown + started), t.terminal.value); }
  }

  // ---------------------------------------------------------------------------------------
  // Events against messages
  // ---------------------------------------------------------------------------------------

  /** The text, the tool results, and the ids of the calls they belong to, in order. */
  datatype Ledger = Ledger(text: string, results: seq<string>, ids: seq<string>) {
    function Plus(other: Ledger): Ledger {
      Ledger(text + other.text, results + other.results, ids + other.ids)
    }
  }

  const NOTHING := Ledger("", [], [])

  lemma PlusNothing(l: Ledger)
    ensures l.Plus(NOTHING) == l == NOTHING.Plus(l)
  {
    assert l.text + "" == l.text && "" + l.text == l.text;
    assert l.results + [] == l.results && l.ids + [] == l.ids;
  }

  lemma PlusAssociates(a: Ledger, b: Ledger, c: Ledger)
    ensures a.Plus(b).Plus(c) == a.Plus(b.Plus(c))
  {
    assert a.text + b.text + c.text == a.text + (b.text + c.text);
    assert a.results + b.results + c.results == a.results + (b.results + c.results);
    assert a.ids + b.ids + c.ids == a.ids + (b.ids + c.ids);
  }

  lemma PlusParts(text: string, results: seq<string>, ids: seq<string>)
    ensures Ledger(text, [], []).Plus(Ledger("", results, ids)) == Ledger(text, results, ids)
  {
    assert text + "" == text && [] + results == results && [] + ids == ids;
  }

  function StoredBy(m: Message): Ledger {
    if m.role == Assistant then Ledger(m.content, [], [])
    else if m.role == Tool then Ledger("", [m.content], [m.toolCallId])
    else NOTHING
  }

  function AnnouncedBy(ev: AgentEvent): Ledger {
    match ev
    case TextDelta(text) => Ledger(text, [], [])
    case ToolCallStarted(call) => Ledger("", [], [call.id])
    case ToolCallFinished(result) => Ledger("", [result], [])
    case _ => NOTHING
  }

  function StoredLedger(ms: seq<Message>): Ledger {
    if ms == [] then NOTHING else StoredLedger(ms[..|ms| - 1]).Plus(StoredBy(ms[|ms| - 1]))
  }

  function AnnouncedLedger(es: seq<AgentEvent>): Ledger {
    if es == [] then NOTHING else AnnouncedLedger(es[..|es| - 1]).Plus(AnnouncedBy(es[|es| - 1]))
  }

  lemma {:induction false} StoredAppend(a: seq<Message>, b: seq<Message>)
    ensures StoredLedger(a + b) == StoredLedger(a).Plus(StoredLedger(b))
  {
    hide Ledger.Plus, StoredBy;
    if b == [] {
      assert a + b == a;
      PlusNothing(StoredLedger(a));
    } else {
      var n := |b| - 1;
      assert (a + b)[..|a + b| - 1] == a + b[..n];
      StoredAppend(a, b[..n]);
      PlusAssociates(StoredLedger(a), StoredLedger(b[..n]), StoredBy(b[n]));
    }
  }

  lemma {:induction false} AnnouncedAppend(a: seq<AgentEvent>, b: seq<AgentEvent>)
    ensures AnnouncedLedger(a + b) == AnnouncedLedger(a).Plus(AnnouncedLedger(b))
  {
    hide Ledger.Plus, AnnouncedBy;
    if b == [] {
      assert a + b == a;
      PlusNothing(AnnouncedLedger(a));
    } else {
      var n := |b| - 1;
      assert (a + b)[..|a + b| - 1] == a + b[..n];
      AnnouncedAppend(a, b[..n]);
      PlusAssociates(AnnouncedLedger(a), AnnouncedLedger(b[..n]), AnnouncedBy(b[n]));
    }
  }

  lemma StoredOne(m: Message)
    ensures StoredLedger([m]) == StoredBy(m)
  {
    assert [m][..0] == [];
    PlusNothing(StoredBy(m));
  }

  lemma AnnouncedOne(ev: AgentEvent)
    ensures AnnouncedLedger([ev]) == AnnouncedBy(ev)
  {
    assert [ev][..0] == [];
    PlusNothing(AnnouncedBy(ev));
  }

  lemma {:induction false} AnnouncedTexts(texts: seq<string>)
    ensures AnnouncedLedger(Texts(texts)) == Ledger(Join(texts), [], [])
  {
    if texts != [] {
      var n := |texts| - 1;
      AnnouncedTexts(texts[..n]);
      assert Texts(texts)[..n] == Texts(texts[..n]);
    }
  }

  /** A result and its id at the end of a ledger of the first `n` calls' answers. */
  lemma PlusAnswer(calls: seq<ToolCall>, results: seq<string>, n: nat)
    requires n + 1 == |results| <= |calls|
    ensures Ledger("", results[..n], CallIds(calls)[..n]).Plus(Ledger("", [results[n]], [calls[n].id])) ==
            Ledger("", results, CallIds(calls)[..n + 1])
  {
    assert "" + "" == "";
    assert results == results[..n] + [results[n]];
    assert CallIds(calls)[..n + 1] == CallIds(calls)[..n] + [calls[n].id];
  }

  lemma {:induction false} StoredAnswers(calls: seq<ToolCall>, results: seq<string>)
    requires |results| <= |calls|
    ensures StoredLedger(Answers(calls, results)) == Ledger("", results, CallIds(calls)[..|results|])
  {
    if results != [] {
      hide Ledger.Plus;
      var n := |results| - 1;
      StoredAnswers(calls, results[..n]);
      assert Answers(calls, results)[..n] == Answers(calls, results[..n]);
      PlusAnswer(calls, results, n);
    }
  }

  lemma {:induction false} AnnouncedAnnouncements(calls: seq<ToolCall>, results: seq<string>)
    requires |results| <= |calls|
    ensures AnnouncedLedger(Announcements(calls, results)) == Ledger("", results, CallIds(calls)[..|results|])
  {
    if results != [] {
      hide Ledger.Plus, AnnouncedLedger;
      var n := |results| - 1;
      AnnouncedAnnouncements(calls, results[..n]);
      AnnouncedPair(calls[n], results[n]);
      AnnouncedAppend(Announcements(calls, results[..n]), [ToolCallStarted(calls[n]), ToolCallFinished(results[n])]);
      PlusAnswer(calls, results, n);
    }
  }

  lemma AnnouncedPair(call: ToolCall, result: string)
    ensures AnnouncedLedger([ToolCallStarted(call), ToolCallFinished(result)]) == Ledger("", [result], [call.id])
  {
    var pair := [ToolCallStarted(call), ToolCallFinished(result)];
    assert pair[..1] == [pair[0]];
    AnnouncedOne(pair[0]);
  }

  /** The messages and the events of one answer agree entirely on what both hold. */
  lemma ReplyStored(texts: seq<string>, calls: seq<ToolCall>, results: seq<string>)
    requires |results| <= |calls|
    ensures StoredLedger([Reply(texts, calls)] + Answers(calls, results)) ==
            Ledger(Join(texts), results, CallIds(calls)[..|results|])
  {
    hide StoredLedger, Ledger.Plus;
    StoredAppend([Reply(texts, calls)], Answers(calls, results));
    StoredAnswers(calls, results);
    StoredOne(Reply(texts, calls));
    PlusParts(Join(texts), results, CallIds(calls)[..|results|]);
  }

  lemma ReplyAnnounced(texts: seq<string>, calls: seq<ToolCall>, results: seq<string>)
    requires |results| <= |calls|
    ensures AnnouncedLedger(Texts(texts) + Announcements(calls, results)) ==
            Ledger(Join(texts), results, CallIds(calls)[..|results|])
  {
    hide AnnouncedLedger, Ledger.Plus;
    AnnouncedAppend(Texts(texts), Announcements(calls, results));
    AnnouncedTexts(texts);
    AnnouncedAnnouncements(calls, results);
    PlusParts(Join(texts), results, CallIds(calls)[..|results|]);
  }

  lemma {:induction false} TurnsLedgersAgree(turns: seq<Turn>)
    requires forall t :: t in turns ==> FullTurn(t)
    ensures StoredLedger(TurnsMessages(turns)) == AnnouncedLedger(TurnsEvents(turns))
  {
    if turns != [] {
      var n := |turns| - 1;
      var t := turns[n];
      assert t in turns;
      hide Ledger.Plus;
      TurnsLedgersAgree(turns[..n]);
      ReplyStored(t.texts, t.calls, t.results);
      ReplyAnnounced(t.texts, t.calls, t.results);
      StoredAppend(TurnsMessages(turns[..n]), TurnMessages(t));
      AnnouncedAppend(TurnsEvents(turns[..n]), TurnEvents(t));
    }
  }

  lemma TailStored(t: Tail)
    requires GoodTail(t)
    ensures var got := t.results + Optional(t.ahead);
            StoredLedger(TailMessages(t)) ==
            if t.stored then Ledger(Join(t.texts), got, CallIds(t.calls)[..|got|]) else NOTHING
  {
    if t.stored {
      ReplyStored(t.texts, t.calls, t.results + Optional(t.ahead));
    }
  }

  lemma TailAnnounced(t: Tail)
    requires GoodTail(t)
    ensures AnnouncedLedger(TailEvents(t)) ==
            Ledger(Join(t.texts), t.results, CallIds(t.calls)[..|t.results| + if t.started then 1 else 0])
  {
    hide Ledger.Plus, Texts, Announcements, CallIds;
    var shown := Texts(t.texts) + Announcements(t.calls, t.results);
    var started := if t.started then [ToolCallStarted(t.calls[|t.results|])] else [];
    ReplyAnnounced(t.texts, t.calls, t.results);
    AnnouncedAppend(shown, started);
    AnnouncedAppend(shown + started, Optional(t.terminal));
    PlusNothing(AnnouncedLedger(shown));
    PlusNothing(AnnouncedLedger(shown + started));
    if t.terminal.Some? { AnnouncedOne(t.terminal.value); }
    if t.started {
      AnnouncedOne(started[0]);
      PlusId(Join(t.texts), t.results, t.calls, |t.results|);
    }
  }

  lemma PlusId(text: string, results: seq<string>, calls: seq<ToolCall>, n: nat)
    requires n < |calls|
    ensures Ledger(text, results, CallIds(calls)[..n]).Plus(Ledger("", [], [calls[n].id])) ==
            Ledger(text, results, CallIds(calls)[..n + 1])
  {
    assert text + "" == text && results + [] == results;
    assert CallIds(calls)[..n + 1] == CallIds(calls)[..n] + [calls[n].id];
  }

  lemma BodyStored(r: Report)
    requires Shaped(r) && r.Report?
    ensures StoredLedger(MessagesOf(r)) == StoredLedger(TurnsMessages(r.turns)).Plus(StoredLedger(TailMessages(r.tail)))
  {
    hide Ledger.Plus, TailMessages, TurnsMessages;
    var user := Message(User, r.input, [], "");
    StoredAppend([user] + TurnsMessages(r.turns), TailMessages(r.tail));
    StoredAppend([user], TurnsMessages(r.turns));
    StoredOne(user);
    PlusNothing(StoredLedger(TurnsMessages(r.turns)));
  }

  /** How far `announced` may be ahead of or behind `stored` when a run ends with `t`. */
  predicate InStep(stored: Ledger, announced: Ledger, t: Tail)
    requires GoodTail(t)
  {
    && stored.results == announced.results + Optional(t.ahead)
    && announced.ids == stored.ids + (if t.started && t.ahead.None? then [t.calls[|t.results|].id] else [])
    && announced.text == stored.text + (if t.stored then "" else Join(t.texts))
  }

  lemma TailInStep(t: Tail)
    requires GoodTail(t)
    ensures InStep(StoredLedger(TailMessages(t)), AnnouncedLedger(TailEvents(t)), t)
  {
    hide StoredLedger, AnnouncedLedger, TailMessages, TailEvents;
    TailStored(t);
    TailAnnounced(t);
    var n := |t.results|;
    if t.started {
      assert CallIds(t.calls)[..n + 1] == CallIds(t.calls)[..n] + [t.calls[n].id];
    }
    assert t.stored ==> Join(t.texts) + "" == Join(t.texts);
    assert t.ahead.None? ==> t.results + Optional(t.ahead) == t.results;
  }

  lemma InStepAfter(before: Ledger, stored: Ledger, announced: Ledger, t: Tail)
    requires GoodTail(t) && InStep(stored, announced, t)
    ensures InStep(before.Plus(stored), before.Plus(announced), t)
  {
    var id := if t.started && t.ahead.None? then [t.calls[|t.results|].id] else [];
    var text := if t.stored then "" else Join(t.texts);
    assert before.results + (announced.results + Optional(t.ahead)) ==
           (before.results + announced.results) + Optional(t.ahead);
    assert before.ids + (stored.ids + id) == (before.ids + stored.ids) + id;
    assert before.text + (stored.text + text) == (before.text + stored.text) + text;
  }

  /** In every run: results reach the store before the consumer, and never by more than one;
      calls are announced before they are answered, by at most one; text reaches the consumer
      before the store, by at most the turn that was never stored. */
  lemma LedgersAgree(r: Report, max: nat)
    requires GoodReport(r, max)
    ensures r.Refused? ==> StoredLedger(MessagesOf(r)) == AnnouncedLedger(EventsOf(r)) == NOTHING
    ensures r.Report? ==> InStep(StoredLedger(MessagesOf(r)), AnnouncedLedger(EventsOf(r)), r.tail)
  {
    if r.Refused? {
      if r.last.Some? { AnnouncedOne(r.last.value); }
    } else {
      TurnsLedgersAgree(r.turns);
      TailInStep(r.tail);
      BodyStored(r);
      AnnouncedAppend(TurnsEvents(r.turns), TailEvents(r.tail));
      var stored, announced := StoredLedger(TailMessages(r.tail)), AnnouncedLedger(TailEvents(r.tail));
      InStepAfter(StoredLedger(TurnsMessages(r.turns)), stored, announced, r.tail);
    }
  }
}

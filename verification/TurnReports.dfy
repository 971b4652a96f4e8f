/** The turn loop as one system of steps leaves behind what the synchronous loop does: in every
    state of every run, what its consumer received and what it stored are the events and the
    messages of one report. */
module TurnReports {
  import opened Wrappers
  import opened Domain
  import opened TurnProtocol
  import C = Conversation

  // ---------------------------------------------------------------------------------------
  // The report of a state
  // ---------------------------------------------------------------------------------------

  function EndsWith(r: C.Report, ev: AgentEvent): C.Report {
    if r.Refused? then C.Refused(Some(ev)) else r.(tail := r.tail.(terminal := Some(ev)))
  }

  predicate InTurn(s: State, r: C.Report) {
    r.Report? && r.input == s.input && |r.turns| == s.turn < s.max
  }

  /** The turn so far is some text that was delivered. */
  predicate Telling(s: State, r: C.Report) {
    InTurn(s, r) && r.tail == C.QUIET.(texts := r.tail.texts)
  }

  /** The turn so far is an answer that was stored, and `j` of its results. */
  predicate Acting(s: State, r: C.Report, calls: seq<ToolCall>, j: nat, started: bool, ahead: Option<string>) {
    && InTurn(s, r) && |r.tail.results| == j < |calls|
    && r.tail == C.Tail(r.tail.texts, true, calls, r.tail.results, started, ahead, None)
  }

  /** Where the agent is says how the report so far ends. */
  predicate Stage(s: State, r: C.Report) {
    match s.agent
    case StoreUser => r == C.Refused(None) && s.turn == 0
    case LoadHistory => InTurn(s, r) && r.tail == C.QUIET
    case CallProvider => InTurn(s, r) && r.tail == C.QUIET
    case Receive => Telling(s, r) && s.text == Join(r.tail.texts)
    case EmitDelta(ev) => Telling(s, r) && s.text == Join(r.tail.texts) + ev.delta
    case StoreAnswer(_, _) => Telling(s, r) && s.text == Join(r.tail.texts)
    case EmitStarted(calls, j) => Acting(s, r, calls, j, false, None)
    case RunTool(calls, j) => Acting(s, r, calls, j, true, None)
    case StoreResult(calls, j, _) => Acting(s, r, calls, j, true, None)
    case EmitFinished(calls, j, result) => Acting(s, r, calls, j, true, Some(result))
    case EmitLast(ev) => r.LastWord().None? && C.GoodReport(EndsWith(r, ev), s.max)
    case _ => r.LastWord().Some? || s.ctxDone
  }

  /** The stored answers are those of the report's turns. */
  predicate AnswersOf(answers: seq<StoredAnswer>, r: C.Report) {
    if r.Refused? then answers == [] else
      && |answers| == |r.turns| + (if r.tail.stored then 1 else 0)
      && (forall k :: 0 <= k < |r.turns| ==> answers[k].message == C.Reply(r.turns[k].texts, r.turns[k].calls))
      && (r.tail.stored ==> answers[|r.turns|].message == C.Reply(r.tail.texts, r.tail.calls))
  }

  predicate Leaves(s: State, r: C.Report) {
    && C.GoodReport(r, s.max) && (r.Report? ==> r.input == s.input)
    && s.events == C.EventsOf(r) && s.messages == C.MessagesOf(r) && AnswersOf(s.answers, r)
  }

  predicate Accounts(s: State, r: C.Report) { Leaves(s, r) && Stage(s, r) }

  // ---------------------------------------------------------------------------------------
  // How a report grows
  // ---------------------------------------------------------------------------------------

  /** A report that ends in text only, in the middle of a turn within the bound. */
  predicate IsTelling(r: C.Report, max: nat) {
    C.GoodReport(r, max) && r.Report? && |r.turns| < max && r.tail == C.QUIET.(texts := r.tail.texts)
  }

  /** A report that ends in a stored answer with a result outstanding, within the bound. */
  predicate IsActing(r: C.Report, max: nat, started: bool, ahead: Option<string>) {
    && C.GoodReport(r, max) && r.Report? && |r.turns| < max
    && r.tail == C.Tail(r.tail.texts, true, r.tail.calls, r.tail.results, started, ahead, None)
    && |r.tail.results| < |r.tail.calls|
  }

  function Told(r: C.Report, text: string): C.Report
    requires r.Report?
  {
    r.(tail := r.tail.(texts := r.tail.texts + [text]))
  }

  function Replied(r: C.Report, calls: seq<ToolCall>): C.Report
    requires r.Report?
  {
    r.(tail := r.tail.(stored := true, calls := calls))
  }

  function Started(r: C.Report): C.Report
    requires r.Report?
  {
    r.(tail := r.tail.(started := true))
  }

  function Resulted(r: C.Report, result: string): C.Report
    requires r.Report?
  {
    r.(tail := r.tail.(ahead := Some(result)))
  }

  /** A finished call: either others remain, or the turn is complete. */
  function Finishes(r: C.Report, result: string): C.Report
    requires r.Report?
  {
    var results := r.tail.results + [result];
    if |results| < |r.tail.calls| then r.(tail := r.tail.(results := results, started := false, ahead := None))
    else r.(turns := r.turns + [C.Turn(r.tail.texts, r.tail.calls, results)], tail := C.QUIET)
  }

  lemma Begins(input: string, max: nat)
    ensures 0 < max ==> IsTelling(C.Report(input, [], C.QUIET), max)
    ensures C.GoodReport(C.Report(input, [], C.QUIET), max)
    ensures C.MessagesOf(C.Report(input, [], C.QUIET)) == [Message(User, input, [], "")]
    ensures C.EventsOf(C.Report(input, [], C.QUIET)) == []
  {
  }

  lemma TellsMore(r: C.Report, max: nat, text: string)
    requires IsTelling(r, max)
    ensures IsTelling(Told(r, text), max)
    ensures C.MessagesOf(Told(r, text)) == C.MessagesOf(r)
    ensures C.EventsOf(Told(r, text)) == C.EventsOf(r) + [TextDelta(text)]
    ensures Join(Told(r, text).tail.texts) == Join(r.tail.texts) + text
  {
    var texts := r.tail.texts;
    assert (texts + [text])[..|texts|] == texts;
    hide C.TurnsMessages, C.TurnsEvents, Join;
    assert C.TailEvents(Told(r, text).tail) == C.TailEvents(r.tail) + [TextDelta(text)];
    Apart(C.TurnsEvents(r.turns), C.TailEvents(r.tail), [TextDelta(text)]);
  }

  lemma Apart<T>(a: seq<T>, b: seq<T>, c: seq<T>)
    ensures a + (b + c) == a + b + c
  {
  }

  /** An answer that asks for tools, or for nothing. */
  lemma Replies(r: C.Report, max: nat, calls: seq<ToolCall>)
    requires IsTelling(r, max)
    ensures C.GoodReport(Replied(r, calls), max) && (calls != [] ==> IsActing(Replied(r, calls), max, false, None))
    ensures C.MessagesOf(Replied(r, calls)) == C.MessagesOf(r) + [C.Reply(r.tail.texts, calls)]
    ensures C.EventsOf(Replied(r, calls)) == C.EventsOf(r)
    ensures calls == [] ==> C.GoodReport(EndsWith(Replied(r, calls), TurnComplete), max)
  {
    hide C.TurnsMessages, C.TurnsEvents, C.Reply, C.Texts;
    var r' := Replied(r, calls);
    assert r'.tail.results + C.Optional(r'.tail.ahead) == [];
    assert C.TailMessages(r'.tail) == [C.Reply(r.tail.texts, calls)];
    assert C.TailEvents(r'.tail) == C.TailEvents(r.tail);
    assert C.TailMessages(r.tail) == [];
  }

  lemma Starts(r: C.Report, max: nat)
    requires IsActing(r, max, false, None)
    ensures IsActing(Started(r), max, true, None)
    ensures C.MessagesOf(Started(r)) == C.MessagesOf(r)
    ensures C.EventsOf(Started(r)) == C.EventsOf(r) + [ToolCallStarted(r.tail.calls[|r.tail.results|])]
  {
    hide C.TurnsMessages, C.TurnsEvents, C.Reply, C.Answers, C.Texts, C.Announcements;
    var call := [ToolCallStarted(r.tail.calls[|r.tail.results|])];
    assert C.TailEvents(Started(r).tail) == C.TailEvents(r.tail) + call;
    Apart(C.TurnsEvents(r.turns), C.TailEvents(r.tail), call);
  }

  lemma GivesResult(r: C.Report, max: nat, result: string)
    requires IsActing(r, max, true, None)
    ensures IsActing(Resulted(r, result), max, true, Some(result))
    ensures C.MessagesOf(Resulted(r, result)) == C.MessagesOf(r) + [C.Answer(r.tail.calls[|r.tail.results|], result)]
    ensures C.EventsOf(Resulted(r, result)) == C.EventsOf(r)
  {
    hide C.TurnsMessages, C.TurnsEvents, C.Reply, C.Texts, C.Announcements;
    var t, t' := r.tail, Resulted(r, result).tail;
    var answer := [C.Answer(t.calls[|t.results|], result)];
    assert t.results + C.Optional(t.ahead) == t.results && t'.results + C.Optional(t'.ahead) == t.results + [result];
    assert C.Answers(t.calls, t.results + [result]) == C.Answers(t.calls, t.results) + answer;
    assert C.TailMessages(t') == C.TailMessages(t) + answer;
    var before := [Message(User, r.input, [], "")] + C.TurnsMessages(r.turns);
    Apart(before, C.TailMessages(t), answer);
  }

  lemma FinishesCall(r: C.Report, max: nat, result: string)
    requires IsActing(r, max, true, Some(result))
    ensures C.GoodReport(Finishes(r, result), max)
    ensures C.MessagesOf(Finishes(r, result)) == C.MessagesOf(r)
    ensures C.EventsOf(Finishes(r, result)) == C.EventsOf(r) + [ToolCallFinished(result)]
    ensures |r.tail.results| + 1 < |r.tail.calls| ==> IsActing(Finishes(r, result), max, false, None)
  {
    hide C.TurnsMessages, C.TurnsEvents, C.Reply, C.Texts, C.Announcements;
    var t := r.tail;
    var results := t.results + [result];
    assert t.results + C.Optional(t.ahead) == results;
    AnnouncesOneMore(t.calls, t.results, result);
    if |results| < |t.calls| {
      var t' := Finishes(r, result).tail;
      assert t'.results + C.Optional(t'.ahead) == results;
      assert C.TailEvents(t') == C.TailEvents(t) + [ToolCallFinished(result)];
    } else {
      CompletesTurn(r.turns, C.Turn(t.texts, t.calls, results));
      assert C.TailMessages(t) == C.TurnMessages(C.Turn(t.texts, t.calls, results));
      assert C.TurnEvents(C.Turn(t.texts, t.calls, results)) == C.TailEvents(t) + [ToolCallFinished(result)];
      Quiet();
      var user := [Message(User, r.input, [], "")];
      Apart(user, C.TurnsMessages(r.turns), C.TailMessages(t));
    }
    Apart(C.TurnsEvents(r.turns), C.TailEvents(t), [ToolCallFinished(result)]);
  }

  lemma AnnouncesOneMore(calls: seq<ToolCall>, results: seq<string>, result: string)
    requires |results| < |calls|
    ensures C.Announcements(calls, results + [result]) ==
            C.Announcements(calls, results) + [ToolCallStarted(calls[|results|]), ToolCallFinished(result)]
  {
    assert (results + [result])[..|results|] == results;
  }

  lemma CompletesTurn(turns: seq<C.Turn>, turn: C.Turn)
    requires (forall t :: t in turns ==> C.FullTurn(t)) && C.FullTurn(turn)
    ensures forall t :: t in turns + [turn] ==> C.FullTurn(t)
    ensures C.TurnsMessages(turns + [turn]) == C.TurnsMessages(turns) + C.TurnMessages(turn)
    ensures C.TurnsEvents(turns + [turn]) == C.TurnsEvents(turns) + C.TurnEvents(turn)
  {
    hide C.TurnMessages, C.TurnEvents;
    assert (turns + [turn])[..|turns|] == turns;
  }

  lemma Quiet()
    ensures C.TailMessages(C.QUIET) == [] && C.TailEvents(C.QUIET) == []
  {
  }

  lemma HasLastWord(r: C.Report, max: nat, ev: AgentEvent)
    requires C.GoodReport(r, max) && r.LastWord().None? && C.GoodReport(EndsWith(r, ev), max)
    ensures EndsWith(r, ev).LastWord().Some?
    ensures C.MessagesOf(EndsWith(r, ev)) == C.MessagesOf(r)
    ensures C.EventsOf(EndsWith(r, ev)) == C.EventsOf(r) + [ev]
  {
    if r.Report? {
      hide C.TurnsMessages, C.TurnsEvents, C.Reply, C.Answers, C.Texts, C.Announcements;
      assert C.TailEvents(EndsWith(r, ev).tail) == C.TailEvents(r.tail) + [ev];
      Apart(C.TurnsEvents(r.turns), C.TailEvents(r.tail), [ev]);
    }
  }

  /** An error may end a report anywhere but after a last word. */
  lemma MayFail(r: C.Report, max: nat, cause: Cause)
    ensures C.GoodReport(C.Refused(Some(Error(cause))), max)
    ensures IsTelling(r, max) ==> C.GoodReport(EndsWith(r, Error(cause)), max)
    ensures IsActing(r, max, true, None) ==> C.GoodReport(EndsWith(r, Error(cause)), max)
  {
  }

  lemma MayRunOut(r: C.Report, max: nat)
    requires C.GoodReport(r, max) && r.Report? && |r.turns| == max && r.LastWord().None?
    ensures C.GoodReport(EndsWith(r, Error(MaxIterations)), max)
  {
  }

  // ---------------------------------------------------------------------------------------
  // Every step grows it so
  // ---------------------------------------------------------------------------------------

  /** How a step changes the report. */
  function NextReport(s: State, r: C.Report, a: Action): C.Report {
    if a.RepoReturns? && a.failure.None? then
      match s.agent
      case StoreUser => C.Report(s.input, [], C.QUIET)
      case StoreAnswer(calls, _) => if r.Report? then Replied(r, calls) else r
      case StoreResult(_, _, result) => if r.Report? then Resulted(r, result) else r
      case _ => r
    else if a.Deliver? then
      match s.agent
      case EmitDelta(ev) => if r.Report? then Told(r, ev.delta) else r
      case EmitStarted(_, _) => if r.Report? then Started(r) else r
      case EmitFinished(_, _, result) => if r.Report? then Finishes(r, result) else r
      case EmitLast(ev) => EndsWith(r, ev)
      case _ => r
    else r
  }

  lemma Parts(s: State, r: C.Report)
    requires Accounts(s, r)
    ensures C.GoodReport(r, s.max) && (r.Report? ==> r.input == s.input) && AnswersOf(s.answers, r) && Stage(s, r)
    ensures s.events == C.EventsOf(r) && s.messages == C.MessagesOf(r)
  {
  }

  lemma Together(s: State, r: C.Report)
    requires C.GoodReport(r, s.max) && (r.Report? ==> r.input == s.input) && AnswersOf(s.answers, r) && Stage(s, r)
    requires s.events == C.EventsOf(r) && s.messages == C.MessagesOf(r)
    ensures Accounts(s, r)
  {
  }

  lemma SameAnswers(answers: seq<StoredAnswer>, r: C.Report, r': C.Report)
    requires AnswersOf(answers, r) && r.Report? && r'.Report? && r'.turns == r.turns && r'.tail.stored == r.tail.stored
    requires r.tail.stored ==> r'.tail.texts == r.tail.texts && r'.tail.calls == r.tail.calls
    ensures AnswersOf(answers, r')
  {
  }

  lemma UserStoredAccounts(s: State, r: C.Report)
    requires Accounts(s, r) && s.agent.StoreUser?
    ensures Accounts(Apply(s, RepoReturns(None)), C.Report(s.input, [], C.QUIET))
  {
    var r', user := C.Report(s.input, [], C.QUIET), [Message(User, s.input, [], "")];
    Begins(s.input, s.max);
    RefusedHasNothing();
    if s.max == 0 { MayRunOut(r', s.max); }
    hide C.GoodReport, C.MessagesOf, C.EventsOf, IsTelling;
    assert [] + user == user;
  }

  lemma AnswerStoredAccounts(s: State, r: C.Report)
    requires Accounts(s, r) && s.agent.StoreAnswer?
    ensures Accounts(Apply(s, RepoReturns(None)), Replied(r, s.agent.calls))
  {
    var calls, r' := s.agent.calls, Replied(r, s.agent.calls);
    Parts(s, r);
    TellingInTurn(s, r);
    var s' := AfterAnswer(s);
    hide Apply, C.GoodReport, C.MessagesOf, C.EventsOf, IsTelling, IsActing, AnswersOf, Join;
    assert C.Reply(r.tail.texts, calls) == Message(Assistant, s.text, calls, "");
    Replies(r, s.max, calls);
    AnswersOfReply(s.answers, r, StoredAnswer(C.Reply(r.tail.texts, calls), s.agent.hungUp), calls);
    Together(s', r');
  }

  lemma AnswersOfReply(answers: seq<StoredAnswer>, r: C.Report, answer: StoredAnswer, calls: seq<ToolCall>)
    requires AnswersOf(answers, r) && r.Report? && !r.tail.stored && answer.message == C.Reply(r.tail.texts, calls)
    ensures AnswersOf(answers + [answer], Replied(r, calls))
  {
  }

  lemma AfterAnswer(s: State) returns (s': State)
    requires s.agent.StoreAnswer?
    ensures s' == Apply(s, RepoReturns(None))
    ensures var message := Message(Assistant, s.text, s.agent.calls, "");
      s' == s.(agent := if s.agent.calls == [] then EmitLast(TurnComplete) else EmitStarted(s.agent.calls, 0),
               messages := s.messages + [message], answers := s.answers + [StoredAnswer(message, s.agent.hungUp)])
  {
    s' := Apply(s, RepoReturns(None));
  }

  lemma ResultStoredAccounts(s: State, r: C.Report)
    requires Accounts(s, r) && s.agent.StoreResult?
    ensures Accounts(Apply(s, RepoReturns(None)), Resulted(r, s.agent.result))
  {
    var calls, j, result := s.agent.calls, s.agent.next, s.agent.result;
    var r' := Resulted(r, result);
    Parts(s, r);
    ActingInTurn(s, r, calls, j, true, None);
    var s' := AfterResult(s);
    hide Apply, C.GoodReport, C.MessagesOf, C.EventsOf, IsActing, AnswersOf;
    GivesResult(r, s.max, result);
    ActingIsGood(r', s.max, true, Some(result));
    SameAnswers(s.answers, r, r');
    Together(s', r');
  }

  lemma AfterResult(s: State) returns (s': State)
    requires s.agent.StoreResult? && s.agent.next < |s.agent.calls|
    ensures s' == Apply(s, RepoReturns(None))
    ensures s' == s.(agent := EmitFinished(s.agent.calls, s.agent.next, s.agent.result),
                     messages := s.messages + [C.Answer(s.agent.calls[s.agent.next], s.agent.result)])
  {
    s' := Apply(s, RepoReturns(None));
  }

  lemma HistoryLoadedAccounts(s: State, r: C.Report)
    requires Accounts(s, r) && s.agent.LoadHistory?
    ensures Accounts(Apply(s, RepoReturns(None)), r)
  {
    hide C.GoodReport, C.MessagesOf, C.EventsOf, AnswersOf;
    assert s.messages + [] == s.messages;
  }

  lemma RefusedHasNothing()
    ensures C.MessagesOf(C.Refused(None)) == [] && C.EventsOf(C.Refused(None)) == []
  {
  }

  lemma TellingInTurn(s: State, r: C.Report)
    requires C.GoodReport(r, s.max) && Telling(s, r)
    ensures IsTelling(r, s.max)
  {
  }

  lemma ActingInTurn(s: State, r: C.Report, calls: seq<ToolCall>, j: nat, started: bool, ahead: Option<string>)
    requires C.GoodReport(r, s.max) && Acting(s, r, calls, j, started, ahead)
    ensures IsActing(r, s.max, started, ahead) && r.tail.calls == calls && |r.tail.results| == j
  {
  }

  lemma FailureAccounts(s: State, r: C.Report, cause: Cause)
    requires Accounts(s, r)
    requires s.agent.StoreUser? || s.agent.LoadHistory? || s.agent.CallProvider? || s.agent.StoreAnswer? ||
             s.agent.RunTool? || s.agent.StoreResult?
    ensures Accounts(s.(agent := EmitLast(Error(cause))), r)
  {
    MayFail(r, s.max, cause);
    FailsWhere(s, r);
    hide C.GoodReport, C.MessagesOf, C.EventsOf, AnswersOf, IsTelling, IsActing;
  }

  lemma FailsWhere(s: State, r: C.Report)
    requires C.GoodReport(r, s.max) && Stage(s, r)
    ensures s.agent.LoadHistory? || s.agent.CallProvider? || s.agent.StoreAnswer? ==> IsTelling(r, s.max)
    ensures s.agent.RunTool? || s.agent.StoreResult? ==> IsActing(r, s.max, true, None)
  {
  }

  lemma AfterDelivery(s: State) returns (s': State)
    requires Enabled(s, Deliver)
    ensures s' == Apply(s, Deliver)
    ensures s' == s.(agent := s'.agent, turn := s'.turn, events := s.events + HeldOut(s.agent), consumer := Handling,
                     panicked := s'.panicked)
    ensures match s.agent
      case EmitDelta(ev) => s'.turn == s.turn && s'.agent == if ev.done then StoreAnswer(ev.calls, false) else Receive
      case EmitStarted(calls, j) => s'.turn == s.turn && s'.agent == RunTool(calls, j)
      case EmitFinished(calls, j, _) =>
        if j + 1 < |calls| then s'.turn == s.turn && s'.agent == EmitStarted(calls, j + 1)
        else
          && s'.turn == s.turn + 1
          && s'.agent == if s.turn + 1 < s.max then LoadHistory else EmitLast(Error(MaxIterations))
      case EmitLast(_) => s'.turn == s.turn && s'.agent == Closing
      case _ => true
  {
    s' := Apply(s, Deliver);
  }

  lemma DeltaDeliveredAccounts(s: State, r: C.Report)
    requires Accounts(s, r) && s.agent.EmitDelta? && !s.agent.ev.done && Enabled(s, Deliver)
    ensures NextReport(s, r, Deliver) == Told(r, s.agent.ev.delta)
    ensures Accounts(Apply(s, Deliver), Told(r, s.agent.ev.delta))
  {
    var r' := Told(r, s.agent.ev.delta);
    Parts(s, r);
    TellingInTurn(s, r);
    var s' := AfterDelivery(s);
    hide Apply, Enabled, C.GoodReport, C.MessagesOf, C.EventsOf, IsTelling, AnswersOf, Join;
    TellsMore(r, s.max, s.agent.ev.delta);
    TellingIsGood(r', s.max);
    SameAnswers(s.answers, r, r');
    Together(s', r');
  }

  lemma StartDeliveredAccounts(s: State, r: C.Report)
    requires Accounts(s, r) && s.agent.EmitStarted? && Enabled(s, Deliver)
    ensures NextReport(s, r, Deliver) == Started(r)
    ensures Accounts(Apply(s, Deliver), Started(r))
  {
    var r' := Started(r);
    Parts(s, r);
    ActingInTurn(s, r, s.agent.calls, s.agent.next, false, None);
    var s' := AfterDelivery(s);
    hide Apply, Enabled, C.GoodReport, C.MessagesOf, C.EventsOf, IsActing, AnswersOf;
    Starts(r, s.max);
    ActingIsGood(r', s.max, true, None);
    SameAnswers(s.answers, r, r');
    Together(s', r');
  }

  lemma FinishDeliveredAccounts(s: State, r: C.Report)
    requires Accounts(s, r) && s.agent.EmitFinished? && Enabled(s, Deliver)
    ensures NextReport(s, r, Deliver) == Finishes(r, s.agent.result)
    ensures Accounts(Apply(s, Deliver), Finishes(r, s.agent.result))
  {
    hide Accounts, Apply, Enabled, Finishes, NextReport;
    if s.agent.next + 1 < |s.agent.calls| {
      CallFinishedAccounts(s, r);
    } else {
      TurnFinishedAccounts(s, r);
    }
    NextAfterFinish(s, r);
  }

  lemma NextAfterFinish(s: State, r: C.Report)
    requires s.agent.EmitFinished? && r.Report?
    ensures NextReport(s, r, Deliver) == Finishes(r, s.agent.result)
  {
  }

  lemma CallFinishedAccounts(s: State, r: C.Report)
    requires Accounts(s, r) && s.agent.EmitFinished? && Enabled(s, Deliver) && s.agent.next + 1 < |s.agent.calls|
    ensures r.Report? && Accounts(Apply(s, Deliver), Finishes(r, s.agent.result))
  {
    var r' := Finishes(r, s.agent.result);
    Parts(s, r);
    ActingInTurn(s, r, s.agent.calls, s.agent.next, true, Some(s.agent.result));
    var s' := AfterDelivery(s);
    hide Apply, Enabled, C.GoodReport, C.MessagesOf, C.EventsOf, IsActing, AnswersOf;
    FinishesCall(r, s.max, s.agent.result);
    SameAnswers(s.answers, r, r');
    Together(s', r');
  }

  lemma TurnFinishedAccounts(s: State, r: C.Report)
    requires Accounts(s, r) && s.agent.EmitFinished? && Enabled(s, Deliver) && s.agent.next + 1 >= |s.agent.calls|
    ensures r.Report? && Accounts(Apply(s, Deliver), Finishes(r, s.agent.result))
  {
    var r' := Finishes(r, s.agent.result);
    Parts(s, r);
    ActingInTurn(s, r, s.agent.calls, s.agent.next, true, Some(s.agent.result));
    var s' := AfterDelivery(s);
    hide Apply, Enabled, C.GoodReport, C.MessagesOf, C.EventsOf, IsActing, AnswersOf;
    FinishesCall(r, s.max, s.agent.result);
    AnswersOfWholeTurn(s.answers, r, s.agent.result);
    if s.turn + 1 == s.max { MayRunOut(r', s.max); }
    Together(s', r');
  }

  lemma AnswersOfWholeTurn(answers: seq<StoredAnswer>, r: C.Report, result: string)
    requires AnswersOf(answers, r) && r.Report? && r.tail.stored && |r.tail.results| + 1 == |r.tail.calls|
    ensures AnswersOf(answers, Finishes(r, result))
  {
  }

  lemma LastDeliveredAccounts(s: State, r: C.Report)
    requires Accounts(s, r) && s.agent.EmitLast? && Enabled(s, Deliver)
    ensures NextReport(s, r, Deliver) == EndsWith(r, s.agent.last)
    ensures Accounts(Apply(s, Deliver), EndsWith(r, s.agent.last))
  {
    var r' := EndsWith(r, s.agent.last);
    Parts(s, r);
    var s' := AfterDelivery(s);
    hide Apply, Enabled, C.GoodReport, C.MessagesOf, C.EventsOf, AnswersOf;
    HasLastWord(r, s.max, s.agent.last);
    if r.Report? {
      SameAnswers(s.answers, r, r');
    } else {
      NoAnswers(s.answers, r, r');
    }
    Together(s', r');
  }

  lemma NoAnswers(answers: seq<StoredAnswer>, r: C.Report, r': C.Report)
    requires AnswersOf(answers, r) && r.Refused? && r'.Refused?
    ensures AnswersOf(answers, r')
  {
  }

  lemma TellingIsGood(r: C.Report, max: nat)
    requires IsTelling(r, max)
    ensures C.GoodReport(r, max)
  {
  }

  lemma ActingIsGood(r: C.Report, max: nat, started: bool, ahead: Option<string>)
    requires IsActing(r, max, started, ahead)
    ensures C.GoodReport(r, max)
  {
  }

  lemma DeltasAreNotDone(s: State)
    requires Inv(s)
    ensures s.agent.EmitDelta? ==> !s.agent.ev.done
  {
  }

  lemma HearingAccounts(s: State, r: C.Report)
    requires Inv(s) && Accounts(s, r) && Enabled(s, Pass)
    ensures Accounts(Apply(s, Pass), r)
  {
    var ev := Current(s).pc.ev;
    DoneEventsAreEmpty(s);
    Parts(s, r);
    var s' := AfterPass(s);
    hide Inv, Enabled, Apply, C.GoodReport, C.MessagesOf, C.EventsOf, AnswersOf, Join, IsTelling;
    if ev.err.Some? {
      TellingInTurn(s, r);
      MayFail(r, s.max, ev.err.value);
    }
    assert s.text + "" == s.text;
    Together(s', r);
  }

  lemma AfterPass(s: State) returns (s': State)
    requires Enabled(s, Pass)
    ensures s' == Apply(s, Pass)
    ensures var ev := Current(s).pc.ev;
      s' == s.(agent := Received(ev), text := if ev.err.Some? then s.text else s.text + ev.delta,
               streams := s'.streams, panicked := s'.panicked)
  {
    s' := Apply(s, Pass);
  }

  lemma DoneEventsAreEmpty(s: State)
    requires Inv(s) && Enabled(s, Pass)
    ensures Current(s).pc.ev.done ==> Current(s).pc.ev.delta == ""
  {
  }

  /** The other steps neither store nor deliver anything. */
  lemma SilentStepAccounts(s: State, r: C.Report, a: Action)
    requires Accounts(s, r) && Enabled(s, a)
    requires !a.RepoReturns? && !a.Deliver? && !a.Pass?
    requires a.ProviderReturns? ==> a.answer.Ok?
    requires a.ToolReturns? ==> a.result.Ok?
    ensures Accounts(Apply(s, a), r)
  {
    hide C.GoodReport, C.MessagesOf, C.EventsOf, AnswersOf, Scanned;
  }

  lemma StoringAccounts(s: State, r: C.Report)
    requires Accounts(s, r) && Enabled(s, RepoReturns(None))
    ensures Accounts(Apply(s, RepoReturns(None)), NextReport(s, r, RepoReturns(None)))
  {
    ReportsAreThere(s, r);
    hide Accounts, Apply;
    match s.agent
    case StoreUser => UserStoredAccounts(s, r);
    case LoadHistory => HistoryLoadedAccounts(s, r);
    case StoreAnswer(_, _) => AnswerStoredAccounts(s, r);
    case StoreResult(_, _, _) => ResultStoredAccounts(s, r);
  }

  lemma ReportsAreThere(s: State, r: C.Report)
    requires Accounts(s, r)
    ensures s.agent.StoreAnswer? || s.agent.StoreResult? ==> r.Report?
  {
  }

  lemma DeliveringAccounts(s: State, r: C.Report)
    requires Inv(s) && Accounts(s, r) && Enabled(s, Deliver)
    ensures Accounts(Apply(s, Deliver), NextReport(s, r, Deliver))
  {
    DeltasAreNotDone(s);
    hide Inv, Accounts, Apply, NextReport;
    match s.agent
    case EmitDelta(_) => DeltaDeliveredAccounts(s, r);
    case EmitStarted(_, _) => StartDeliveredAccounts(s, r);
    case EmitFinished(_, _, _) => FinishDeliveredAccounts(s, r);
    case EmitLast(_) => LastDeliveredAccounts(s, r);
  }

  lemma FailingAccounts(s: State, r: C.Report, a: Action)
    requires Accounts(s, r) && Enabled(s, a)
    requires (a.RepoReturns? && a.failure.Some?) || (a.ProviderReturns? && a.answer.Err?) ||
             (a.ToolReturns? && a.result.Err?)
    ensures Accounts(Apply(s, a), r)
  {
    var cause := if a.RepoReturns? then a.failure.value
                 else if a.ProviderReturns? then a.answer.error else a.result.error;
    hide Accounts;
    FailureAccounts(s, r, cause);
  }

  lemma StepAccounts(s: State, r: C.Report, a: Action)
    requires Inv(s) && Accounts(s, r) && Enabled(s, a)
    ensures Accounts(Apply(s, a), NextReport(s, r, a))
  {
    hide Inv, Accounts, Enabled, Apply;
    if a.RepoReturns? && a.failure.None? {
      StoringAccounts(s, r);
    } else if a.RepoReturns? || (a.ProviderReturns? && a.answer.Err?) || (a.ToolReturns? && a.result.Err?) {
      FailingAccounts(s, r, a);
    } else if a.Deliver? {
      DeliveringAccounts(s, r);
    } else if a.Pass? {
      HearingAccounts(s, r);
    } else {
      SilentStepAccounts(s, r, a);
    }
  }

  lemma {:induction false} RunAccounts(run: nat -> State, n: nat) returns (r: C.Report)
    requires IsRun(run)
    ensures Accounts(run(n), r)
  {
    if n == 0 {
      r := C.Refused(None);
    } else {
      r := RunAccounts(run, n - 1);
      RunKeepsInv(run, n - 1);
      var s, s' := run(n - 1), run(n);
      assert Next(run(n - 1), run(n - 1 + 1));
      hide Inv, Accounts, Enabled, Apply;
      if a :| Enabled(s, a) && s' == Apply(s, a) {
        StepAccounts(s, r, a);
        r := NextReport(s, r, a);
      }
    }
  }

  // ---------------------------------------------------------------------------------------
  // What that means
  // ---------------------------------------------------------------------------------------

  /** In every state of every run, whatever the interleaving, what the consumer received and what
      the agent stored are the events and the messages of one report within the bound, whose
      answers are the stored ones; and an agent that is through has had its last word, unless
      the context is done. */
  lemma EveryStateIsOfAReport(run: nat -> State, n: nat) returns (r: C.Report)
    requires IsRun(run)
    ensures var s := run(n);
      && C.GoodReport(r, s.max) && (r.Report? ==> r.input == s.input)
      && s.events == C.EventsOf(r) && s.messages == C.MessagesOf(r) && AnswersOf(s.answers, r)
      && (Finished(s) ==> r.LastWord().Some? || s.ctxDone)
  {
    r := RunAccounts(run, n);
  }

  /** Results are stored before they are announced, and calls announced before their results are
      stored, each by at most one; text is delivered before it is stored. */
  predicate InLead(stored: C.Ledger, announced: C.Ledger) {
    && announced.results <= stored.results && |stored.results| <= |announced.results| + 1
    && stored.ids <= announced.ids && |announced.ids| <= |stored.ids| + 1
    && stored.text <= announced.text
  }

  /** So in every state of every run a grammatical session that the run adds to is grammatical,
      the consumer's trace is well-formed and over exactly after a last word, and store and trace
      agree up to their lead, exactly as the report's tail says. */
  lemma EveryStateIsInOrder(run: nat -> State, n: nat, history: seq<Message>) returns (r: C.Report)
    requires IsRun(run) && C.Grammatical(history)
    ensures var s := run(n);
      var stored, announced, hearing :=
        C.StoredLedger(s.messages), C.AnnouncedLedger(s.events), C.HearAll(C.Between, s.events);
      && C.GoodReport(r, s.max) && s.events == C.EventsOf(r) && s.messages == C.MessagesOf(r)
      && C.Grammatical(history + s.messages)
      && !hearing.Garbled? && (hearing.Over? <==> r.LastWord().Some?)
      && (hearing.Over? <==> s.events != [] && EndsTrace(s.events[|s.events| - 1]))
      && (r.Refused? ==> stored == announced == C.NOTHING)
      && (r.Report? ==> C.InStep(stored, announced, r.tail))
      && InLead(stored, announced)
  {
    r := EveryStateIsOfAReport(run, n);
    var s := run(n);
    C.SendKeepsGrammar(history, r, s.max);
    C.EventsAreWellFormed(r, s.max);
    C.LedgersAgree(r, s.max);
    OverAfterTerminal(s.events);
    TailGivesLead(r, C.StoredLedger(s.messages), C.AnnouncedLedger(s.events), s.max);
  }

  /** The events that end a trace. */
  predicate EndsTrace(ev: AgentEvent) { ev.TurnComplete? || ev.Error? }

  lemma OverAfterTerminal(events: seq<AgentEvent>)
    requires !C.HearAll(C.Between, events).Garbled?
    ensures C.HearAll(C.Between, events).Over? <==> events != [] && EndsTrace(events[|events| - 1])
  {
    if events != [] {
      var n := |events| - 1;
      assert C.HearAll(C.Between, events) == C.Hear(C.HearAll(C.Between, events[..n]), events[n]);
    }
  }

  lemma TailGivesLead(r: C.Report, stored: C.Ledger, announced: C.Ledger, max: nat)
    requires C.GoodReport(r, max)
    requires if r.Refused? then stored == announced == C.NOTHING else C.InStep(stored, announced, r.tail)
    ensures InLead(stored, announced)
  {
  }
}

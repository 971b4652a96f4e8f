/** The turn loop, its stream goroutines and its consumer as one system of steps: unbuffered
    channels, one cancellable context, any interleaving, any outcome of every outside call. */
module TurnProtocol {
  import opened Wrappers
  import opened Domain
  import opened Ollama
  import C = Conversation

  // ---------------------------------------------------------------------------------------
  // State
  // ---------------------------------------------------------------------------------------

  /** A stream goroutine is scanning towards a line, holding out an event, about to run its
      deferred close, or gone. */
  datatype StreamPc =
    | Scanning(line: nat)
    | Sending(ev: StreamEvent, next: StreamPc)
    | Leaving
    | Gone

  /** One call of Chat: its body, its goroutine, what the agent got from it, and how often
      its channel was closed. */
  datatype Stream = Stream(body: Body, ids: Ids, pc: StreamPc, sent: seq<StreamEvent>, closes: nat)

  datatype AgentPc =
    | StoreUser
    | LoadHistory
    | CallProvider
    | Receive
    | EmitDelta(ev: StreamEvent)
    | StoreAnswer(calls: seq<ToolCall>, hungUp: bool)
    | EmitStarted(calls: seq<ToolCall>, next: nat)
    | RunTool(calls: seq<ToolCall>, next: nat)
    | StoreResult(calls: seq<ToolCall>, next: nat, result: string)
    | EmitFinished(calls: seq<ToolCall>, next: nat, result: string)
    | EmitLast(last: AgentEvent)
    | Closing
    | Returned

  /** A consumer is at the receive, busy with what it received, or gone for good. */
  datatype Consumer = Listening | Handling | Left

  /** An answer that was stored, and whether its stream's channel closed before it was done. */
  datatype StoredAnswer = StoredAnswer(message: Message, hungUp: bool)

  /** `text` is what the agent accumulated in its turn, and `answers` are what it stored, one for
      each stream it heard to an end; `events` is all its consumer received, and `messages` all
      it stored. */
  datatype State = State(
    input: string, max: nat, turn: nat, agent: AgentPc, streams: seq<Stream>, ctxDone: bool,
    consumer: Consumer, outCloses: nat, panicked: bool, text: string, answers: seq<StoredAnswer>,
    events: seq<AgentEvent>, messages: seq<Message>)

  predicate Init(s: State) {
    s == State(s.input, s.max, 0, StoreUser, [], s.ctxDone, Listening, 0, false, "", [], [], [])
  }

  // ---------------------------------------------------------------------------------------
  // Steps
  // ---------------------------------------------------------------------------------------

  datatype Action =
    | RepoReturns(failure: Option<Cause>)
    | ProviderReturns(answer: Result<(Body, Ids), Cause>)
    | ToolReturns(result: Result<string, Cause>)  // or what stands for it if nobody has the tool
    | Deliver               // the agent's emit meets the consumer's receive
    | EmitGivesUp           // the agent's emit loses to the context
    | Pass                  // the stream's send meets the agent's receive
    | SeesClosed            // the agent's receive finds its channel closed
    | AgentReturns          // the deferred close of the event channel
    | StreamScans(k: nat)
    | StreamGivesUp(k: nat) // a stream's send loses to the context
    | StreamReturns(k: nat) // the deferred close of a stream's channel
    | ConsumerReturns       // the consumer comes back for more
    | ConsumerLeaves
    | Cancel

  predicate Emitting(pc: AgentPc) {
    pc.EmitDelta? || pc.EmitStarted? || pc.EmitFinished? || pc.EmitLast?
  }

  function Current(s: State): Stream
    requires s.streams != []
  {
    s.streams[|s.streams| - 1]
  }

  predicate Enabled(s: State, a: Action) {
    match a
    case RepoReturns(_) => s.agent.StoreUser? || s.agent.LoadHistory? || s.agent.StoreAnswer? || s.agent.StoreResult?
    case ProviderReturns(_) => s.agent.CallProvider?
    case ToolReturns(_) => s.agent.RunTool?
    case Deliver => Emitting(s.agent) && s.consumer.Listening?
    case EmitGivesUp => Emitting(s.agent) && s.ctxDone
    case Pass => s.agent.Receive? && s.streams != [] && Current(s).pc.Sending?
    case SeesClosed => s.agent.Receive? && s.streams != [] && Current(s).closes > 0
    case AgentReturns => s.agent.Closing?
    case StreamScans(k) => k < |s.streams| && s.streams[k].pc.Scanning?
    case StreamGivesUp(k) => k < |s.streams| && s.streams[k].pc.Sending? && s.ctxDone
    case StreamReturns(k) => k < |s.streams| && s.streams[k].pc.Leaving?
    case ConsumerReturns => s.consumer.Handling?
    case ConsumerLeaves => !s.consumer.Left?
    case Cancel => !s.ctxDone
  }

  /** The steps that happen by themselves, as opposed to those somebody chooses. */
  predicate Automatic(a: Action) { !a.ConsumerLeaves? && !a.Cancel? }

  /** What scanning line `i` leads to. */
  function Scanned(body: Body, ids: Ids, i: nat): StreamPc {
    if i >= |body.lines| then
      Sending(Broken(if body.readFails then READ_ERROR else CLOSED_EARLY), Leaving)
    else
      match body.lines[i]
      case Blank => Scanning(i + 1)
      case Undecodable => Sending(Broken(DECODE_ERROR), Leaving)
      case Reply(content, calls, done) =>
        var after := if done then Sending(Done(FromWire(calls, ids)), Leaving) else Scanning(i + 1);
        if content == "" then after else Sending(Delta(content), after)
  }

  /** What the agent does with an event it received. */
  function Received(ev: StreamEvent): AgentPc {
    if ev.err.Some? then EmitLast(Error(ev.err.value))
    else if ev.delta != "" then EmitDelta(ev)
    else if ev.done then StoreAnswer(ev.calls, false)
    else Receive
  }

  function StartTurn(s: State, turn: nat): State {
    if turn < s.max then s.(turn := turn, agent := LoadHistory)
    else s.(turn := turn, agent := EmitLast(Error(MaxIterations)))
  }

  /** The event the agent holds out. */
  function HeldOut(pc: AgentPc): seq<AgentEvent> {
    match pc
    case EmitDelta(ev) => [TextDelta(ev.delta)]
    case EmitStarted(calls, j) => if j < |calls| then [ToolCallStarted(calls[j])] else []
    case EmitFinished(_, _, result) => [ToolCallFinished(result)]
    case EmitLast(ev) => [ev]
    case _ => []
  }

  /** What follows a delivered event. */
  function Emitted(s: State): State {
    var s' := s.(events := s.events + HeldOut(s.agent));
    match s.agent
    case EmitDelta(ev) => s'.(agent := if ev.done then StoreAnswer(ev.calls, false) else Receive)
    case EmitStarted(calls, j) => s'.(agent := RunTool(calls, j))
    case EmitFinished(calls, j, _) =>
      if j + 1 < |calls| then s'.(agent := EmitStarted(calls, j + 1)) else StartTurn(s', s.turn + 1)
    case _ => s'.(agent := Closing)
  }

  /** The message the agent is about to store. */
  function ToStore(s: State): seq<Message> {
    match s.agent
    case StoreUser => [Message(User, s.input, [], "")]
    case StoreAnswer(calls, _) => [Message(Assistant, s.text, calls, "")]
    case StoreResult(calls, j, result) => if j < |calls| then [Message(Tool, result, [], calls[j].id)] else []
    case _ => []
  }

  function AfterStore(s: State): State {
    var s' := s.(messages := s.messages + ToStore(s));
    match s.agent
    case StoreUser => StartTurn(s', 0)
    case LoadHistory => s'.(agent := CallProvider)
    case StoreAnswer(calls, hungUp) =>
      s'.(agent := if calls == [] then EmitLast(TurnComplete) else EmitStarted(calls, 0),
          answers := s.answers + [StoredAnswer(Message(Assistant, s.text, calls, ""), hungUp)])
    case StoreResult(calls, j, result) => s'.(agent := EmitFinished(calls, j, result))
    case _ => s'
  }

  function SetStream(s: State, k: nat, st: Stream): State
    requires k < |s.streams|
  {
    s.(streams := s.streams[k := st])
  }

  /** Sending on a closed channel and closing one twice panic. */
  function Apply(s: State, a: Action): State
    requires Enabled(s, a)
  {
    match a
    case RepoReturns(failure) => if failure.None? then AfterStore(s) else s.(agent := EmitLast(Error(failure.value)))
    case ProviderReturns(answer) =>
      if answer.Err? then s.(agent := EmitLast(Error(answer.error)))
      else
        var st := Stream(answer.value.0, answer.value.1, Scanning(0), [], 0);
        s.(agent := Receive, streams := s.streams + [st], text := "")
    case ToolReturns(result) =>
      if result.Ok? then s.(agent := StoreResult(s.agent.calls, s.agent.next, result.value))
      else s.(agent := EmitLast(Error(result.error)))
    case Deliver => Emitted(s).(consumer := Handling, panicked := s.panicked || s.outCloses > 0)
    case EmitGivesUp => s.(agent := Closing)
    case Pass =>
      var st := Current(s);
      SetStream(s, |s.streams| - 1, st.(pc := st.pc.next, sent := st.sent + [st.pc.ev]))
      .(agent := Received(st.pc.ev), panicked := s.panicked || st.closes > 0,
        text := if st.pc.ev.err.Some? then s.text else s.text + st.pc.ev.delta)
    case SeesClosed => s.(agent := StoreAnswer([], true))
    case AgentReturns => s.(agent := Returned, outCloses := s.outCloses + 1, panicked := s.panicked || s.outCloses > 0)
    case StreamScans(k) =>
      var st := s.streams[k];
      SetStream(s, k, st.(pc := Scanned(st.body, st.ids, st.pc.line)))
    case StreamGivesUp(k) => SetStream(s, k, s.streams[k].(pc := Leaving))
    case StreamReturns(k) =>
      var st := s.streams[k];
      SetStream(s, k, st.(pc := Gone, closes := st.closes + 1)).(panicked := s.panicked || st.closes > 0)
    case ConsumerReturns => s.(consumer := Listening)
    case ConsumerLeaves => s.(consumer := Left)
    case Cancel => s.(ctxDone := true)
  }

  // ---------------------------------------------------------------------------------------
  // The invariant
  // ---------------------------------------------------------------------------------------

  /** The events a goroutine still means to send. */
  function Owed(st: Stream, pc: StreamPc): seq<StreamEvent> {
    match pc
    case Scanning(i) => if i <= |st.body.lines| then ScriptFrom(st.body, st.ids, i) else []
    case Sending(ev, next) => [ev] + Owed(st, next)
    case _ => []
  }

  predicate GoodPc(st: Stream, pc: StreamPc) {
    match pc
    case Scanning(i) => i <= |st.body.lines|
    case Sending(ev, next) =>
      && GoodPc(st, next) && !next.Gone?
      && (Terminal(ev) <==> next.Leaving?)
      && !(ev.done && ev.err.Some?) && (ev.done ==> ev.delta == "")
    case _ => true
  }

  predicate Working(pc: StreamPc) { pc.Scanning? || pc.Sending? }

  /** What is sent and what is owed make up the body's script; only cancellation cuts it. */
  predicate GoodStream(st: Stream, ctxDone: bool) {
    && GoodPc(st, st.pc)
    && st.closes == (if st.pc.Gone? then 1 else 0)
    && st.sent <= Script(st.body, st.ids)
    && (Working(st.pc) || !ctxDone ==> st.sent + Owed(st, st.pc) == Script(st.body, st.ids))
  }

  /** The agent has heard all of the answer it is about to act on. */
  predicate GoodAnswer(s: State) {
    match s.agent
    case EmitDelta(ev) => s.streams != [] && ev.err.None? && !ev.done
    case Receive => s.streams != []
    case StoreAnswer(calls, hungUp) =>
      && s.streams != [] && !Working(Current(s).pc)
      && (if hungUp then s.ctxDone && calls == []
          else Current(s).sent == Script(Current(s).body, Current(s).ids)
               && Current(s).sent != [] && Current(s).sent[|Current(s).sent| - 1] == Done(calls))
    case EmitStarted(calls, j) => j < |calls|
    case RunTool(calls, j) => j < |calls|
    case StoreResult(calls, j, _) => j < |calls|
    case EmitFinished(calls, j, _) => j < |calls|
    case _ => true
  }

  /** Only the current stream works, and only while the agent is reading it, unless the
      context is done. */
  predicate Inv(s: State) {
    && !s.panicked
    && s.outCloses == (if s.agent.Returned? then 1 else 0)
    && GoodAnswer(s)
    && (forall k :: 0 <= k < |s.streams| ==> GoodStream(s.streams[k], s.ctxDone))
    && (forall k :: 0 <= k < |s.streams| && Working(s.streams[k].pc) && !s.ctxDone ==>
          k == |s.streams| - 1 && (s.agent.Receive? || s.agent.EmitDelta?))
    && ((s.agent.Receive? || s.agent.EmitDelta?) && !s.ctxDone ==> Working(Current(s).pc))
  }

  lemma ScannedOwesTheSame(st: Stream, i: nat)
    requires i <= |st.body.lines|
    ensures Owed(st, Scanned(st.body, st.ids, i)) == ScriptFrom(st.body, st.ids, i)
    ensures GoodPc(st, Scanned(st.body, st.ids, i)) && Working(Scanned(st.body, st.ids, i))
  {
    hide FromWire;
    var last := if st.body.readFails then READ_ERROR else CLOSED_EARLY;
    assert [Broken(last)] + [] == [Broken(last)];
    assert [Broken(DECODE_ERROR)] + [] == [Broken(DECODE_ERROR)];
    if i < |st.body.lines| && st.body.lines[i].Reply? {
      var done := Done(FromWire(st.body.lines[i].calls, st.ids));
      assert [done] + [] == [done];
      assert GoodPc(st, Sending(done, Leaving)) && Owed(st, Sending(done, Leaving)) == [done];
    }
  }

  lemma SendPaysOne(st: Stream, ctxDone: bool)
    requires GoodStream(st, ctxDone) && st.pc.Sending?
    ensures GoodStream(st.(pc := st.pc.next, sent := st.sent + [st.pc.ev]), ctxDone)
    ensures st.pc.next.Leaving? ==> st.sent + [st.pc.ev] == Script(st.body, st.ids)
  {
    hide Script, ScriptFrom;
    var rest := Owed(st, st.pc.next);
    assert st.sent + ([st.pc.ev] + rest) == (st.sent + [st.pc.ev]) + rest;
    if st.pc.next.Leaving? {
      assert rest == [];
    }
    OwedIgnoresSent(st, st.(pc := st.pc.next, sent := st.sent + [st.pc.ev]), st.pc.next);
  }

  lemma {:induction false} OwedIgnoresSent(a: Stream, b: Stream, pc: StreamPc)
    requires a.body == b.body && a.ids == b.ids
    ensures Owed(a, pc) == Owed(b, pc) && GoodPc(a, pc) == GoodPc(b, pc)
  {
    if pc.Sending? {
      OwedIgnoresSent(a, b, pc.next);
    }
  }

  lemma StreamStepKeepsGood(st: Stream, a: Action, ctxDone: bool) returns (st': Stream)
    requires GoodStream(st, ctxDone)
    requires (a.StreamScans? && st.pc.Scanning?) || (a.StreamGivesUp? && st.pc.Sending? && ctxDone) ||
             (a.StreamReturns? && st.pc.Leaving?)
    ensures st' == if a.StreamScans? then st.(pc := Scanned(st.body, st.ids, st.pc.line))
                   else if a.StreamGivesUp? then st.(pc := Leaving)
                   else st.(pc := Gone, closes := st.closes + 1)
    ensures GoodStream(st', ctxDone)
    ensures Working(st'.pc) ==> Working(st.pc)
    ensures !a.StreamGivesUp? ==> (Working(st'.pc) <==> Working(st.pc))
  {
    if a.StreamScans? {
      st' := st.(pc := Scanned(st.body, st.ids, st.pc.line));
      ScannedOwesTheSame(st, st.pc.line);
      OwedIgnoresSent(st, st', st'.pc);
    } else if a.StreamGivesUp? {
      st' := st.(pc := Leaving);
    } else {
      st' := st.(pc := Gone, closes := st.closes + 1);
    }
  }

  lemma StepKeepsInv(s: State, a: Action)
    requires Inv(s) && Enabled(s, a)
    ensures Inv(Apply(s, a))
  {
    hide Inv, Enabled, Apply;
    match a
    case Pass => PassKeepsInv(s);
    case StreamScans(_) => StreamStepKeepsInv(s, a);
    case StreamGivesUp(_) => StreamStepKeepsInv(s, a);
    case StreamReturns(_) => StreamStepKeepsInv(s, a);
    case Cancel => CancelKeepsInv(s);
    case _ => if FromPort(a) { PortStepKeepsInv(s, a); } else { OutputStepKeepsInv(s, a); }
  }

  lemma CancelKeepsInv(s: State)
    requires Inv(s) && Enabled(s, Cancel)
    ensures Inv(Apply(s, Cancel))
  {
    hide GoodStream, GoodAnswer;
    forall k | 0 <= k < |s.streams| ensures GoodStream(s.streams[k], true) {
      CancelKeepsGood(s.streams[k]);
    }
    CancelKeepsAnswer(s);
  }

  lemma CancelKeepsAnswer(s: State)
    requires GoodAnswer(s)
    ensures GoodAnswer(s.(ctxDone := true))
  {
  }

  lemma StreamStepKeepsInv(s: State, a: Action)
    requires Inv(s) && Enabled(s, a) && (a.StreamScans? || a.StreamGivesUp? || a.StreamReturns?)
    ensures Inv(Apply(s, a))
  {
    hide GoodStream, Owed, GoodPc, Script, Scanned;
    var st := s.streams[a.k];
    if a.StreamReturns? { ClosedMeansGone(st, s.ctxDone); }
    var st' := StreamStepKeepsGood(st, a, s.ctxDone);
  }

  predicate FromPort(a: Action) {
    a.RepoReturns? || a.ProviderReturns? || a.ToolReturns? || a.SeesClosed?
  }

  lemma PortStepKeepsInv(s: State, a: Action)
    requires Inv(s) && Enabled(s, a) && FromPort(a)
    ensures Inv(Apply(s, a))
  {
    hide GoodStream, Script;
    if a.ProviderReturns? && a.answer.Ok? {
      NewStreamIsGood(a.answer.value.0, a.answer.value.1, s.ctxDone);
    } else if a.SeesClosed? {
      ClosedMeansGone(Current(s), s.ctxDone);
    }
  }

  lemma OutputStepKeepsInv(s: State, a: Action)
    requires Inv(s) && Enabled(s, a) && !FromPort(a)
    requires !a.Pass? && !a.StreamScans? && !a.StreamGivesUp? && !a.StreamReturns? && !a.Cancel?
    ensures Inv(Apply(s, a))
  {
    hide GoodStream, Script, HeldOut;
  }

  lemma NewStreamIsGood(body: Body, ids: Ids, ctxDone: bool)
    ensures GoodStream(Stream(body, ids, Scanning(0), [], 0), ctxDone)
  {
  }

  lemma ClosedMeansGone(st: Stream, ctxDone: bool)
    requires GoodStream(st, ctxDone)
    ensures st.closes > 0 <==> st.pc.Gone?
  {
  }

  lemma CancelKeepsGood(st: Stream)
    requires GoodStream(st, false)
    ensures GoodStream(st, true)
  {
  }

  lemma PassKeepsInv(s: State)
    requires Inv(s) && Enabled(s, Pass)
    ensures Inv(Apply(s, Pass))
  {
    SendPaysOne(Current(s), s.ctxDone);
  }

  // ---------------------------------------------------------------------------------------
  // What holds in every reachable state
  // ---------------------------------------------------------------------------------------

  /** A run takes enabled steps, and may stand still only when nothing happens by itself. */
  ghost predicate Next(s: State, s': State) {
    || (exists a :: Enabled(s, a) && s' == Apply(s, a))
    || (s' == s && Blocked(s))
  }

  ghost predicate Blocked(s: State) {
    forall a :: !Happens(s, a)
  }

  predicate Happens(s: State, a: Action) { Automatic(a) && Enabled(s, a) }

  ghost predicate IsRun(run: nat -> State) {
    Init(run(0)) && forall i: nat :: Next(run(i), run(i + 1))
  }

  lemma RunStep(run: nat -> State, n: nat)
    requires IsRun(run)
    ensures Next(run(n), run(n + 1))
  {
  }

  lemma {:induction false} RunKeepsInv(run: nat -> State, n: nat)
    requires IsRun(run)
    ensures Inv(run(n))
  {
    if n > 0 {
      RunKeepsInv(run, n - 1);
      var s, s' := run(n - 1), run(n);
      assert Next(run(n - 1), run(n - 1 + 1));
      if a :| Enabled(s, a) && s' == Apply(s, a) {
        StepKeepsInv(s, a);
      }
    }
  }

  /** Channel discipline: in every state of every run nothing was sent on a closed channel and
      nothing was closed twice; a goroutine that is gone closed its channel once, and one that
      is not has not closed it. */
  lemma ChannelDiscipline(run: nat -> State, n: nat)
    requires IsRun(run)
    ensures var s := run(n);
      && !s.panicked
      && s.outCloses == (if s.agent.Returned? then 1 else 0)
      && forall k :: 0 <= k < |s.streams| ==> s.streams[k].closes == (if s.streams[k].pc.Gone? then 1 else 0)
  {
    RunKeepsInv(run, n);
  }

  /** Whenever the agent is about to store an answer it has heard all of its stream, up to the
      done event whose calls it stores; or it heard a part, and then the context is done. */
  lemma StoredAnswersAreWhole(run: nat -> State, n: nat)
    requires IsRun(run) && run(n).agent.StoreAnswer?
    ensures var s := run(n);
      && s.streams != []
      && var st := Current(s);
         && st.sent <= Script(st.body, st.ids)
         && (!s.agent.hungUp ==> st.sent == Script(st.body, st.ids) && C.VerdictOf(st.sent) == C.Asked(s.agent.calls))
         && (s.agent.hungUp ==> s.ctxDone && s.agent.calls == [])
  {
    RunKeepsInv(run, n);
    var s := run(n);
    var st := Current(s);
    if !s.agent.hungUp {
      ScriptShape(st.body, st.ids);
      ScriptHeard(st.body, st.ids);
    }
  }

  /** While the agent still reads, and when it stops because the channel closed, it has heard
      nothing that ends an answer. */
  predicate StillOpen(s: State) {
    (s.agent.Receive? || s.agent.EmitDelta? || (s.agent.StoreAnswer? && s.agent.hungUp)) && s.streams != [] ==>
      NothingTerminal(Current(s).sent)
  }

  predicate NothingTerminal(sent: seq<StreamEvent>) {
    forall i :: 0 <= i < |sent| ==> !Terminal(sent[i])
  }

  lemma StepKeepsOpen(s: State, a: Action)
    requires Inv(s) && StillOpen(s) && Enabled(s, a)
    ensures StillOpen(Apply(s, a))
  {
    hide Script, ScriptFrom, Owed, Scanned;
  }

  lemma {:induction false} RunStaysOpen(run: nat -> State, n: nat)
    requires IsRun(run)
    ensures Inv(run(n)) && StillOpen(run(n))
  {
    RunKeepsInv(run, n);
    if n > 0 {
      RunStaysOpen(run, n - 1);
      var s, s' := run(n - 1), run(n);
      assert Next(run(n - 1), run(n - 1 + 1));
      hide Inv, Enabled, Apply, StillOpen;
      if a :| Enabled(s, a) && s' == Apply(s, a) {
        StepKeepsOpen(s, a);
      }
    }
  }

  lemma VerdictOnceHeard(sent: seq<StreamEvent>, ev: StreamEvent)
    requires NothingTerminal(sent)
    ensures C.VerdictOf(sent).HungUp?
    ensures C.VerdictOf(sent + [ev]) ==
            if ev.err.Some? then C.Failed(ev.err.value) else if ev.done then C.Asked(ev.calls) else C.HungUp
  {
    var m, n := C.StopAt(sent), C.StopAt(sent + [ev]);
    assert (sent + [ev])[|sent|] == ev;
    assert forall i :: 0 <= i < |sent| ==> (sent + [ev])[i] == sent[i];
    assert n >= |sent|;
  }

  /** What the agent does about an event, or about a channel that closed, is what the verdict on
      all it heard from that stream says: nothing yet; give up; store the answer with the calls
      of the done event; or store what there is, without calls. */
  lemma AgentActsOnTheVerdict(run: nat -> State, n: nat, a: Action)
    requires IsRun(run) && Enabled(run(n), a)
    ensures var s, s' := run(n), Apply(run(n), a);
      && (a.Pass? ==>
            match C.VerdictOf(Current(s').sent)
            case HungUp => s'.agent.Receive? || s'.agent == EmitDelta(Current(s).pc.ev)
            case Failed(cause) => s'.agent == EmitLast(Error(cause))
            case Asked(calls) => s'.agent == StoreAnswer(calls, false))
      && (a.SeesClosed? ==> C.VerdictOf(Current(s).sent).HungUp? && s'.agent == StoreAnswer([], true))
  {
    RunStaysOpen(run, n);
    var s := run(n);
    hide C.VerdictOf, Script, ScriptFrom, Owed, NothingTerminal;
    if a.Pass? {
      VerdictOnceHeard(Current(s).sent, Current(s).pc.ev);
    } else if a.SeesClosed? {
      VerdictOnceHeard(Current(s).sent, Done([]));
    }
  }

  /** What an agent that hears a body's whole script makes of it: an answer exactly when a
      done line arrived before any undecodable one, with all contents up to that line and that
      line's calls, each with an id; and a failure otherwise. */
  lemma ScriptHeard(body: Body, ids: Ids)
    ensures var n := FirstStop(body.lines);
      var answered := n < |body.lines| && body.lines[n].Reply?;
      var script := Script(body, ids);
      && C.TextsOf(script) == Contents(body.lines, 0, LinesHeard(body.lines))
      && (answered ==> C.VerdictOf(script) == C.Asked(FromWire(body.lines[n].calls, ids)))
      && (!answered ==>
            C.VerdictOf(script) ==
            C.Failed(if n < |body.lines| then DECODE_ERROR else if body.readFails then READ_ERROR else CLOSED_EARLY))
      && (NeverEmpty(ids) ==> forall c :: c in C.CallsOf(script) ==> c.id != "")
  {
    ScriptShape(body, ids);
    var contents := Contents(body.lines, 0, LinesHeard(body.lines));
    var last := LastEvent(body, ids);
    ContentsAreNonEmpty(body.lines, 0, LinesHeard(body.lines));
    DeltasHeard(contents, last);
    if NeverEmpty(ids) {
      forall wire: seq<WireToolCall> ensures forall c :: c in FromWire(wire, ids) ==> c.id != "" {
        WireRoundTrip([], wire, ids);
      }
    }
  }

  lemma {:induction false} ContentsAreNonEmpty(lines: seq<Line>, i: nat, n: nat)
    requires i <= n <= |lines|
    ensures forall c :: c in Contents(lines, i, n) ==> c != ""
    decreases n - i
  {
    if i < n {
      ContentsAreNonEmpty(lines, i + 1, n);
    }
  }

  lemma DeltasHeard(contents: seq<string>, last: StreamEvent)
    requires Terminal(last) && last.delta == ""
    requires forall c :: c in contents ==> c != ""
    ensures var stream := Deltas(contents) + [last];
      C.StopAt(stream) == |contents| && C.TextsOf(stream) == contents
  {
    var stream := Deltas(contents) + [last];
    var n := |contents|;
    assert stream[n] == last;
    var stop := C.StopAt(stream);
    assert stop < n ==> stream[stop] == Delta(contents[stop]);
    assert forall i :: 0 <= i < n ==> contents[i] in contents && stream[i] == Delta(contents[i]);
    PiecesOfDeltas(stream, contents, n);
    assert contents[..n] == contents && contents + [] == contents;
  }

  lemma {:induction false} PiecesOfDeltas(stream: seq<StreamEvent>, contents: seq<string>, n: nat)
    requires n <= |contents| && n <= |stream|
    requires forall i :: 0 <= i < n ==> stream[i] == Delta(contents[i]) && contents[i] != ""
    ensures C.Pieces(stream, n) == contents[..n]
  {
    if n > 0 {
      PiecesOfDeltas(stream, contents, n - 1);
      assert stream[n - 1] == Delta(contents[n - 1]);
      assert contents[..n] == contents[..n - 1] + [contents[n - 1]];
    }
  }

  // ---------------------------------------------------------------------------------------
  // What is stored
  // ---------------------------------------------------------------------------------------

  /** All the text in some events. */
  function TextOf(sent: seq<StreamEvent>): string { Join(C.Pieces(sent, |sent|)) }

  lemma {:induction false} PiecesOfPrefix(a: seq<StreamEvent>, b: seq<StreamEvent>, n: nat)
    requires n <= |a| && a <= b
    ensures C.Pieces(b, n) == C.Pieces(a, n)
  {
    if n > 0 {
      PiecesOfPrefix(a, b, n - 1);
    }
  }

  lemma TextOfOneMore(sent: seq<StreamEvent>, ev: StreamEvent)
    ensures TextOf(sent + [ev]) == TextOf(sent) + ev.delta
  {
    var more := sent + [ev];
    PiecesOfPrefix(sent, more, |sent|);
    var pieces := C.Pieces(sent, |sent|);
    assert more[|sent|] == ev;
    assert (pieces + [ev.delta])[..|pieces|] == pieces;
    assert pieces + [] == pieces && Join(pieces) + "" == Join(pieces);
  }

  lemma TextOfDeltas(contents: seq<string>, last: StreamEvent)
    requires last.delta == ""
    requires forall c :: c in contents ==> c != ""
    ensures TextOf(Deltas(contents) + [last]) == Join(contents)
  {
    var deltas := Deltas(contents);
    TextOfOneMore(deltas, last);
    assert forall i :: 0 <= i < |contents| ==> contents[i] in contents;
    PiecesOfDeltas(deltas, contents, |contents|);
    assert contents[..|contents|] == contents && Join(contents) + "" == Join(contents);
  }

  predicate Reading(pc: AgentPc) { pc.Receive? || pc.EmitDelta? || pc.StoreAnswer? }

  predicate Between(pc: AgentPc) {
    pc.LoadHistory? || pc.CallProvider? || pc.EmitStarted? || pc.RunTool? || pc.StoreResult? || pc.EmitFinished?
  }

  /** A stored answer is the text of all that was heard; it has the calls of the done event that
      ended it, or the stream hung up because the context is done. */
  predicate GoodStored(st: Stream, a: StoredAnswer, ctxDone: bool) {
    if a.hungUp then
      ctxDone && NothingTerminal(st.sent) && a.message == Message(Assistant, TextOf(st.sent), [], "")
    else
      && st.sent == Script(st.body, st.ids) && st.sent != []
      && a.message == Message(Assistant, TextOf(st.sent), a.message.toolCalls, "")
      && st.sent[|st.sent| - 1] == Done(a.message.toolCalls)
  }

  /** Every stream but one that is being read, or was not heard to an end, has its answer. */
  predicate Recorded(s: State) {
    && |s.answers| <= |s.streams|
    && (s.agent.StoreUser? ==> s.streams == [])
    && (Between(s.agent) ==> |s.answers| == |s.streams|)
    && (Reading(s.agent) ==> |s.answers| == |s.streams| - 1 && s.text == TextOf(Current(s).sent))
    && (forall k :: 0 <= k < |s.answers| ==> GoodStored(s.streams[k], s.answers[k], s.ctxDone))
  }

  lemma StepKeepsRecorded(s: State, a: Action)
    requires Inv(s) && StillOpen(s) && Recorded(s) && Enabled(s, a)
    ensures Recorded(Apply(s, a))
  {
    hide Inv, StillOpen, Recorded, Enabled, Apply;
    if a.Pass? {
      PassKeepsRecorded(s);
    } else if a.RepoReturns? {
      StoringKeepsRecorded(s, a);
    } else if a.StreamScans? || a.StreamGivesUp? || a.StreamReturns? {
      StreamStepKeepsRecorded(s, a);
    } else {
      OtherStepKeepsRecorded(s, a);
    }
  }

  lemma StoredIgnoresPc(a: Stream, b: Stream, answer: StoredAnswer, ctxDone: bool)
    requires a.body == b.body && a.ids == b.ids && a.sent == b.sent
    ensures GoodStored(a, answer, ctxDone) <==> GoodStored(b, answer, ctxDone)
  {
  }

  lemma StreamStepKeepsRecorded(s: State, a: Action)
    requires Recorded(s) && Enabled(s, a) && (a.StreamScans? || a.StreamGivesUp? || a.StreamReturns?)
    ensures Recorded(Apply(s, a))
  {
    hide GoodStored, TextOf, Scanned;
    var st := s.streams[a.k];
    var st' := Apply(s, a).streams[a.k];
    if a.k < |s.answers| { StoredIgnoresPc(st, st', s.answers[a.k], s.ctxDone); }
  }

  lemma PassKeepsRecorded(s: State)
    requires Inv(s) && Recorded(s) && Enabled(s, Pass)
    ensures Recorded(Apply(s, Pass))
  {
    hide GoodStored, GoodStream, TextOf, GoodAnswer;
    TextOfOneMore(Current(s).sent, Current(s).pc.ev);
  }

  lemma StoringKeepsRecorded(s: State, a: Action)
    requires Inv(s) && StillOpen(s) && Recorded(s) && Enabled(s, a) && a.RepoReturns?
    ensures Recorded(Apply(s, a))
  {
    hide GoodStream, TextOf, Script, NothingTerminal;
  }

  lemma OtherStepKeepsRecorded(s: State, a: Action)
    requires Inv(s) && Recorded(s) && Enabled(s, a) && !a.Pass? && !a.RepoReturns?
    requires !a.StreamScans? && !a.StreamGivesUp? && !a.StreamReturns?
    ensures Recorded(Apply(s, a))
  {
    hide GoodStream, GoodStored, TextOf;
    NothingHeardYet();
    if a.Cancel? {
      forall k | 0 <= k < |s.answers| ensures GoodStored(s.streams[k], s.answers[k], true) {
        StoredStaysGood(s.streams[k], s.answers[k], s.ctxDone);
      }
    }
  }

  lemma StoredStaysGood(st: Stream, a: StoredAnswer, ctxDone: bool)
    requires GoodStored(st, a, ctxDone)
    ensures GoodStored(st, a, true)
  {
  }

  lemma NothingHeardYet()
    ensures TextOf([]) == ""
  {
  }

  lemma {:induction false} RunStaysRecorded(run: nat -> State, n: nat)
    requires IsRun(run)
    ensures Inv(run(n)) && Recorded(run(n))
  {
    RunStaysOpen(run, n);
    if n > 0 {
      RunStaysRecorded(run, n - 1);
      RunStaysOpen(run, n - 1);
      var s, s' := run(n - 1), run(n);
      assert Next(run(n - 1), run(n - 1 + 1));
      hide Inv, Enabled, Apply, StillOpen, Recorded;
      if a :| Enabled(s, a) && s' == Apply(s, a) {
        StepKeepsRecorded(s, a);
      }
    }
  }

  /** What a stored answer is, in terms of the body it was made of: if the body's done line was
      heard, all contents up to that line, with that line's calls; and if the stream hung up,
      which it does only once the context is done, the contents that got through, without
      calls. */
  ghost predicate MadeOf(st: Stream, a: StoredAnswer, ctxDone: bool) {
    var lines := st.body.lines;
    var contents := Contents(lines, 0, LinesHeard(lines));
    if a.hungUp then
      ctxDone && |st.sent| <= |contents| && a.message == C.Reply(contents[..|st.sent|], [])
    else
      var n := FirstStop(lines);
      && n < |lines| && lines[n].Reply? && lines[n].done
      && a.message == C.Reply(contents, FromWire(lines[n].calls, st.ids))
  }

  lemma StoredIsMadeOf(st: Stream, a: StoredAnswer, ctxDone: bool)
    requires GoodStream(st, ctxDone) && GoodStored(st, a, ctxDone)
    ensures MadeOf(st, a, ctxDone)
  {
    var lines := st.body.lines;
    var contents, last := Contents(lines, 0, LinesHeard(lines)), LastEvent(st.body, st.ids);
    var script := Script(st.body, st.ids);
    ScriptShape(st.body, st.ids);
    ContentsAreNonEmpty(lines, 0, LinesHeard(lines));
    hide Script, ScriptFrom, FromWire, Owed, GoodPc, C.Pieces;
    assert script[|contents|] == last;
    if a.hungUp {
      assert |st.sent| <= |contents|;
      assert forall i :: 0 <= i < |st.sent| ==> st.sent[i] == script[i] && contents[i] in contents;
      PiecesOfDeltas(st.sent, contents, |st.sent|);
    } else {
      TextOfDeltas(contents, last);
    }
  }

  /** In every state of every run each stored answer is made of its stream's body; in particular,
      while the context is not done, a done line arrived for it, and it is all contents so far
      with that line's calls, each of which kept its id or got one of its own. */
  lemma StoredAnswersAreMadeOfTheirBodies(run: nat -> State, n: nat, k: nat)
    requires IsRun(run) && k < |run(n).answers|
    ensures var s := run(n);
      && k < |s.streams|
      && MadeOf(s.streams[k], s.answers[k], s.ctxDone)
      && (!s.ctxDone ==> !s.answers[k].hungUp)
      && var st, calls := s.streams[k], s.answers[k].message.toolCalls;
      && (s.answers[k].hungUp ==> calls == [])
      && (!s.answers[k].hungUp ==>
            && FirstStop(st.body.lines) < |st.body.lines| && st.body.lines[FirstStop(st.body.lines)].Reply?
            && TakenOver(st.body.lines[FirstStop(st.body.lines)].calls, st.ids, calls))
  {
    RunStaysRecorded(run, n);
    var s := run(n);
    var st := s.streams[k];
    StoredIsMadeOf(st, s.answers[k], s.ctxDone);
    hide Script, TextOf, Contents;
    if !s.answers[k].hungUp {
      CallsAreTakenOver(st.body.lines[FirstStop(st.body.lines)].calls, st.ids);
    }
  }

  // ---------------------------------------------------------------------------------------
  // Nobody stays blocked
  // ---------------------------------------------------------------------------------------

  predicate Finished(s: State) {
    s.agent.Returned? && forall k :: 0 <= k < |s.streams| ==> s.streams[k].pc.Gone?
  }

  /** The step that can happen next. */
  function Ready(s: State): Action {
    match s.agent
    case Closing => AgentReturns
    case CallProvider => ProviderReturns(Err(MaxIterations))
    case RunTool(_, _) => ToolReturns(Ok(""))
    case Receive =>
      if s.streams == [] then Cancel else
        var k := |s.streams| - 1;
        if Current(s).pc.Scanning? then StreamScans(k)
        else if Current(s).pc.Sending? then Pass
        else if Current(s).pc.Leaving? then StreamReturns(k)
        else SeesClosed
    case _ =>
      if Emitting(s.agent) then
        if s.ctxDone then EmitGivesUp else if s.consumer.Handling? then ConsumerReturns else Deliver
      else RepoReturns(None)
  }

  /** No deadlock: as long as the consumer has not left, or the context is done, something can
      happen by itself until the agent and every stream goroutine have returned. */
  lemma NoDeadlock(s: State) returns (a: Action)
    requires Inv(s) && !Finished(s)
    requires !s.consumer.Left? || s.ctxDone
    ensures Happens(s, a) && (a.ConsumerReturns? ==> Emitting(s.agent) && !s.ctxDone)
  {
    if s.agent.Returned? {
      var k :| 0 <= k < |s.streams| && !s.streams[k].pc.Gone?;
      a := if s.streams[k].pc.Scanning? then StreamScans(k)
           else if s.streams[k].pc.Sending? then StreamGivesUp(k)
           else StreamReturns(k);
    } else {
      a := Ready(s);
    }
  }

  /** The consumer left without cancelling, the agent holds out an event to it, and no stream
      has anything left to do but to send. */
  predicate Abandoned(s: State) {
    && s.consumer.Left? && !s.ctxDone && Emitting(s.agent)
    && forall k :: 0 <= k < |s.streams| ==> s.streams[k].pc.Gone? || s.streams[k].pc.Sending?
  }

  /** The condition is exact: that is the one way to be stuck. */
  lemma StuckExactlyWhenAbandoned(s: State)
    requires Inv(s)
    ensures Blocked(s) && !Finished(s) <==> Abandoned(s)
  {
    hide Inv, Blocked, Finished, Abandoned;
    if Abandoned(s) {
      AbandonedIsStuck(s);
    }
    if Blocked(s) && !Finished(s) {
      StuckWithoutConsumer(s);
      StuckWhileEmitting(s);
      StuckIsAbandoned(s);
    }
  }

  lemma AbandonedIsStuck(s: State)
    requires Abandoned(s)
    ensures Blocked(s) && !Finished(s)
  {
  }

  lemma StuckWithoutConsumer(s: State)
    requires Inv(s) && Blocked(s) && !Finished(s)
    ensures s.consumer.Left? && !s.ctxDone
  {
    hide Inv, Finished, Enabled;
    if !s.consumer.Left? || s.ctxDone {
      var a := NoDeadlock(s);
    }
  }

  lemma StuckWhileEmitting(s: State)
    requires Inv(s) && Blocked(s) && !Finished(s) && s.consumer.Left? && !s.ctxDone
    ensures Emitting(s.agent)
  {
    if !Emitting(s.agent) {
      hide GoodStream, GoodAnswer;
      var a := NoDeadlock(s.(consumer := Handling));
      HappensWithoutConsumer(s, a);
    }
  }

  lemma HappensWithoutConsumer(s: State, a: Action)
    requires Happens(s.(consumer := Handling), a) && !Emitting(s.agent) && !a.ConsumerReturns?
    ensures Happens(s, a)
  {
  }

  lemma StuckIsAbandoned(s: State)
    requires Blocked(s) && s.consumer.Left? && !s.ctxDone && Emitting(s.agent)
    ensures Abandoned(s)
  {
    forall k | 0 <= k < |s.streams| ensures s.streams[k].pc.Gone? || s.streams[k].pc.Sending? {
      assert !Happens(s, StreamScans(k)) && !Happens(s, StreamReturns(k));
    }
  }

  /** A run that gets stuck: a delta is on its way to a consumer that leaves. */
  function AbandonedAt(max: nat, ids: Ids, i: nat): State {
    var body := Body([Ollama.Reply("x", [], false)], false);
    var start := State("go", max, 0, StoreUser, [], false, Listening, 0, false, "", [], [], []);
    var asked := start.(agent := LoadHistory, messages := [Message(User, "go", [], "")]);
    var read := asked.(agent := Receive, streams := [Stream(body, ids, Scanning(0), [], 0)]);
    var heard := asked.(agent := EmitDelta(Delta("x")), text := "x",
                        streams := [Stream(body, ids, Scanning(1), [Delta("x")], 0)]);
    var last := asked.(agent := EmitDelta(Delta("x")), text := "x",
                       streams := [Stream(body, ids, Sending(Broken(CLOSED_EARLY), Leaving), [Delta("x")], 0)]);
    match i
    case 0 => start
    case 1 => asked
    case 2 => asked.(agent := CallProvider)
    case 3 => read
    case 4 => read.(streams := [Stream(body, ids, Sending(Delta("x"), Scanning(1)), [], 0)])
    case 5 => heard
    case 6 => last
    case _ => last.(consumer := Left)
  }

  function AbandoningStep(ids: Ids, i: nat): Action {
    match i
    case 0 => RepoReturns(None)
    case 1 => RepoReturns(None)
    case 2 => ProviderReturns(Ok((Body([Ollama.Reply("x", [], false)], false), ids)))
    case 3 => StreamScans(0)
    case 4 => Pass
    case 5 => StreamScans(0)
    case _ => ConsumerLeaves
  }

  lemma {:induction false} AbandonedKeepsInv(max: nat, ids: Ids, i: nat)
    requires max > 0 && i <= 7
    ensures Inv(AbandonedAt(max, ids, i))
  {
    if i > 0 {
      hide *;
      AbandonedKeepsInv(max, ids, i - 1);
      AbandoningStepIsPossible(max, ids, i - 1);
      StepKeepsInv(AbandonedAt(max, ids, i - 1), AbandoningStep(ids, i - 1));
    }
  }

  lemma AbandoningStepIsPossible(max: nat, ids: Ids, i: nat)
    requires max > 0 && i < 7
    ensures Enabled(AbandonedAt(max, ids, i), AbandoningStep(ids, i))
    ensures AbandonedAt(max, ids, i + 1) == Apply(AbandonedAt(max, ids, i), AbandoningStep(ids, i))
  {
    if i < 3 {
      assert [] + [Message(User, "go", [], "")] == [Message(User, "go", [], "")];
    } else if i < 6 {
      AbandoningReadIsPossible(max, ids, i);
    }
  }

  lemma AbandoningReadIsPossible(max: nat, ids: Ids, i: nat)
    requires max > 0 && 3 <= i < 6
    ensures Enabled(AbandonedAt(max, ids, i), AbandoningStep(ids, i))
    ensures AbandonedAt(max, ids, i + 1) == Apply(AbandonedAt(max, ids, i), AbandoningStep(ids, i))
  {
    assert [] + [Delta("x")] == [Delta("x")] && "" + "x" == "x";
  }

  /** Such runs exist, with any bound: from step 7 on nothing happens any more, and neither the
      agent nor the stream has returned. */
  lemma AbandonedRunsAreStuck(max: nat, ids: Ids) returns (run: nat -> State)
    requires max > 0
    ensures IsRun(run) && run(0).max == max
    ensures forall n: nat :: n >= 7 ==> Blocked(run(n)) && !Finished(run(n)) && run(n) == run(7)
  {
    run := (i: nat) => AbandonedAt(max, ids, i);
    AbandonedKeepsInv(max, ids, 7);
    StuckExactlyWhenAbandoned(AbandonedAt(max, ids, 7));
    forall i: nat ensures Next(run(i), run(i + 1)) {
      if i < 7 {
        AbandoningStepIsPossible(max, ids, i);
        assert Enabled(run(i), AbandoningStep(ids, i)) && run(i + 1) == Apply(run(i), AbandoningStep(ids, i));
      }
    }
  }

  // ---------------------------------------------------------------------------------------
  // Every run comes to its end
  // ---------------------------------------------------------------------------------------

  function StreamWork(st: Stream, pc: StreamPc): nat {
    match pc
    case Scanning(i) => 10 + if i <= |st.body.lines| then 10 * (|st.body.lines| - i) else 0
    case Sending(_, next) => 4 + StreamWork(st, next)
    case Leaving => 1
    case Gone => 0
  }

  function TotalWork(streams: seq<Stream>): nat {
    if streams == [] then 0
    else TotalWork(streams[..|streams| - 1]) + StreamWork(streams[|streams| - 1], streams[|streams| - 1].pc)
  }

  lemma {:induction false} WorkOfUpdate(streams: seq<Stream>, k: nat, st: Stream)
    requires k < |streams|
    ensures TotalWork(streams[k := st]) ==
            TotalWork(streams) - StreamWork(streams[k], streams[k].pc) + StreamWork(st, st.pc)
  {
    var n := |streams| - 1;
    if k < n {
      assert streams[k := st][..n] == streams[..n][k := st];
      WorkOfUpdate(streams[..n], k, st);
    } else {
      assert streams[k := st][..n] == streams[..n];
    }
  }

  /** Turns left, phase of the turn, work left on its calls, work left in the streams and with
      the consumer: each step lowers the tuple. */
  function TurnsLeft(s: State): nat {
    match s.agent
    case StoreUser => s.max + 2
    case EmitLast(_) => 0
    case Closing => 0
    case Returned => 0
    case _ => if s.turn <= s.max then s.max - s.turn + 1 else 1
  }

  function PhaseLeft(s: State): nat {
    match s.agent
    case StoreUser => 9
    case LoadHistory => 8
    case CallProvider => 7
    case Receive => 6
    case EmitDelta(_) => 6
    case StoreAnswer(_, _) => 5
    case EmitLast(_) => 3
    case Closing => 2
    case Returned => 1
    case _ => 4
  }

  function CallsLeft(s: State): nat {
    match s.agent
    case EmitStarted(calls, j) => if j <= |calls| then 4 * (|calls| - j) + 3 else 0
    case RunTool(calls, j) => if j <= |calls| then 4 * (|calls| - j) + 2 else 0
    case StoreResult(calls, j, _) => if j <= |calls| then 4 * (|calls| - j) + 1 else 0
    case EmitFinished(calls, j, _) => if j <= |calls| then 4 * (|calls| - j) else 0
    case _ => 0
  }

  function RestLeft(s: State): nat {
    TotalWork(s.streams)
    + (if s.agent.EmitDelta? then 2 else 0)
    + (match s.consumer case Listening => 1 case Handling => 2 case Left => 0)
    + (if s.ctxDone then 0 else 1)
  }

  predicate Lower(s': State, s: State) {
    || TurnsLeft(s') < TurnsLeft(s)
    || (TurnsLeft(s') == TurnsLeft(s) &&
        (|| PhaseLeft(s') < PhaseLeft(s)
         || (PhaseLeft(s') == PhaseLeft(s) &&
             (|| CallsLeft(s') < CallsLeft(s)
              || (CallsLeft(s') == CallsLeft(s) && RestLeft(s') < RestLeft(s))))))
  }

  predicate TurnInRange(s: State) {
    s.agent.StoreUser? || TurnsLeft(s) == 0 || s.turn < s.max
  }

  lemma ScannedIsLessWork(st: Stream, i: nat)
    requires i <= |st.body.lines|
    ensures StreamWork(st, Scanned(st.body, st.ids, i)) < StreamWork(st, Scanning(i))
  {
    if i < |st.body.lines| && st.body.lines[i].Reply? {
      var done := Sending(Done(FromWire(st.body.lines[i].calls, st.ids)), Leaving);
      assert StreamWork(st, done) == 5;
    }
  }

  lemma {:induction false} WorkIgnoresSent(a: Stream, b: Stream, pc: StreamPc)
    requires a.body == b.body
    ensures StreamWork(a, pc) == StreamWork(b, pc)
  {
    if pc.Sending? {
      WorkIgnoresSent(a, b, pc.next);
    }
  }

  /** The stream that moves has less work left, even counting what the agent then holds. */
  lemma StreamMovesOn(st: Stream, a: Action, ctxDone: bool) returns (st': Stream)
    requires GoodStream(st, ctxDone)
    requires (a.StreamScans? && st.pc.Scanning?) || (a.StreamGivesUp? && st.pc.Sending?) ||
             (a.StreamReturns? && st.pc.Leaving?) || (a.Pass? && st.pc.Sending?)
    ensures st' == if a.StreamScans? then st.(pc := Scanned(st.body, st.ids, st.pc.line))
                   else if a.StreamGivesUp? then st.(pc := Leaving)
                   else if a.StreamReturns? then st.(pc := Gone, closes := st.closes + 1)
                   else st.(pc := st.pc.next, sent := st.sent + [st.pc.ev])
    ensures StreamWork(st', st'.pc) + (if a.Pass? then 3 else 0) < StreamWork(st, st.pc)
  {
    hide Script, ScriptFrom;
    st' := if a.StreamScans? then st.(pc := Scanned(st.body, st.ids, st.pc.line))
           else if a.StreamGivesUp? then st.(pc := Leaving)
           else if a.StreamReturns? then st.(pc := Gone, closes := st.closes + 1)
           else st.(pc := st.pc.next, sent := st.sent + [st.pc.ev]);
    WorkIgnoresSent(st', st, st'.pc);
    if a.StreamScans? { ScannedIsLessWork(st, st.pc.line); }
  }

  lemma StreamStepLowers(s: State, a: Action)
    requires Inv(s) && Enabled(s, a)
    requires a.StreamScans? || a.StreamGivesUp? || a.StreamReturns? || a.Pass?
    ensures Lower(Apply(s, a), s) && (TurnInRange(s) ==> TurnInRange(Apply(s, a)))
  {
    hide GoodStream, StreamWork, TotalWork, Scanned;
    var k := if a.Pass? then |s.streams| - 1 else a.k;
    var st' := StreamMovesOn(s.streams[k], a, s.ctxDone);
    WorkOfUpdate(s.streams, k, st');
  }

  lemma AgentStepLowers(s: State, a: Action)
    requires Inv(s) && Enabled(s, a)
    requires !a.StreamScans? && !a.StreamGivesUp? && !a.StreamReturns? && !a.Pass?
    requires TurnInRange(s)
    ensures Lower(Apply(s, a), s) && TurnInRange(Apply(s, a))
  {
    hide GoodStream, TotalWork;
  }

  lemma {:induction false} RunStaysInRange(run: nat -> State, n: nat)
    requires IsRun(run)
    ensures Inv(run(n)) && TurnInRange(run(n))
  {
    RunKeepsInv(run, n);
    if n > 0 {
      RunStaysInRange(run, n - 1);
      var s, s' := run(n - 1), run(n);
      assert Next(run(n - 1), run(n - 1 + 1));
      if a :| Enabled(s, a) && s' == Apply(s, a) {
        if a.StreamScans? || a.StreamGivesUp? || a.StreamReturns? || a.Pass? {
          StreamStepLowers(s, a);
        } else {
          AgentStepLowers(s, a);
        }
      }
    }
  }

  /** Liveness: in every run that from some point on has a consumer or a context that is done,
      the agent and every stream goroutine return. No fairness is needed; and a context that is
      cancelled long after the consumer left is not too late. */
  lemma {:induction false} EveryRunFinishes(run: nat -> State, n: nat) returns (m: nat)
    requires IsRun(run)
    requires forall i: nat :: n <= i ==> !run(i).consumer.Left? || run(i).ctxDone
    ensures n <= m && Finished(run(m))
    decreases TurnsLeft(run(n)), PhaseLeft(run(n)), CallsLeft(run(n)), RestLeft(run(n))
  {
    var s := run(n);
    RunStaysInRange(run, n);
    if Finished(s) {
      m := n;
    } else {
      var ready := NoDeadlock(s);
      RunStep(run, n);
      hide IsRun, Inv, Enabled, Apply, Finished, TurnsLeft, PhaseLeft, CallsLeft, RestLeft, TurnInRange;
      var s' := run(n + 1);
      var a :| Enabled(s, a) && s' == Apply(s, a);
      if a.StreamScans? || a.StreamGivesUp? || a.StreamReturns? || a.Pass? {
        StreamStepLowers(s, a);
      } else {
        AgentStepLowers(s, a);
      }
      m := EveryRunFinishes(run, n + 1);
    }
  }
}

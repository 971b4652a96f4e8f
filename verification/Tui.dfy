/** The terminal UI's model: its message handlers, and the event loop that runs them. */
module Tui {
  import opened Wrappers
  import opened Domain
  import S = Sanitizer

  /** A run is one Send, numbered in order; its number stands for its context and channel. */
  type Run = nat

  datatype Key = Interrupt | Enter | Typed(input: string)  // any other key leaves some input

  /** What is not handled here goes to the input field and leaves some input: a cursor blink the
      same, a paste another. */
  datatype Msg =
    | Resize
    | Other(input: string)
    | KeyPress(key: Key)
    | ChannelReady(run: Run)
    | SendFailed(err: string)
    | EventArrived(run: Run, ev: AgentEvent)
    | ChannelClosed(run: Run)

  datatype Cmd =
    | NoCmd
    | Quit
    | InputCmd
    | Send(run: Run, text: string)
    | Listen(run: Run)

  /** The fields of the model. `cancel` is the cancel function it holds, by its run; `runs` and
      `cancelled` record which contexts were made and which were cancelled. */
  datatype Ui = Ui(
    input: string, content: string, status: string, busy: bool, err: Option<string>,
    streaming: bool, cancel: Option<Run>, runs: nat, cancelled: set<Run>)

  const NEW_MODEL := Ui("", "", "ready", false, None, false, None, 0, {})

  function Sanitize(s: string): string { S.Filter(S.Ground, s) }

  function Text(cause: Cause): string {
    if cause.MaxIterations? then "max tool-call iterations exceeded" else cause.what
  }

  // ---------------------------------------------------------------------------------------
  // What handling a message means
  // ---------------------------------------------------------------------------------------

  /** What puts a fresh block on a line of its own, after a blank line. */
  function Separator(content: string): string {
    if content == "" then "" else if content[|content| - 1] == '\n' then "\n" else "\n\n"
  }

  function Opened(ui: Ui, speaker: string): Ui {
    var spaced := ui.content + Separator(ui.content);
    ui.(content := if speaker == "" then spaced else spaced + speaker)
  }

  function Written(ui: Ui, text: string): Ui {
    ui.(content := ui.content + Sanitize(text))
  }

  /** Calls the cancel function, if one is held, and lets go of it. */
  function Released(ui: Ui): Ui {
    if ui.cancel.None? then ui else ui.(cancelled := ui.cancelled + {ui.cancel.value}, cancel := None)
  }

  function Submitted(ui: Ui, text: string): Ui {
    Written(Opened(ui, "You: "), text)
    .(input := "", busy := true, err := None, status := "thinking...", streaming := false,
      cancel := Some(ui.runs), runs := ui.runs + 1)
  }

  function AfterEvent(format: string -> string, ui: Ui, ev: AgentEvent): Ui {
    match ev
    case TextDelta(text) =>
      Written(if ui.streaming then ui else Opened(ui, "Pythia: "), text).(streaming := true, status := "thinking...")
    case ToolCallStarted(call) => ui.(streaming := false, status := "running tool: " + Sanitize(call.name))
    case ToolCallFinished(result) =>
      Written(Opened(ui, ""), format(result)).(streaming := false, status := "thinking...")
    case TurnComplete => Released(ui.(streaming := false, busy := false, status := "ready"))
    case Error(cause) => Released(ui.(busy := false, err := Some(Text(cause)), status := "error"))
  }

  function After(format: string -> string, ui: Ui, msg: Msg): Ui {
    match msg
    case Resize => ui
    case Other(input) => ui.(input := input)
    case KeyPress(Interrupt) =>
      if ui.cancel.Some? then ui.(cancelled := ui.cancelled + {ui.cancel.value}) else ui
    case KeyPress(Enter) =>
      if ui.busy || Trim(ui.input) == "" then ui else Submitted(ui, Trim(ui.input))
    case KeyPress(Typed(input)) => ui.(input := input)
    case ChannelReady(_) => ui
    case SendFailed(err) => Released(ui.(err := Some(err), status := "error: " + Sanitize(err), busy := false))
    case EventArrived(_, ev) => AfterEvent(format, ui, ev)
    case ChannelClosed(_) => Released(ui.(busy := false))
  }

  function Command(ui: Ui, msg: Msg): Cmd {
    match msg
    case Resize => NoCmd
    case Other(_) => InputCmd
    case KeyPress(Interrupt) => Quit
    case KeyPress(Enter) =>
      if ui.busy || Trim(ui.input) == "" then NoCmd else Send(ui.runs, Trim(ui.input))
    case KeyPress(Typed(_)) => InputCmd
    case ChannelReady(run) => Listen(run)
    case SendFailed(_) => NoCmd
    case EventArrived(run, ev) => if ev.TurnComplete? || ev.Error? then NoCmd else Listen(run)
    case ChannelClosed(_) => NoCmd
  }

  predicate IsSpace(c: char) {
    c in "\t\n\r \U{0b}\U{0c}\U{85}\U{a0}\U{1680}\U{2028}\U{2029}\U{202f}\U{205f}\U{3000}" ||
    '\U{2000}' <= c <= '\U{200a}'
  }

  function Trim(s: string): string {
    if s == "" then "" else if IsSpace(s[0]) then Trim(s[1..])
    else if IsSpace(s[|s| - 1]) then Trim(s[..|s| - 1]) else s
  }

  /** Trimming cuts off the space on both sides, all of it and nothing else. */
  lemma {:induction false} TrimIsExact(s: string) returns (i: nat, j: nat)
    ensures i <= j <= |s| && Trim(s) == s[i..j]
    ensures forall k :: 0 <= k < i || j <= k < |s| ==> IsSpace(s[k])
    ensures i < j ==> !IsSpace(s[i]) && !IsSpace(s[j - 1])
    decreases |s|
  {
    hide IsSpace;
    if s == "" {
      i, j := 0, 0;
    } else if IsSpace(s[0]) {
      i, j := TrimIsExact(s[1..]);
      assert s[1..][i..j] == s[i + 1..j + 1];
      assert forall k :: 1 <= k < |s| ==> s[k] == s[1..][k - 1];
      i, j := i + 1, j + 1;
    } else if IsSpace(s[|s| - 1]) {
      i, j := TrimIsExact(s[..|s| - 1]);
      assert s[..|s| - 1][i..j] == s[i..j];
    } else {
      i, j := 0, |s|;
    }
  }

  // ---------------------------------------------------------------------------------------
  // The handlers
  // ---------------------------------------------------------------------------------------

  class Model {
    const format: string -> string  // pretty-printing of a tool result

    var input: string
    var content: string
    var status: string
    var busy: bool
    var err: Option<string>
    var streaming: bool
    var cancel: Option<Run>
    var runs: nat
    var cancelled: set<Run>

    ghost function State(): Ui
      reads this
    {
      Ui(input, content, status, busy, err, streaming, cancel, runs, cancelled)
    }

    constructor (format: string -> string)
      ensures this.format == format && State() == NEW_MODEL
    {
      this.format := format;
      input, content, status, busy, err := "", "", "ready", false, None;
      streaming, cancel, runs, cancelled := false, None, 0, {};
    }

    method Update(msg: Msg) returns (cmd: Cmd)
      modifies this
      ensures State() == After(format, old(State()), msg) && cmd == Command(old(State()), msg)
      ensures msg.SendFailed? ==>
        !busy && cancel.None? && err == Some(msg.err) && status == "error: " + Sanitize(msg.err) && cmd == NoCmd
      ensures msg.ChannelClosed? ==> !busy && cancel.None? && err == old(err) && status == old(status) && cmd == NoCmd
      ensures msg.ChannelReady? ==> State() == old(State()) && cmd == Listen(msg.run)
    {
      match msg
      case Resize => cmd := NoCmd;
      case Other(text) =>
        input := text;
        cmd := InputCmd;
      case KeyPress(key) => cmd := HandleKey(key);
      case ChannelReady(run) => cmd := Listen(run);
      case SendFailed(why) =>
        var clean := S.Sanitize(why);
        err := Some(why);
        status := "error: " + clean;
        busy := false;
        LetGo();
        cmd := NoCmd;
      case EventArrived(run, ev) => cmd := HandleAgentEvent(run, ev);
      case ChannelClosed(_) =>
        busy := false;
        LetGo();
        cmd := NoCmd;
    }

    method HandleKey(key: Key) returns (cmd: Cmd)
      modifies this
      ensures State() == After(format, old(State()), KeyPress(key)) && cmd == Command(old(State()), KeyPress(key))
    {
      match key
      case Interrupt =>
        if cancel.Some? { cancelled := cancelled + {cancel.value}; }
        cmd := Quit;
      case Enter =>
        if busy { return NoCmd; }
        var text := Trim(input);
        if text == "" { return NoCmd; }
        cmd := Submit(text);
      case Typed(text) =>
        input := text;
        cmd := InputCmd;
    }

    method Submit(text: string) returns (cmd: Cmd)
      modifies this
      ensures State() == Submitted(old(State()), text) && cmd == Send(old(runs), text)
      ensures input == "" && busy && err.None? && status == "thinking..." && cancel == Some(old(runs))
    {
      hide S.Filter, Separator;
      input := "";
      busy := true;
      err := None;
      status := "thinking...";
      streaming := false;
      BeginBlock();
      var clean := S.Sanitize(text);
      content := content + "You: " + clean;
      cancel := Some(runs);
      cmd := Send(runs, text);
      runs := runs + 1;
    }

    method HandleAgentEvent(run: Run, ev: AgentEvent) returns (cmd: Cmd)
      modifies this
      ensures State() == AfterEvent(format, old(State()), ev) && cmd == Command(old(State()), EventArrived(run, ev))
      ensures match ev
        case TurnComplete => cmd == NoCmd && !busy && cancel.None? && status == "ready" && err == old(err)
        case Error(cause) => cmd == NoCmd && !busy && cancel.None? && status == "error" && err == Some(Text(cause))
        case ToolCallStarted(call) =>
          && cmd == Listen(run) && busy == old(busy) && cancel == old(cancel) && err == old(err)
          && status == "running tool: " + Sanitize(call.name)
        case _ =>
          cmd == Listen(run) && busy == old(busy) && cancel == old(cancel) && err == old(err) && status == "thinking..."
    {
      hide S.Filter, Separator;
      match ev {
        case TextDelta(text) =>
          ShowDelta(text);
        case ToolCallStarted(call) =>
          streaming := false;
          var name := S.Sanitize(call.name);
          status := "running tool: " + name;
        case ToolCallFinished(result) =>
          streaming := false;
          BeginBlock();
          var clean := S.Sanitize(format(result));
          content := content + clean;
          status := "thinking...";
        case TurnComplete =>
          streaming := false;
          busy := false;
          status := "ready";
          LetGo();
          return NoCmd;
        case Error(cause) =>
          busy := false;
          err := Some(Text(cause));
          status := "error";
          LetGo();
          return NoCmd;
      }
      return Listen(run);
    }

    method ShowDelta(text: string)
      modifies this`content, this`streaming, this`status
      ensures State() == AfterEvent(format, old(State()), TextDelta(text))
    {
      hide S.Filter, Separator;
      if !streaming {
        BeginBlock();
        content := content + "Pythia: ";
        streaming := true;
      }
      var clean := S.Sanitize(text);
      content := content + clean;
      status := "thinking...";
    }

    method BeginBlock()
      modifies this`content
      ensures content == old(content) + Separator(old(content))
    {
      if |content| == 0 { return; }
      if content[|content| - 1] != '\n' {
        content := content + "\n";
      }
      content := content + "\n";
    }

    method LetGo()
      modifies this`cancel, this`cancelled
      ensures State() == Released(old(State()))
    {
      if cancel.Some? {
        cancelled := cancelled + {cancel.value};
        cancel := None;
      }
    }
  }

  // ---------------------------------------------------------------------------------------
  // The event loop
  // ---------------------------------------------------------------------------------------

  /** A run is being set up, or its agent may still act, or it has had its last word: Send
      failed, its terminal event is out, or its channel is closed. */
  datatype Life = Starting | Talking | Over

  /** A turn command being executed, or the message it ended with on its way to Update. */
  datatype Item = Executing(cmd: Cmd) | Arriving(msg: Msg)

  /** Where a block begins, and with which label. */
  datatype Block = Block(start: nat, speaker: string)

  /** A quit command may be on its way, during which messages are still handled; once the loop
      stops, none are. */
  datatype World = World(
    ui: Ui, items: seq<Item>, lives: seq<Life>, blocks: seq<Block>, quitting: bool, stopped: bool)

  const START := World(NEW_MODEL, [], [], [], false, false)

  datatype Step =
    | UserActs(msg: Msg)
    | SendReturns(k: nat, err: Option<string>)
    | ListenReturns(k: nat, ev: Option<AgentEvent>)
    | Process(k: nat)
    | Stop

  predicate FromUser(msg: Msg) { msg.Resize? || msg.Other? || msg.KeyPress? }

  predicate TurnCommand(cmd: Cmd) { cmd.Send? || cmd.Listen? }

  predicate Last(ev: AgentEvent) { ev.TurnComplete? || ev.Error? }

  predicate Enabled(w: World, s: Step) {
    match s
    case UserActs(msg) => FromUser(msg) && !w.stopped
    case SendReturns(k, _) =>
      k < |w.items| && w.items[k].Executing? && w.items[k].cmd.Send? && w.items[k].cmd.run < |w.lives|
    case ListenReturns(k, ev) =>
      k < |w.items| && w.items[k].Executing? && w.items[k].cmd.Listen? && w.items[k].cmd.run < |w.lives|
      && (w.lives[w.items[k].cmd.run].Over? ==> ev.None?)  // nothing follows a last word
    case Process(k) => k < |w.items| && w.items[k].Arriving? && !w.stopped
    case Stop => w.quitting && !w.stopped
  }

  /** Which block, if any, a message begins. */
  function Opens(ui: Ui, msg: Msg): Option<string> {
    match msg
    case KeyPress(Enter) => if ui.busy || Trim(ui.input) == "" then None else Some("You: ")
    case EventArrived(_, TextDelta(_)) => if ui.streaming then None else Some("Pythia: ")
    case EventArrived(_, ToolCallFinished(_)) => Some("")
    case _ => None
  }

  function Handled(format: string -> string, w: World, msg: Msg): World {
    var cmd := Command(w.ui, msg);
    var opens := Opens(w.ui, msg);
    World(
      After(format, w.ui, msg),
      if TurnCommand(cmd) then w.items + [Executing(cmd)] else w.items,
      if cmd.Send? then w.lives + [Starting] else w.lives,
      if opens.None? then w.blocks
      else w.blocks + [Block(|w.ui.content + Separator(w.ui.content)|, opens.value)],
      w.quitting || cmd.Quit?,
      w.stopped)
  }

  function Without(items: seq<Item>, k: nat): seq<Item>
    requires k < |items|
  {
    items[..k] + items[k + 1..]
  }

  function Do(format: string -> string, w: World, s: Step): World
    requires Enabled(w, s)
  {
    match s
    case UserActs(msg) => Handled(format, w, msg)
    case SendReturns(k, err) =>
      var run := w.items[k].cmd.run;
      if err.Some? then w.(items := w.items[k := Arriving(SendFailed(err.value))], lives := w.lives[run := Over])
      else w.(items := w.items[k := Arriving(ChannelReady(run))], lives := w.lives[run := Talking])
    case ListenReturns(k, ev) =>
      var run := w.items[k].cmd.run;
      var life := if ev.None? || Last(ev.value) then Over else w.lives[run];
      w.(items := w.items[k := Arriving(if ev.None? then ChannelClosed(run) else EventArrived(run, ev.value))],
         lives := w.lives[run := life])
    case Process(k) => Handled(format, w.(items := Without(w.items, k)), w.items[k].msg)
    case Stop => w.(stopped := true)
  }

  function Reached(format: string -> string, steps: seq<Step>): Option<World> {
    if steps == [] then Some(START) else
      var before := Reached(format, steps[..|steps| - 1]);
      if before.Some? && Enabled(before.value, steps[|steps| - 1])
      then Some(Do(format, before.value, steps[|steps| - 1])) else None
  }

  // ---------------------------------------------------------------------------------------
  // One run at a time
  // ---------------------------------------------------------------------------------------

  /** What the one outstanding command or message of a busy model may be. */
  predicate GoodItem(item: Item, run: Run, life: Life) {
    match item
    case Executing(Send(r, _)) => r == run && life.Starting?
    case Executing(Listen(r)) => r == run && life.Talking?
    case Executing(_) => false
    case Arriving(ChannelReady(r)) => r == run && life.Talking?
    case Arriving(SendFailed(_)) => life.Over?
    case Arriving(EventArrived(r, ev)) => r == run && life == (if Last(ev) then Over else Talking)
    case Arriving(ChannelClosed(r)) => r == run && life.Over?
    case Arriving(_) => false
  }

  predicate OneRun(w: World) {
    && w.ui.runs == |w.lives|
    && (w.ui.busy <==> w.ui.cancel.Some?)
    && |w.items| == (if w.ui.busy then 1 else 0)
    && (w.ui.busy ==>
          && 0 < |w.lives| && w.ui.cancel.value == |w.lives| - 1
          && GoodItem(w.items[0], w.ui.cancel.value, w.lives[w.ui.cancel.value]))
    && (forall r :: 0 <= r < |w.lives| && w.ui.cancel != Some(r) ==> w.lives[r].Over? && r in w.ui.cancelled)
  }

  lemma StepKeepsOneRun(format: string -> string, w: World, s: Step)
    requires OneRun(w) && Enabled(w, s)
    ensures OneRun(Do(format, w, s))
  {
    match s
    case UserActs(msg) => UserKeepsOneRun(format, w, msg);
    case Process(k) => ProcessKeepsOneRun(format, w, k);
    case _ => ReturnKeepsOneRun(format, w, s);
  }

  lemma UserKeepsOneRun(format: string -> string, w: World, msg: Msg)
    requires OneRun(w) && FromUser(msg)
    ensures OneRun(Handled(format, w, msg))
  {
    hide Trim, Separator, S.Filter;
  }

  lemma ReturnKeepsOneRun(format: string -> string, w: World, s: Step)
    requires OneRun(w) && Enabled(w, s) && (s.SendReturns? || s.ListenReturns? || s.Stop?)
    ensures OneRun(Do(format, w, s))
  {
    hide After, Command;
  }

  lemma ProcessKeepsOneRun(format: string -> string, w: World, k: nat)
    requires OneRun(w) && Enabled(w, Process(k))
    ensures OneRun(Do(format, w, Process(k)))
  {
    hide Trim, Separator, S.Filter;
    assert Without(w.items, k) == [];
  }

  lemma {:induction false} RunsKeepOneRun(format: string -> string, steps: seq<Step>)
    requires Reached(format, steps).Some?
    ensures OneRun(Reached(format, steps).value)
  {
    if steps != [] {
      var n := |steps| - 1;
      RunsKeepOneRun(format, steps[..n]);
      StepKeepsOneRun(format, Reached(format, steps[..n]).value, steps[n]);
    }
  }

  /** In every reachable state the model is busy exactly when it holds a cancel function, and
      exactly then one turn command is outstanding; only that run may still act, and every
      other run was cancelled when it was let go. */
  lemma AtMostOneRunIsLive(format: string -> string, steps: seq<Step>)
    requires Reached(format, steps).Some?
    ensures var w := Reached(format, steps).value;
      && (w.ui.busy <==> w.ui.cancel.Some?)
      && |w.items| == (if w.ui.busy then 1 else 0)
      && (forall r :: 0 <= r < |w.lives| && !w.lives[r].Over? ==> w.ui.cancel == Some(r))
      && (forall r :: 0 <= r < |w.lives| ==> w.ui.cancel == Some(r) || r in w.ui.cancelled)
  {
    RunsKeepOneRun(format, steps);
  }

  // ---------------------------------------------------------------------------------------
  // No run is abandoned
  // ---------------------------------------------------------------------------------------

  /** The loop is still there, with that run's command or message in hand and nothing else. */
  predicate Attends(w: World, run: Run)
    requires run < |w.lives|
  {
    !w.stopped && w.ui.cancel == Some(run) && |w.items| == 1 && GoodItem(w.items[0], run, w.lives[run])
  }

  predicate HeardOrCancelled(w: World) {
    forall r :: 0 <= r < |w.lives| ==> Attends(w, r) || r in w.ui.cancelled
  }

  /** Every run is attended to or its context was cancelled, exactly unless the loop stopped while
      the model held a cancel function that it had not called. */
  lemma AbandonedExactlyWhenStoppedUncancelled(format: string -> string, steps: seq<Step>)
    requires Reached(format, steps).Some?
    ensures var w := Reached(format, steps).value;
      HeardOrCancelled(w) <==> !(w.stopped && w.ui.cancel.Some? && w.ui.cancel.value !in w.ui.cancelled)
  {
    RunsKeepOneRun(format, steps);
  }

  /** The user begins a run while a quit is on its way. */
  predicate SubmitsLate(w: World, s: Step) {
    w.quitting && s.UserActs? && Command(w.ui, s.msg).Send?
  }

  /** None of the steps does. */
  predicate OnTime(format: string -> string, steps: seq<Step>)
    requires Reached(format, steps).Some?
  {
    steps == [] ||
    (OnTime(format, steps[..|steps| - 1]) &&
     !SubmitsLate(Reached(format, steps[..|steps| - 1]).value, steps[|steps| - 1]))
  }

  /** After an interrupt the run in flight is cancelled, and no other is begun on time. */
  predicate QuitsCleanly(w: World) {
    && (w.stopped ==> w.quitting)
    && (w.quitting && w.ui.cancel.Some? ==> w.ui.cancel.value in w.ui.cancelled)
  }

  lemma StepQuitsCleanly(format: string -> string, w: World, s: Step)
    requires OneRun(w) && QuitsCleanly(w) && Enabled(w, s) && !SubmitsLate(w, s)
    ensures QuitsCleanly(Do(format, w, s))
  {
    hide Trim, Separator, S.Filter;
  }

  lemma {:induction false} RunsQuitCleanly(format: string -> string, steps: seq<Step>)
    requires Reached(format, steps).Some? && OnTime(format, steps)
    ensures QuitsCleanly(Reached(format, steps).value)
  {
    if steps != [] {
      var n := |steps| - 1;
      RunsQuitCleanly(format, steps[..n]);
      RunsKeepOneRun(format, steps[..n]);
      hide OneRun, QuitsCleanly, SubmitsLate;
      StepQuitsCleanly(format, Reached(format, steps[..n]).value, steps[n]);
    }
  }

  /** So the interface never abandons a run, unless one is begun after the key that quits and
      before the loop stops. */
  lemma NoRunIsAbandoned(format: string -> string, steps: seq<Step>)
    requires Reached(format, steps).Some? && OnTime(format, steps)
    ensures HeardOrCancelled(Reached(format, steps).value)
  {
    RunsQuitCleanly(format, steps);
    AbandonedExactlyWhenStoppedUncancelled(format, steps);
  }

  /** Such a run is abandoned: typed, quit, entered all the same, stopped. */
  lemma LateRunIsAbandoned(format: string -> string) returns (steps: seq<Step>)
    ensures Reached(format, steps).Some? && !OnTime(format, steps)
    ensures var w := Reached(format, steps).value;
      |w.lives| == 1 && w.lives[0].Starting? && !Attends(w, 0) && 0 !in w.ui.cancelled
  {
    var typed, quits := UserActs(KeyPress(Typed("x"))), UserActs(KeyPress(Interrupt));
    var enters := UserActs(KeyPress(Enter));
    hide Reached, OnTime, Handled, After, Command;
    var one, two, three := [typed], [typed, quits], [typed, quits, enters];
    steps := [typed, quits, enters, Stop];
    assert [] + [typed] == one && one + [quits] == two && two + [enters] == three && three + [Stop] == steps;
    StartIsReached(format);
    var w0 := TypedAndQuit(format);
    var w1 := OneMore(format, [], START, typed);
    var w2 := OneMore(format, one, w1, quits);
    LateSubmit(format, w2);
    var w3 := OneMore(format, two, w2, enters);
    LateIsLate(format, two, enters);
    var w4 := OneMore(format, three, w3, Stop);
    LateStaysLate(format, three, Stop);
  }

  lemma StartIsReached(format: string -> string)
    ensures Reached(format, []) == Some(START)
  {
  }

  /** Typing and quitting, with nothing to cancel. */
  lemma TypedAndQuit(format: string -> string) returns (w: World)
    ensures w == START.(ui := NEW_MODEL.(input := "x"), quitting := true)
    ensures Enabled(START, UserActs(KeyPress(Typed("x"))))
    ensures Enabled(Do(format, START, UserActs(KeyPress(Typed("x")))), UserActs(KeyPress(Interrupt)))
    ensures Do(format, Do(format, START, UserActs(KeyPress(Typed("x")))), UserActs(KeyPress(Interrupt))) == w
  {
    w := START.(ui := NEW_MODEL.(input := "x"), quitting := true);
  }

  lemma LateSubmit(format: string -> string, w: World)
    requires w == START.(ui := NEW_MODEL.(input := "x"), quitting := true)
    ensures Enabled(w, UserActs(KeyPress(Enter))) && SubmitsLate(w, UserActs(KeyPress(Enter)))
    ensures var w' := Do(format, w, UserActs(KeyPress(Enter)));
      w'.lives == [Starting] && w'.ui.cancelled == {} && w'.quitting && !w'.stopped
  {
    hide Separator, S.Filter;
    assert Trim("x") == "x";
    assert [] + [Starting] == [Starting];
  }

  lemma LateIsLate(format: string -> string, steps: seq<Step>, s: Step)
    requires Reached(format, steps).Some? && Reached(format, steps + [s]).Some?
    requires SubmitsLate(Reached(format, steps).value, s)
    ensures !OnTime(format, steps + [s])
  {
    hide SubmitsLate;
    assert (steps + [s])[..|steps|] == steps;
  }

  lemma LateStaysLate(format: string -> string, steps: seq<Step>, s: Step)
    requires Reached(format, steps).Some? && Reached(format, steps + [s]).Some? && !OnTime(format, steps)
    ensures !OnTime(format, steps + [s])
  {
    hide SubmitsLate;
    assert (steps + [s])[..|steps|] == steps;
  }

  lemma OneMore(format: string -> string, steps: seq<Step>, w: World, s: Step) returns (w': World)
    requires Reached(format, steps) == Some(w) && Enabled(w, s)
    ensures w' == Do(format, w, s) && Reached(format, steps + [s]) == Some(w')
  {
    assert (steps + [s])[..|steps|] == steps;
    w' := Do(format, w, s);
  }

  // ---------------------------------------------------------------------------------------
  // The transcript
  // ---------------------------------------------------------------------------------------

  predicate GoodBlock(content: string, b: Block) {
    b.start + |b.speaker| <= |content| && content[b.start..b.start + |b.speaker|] == b.speaker
  }

  predicate AfterBlankLine(content: string, b: Block) {
    2 <= b.start <= |content| && content[b.start - 2] == '\n' && content[b.start - 1] == '\n'
  }

  /** Nothing a terminal would obey; every block begins with its label; every block after the
      first begins after a blank line; and a run can only have begun with a block. */
  predicate GoodTranscript(w: World) {
    && S.Clean(w.ui.content) && S.Clean(w.ui.status)
    && (forall i :: 0 <= i < |w.blocks| ==> GoodBlock(w.ui.content, w.blocks[i]))
    && (forall i :: 0 < i < |w.blocks| ==> AfterBlankLine(w.ui.content, w.blocks[i]))
    && (w.blocks == [] <==> w.ui.content == "")
    && (w.items != [] ==> w.blocks != [])
  }

  lemma SanitizeIsClean(s: string)
    ensures S.Clean(Sanitize(s))
  {
    S.FilterIsClean(S.Ground, s);
  }

  lemma CleanAppend(a: string, b: string)
    requires S.Clean(a) && S.Clean(b)
    ensures S.Clean(a + b)
  {
  }

  /** Content only ever grows, so blocks stay where they are. */
  lemma GrowthKeepsBlocks(content: string, more: string, b: Block)
    requires GoodBlock(content, b)
    ensures GoodBlock(content + more, b)
    ensures AfterBlankLine(content, b) ==> AfterBlankLine(content + more, b)
  {
    assert (content + more)[b.start..b.start + |b.speaker|] == content[b.start..b.start + |b.speaker|];
  }

  /** What it takes to begin after a blank line: nothing in an empty transcript, and else the end of
      the line, if it is not at its end, and one more. */
  lemma SeparatorIsBlankLine(content: string)
    ensures content != "" ==>
      var spaced := content + Separator(content);
      2 <= |spaced| && AfterBlankLine(spaced, Block(|spaced|, ""))
    ensures content == "" ==> Separator(content) == ""
    ensures content != "" ==>
      |Separator(content)| == if content[|content| - 1] == '\n' then 1 else 2
    ensures S.Clean(Separator(content))
  {
  }

  /** What a message adds to the transcript. */
  function Added(format: string -> string, ui: Ui, msg: Msg): string {
    match msg
    case KeyPress(Enter) =>
      if ui.busy || Trim(ui.input) == "" then "" else Sanitize(Trim(ui.input))
    case EventArrived(_, TextDelta(text)) => Sanitize(text)
    case EventArrived(_, ToolCallFinished(result)) => Sanitize(format(result))
    case _ => ""
  }

  function Preamble(ui: Ui, msg: Msg): string {
    var opens := Opens(ui, msg);
    if opens.None? then "" else Separator(ui.content) + opens.value
  }

  lemma ContentGrowsBy(format: string -> string, ui: Ui, msg: Msg)
    ensures After(format, ui, msg).content == ui.content + Preamble(ui, msg) + Added(format, ui, msg)
  {
    hide Sanitize, Separator, Trim;
    var c, sep, added := ui.content, Separator(ui.content), Added(format, ui, msg);
    var opens := Opens(ui, msg);
    if opens.None? {
      assert c + "" == c && c + added == After(format, ui, msg).content;
    } else {
      assert c + (sep + opens.value) == c + sep + opens.value;
      assert opens.value == "" ==> c + sep + opens.value == c + sep;
    }
  }

  lemma AddedIsClean(format: string -> string, ui: Ui, msg: Msg)
    ensures S.Clean(Preamble(ui, msg)) && S.Clean(Added(format, ui, msg))
  {
    SeparatorIsBlankLine(ui.content);
    hide Sanitize, Separator, Trim;
    match msg
    case KeyPress(Enter) => SanitizeIsClean(Trim(ui.input));
    case EventArrived(_, TextDelta(text)) => SanitizeIsClean(text);
    case EventArrived(_, ToolCallFinished(result)) => SanitizeIsClean(format(result));
    case _ =>
  }

  lemma LiteralsAreClean()
    ensures S.Clean("ready") && S.Clean("thinking...") && S.Clean("error")
    ensures S.Clean("error: ") && S.Clean("running tool: ")
  {
  }

  lemma StatusIsClean(format: string -> string, ui: Ui, msg: Msg)
    requires S.Clean(ui.status)
    ensures S.Clean(After(format, ui, msg).status)
  {
    LiteralsAreClean();
    hide Sanitize, Separator, Trim, S.Clean;
    match msg
    case SendFailed(err) =>
      SanitizeIsClean(err);
      CleanAppend("error: ", Sanitize(err));
    case EventArrived(_, ToolCallStarted(call)) =>
      SanitizeIsClean(call.name);
      CleanAppend("running tool: ", Sanitize(call.name));
    case _ =>
  }

  /** The blocks of a transcript that only grew, and grew a block where one was opened. */
  lemma BlocksGrow(c: string, blocks: seq<Block>, opens: Option<string>, added: string)
    returns (grown: string, blocks': seq<Block>)
    requires forall i :: 0 <= i < |blocks| ==> GoodBlock(c, blocks[i])
    requires forall i :: 0 < i < |blocks| ==> AfterBlankLine(c, blocks[i])
    requires blocks != [] ==> c != ""
    ensures grown == c + (if opens.None? then "" else Separator(c) + opens.value) + added
    ensures blocks' == if opens.None? then blocks else blocks + [Block(|c + Separator(c)|, opens.value)]
    ensures forall i :: 0 <= i < |blocks'| ==> GoodBlock(grown, blocks'[i])
    ensures forall i :: 0 < i < |blocks'| ==> AfterBlankLine(grown, blocks'[i])
  {
    hide GoodBlock, AfterBlankLine, Separator;
    var pre := if opens.None? then "" else Separator(c) + opens.value;
    grown := c + pre + added;
    blocks' := if opens.None? then blocks else blocks + [Block(|c + Separator(c)|, opens.value)];
    assert grown == c + (pre + added);
    forall i | 0 <= i < |blocks|
      ensures GoodBlock(grown, blocks[i])
      ensures i > 0 ==> AfterBlankLine(grown, blocks[i])
    {
      GrowthKeepsBlocks(c, pre + added, blocks[i]);
    }
    if opens.Some? { NewBlockIsGood(c, opens.value, added); }
  }

  lemma HandlingKeepsTranscript(format: string -> string, w: World, msg: Msg)
    requires GoodTranscript(w)
    requires w.blocks == [] ==> FromUser(msg)
    ensures GoodTranscript(Handled(format, w, msg))
  {
    var c, pre, added := w.ui.content, Preamble(w.ui, msg), Added(format, w.ui, msg);
    var grown, blocks := BlocksGrow(c, w.blocks, Opens(w.ui, msg), added);
    ContentGrowsBy(format, w.ui, msg);
    AddedIsClean(format, w.ui, msg);
    StatusIsClean(format, w.ui, msg);
    NonEmptyFromFirstBlock(format, w.ui, msg);
    assert grown == After(format, w.ui, msg).content;
    hide After, Added, Preamble, S.Clean, GoodBlock, AfterBlankLine, Separator, Sanitize;
    CleanAppend(c, pre);
    CleanAppend(c + pre, added);
  }

  lemma NonEmptyFromFirstBlock(format: string -> string, ui: Ui, msg: Msg)
    requires ui.content == "" ==> FromUser(msg)
    ensures var grown := ui.content + Preamble(ui, msg) + Added(format, ui, msg);
      (grown == "" <==> ui.content == "" && Opens(ui, msg).None?)
  {
    if ui.content == "" && Opens(ui, msg).None? { NothingWithoutBlock(format, ui, msg); }
  }

  lemma NothingWithoutBlock(format: string -> string, ui: Ui, msg: Msg)
    requires FromUser(msg) && Opens(ui, msg).None?
    ensures Added(format, ui, msg) == "" && Preamble(ui, msg) == ""
  {
  }

  lemma NewBlockIsGood(content: string, speaker: string, added: string)
    ensures var b := Block(|content + Separator(content)|, speaker);
      var grown := content + (Separator(content) + speaker) + added;
      GoodBlock(grown, b) && (content != "" ==> AfterBlankLine(grown, b))
  {
    SeparatorIsBlankLine(content);
    hide Separator, GoodBlock, AfterBlankLine;
    BlockStands(content + Separator(content), speaker, added);
    assert content + (Separator(content) + speaker) + added == content + Separator(content) + speaker + added;
  }

  lemma BlockStands(spaced: string, speaker: string, added: string)
    ensures GoodBlock(spaced + speaker + added, Block(|spaced|, speaker))
    ensures AfterBlankLine(spaced, Block(|spaced|, "")) ==>
            AfterBlankLine(spaced + speaker + added, Block(|spaced|, speaker))
  {
  }

  lemma StepKeepsTranscript(format: string -> string, w: World, s: Step)
    requires GoodTranscript(w) && Enabled(w, s)
    ensures GoodTranscript(Do(format, w, s))
  {
    match s
    case UserActs(msg) => HandlingKeepsTranscript(format, w, msg);
    case Process(k) => HandlingKeepsTranscript(format, w.(items := Without(w.items, k)), w.items[k].msg);
    case _ =>
  }

  /** In every reachable state, whatever was typed, streamed, or returned by tools, the
      transcript is good. */
  lemma {:induction false} TranscriptIsAlwaysGood(format: string -> string, steps: seq<Step>)
    requires Reached(format, steps).Some?
    ensures GoodTranscript(Reached(format, steps).value)
  {
    if steps == [] {
      LiteralsAreClean();
    } else {
      var n := |steps| - 1;
      TranscriptIsAlwaysGood(format, steps[..n]);
      StepKeepsTranscript(format, Reached(format, steps[..n]).value, steps[n]);
    }
  }

  // ---------------------------------------------------------------------------------------
  // Streamed text
  // ---------------------------------------------------------------------------------------

  /** What may come in between the deltas of an answer: whatever the user does, and the channel
      itself, which is what the first listening waits for. */
  predicate Quiet(msg: Msg) { FromUser(msg) || msg.ChannelReady? || IsDelta(msg) }

  predicate IsDelta(msg: Msg) { msg.EventArrived? && msg.ev.TextDelta? }

  /** Handles some messages, one after the other. */
  function AfterAll(format: string -> string, ui: Ui, msgs: seq<Msg>): Ui {
    if msgs == [] then ui else After(format, AfterAll(format, ui, msgs[..|msgs| - 1]), msgs[|msgs| - 1])
  }

  function DeltasOf(msgs: seq<Msg>): seq<string> {
    if msgs == [] then [] else
      var last := msgs[|msgs| - 1];
      DeltasOf(msgs[..|msgs| - 1]) + if IsDelta(last) then [last.ev.text] else []
  }

  function SanitizeEach(texts: seq<string>): string {
    if texts == [] then "" else SanitizeEach(texts[..|texts| - 1]) + Sanitize(texts[|texts| - 1])
  }

  /** What the label of a stretch of deltas adds to the transcript. */
  function Label(ui: Ui): string { if ui.streaming then "" else Separator(ui.content) + "Pythia: " }

  predicate OneLabel(ui: Ui, deltas: seq<string>, after: Ui) {
    && after.busy
    && (deltas == [] ==> after.content == ui.content && after.streaming == ui.streaming)
    && (deltas != [] ==> after.content == ui.content + Label(ui) + SanitizeEach(deltas) && after.streaming)
  }

  /** While a run is in flight, all deltas between two of its other events share one label,
      whatever else is handled in between: they add one block that holds all their texts, and
      nothing else adds anything. */
  lemma {:induction false} DeltasShareOneLabel(format: string -> string, ui: Ui, msgs: seq<Msg>)
    requires ui.busy && forall msg :: msg in msgs ==> Quiet(msg)
    ensures OneLabel(ui, DeltasOf(msgs), AfterAll(format, ui, msgs))
  {
    if msgs != [] {
      var n := |msgs| - 1;
      assert msgs[n] in msgs;
      DeltasShareOneLabel(format, ui, msgs[..n]);
      OneMoreMessage(format, ui, DeltasOf(msgs[..n]), AfterAll(format, ui, msgs[..n]), msgs[n]);
    }
  }

  lemma OneMoreMessage(format: string -> string, ui: Ui, deltas: seq<string>, before: Ui, msg: Msg)
    requires OneLabel(ui, deltas, before) && Quiet(msg)
    ensures OneLabel(ui, deltas + if IsDelta(msg) then [msg.ev.text] else [], After(format, before, msg))
  {
    if IsDelta(msg) {
      OneMoreDelta(format, ui, deltas, before, msg);
    } else {
      hide Separator, Sanitize, SanitizeEach, Trim;
      assert deltas + [] == deltas;
    }
  }

  lemma OneMoreDelta(format: string -> string, ui: Ui, deltas: seq<string>, before: Ui, msg: Msg)
    requires OneLabel(ui, deltas, before) && IsDelta(msg)
    ensures OneLabel(ui, deltas + [msg.ev.text], After(format, before, msg))
  {
    var texts, text := deltas + [msg.ev.text], msg.ev.text;
    ContentGrowsBy(format, before, msg);
    EachOneMore(texts);
    assert texts[..|deltas|] == deltas;
    hide Separator, Sanitize, SanitizeEach;
    if deltas == [] {
      assert SanitizeEach(texts) == Sanitize(text) by { JustOne(text); }
      assert before.content + Preamble(before, msg) == ui.content + Label(ui);
    } else {
      TextsAssociate(ui.content + Label(ui), SanitizeEach(deltas), Sanitize(text));
    }
  }

  lemma JustOne(text: string)
    ensures SanitizeEach([text]) == Sanitize(text)
  {
    EachOneMore([text]);
  }

  lemma TextsAssociate(a: string, b: string, c: string)
    ensures a + b + "" + c == a + (b + c)
  {
  }

  lemma EachOneMore(texts: seq<string>)
    requires texts != []
    ensures SanitizeEach(texts) == SanitizeEach(texts[..|texts| - 1]) + Sanitize(texts[|texts| - 1])
    ensures |texts| == 1 ==> SanitizeEach(texts) == Sanitize(texts[0])
  {
    if |texts| == 1 {
      assert texts[..0] == [];
    }
  }

  // ---------------------------------------------------------------------------------------
  // Streamed text in the event loop
  // ---------------------------------------------------------------------------------------

  /** The message a step hands to Update, if it does. */
  function HandledBy(w: World, s: Step): seq<Msg>
    requires Enabled(w, s)
  {
    match s
    case UserActs(msg) => [msg]
    case Process(k) => [w.items[k].msg]
    case _ => []
  }

  /** All messages handled from step `n` on. */
  function HandledFrom(format: string -> string, steps: seq<Step>, n: nat): seq<Msg>
    requires n <= |steps| && Reached(format, steps).Some?
  {
    if |steps| == n then [] else
      var m := |steps| - 1;
      HandledFrom(format, steps[..m], n) + HandledBy(Reached(format, steps[..m]).value, steps[m])
  }

  /** The blocks of a stretch of deltas: one more, or the one that is being written. */
  predicate OneBlock(w: World, deltas: seq<string>, after: World) {
    && OneLabel(w.ui, deltas, after.ui)
    && after.blocks == w.blocks +
         if w.ui.streaming || deltas == [] then [] else [Block(|w.ui.content + Separator(w.ui.content)|, "Pythia: ")]
  }

  lemma HandlingKeepsOneBlock(format: string -> string, w: World, deltas: seq<string>, before: World, msg: Msg)
    requires OneBlock(w, deltas, before) && Quiet(msg)
    ensures OneBlock(w, deltas + if IsDelta(msg) then [msg.ev.text] else [], Handled(format, before, msg))
  {
    OneMoreMessage(format, w.ui, deltas, before.ui, msg);
    hide Separator, After, Trim, SanitizeEach, Command;
    assert before.blocks + [] == before.blocks && w.blocks + [] == w.blocks;
  }

  /** In every run of the event loop: from any point where an agent's run is in flight, for as
      long as no other event of it is handled, the transcript grows by the deltas under one
      label, and by at most one block. */
  lemma {:induction false} StretchesShareOneLabel(format: string -> string, steps: seq<Step>, n: nat)
    requires n <= |steps| && Reached(format, steps).Some?
    requires Reached(format, steps[..n]).Some? && Reached(format, steps[..n]).value.items != []
    requires forall msg :: msg in HandledFrom(format, steps, n) ==> Quiet(msg)
    ensures OneBlock(Reached(format, steps[..n]).value, DeltasOf(HandledFrom(format, steps, n)),
              Reached(format, steps).value)
    decreases |steps|
  {
    hide Reached, HandledFrom, HandledBy, DeltasOf, OneBlock, OneRun, Quiet, Enabled, Do;
    var w := Reached(format, steps[..n]).value;
    if |steps| == n {
      assert steps[..n] == steps;
      NothingHandledYet(format, steps, w);
    } else {
      var before, s := steps[..|steps| - 1], steps[|steps| - 1];
      OneStepOn(format, steps, n);
      var now := HandledBy(Reached(format, before).value, s);
      assert forall msg :: msg in HandledFrom(format, before, n) || msg in now ==> msg in HandledFrom(format, steps, n);
      StretchesShareOneLabel(format, before, n);
      StepKeepsOneBlock(format, w, HandledFrom(format, before, n), Reached(format, before).value, s);
    }
  }

  lemma NothingHandledYet(format: string -> string, steps: seq<Step>, w: World)
    requires Reached(format, steps) == Some(w) && w.items != []
    ensures OneBlock(w, DeltasOf(HandledFrom(format, steps, |steps|)), w)
  {
    RunsKeepOneRun(format, steps);
    assert w.blocks + [] == w.blocks;
  }

  lemma OneStepOn(format: string -> string, steps: seq<Step>, n: nat)
    requires n < |steps| && Reached(format, steps).Some?
    ensures var before, s := steps[..|steps| - 1], steps[|steps| - 1];
      && before[..n] == steps[..n]
      && Reached(format, before).Some? && Enabled(Reached(format, before).value, s)
      && Reached(format, steps).value == Do(format, Reached(format, before).value, s)
      && HandledFrom(format, steps, n) == HandledFrom(format, before, n) + HandledBy(Reached(format, before).value, s)
  {
    assert steps[..|steps| - 1][..n] == steps[..n];
  }

  lemma StepKeepsOneBlock(format: string -> string, w: World, earlier: seq<Msg>, before: World, s: Step)
    requires Enabled(before, s) && OneBlock(w, DeltasOf(earlier), before)
    requires forall msg :: msg in HandledBy(before, s) ==> Quiet(msg)
    ensures OneBlock(w, DeltasOf(earlier + HandledBy(before, s)), Do(format, before, s))
  {
    var now := HandledBy(before, s);
    if now == [] {
      assert earlier + now == earlier;
    } else {
      var msg := now[0];
      assert msg in now && (earlier + now)[..|earlier|] == earlier && (earlier + now)[|earlier|] == msg;
      var handler := if s.Process? then before.(items := Without(before.items, s.k)) else before;
      assert OneBlock(w, DeltasOf(earlier), handler);
      HandlingKeepsOneBlock(format, w, DeltasOf(earlier), handler, msg);
    }
  }

  // ---------------------------------------------------------------------------------------
  // What each step shows
  // ---------------------------------------------------------------------------------------

  /** Step `k` hands this message to Update. */
  ghost predicate Handles(format: string -> string, steps: seq<Step>, k: nat, msg: Msg) {
    && k < |steps| && Reached(format, steps[..k]).Some?
    && Enabled(Reached(format, steps[..k]).value, steps[k])
    && HandledBy(Reached(format, steps[..k]).value, steps[k]) == [msg]
  }

  /** A delta is handled. */
  ghost predicate ShowsText(format: string -> string, steps: seq<Step>, k: nat) {
    exists run, text :: Handles(format, steps, k, EventArrived(run, TextDelta(text)))
  }

  predicate EndsText(ev: AgentEvent) { ev.ToolCallStarted? || ev.ToolCallFinished? || ev.TurnComplete? }

  /** A tool event or the end of a turn is handled, or the user begins a run. */
  ghost predicate Interrupts(format: string -> string, steps: seq<Step>, k: nat) {
    || (exists run, ev :: EndsText(ev) && Handles(format, steps, k, EventArrived(run, ev)))
    || (exists msg :: Handles(format, steps, k, msg) && Command(Reached(format, steps[..k]).value.ui, msg).Send?)
  }

  /** Some text was shown, and nothing has interrupted it since. */
  ghost predicate TextGoesOn(format: string -> string, steps: seq<Step>) {
    exists k :: 0 <= k < |steps| && ShowsText(format, steps, k) && GoesOnFrom(format, steps, k)
  }

  ghost predicate GoesOnFrom(format: string -> string, steps: seq<Step>, k: nat) {
    forall j :: k < j < |steps| ==> !Interrupts(format, steps, j)
  }

  lemma HandlesEarlier(format: string -> string, steps: seq<Step>, n: nat, k: nat)
    requires k < n <= |steps|
    ensures forall msg :: Handles(format, steps[..n], k, msg) <==> Handles(format, steps, k, msg)
    ensures ShowsText(format, steps[..n], k) <==> ShowsText(format, steps, k)
    ensures Interrupts(format, steps[..n], k) <==> Interrupts(format, steps, k)
  {
    hide Reached, Enabled, HandledBy, Command;
    assert steps[..n][..k] == steps[..k] && steps[..n][k] == steps[k];
    assert forall msg :: Handles(format, steps[..n], k, msg) <==> Handles(format, steps, k, msg);
    hide Handles;
    assert ShowsText(format, steps[..n], k) <==> ShowsText(format, steps, k);
  }

  /** The text goes on over one more step exactly if that shows some, or it went on before and the
      step does not interrupt it. */
  lemma GoesOnOneStep(format: string -> string, steps: seq<Step>)
    requires steps != []
    ensures var n := |steps| - 1;
      TextGoesOn(format, steps) <==>
      ShowsText(format, steps, n) || (TextGoesOn(format, steps[..n]) && !Interrupts(format, steps, n))
  {
    var n := |steps| - 1;
    forall k | 0 <= k < n
      ensures ShowsText(format, steps[..n], k) <==> ShowsText(format, steps, k)
      ensures Interrupts(format, steps[..n], k) <==> Interrupts(format, steps, k)
    {
      HandlesEarlier(format, steps, n, k);
    }
    hide ShowsText, Interrupts;
    if ShowsText(format, steps, n) {
      assert GoesOnFrom(format, steps, n);
    } else {
      assert forall k :: 0 <= k < n ==>
        (GoesOnFrom(format, steps, k) <==> GoesOnFrom(format, steps[..n], k) && !Interrupts(format, steps, n));
    }
  }

  lemma LastStep(format: string -> string, steps: seq<Step>)
    requires steps != [] && Reached(format, steps).Some?
    ensures var n := |steps| - 1;
      && Reached(format, steps[..n]).Some? && Enabled(Reached(format, steps[..n]).value, steps[n])
      && Reached(format, steps).value == Do(format, Reached(format, steps[..n]).value, steps[n])
      && forall msg ::
           Handles(format, steps, n, msg) <==> HandledBy(Reached(format, steps[..n]).value, steps[n]) == [msg]
  {
  }

  /** What one step does to the flag, in terms of the message it handles. */
  lemma FlagAfterStep(format: string -> string, w: World, s: Step)
    requires Enabled(w, s)
    ensures HandledBy(w, s) == [] ==> Do(format, w, s).ui == w.ui
    ensures HandledBy(w, s) != [] ==>
      var msg := HandledBy(w, s)[0];
      && HandledBy(w, s) == [msg]
      && (Do(format, w, s).ui.streaming <==>
            IsDelta(msg) || (w.ui.streaming && !(msg.EventArrived? && EndsText(msg.ev)) && !Command(w.ui, msg).Send?))
  {
    hide Trim, Separator, S.Filter;
  }

  /** In every reachable state the model takes itself to be in the middle of a text exactly if the
      last thing that was handled, of all that shows or interrupts text, showed some. */
  lemma {:induction false} StreamingMeansTextGoesOn(format: string -> string, steps: seq<Step>)
    requires Reached(format, steps).Some?
    ensures Reached(format, steps).value.ui.streaming <==> TextGoesOn(format, steps)
  {
    if steps != [] {
      var n := |steps| - 1;
      LastStep(format, steps);
      StreamingMeansTextGoesOn(format, steps[..n]);
      GoesOnOneStep(format, steps);
      var w, s := Reached(format, steps[..n]).value, steps[n];
      FlagAfterStep(format, w, s);
      hide Reached, Enabled, Do, HandledBy, Command, TextGoesOn, Handles;
      if HandledBy(w, s) != [] {
        var msg := HandledBy(w, s)[0];
        assert Handles(format, steps, n, msg);
        assert forall other :: Handles(format, steps, n, other) <==> other == msg;
      }
    }
  }

  /** What the transcript grows by, and where, when a step handles a message. A delta begins a block
      under a label exactly if no text goes on; a result and a submission always begin one; nothing
      else shows anything. */
  lemma EachStepShows(format: string -> string, steps: seq<Step>, msg: Msg)
    requires steps != [] && Reached(format, steps).Some? && Handles(format, steps, |steps| - 1, msg)
    ensures Reached(format, steps[..|steps| - 1]).Some?
    ensures var w, after := Reached(format, steps[..|steps| - 1]).value, Reached(format, steps).value;
      var content := w.ui.content;
      var at := |content + Separator(content)|;
      match msg
      case EventArrived(_, TextDelta(text)) =>
        if TextGoesOn(format, steps[..|steps| - 1])
        then after.ui.content == content + S.Filter(S.Ground, text) && after.blocks == w.blocks
        else
          && after.ui.content == content + Separator(content) + "Pythia: " + S.Filter(S.Ground, text)
          && after.blocks == w.blocks + [Block(at, "Pythia: ")]
      case EventArrived(_, ToolCallFinished(result)) =>
        && after.ui.content == content + Separator(content) + S.Filter(S.Ground, format(result))
        && after.blocks == w.blocks + [Block(at, "")]
      case KeyPress(Enter) =>
        if w.ui.busy || Trim(w.ui.input) == "" then after.ui == w.ui && after.blocks == w.blocks
        else
          && after.ui.content == content + Separator(content) + "You: " + S.Filter(S.Ground, Trim(w.ui.input))
          && after.blocks == w.blocks + [Block(at, "You: ")]
          && after.lives == w.lives + [Starting] && after.ui.busy && after.ui.input == ""
          && after.items == w.items + [Executing(Send(|w.lives|, Trim(w.ui.input)))]
      case _ => after.ui.content == content && after.blocks == w.blocks
  {
    LastStep(format, steps);
    var n := |steps| - 1;
    StreamingMeansTextGoesOn(format, steps[..n]);
    RunsKeepOneRun(format, steps[..n]);
    hide Reached, TextGoesOn, Handles;
    StepShows(format, Reached(format, steps[..n]).value, steps[n], msg);
  }

  lemma StepShows(format: string -> string, w: World, s: Step, msg: Msg)
    requires OneRun(w) && Enabled(w, s) && HandledBy(w, s) == [msg]
    ensures var after := Do(format, w, s);
      var content := w.ui.content;
      var at := |content + Separator(content)|;
      match msg
      case EventArrived(_, TextDelta(text)) =>
        if w.ui.streaming
        then after.ui.content == content + S.Filter(S.Ground, text) && after.blocks == w.blocks
        else
          && after.ui.content == content + Separator(content) + "Pythia: " + S.Filter(S.Ground, text)
          && after.blocks == w.blocks + [Block(at, "Pythia: ")]
      case EventArrived(_, ToolCallFinished(result)) =>
        && after.ui.content == content + Separator(content) + S.Filter(S.Ground, format(result))
        && after.blocks == w.blocks + [Block(at, "")]
      case KeyPress(Enter) =>
        if w.ui.busy || Trim(w.ui.input) == "" then after.ui == w.ui && after.blocks == w.blocks
        else
          && after.ui.content == content + Separator(content) + "You: " + S.Filter(S.Ground, Trim(w.ui.input))
          && after.blocks == w.blocks + [Block(at, "You: ")]
          && after.lives == w.lives + [Starting] && after.ui.busy && after.ui.input == ""
          && after.items == w.items + [Executing(Send(|w.lives|, Trim(w.ui.input)))]
      case _ => after.ui.content == content && after.blocks == w.blocks
  {
    hide Trim, Separator, S.Filter;
  }

  /** The transcript only ever grows. */
  lemma {:induction false} TranscriptGrows(format: string -> string, steps: seq<Step>, n: nat)
    requires Reached(format, steps).Some? && n <= |steps|
    ensures Reached(format, steps[..n]).Some?
    ensures Reached(format, steps[..n]).value.ui.content <= Reached(format, steps).value.ui.content
    ensures Reached(format, steps[..n]).value.blocks <= Reached(format, steps).value.blocks
    decreases |steps|
  {
    if n == |steps| {
      assert steps[..n] == steps;
    } else {
      var m := |steps| - 1;
      assert steps[..m][..n] == steps[..n];
      LastStep(format, steps);
      TranscriptGrows(format, steps[..m], n);
      hide Reached, Enabled;
      StepGrows(format, Reached(format, steps[..m]).value, steps[m]);
    }
  }

  lemma StepGrows(format: string -> string, w: World, s: Step)
    requires Enabled(w, s)
    ensures w.ui.content <= Do(format, w, s).ui.content && w.blocks <= Do(format, w, s).blocks
  {
    if s.UserActs? || s.Process? {
      var msg := if s.UserActs? then s.msg else w.items[s.k].msg;
      ContentGrowsBy(format, w.ui, msg);
      hide Trim, Separator, S.Filter, After, Added, Preamble;
    }
  }

  /** The first text after a tool event, after the end of a turn, or after a submission, whatever
      became of the run before, begins a block of its own under a label, behind a blank line and
      behind all that was shown until then. */
  lemma FirstTextOpensBlock(format: string -> string, steps: seq<Step>, k: nat, run: Run, text: string)
    requires k + 1 < |steps| && Reached(format, steps).Some?
    requires Interrupts(format, steps, k)
    requires forall j :: k < j < |steps| - 1 ==> !ShowsText(format, steps, j)
    requires Handles(format, steps, |steps| - 1, EventArrived(run, TextDelta(text)))
    ensures Reached(format, steps[..k + 1]).Some? && Reached(format, steps[..|steps| - 1]).Some?
    ensures var then_, w := Reached(format, steps[..k + 1]).value, Reached(format, steps[..|steps| - 1]).value;
      var after := Reached(format, steps).value;
      && after.blocks != [] && var b := after.blocks[|after.blocks| - 1];
      && after.blocks == w.blocks + [b] && b.speaker == "Pythia: "
      && |then_.ui.content| <= |w.ui.content| <= b.start
      && after.ui.content[b.start..] == "Pythia: " + S.Filter(S.Ground, text)
      && (|after.blocks| > 1 ==> AfterBlankLine(after.ui.content, b))
  {
    hide *;
    var n := |steps| - 1;
    EachStepShows(format, steps, EventArrived(run, TextDelta(text)));
    InterruptedTextIsOver(format, steps, n, k);
    assert steps[..n][..k + 1] == steps[..k + 1];
    TranscriptGrows(format, steps[..n], k + 1);
    var w, after := Reached(format, steps[..n]).value, Reached(format, steps).value;
    TranscriptIsAlwaysGood(format, steps);
    LaterBlocksAreApart(after);
    var shown := "Pythia: " + S.Filter(S.Ground, text);
    BehindSpace(w.ui.content, Separator(w.ui.content), shown, after.ui.content);
  }

  lemma LaterBlocksAreApart(w: World)
    requires GoodTranscript(w)
    ensures |w.blocks| > 1 ==> AfterBlankLine(w.ui.content, w.blocks[|w.blocks| - 1])
  {
  }

  lemma BehindSpace(content: string, gap: string, shown: string, after: string)
    requires after == content + gap + shown
    ensures |content| <= |content + gap| <= |after| && after[|content + gap|..] == shown
  {
  }

  lemma InterruptedTextIsOver(format: string -> string, steps: seq<Step>, n: nat, k: nat)
    requires k < n <= |steps| && Interrupts(format, steps, k)
    requires forall j :: k < j < n ==> !ShowsText(format, steps, j)
    ensures !TextGoesOn(format, steps[..n])
  {
    InterruptionShowsNothing(format, steps, k);
    forall i | 0 <= i < n
      ensures ShowsText(format, steps[..n], i) <==> ShowsText(format, steps, i)
      ensures Interrupts(format, steps[..n], i) <==> Interrupts(format, steps, i)
    {
      HandlesEarlier(format, steps, n, i);
    }
    hide ShowsText, Interrupts;
    assert forall i :: 0 <= i < n && ShowsText(format, steps[..n], i) ==> i < k;
  }

  lemma InterruptionShowsNothing(format: string -> string, steps: seq<Step>, k: nat)
    requires Interrupts(format, steps, k)
    ensures !ShowsText(format, steps, k)
  {
    hide Reached, Enabled, HandledBy;
  }
}

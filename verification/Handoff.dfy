/** Handing a command to the confined child: a parent and a re-executed copy of itself, two
    bounded pipes, every interleaving and every outcome of every system call. */
module Handoff {
  import opened Wrappers
  import opened Wire

  // ---------------------------------------------------------------------------------------
  // State
  // ---------------------------------------------------------------------------------------

  type Size = n: nat | n > 0 witness 1

  /** What the child prints about a failure ends in a newline, so it is never empty. */
  type Message = m: seq<Byte> | m != [] witness [10 as Byte]

  datatype Order = Order(root: seq<Byte>, command: seq<Byte>)

  datatype Job = Job(order: Order, frameCap: Size, errCap: Size)

  datatype Step = Chdir | NoNewPrivs | Landlock | Seccomp | CloseOnExec | Exec

  datatype End = Failed | Exited(code: int) | Killed

  datatype Child =
    | Reading
    | Closing(read: Option<Order>)
    | Setting(order: Order, step: Step)
    | Failing(left: seq<Byte>)
    | Exiting
    | Shell(order: Order)
    | Ended(end: End)

  datatype Trouble = WriteFrame | ReadErrors | Unsupported(said: seq<Byte>) | WaitFailed

  datatype Parent =
    | Writing
    | ClosingFrame(failed: bool)
    | Draining
    | Killing(e: Trouble)
    | Waiting
    | Reaping(e: Trouble)
    | Returned(result: Result<int, Trouble>)

  /** What the child has done, in order. */
  datatype Event =
    | FrameRead(order: Order)
    | ChangedInto(root: seq<Byte>)
    | GaveUpPrivileges
    | Landlocked(root: seq<Byte>)
    | Filtered
    | SealedErrors
    | EnteredShell(command: seq<Byte>)

  /** Both programs, both pipes, how much of the frame was written and read, what the parent
      heard on the error pipe, whether the child was sent a kill, from here or outside, and
      whether a process that the shell left behind still holds the output it inherited. */
  datatype State = State(
    parent: Parent, child: Child,
    framePipe: seq<Byte>, sent: nat, taken: seq<Byte>,
    errPipe: seq<Byte>, heard: seq<Byte>,
    killed: bool, cancelled: bool, held: bool,
    log: seq<Event>)

  /** The parent just started the child and closed its own copies of the child's ends. */
  function Init(): State {
    State(Writing, Reading, [], 0, [], [], [], false, false, false, [])
  }

  function FrameOf(job: Job): seq<Byte> { Frame(job.order.root, job.order.command) }

  predicate FrameWriterOpen(p: Parent) { p.Writing? || p.ClosingFrame? }

  predicate FrameReaderOpen(c: Child) { c.Reading? || c.Closing? }

  /** The child's end of the error pipe closes by its own hand, by exec, or when it ends. */
  predicate ErrorWriterOpen(c: Child) { c.Reading? || c.Closing? || c.Setting? || c.Failing? }

  // ---------------------------------------------------------------------------------------
  // Steps
  // ---------------------------------------------------------------------------------------

  datatype Action =
    | ParentWrites
    | ParentHitsBrokenPipe
    | ParentWriteError
    | ParentWritten
    | ParentClosesFrame
    | ParentKills
    | ParentDrains
    | ParentSeesEof
    | ParentReadError
    | ParentReaps(waitFails: bool)
    | ChildReads
    | ChildReadEnds
    | ChildReadError
    | ChildClosesFrame(why: Message)
    | ChildSucceeds
    | ChildFails(why: Message)
    | ChildComplains
    | ChildClosesErrors
    | ChildExits
    | ShellExits(code: int, leaves: bool)
    | ChildDies(leaves: bool)
    | OutputLetGo
    | Cancel

  /** Waiting for the child is also waiting for the end of its output, and that comes only when
      no process holds it any more. Only a shell can leave such processes behind; a kill does
      not reach them. */
  predicate Enabled(job: Job, s: State, a: Action) {
    match a
    case ParentWrites =>
      s.parent.Writing? && s.sent < |FrameOf(job)| && FrameReaderOpen(s.child) && |s.framePipe| < job.frameCap
    case ParentHitsBrokenPipe => s.parent.Writing? && s.sent < |FrameOf(job)| && !FrameReaderOpen(s.child)
    case ParentWriteError => s.parent.Writing? && s.sent < |FrameOf(job)|
    case ParentWritten => s.parent.Writing? && s.sent == |FrameOf(job)|
    case ParentClosesFrame => s.parent.ClosingFrame?
    case ParentKills => s.parent.Killing?
    case ParentDrains => s.parent.Draining? && s.errPipe != []
    case ParentSeesEof => s.parent.Draining? && s.errPipe == [] && !ErrorWriterOpen(s.child)
    case ParentReadError => s.parent.Draining?
    case ParentReaps(_) => (s.parent.Waiting? || s.parent.Reaping?) && s.child.Ended? && !s.held
    case ChildReads => s.child.Reading? && Unframe(s.taken) == Err(ShortRead) && s.framePipe != []
    case ChildReadEnds =>
      s.child.Reading? && (Unframe(s.taken) != Err(ShortRead) || (s.framePipe == [] && !FrameWriterOpen(s.parent)))
    case ChildReadError => s.child.Reading?
    case ChildClosesFrame(_) => s.child.Closing?
    case ChildSucceeds => s.child.Setting?
    case ChildFails(_) => s.child.Setting? && !s.child.step.CloseOnExec?
    case ChildComplains => s.child.Failing? && s.child.left != [] && |s.errPipe| < job.errCap
    case ChildClosesErrors => s.child.Failing? && s.child.left == []
    case ChildExits => s.child.Exiting?
    case ShellExits(_, _) => s.child.Shell?
    case ChildDies(leaves) => (s.killed || s.cancelled) && !s.child.Ended? && (leaves ==> s.child.Shell?)
    case OutputLetGo => s.held
    case Cancel => !s.cancelled
  }

  /** The steps that happen by themselves; the others are somebody's choice or bad luck. */
  predicate Automatic(a: Action) {
    !a.ParentWriteError? && !a.ParentReadError? && !a.ChildReadError? && !a.OutputLetGo? && !a.Cancel?
  }

  predicate ByChild(a: Action) {
    a.ChildReads? || a.ChildReadEnds? || a.ChildReadError? || a.ChildClosesFrame? || a.ChildSucceeds? ||
    a.ChildFails? || a.ChildComplains? || a.ChildClosesErrors? || a.ChildExits? || a.ShellExits? || a.ChildDies?
  }

  function ExitCode(end: End): int {
    match end
    case Failed => 1
    case Exited(code) => code
    case Killed => -1
  }

  function Reaped(s: State, waitFails: bool): Result<int, Trouble>
    requires s.child.Ended?
  {
    if s.parent.Reaping? then Err(s.parent.e)
    else if s.heard != [] then Err(Unsupported(s.heard))
    else if waitFails then Err(WaitFailed)
    else Ok(ExitCode(s.child.end))
  }

  /** A setup step that succeeds, and what comes after it. */
  function Set(s: State, order: Order, step: Step): State {
    match step
    case Chdir => s.(child := Setting(order, NoNewPrivs), log := s.log + [ChangedInto(order.root)])
    case NoNewPrivs => s.(child := Setting(order, Landlock), log := s.log + [GaveUpPrivileges])
    case Landlock => s.(child := Setting(order, Seccomp), log := s.log + [Landlocked(order.root)])
    case Seccomp => s.(child := Setting(order, CloseOnExec), log := s.log + [Filtered])
    case CloseOnExec => s.(child := Setting(order, Exec), log := s.log + [SealedErrors])
    case Exec => s.(child := Shell(order), log := s.log + [EnteredShell(order.command)])
  }

  function ReadEnds(s: State): State {
    match Unframe(s.taken)
    case Ok(f) =>
      var order := Order(f.root, f.command);
      s.(child := Closing(Some(order)), log := s.log + [FrameRead(order)])
    case Err(_) => s.(child := Closing(None))
  }

  function Apply(job: Job, s: State, a: Action): State
    requires Enabled(job, s, a)
  {
    match a
    case ParentWrites => s.(sent := s.sent + 1, framePipe := s.framePipe + [FrameOf(job)[s.sent]])
    case ParentHitsBrokenPipe => s.(parent := ClosingFrame(true))
    case ParentWriteError => s.(parent := ClosingFrame(true))
    case ParentWritten => s.(parent := ClosingFrame(false))
    case ParentClosesFrame => s.(parent := if s.parent.failed then Killing(WriteFrame) else Draining)
    case ParentKills => s.(parent := Reaping(s.parent.e), killed := true)
    case ParentDrains => s.(heard := s.heard + [s.errPipe[0]], errPipe := s.errPipe[1..])
    case ParentSeesEof => s.(parent := Waiting)
    case ParentReadError => s.(parent := Killing(ReadErrors))
    case ParentReaps(waitFails) => s.(parent := Returned(Reaped(s, waitFails)))
    case ChildReads => s.(taken := s.taken + [s.framePipe[0]], framePipe := s.framePipe[1..])
    case ChildReadEnds => ReadEnds(s)
    case ChildReadError => s.(child := Closing(None))
    case ChildClosesFrame(why) =>
      s.(child := if s.child.read.Some? then Setting(s.child.read.value, Chdir) else Failing(why))
    case ChildSucceeds => Set(s, s.child.order, s.child.step)
    case ChildFails(why) => s.(child := Failing(why))
    case ChildComplains => s.(errPipe := s.errPipe + [s.child.left[0]], child := Failing(s.child.left[1..]))
    case ChildClosesErrors => s.(child := Exiting)
    case ChildExits => s.(child := Ended(Failed))
    case ShellExits(code, leaves) => s.(child := Ended(Exited(code)), held := leaves)
    case ChildDies(leaves) => s.(child := Ended(Killed), held := leaves)
    case OutputLetGo => s.(held := false)
    case Cancel => s.(cancelled := true)
  }

  // ---------------------------------------------------------------------------------------
  // What a prefix of a frame can be read as
  // ---------------------------------------------------------------------------------------

  /** More bytes do not change a field that could be read. */
  lemma UnfieldOfMore(stream: seq<Byte>, more: seq<Byte>)
    requires Unfield(stream).Ok?
    ensures var (field, rest) := Unfield(stream).value;
      Unfield(stream + more) == Ok((field, rest + more))
  {
    var n := FromBigEndian(stream[..4]);
    assert (stream + more)[..4] == stream[..4];
    assert (stream + more)[4..4 + n] == stream[4..4 + n];
    assert (stream + more)[4 + n..] == stream[4 + n..] + more;
  }

  lemma FieldOfMore(s: seq<Byte>, got: seq<Byte>, more: seq<Byte>, rest: seq<Byte>)
    requires Unfield(got).Ok? && got + more == Field(s) + rest
    ensures Unfield(got).value.0 == s <==> |s| <= MAX_FRAME_FIELD_BYTES
    ensures |s| < UINT32 ==> |s| <= MAX_FRAME_FIELD_BYTES && Unfield(got).value.1 + more == rest
  {
    hide Field, Unfield;
    UnfieldOfMore(got, more);
    FieldReadsBackExactly(s, rest);
    FieldReadsBack(s, rest);
  }

  function OrderIn(taken: seq<Byte>): Order
    requires Unframe(taken).Ok?
  {
    Order(Unframe(taken).value.root, Unframe(taken).value.command)
  }

  /** Whatever was readable in the bytes taken so far is the whole frame, if the lengths fit
      their 32 bits; and it is the order itself exactly when both fields fit the cap. */
  lemma ReadableMeansWhole(order: Order, taken: seq<Byte>, more: seq<Byte>)
    requires Unframe(taken).Ok? && taken + more == Frame(order.root, order.command)
    ensures OrderIn(taken) == order <==>
            |order.root| <= MAX_FRAME_FIELD_BYTES && |order.command| <= MAX_FRAME_FIELD_BYTES
    ensures |order.root| < UINT32 && |order.command| < UINT32 ==> OrderIn(taken) == order && more == []
  {
    hide Field, Unfield;
    var (root, rest) := Unfield(taken).value;
    FieldOfMore(order.root, taken, more, Field(order.command));
    if |order.root| < UINT32 {
      assert Field(order.command) + [] == Field(order.command);
      FieldOfMore(order.command, rest, more, []);
    }
  }

  // ---------------------------------------------------------------------------------------
  // The invariant
  // ---------------------------------------------------------------------------------------

  /** All that must have happened, in this order, once the shell is entered. */
  function Plan(order: Order): seq<Event> {
    [FrameRead(order), ChangedInto(order.root), GaveUpPrivileges, Landlocked(order.root), Filtered, SealedErrors,
     EnteredShell(order.command)]
  }

  /** How far along the plan the child is when it is about to take a step. */
  function StepsBefore(step: Step): nat {
    match step
    case Chdir => 1
    case NoNewPrivs => 2
    case Landlock => 3
    case Seccomp => 4
    case CloseOnExec => 5
    case Exec => 6
  }

  predicate Entered(s: State) { exists e :: e in s.log && e.EnteredShell? }

  predicate OnPlan(s: State) {
    s.log == [] || (Unframe(s.taken).Ok? && s.log <= Plan(OrderIn(s.taken)))
  }

  predicate Holds(s: State, order: Order, n: nat) {
    Unframe(s.taken).Ok? && order == OrderIn(s.taken) && |s.log| == n
  }

  predicate Silent(s: State) { s.heard == [] && s.errPipe == [] }

  /** Every step but marking the error pipe close-on-exec may fail. */
  predicate MayFailAt(n: nat) { n < 7 && n != 5 }

  predicate GoodChild(s: State) {
    match s.child
    case Reading => s.log == [] && Silent(s)
    case Closing(read) => Silent(s) && (if read.Some? then Holds(s, read.value, 1) else s.log == [])
    case Setting(order, step) => Silent(s) && Holds(s, order, StepsBefore(step))
    case Failing(left) => MayFailAt(|s.log|) && (Silent(s) ==> left != [])
    case Exiting => MayFailAt(|s.log|) && !Silent(s)
    case Shell(order) => Silent(s) && Holds(s, order, 7)
    case Ended(end) =>
      match end
      case Failed => MayFailAt(|s.log|) && !Silent(s)
      case Exited(_) => |s.log| == 7 && Silent(s)
      case Killed => (s.killed || s.cancelled) && (|s.log| == 7 ==> Silent(s))
  }

  predicate GoodTrouble(job: Job, s: State, e: Trouble) {
    match e
    case WriteFrame => s.sent < |FrameOf(job)|
    case ReadErrors => s.sent == |FrameOf(job)|
    case _ => false
  }

  predicate GoodParent(job: Job, s: State) {
    match s.parent
    case Writing => !s.killed
    case ClosingFrame(failed) => !s.killed && (s.sent < |FrameOf(job)| <==> failed)
    case Draining => !s.killed && s.sent == |FrameOf(job)|
    case Killing(e) => !s.killed && GoodTrouble(job, s, e)
    case Waiting => !s.killed && s.sent == |FrameOf(job)| && s.errPipe == [] && !ErrorWriterOpen(s.child)
    case Reaping(e) => s.killed && GoodTrouble(job, s, e)
    case Returned(result) =>
      && s.child.Ended?
      && match result
         case Ok(code) => !s.killed && s.sent == |FrameOf(job)| && Silent(s) && code == ExitCode(s.child.end)
         case Err(e) =>
           && (e.Unsupported? ==> !s.killed && s.sent == |FrameOf(job)| && s.heard == e.said && e.said != [])
           && (e.WaitFailed? ==> !s.killed && s.sent == |FrameOf(job)| && Silent(s))
           && (!e.Unsupported? && !e.WaitFailed? ==> s.killed && GoodTrouble(job, s, e))
  }

  /** Bytes are neither lost nor made up between the frame and its reader. */
  predicate GoodPipes(job: Job, s: State) {
    && s.sent <= |FrameOf(job)|
    && s.taken + s.framePipe == FrameOf(job)[..s.sent]
    && |s.framePipe| <= job.frameCap && |s.errPipe| <= job.errCap
  }

  /** Output is held only after a shell, and never past the parent's return. */
  predicate GoodOutput(s: State) {
    s.held ==> s.child.Ended? && |s.log| == 7 && !s.parent.Returned?
  }

  predicate Inv(job: Job, s: State) {
    GoodPipes(job, s) && OnPlan(s) && GoodChild(s) && GoodParent(job, s) && GoodOutput(s)
  }

  lemma StepKeepsInv(job: Job, s: State, a: Action)
    requires Inv(job, s) && Enabled(job, s, a)
    ensures Inv(job, Apply(job, s, a))
  {
    hide GoodPipes, OnPlan, GoodChild, GoodParent, GoodOutput, Enabled, Apply;
    StepKeepsGoodOutput(job, s, a);
    StepKeepsGoodPipes(job, s, a);
    StepKeepsGoodChild(job, s, a);
    StepKeepsGoodParent(job, s, a);
  }

  lemma StepKeepsGoodPipes(job: Job, s: State, a: Action)
    requires GoodPipes(job, s) && Enabled(job, s, a)
    ensures GoodPipes(job, Apply(job, s, a))
  {
    hide FrameOf, Unframe;
    if a.ChildReads? {
      ReadMovesOneByte(s.taken, s.framePipe);
    } else if a.ParentWrites? {
      WriteMovesOneByte(FrameOf(job), s.sent, s.taken, s.framePipe);
    }
  }

  lemma StepKeepsGoodOutput(job: Job, s: State, a: Action)
    requires GoodChild(s) && GoodParent(job, s) && GoodOutput(s) && Enabled(job, s, a)
    ensures GoodOutput(Apply(job, s, a))
  {
    hide FrameOf, Unframe;
  }

  lemma SetKeepsChild(s: State)
    requires OnPlan(s) && GoodChild(s) && s.child.Setting?
    ensures OnPlan(Set(s, s.child.order, s.child.step)) && GoodChild(Set(s, s.child.order, s.child.step))
  {
    hide Unframe;
  }

  lemma StepKeepsGoodChild(job: Job, s: State, a: Action)
    requires OnPlan(s) && GoodChild(s) && Enabled(job, s, a)
    ensures OnPlan(Apply(job, s, a)) && GoodChild(Apply(job, s, a))
  {
    hide FrameOf, Unframe;
    if a.ChildSucceeds? {
      hide OnPlan, GoodChild, Set;
      SetKeepsChild(s);
    } else if ByChild(a) {
      hide OnPlan, GoodChild, Enabled, Apply;
      OtherChildStepKeepsChild(job, s, a);
    }
  }

  lemma OtherChildStepKeepsChild(job: Job, s: State, a: Action)
    requires OnPlan(s) && GoodChild(s) && Enabled(job, s, a) && ByChild(a) && !a.ChildSucceeds?
    ensures OnPlan(Apply(job, s, a)) && GoodChild(Apply(job, s, a))
  {
    hide FrameOf, Unframe;
  }

  lemma StepKeepsGoodParent(job: Job, s: State, a: Action)
    requires GoodPipes(job, s) && GoodChild(s) && GoodParent(job, s) && Enabled(job, s, a)
    ensures GoodParent(job, Apply(job, s, a))
  {
    hide GoodPipes, GoodChild, GoodParent, Enabled, Apply;
    if ByChild(a) {
      ChildStepKeepsParent(job, s, a);
    } else {
      ParentStepKeepsParent(job, s, a);
    }
  }

  lemma ChildStepKeepsParent(job: Job, s: State, a: Action)
    requires GoodChild(s) && GoodParent(job, s) && Enabled(job, s, a) && ByChild(a)
    ensures GoodParent(job, Apply(job, s, a))
  {
    hide FrameOf, Unframe, Holds, ExitCode;
  }

  lemma ParentStepKeepsParent(job: Job, s: State, a: Action)
    requires GoodPipes(job, s) && GoodChild(s) && GoodParent(job, s) && Enabled(job, s, a) && !ByChild(a)
    ensures GoodParent(job, Apply(job, s, a))
  {
    hide FrameOf, Unframe;
  }

  lemma ReadMovesOneByte(taken: seq<Byte>, pipe: seq<Byte>)
    requires pipe != []
    ensures (taken + [pipe[0]]) + pipe[1..] == taken + pipe
  {
  }

  lemma WriteMovesOneByte(frame: seq<Byte>, sent: nat, taken: seq<Byte>, pipe: seq<Byte>)
    requires sent < |frame| && taken + pipe == frame[..sent]
    ensures taken + (pipe + [frame[sent]]) == frame[..sent + 1]
  {
    assert taken + (pipe + [frame[sent]]) == (taken + pipe) + [frame[sent]];
  }

  // ---------------------------------------------------------------------------------------
  // Reachable states
  // ---------------------------------------------------------------------------------------

  /** Where a list of steps leads, if each of them is possible. */
  function Follow(job: Job, steps: seq<Action>): Option<State> {
    if steps == [] then Some(Init()) else
      var before := Follow(job, steps[..|steps| - 1]);
      var a := steps[|steps| - 1];
      if before.Some? && Enabled(job, before.value, a) then Some(Apply(job, before.value, a)) else None
  }

  ghost predicate Reachable(job: Job, s: State) {
    exists steps :: Follow(job, steps) == Some(s)
  }

  lemma StepStaysReachable(job: Job, s: State, a: Action)
    requires Reachable(job, s) && Enabled(job, s, a)
    ensures Reachable(job, Apply(job, s, a))
  {
    hide Enabled, Apply;
    var steps :| Follow(job, steps) == Some(s);
    assert (steps + [a])[..|steps|] == steps;
    assert Follow(job, steps + [a]) == Some(Apply(job, s, a));
  }

  lemma StartIsReachable(job: Job)
    ensures Reachable(job, Init())
  {
    assert Follow(job, []) == Some(Init());
  }

  lemma {:induction false} FollowKeepsInv(job: Job, steps: seq<Action>)
    requires Follow(job, steps).Some?
    ensures Inv(job, Follow(job, steps).value)
  {
    hide Enabled, Apply;
    if steps == [] {
      StartIsGood(job);
    } else {
      var before := steps[..|steps| - 1];
      FollowKeepsInv(job, before);
      StepKeepsInv(job, Follow(job, before).value, steps[|steps| - 1]);
    }
  }

  lemma StartIsGood(job: Job)
    ensures Inv(job, Init())
  {
  }

  lemma ReachableIsGood(job: Job, s: State)
    requires Reachable(job, s)
    ensures Inv(job, s)
  {
    hide Inv;
    var steps :| Follow(job, steps) == Some(s);
    FollowKeepsInv(job, steps);
  }

  // ---------------------------------------------------------------------------------------
  // Safety
  // ---------------------------------------------------------------------------------------

  /** Fields of up to 8 MiB are accepted; up to 4 GiB their lengths are written truly. */
  predicate Fits(o: Order) { |o.root| <= MAX_FRAME_FIELD_BYTES && |o.command| <= MAX_FRAME_FIELD_BYTES }

  predicate Countable(o: Order) { |o.root| < UINT32 && |o.command| < UINT32 }

  lemma EnteredIsWholePlan(s: State)
    requires OnPlan(s)
    ensures Entered(s) <==> Unframe(s.taken).Ok? && s.log == Plan(OrderIn(s.taken))
    ensures Entered(s) <==> |s.log| == 7
  {
    hide Unframe;
    if s.log != [] {
      var plan := Plan(OrderIn(s.taken));
      assert |plan| == 7 && plan[6].EnteredShell?;
      assert forall i :: 0 <= i < |s.log| ==> s.log[i] == plan[i];
      if |s.log| == 7 {
        assert s.log[6] in s.log;
        assert s.log == plan;
      }
    }
  }

  lemma WhatWasRead(job: Job, s: State)
    requires GoodPipes(job, s) && Unframe(s.taken).Ok?
    ensures OrderIn(s.taken) == job.order <==> Fits(job.order)
    ensures Countable(job.order) ==> Fits(job.order) && s.sent == |FrameOf(job)|
  {
    hide Frame, Unframe;
    var frame := FrameOf(job);
    var more := s.framePipe + frame[s.sent..];
    assert s.taken + more == frame by {
      assert s.taken + more == (s.taken + s.framePipe) + frame[s.sent..];
    }
    ReadableMeansWhole(job.order, s.taken, more);
  }

  /** The shell is entered only after the frame was read and every setup step succeeded, in
      that order; and it gets the root and the command the parent framed exactly when both fit
      the cap, which they do unless one is so long that its length does not fit the frame. */
  lemma ShellIsEnteredLast(job: Job, s: State)
    requires Reachable(job, s) && Entered(s)
    ensures exists o :: s.log == Plan(o) && (o == job.order <==> Fits(job.order))
    ensures Countable(job.order) ==> s.log == Plan(job.order)
    ensures forall o :: s.log == Plan(o) ==>
      s.log == [FrameRead(o), ChangedInto(o.root), GaveUpPrivileges, Landlocked(o.root), Filtered, SealedErrors,
                EnteredShell(o.command)]
  {
    hide GoodPipes, OnPlan, GoodChild, GoodParent;
    ReachableIsGood(job, s);
    EnteredIsWholePlan(s);
    WhatWasRead(job, s);
  }

  /** A field over the cap stops the child before it does anything. */
  lemma OversizedOrdersDoNothing(job: Job, s: State)
    requires Reachable(job, s) && Countable(job.order) && !Fits(job.order)
    ensures s.log == [] && !(s.parent.Returned? && s.parent.result.Ok? && !s.cancelled)
  {
    ReachableIsGood(job, s);
    if s.log != [] {
      WhatWasRead(job, s);
    }
  }

  /** A byte on the error pipe means that the shell was not and will not be entered. */
  lemma ComplaintMeansNoShell(job: Job, s: State)
    requires Reachable(job, s)
    ensures !Silent(s) ==> !Entered(s) && (s.child.Failing? || s.child.Exiting? || s.child.Ended?)
    ensures s.child == Ended(Failed) ==> !Silent(s)
  {
    hide GoodPipes, OnPlan, GoodParent;
    ReachableIsGood(job, s);
    EnteredIsWholePlan(s);
  }

  /** No error means that the shell ran and exited with that code, unless the child was killed
      from outside; so a child that failed its setup always makes the parent return an error. */
  lemma SuccessMeansTheShellRan(job: Job, s: State)
    requires Reachable(job, s) && s.parent.Returned? && s.parent.result.Ok?
    ensures var code := s.parent.result.value;
      (Entered(s) && s.child == Ended(Exited(code))) || (s.cancelled && s.child == Ended(Killed) && code == -1)
    ensures s.child != Ended(Failed)
  {
    hide GoodPipes, OnPlan;
    ReachableIsGood(job, s);
    EnteredIsWholePlan(s);
  }

  // ---------------------------------------------------------------------------------------
  // Which errors mean that nothing ran
  // ---------------------------------------------------------------------------------------

  lemma {:induction false} FrameGoesThrough(job: Job, k: nat)
    requires Fits(job.order) && k <= |FrameOf(job)|
    ensures Reachable(job, State(Writing, Reading, [], k, FrameOf(job)[..k], [], [], false, false, false, []))
  {
    hide Reachable, Frame, Unframe;
    var frame := FrameOf(job);
    if k == 0 {
      StartIsReachable(job);
      assert frame[..0] == [];
    } else {
      FrameGoesThrough(job, k - 1);
      var s := State(Writing, Reading, [], k - 1, frame[..k - 1], [], [], false, false, false, []);
      StepStaysReachable(job, s, ParentWrites);
      var s1 := Apply(job, s, ParentWrites);
      ProperPrefixesAreShort(job.order.root, job.order.command, k - 1);
      StepStaysReachable(job, s1, ChildReads);
      var s2 := Apply(job, s1, ChildReads);
      assert s2.taken == frame[..k] && s2.framePipe == [];
    }
  }

  function Running(job: Job): State {
    State(Draining, Shell(job.order), [], |FrameOf(job)|, FrameOf(job), [], [], false, false, false, Plan(job.order))
  }

  /** Every order that fits can get to its shell. */
  lemma ShellCanRun(job: Job)
    requires Fits(job.order)
    ensures Reachable(job, Running(job)) && Entered(Running(job))
  {
    hide Reachable, Frame, Unframe;
    var frame := FrameOf(job);
    FrameGoesThrough(job, |frame|);
    var s := State(Writing, Reading, [], |frame|, frame[..|frame|], [], [], false, false, false, []);
    assert frame[..|frame|] == frame && frame + [] == frame;
    assert FrameOf(job) == Frame(job.order.root, job.order.command);
    StepStaysReachable(job, s, ParentWritten);
    var s1 := s.(parent := ClosingFrame(false));
    StepStaysReachable(job, s1, ParentClosesFrame);
    var s2 := s.(parent := Draining);
    RoundTripExactlyUpToCap(job.order.root, job.order.command, []);
    StepStaysReachable(job, s2, ChildReadEnds);
    var s3 := s2.(child := Closing(Some(job.order)), log := [FrameRead(job.order)]);
    assert [] + [FrameRead(job.order)] == [FrameRead(job.order)];
    StepStaysReachable(job, s3, ChildClosesFrame([10]));
    var s4 := s3.(child := Setting(job.order, Chdir));
    SetupCanSucceed(job, s4);
    assert Running(job).log[6].EnteredShell?;
  }

  lemma SetupCanSucceed(job: Job, s: State)
    requires Reachable(job, s) && s.child == Setting(job.order, Chdir) && s.log == [FrameRead(job.order)]
    ensures Reachable(job, s.(child := Shell(job.order), log := Plan(job.order)))
  {
    hide Reachable;
    var o := job.order;
    StepStaysReachable(job, s, ChildSucceeds);
    var s1 := Set(s, o, Chdir);
    StepStaysReachable(job, s1, ChildSucceeds);
    var s2 := Set(s1, o, NoNewPrivs);
    StepStaysReachable(job, s2, ChildSucceeds);
    var s3 := Set(s2, o, Landlock);
    StepStaysReachable(job, s3, ChildSucceeds);
    var s4 := Set(s3, o, Seccomp);
    StepStaysReachable(job, s4, ChildSucceeds);
    var s5 := Set(s4, o, CloseOnExec);
    StepStaysReachable(job, s5, ChildSucceeds);
    assert Set(s5, o, Exec).log == Plan(o);
  }

  /** With the shell running, the parent can still fail at reading an error pipe that holds
      nothing, or at waiting. */
  lemma LateErrors(job: Job, e: Trouble) returns (s: State)
    requires Fits(job.order) && (e.ReadErrors? || e.WaitFailed?)
    ensures Reachable(job, s) && s.parent == Returned(Err(e)) && Entered(s)
  {
    hide Reachable, FrameOf, Entered;
    ShellCanRun(job);
    s := Running(job);
    SameLogSameEntry(s);
    if e.ReadErrors? {
      StepStaysReachable(job, s, ParentReadError);
      s := s.(parent := Killing(e));
      StepStaysReachable(job, s, ParentKills);
      s := s.(parent := Reaping(e), killed := true);
      StepStaysReachable(job, s, ChildDies(false));
      s := s.(child := Ended(Killed));
    } else {
      StepStaysReachable(job, s, ShellExits(0, false));
      s := s.(child := Ended(Exited(0)));
      StepStaysReachable(job, s, ParentSeesEof);
      s := s.(parent := Waiting);
    }
    StepStaysReachable(job, s, ParentReaps(true));
    s := s.(parent := Returned(Err(e)));
  }

  lemma SameLogSameEntry(s: State)
    ensures forall s': State :: s'.log == s.log ==> (Entered(s') <==> Entered(s))
  {
  }

  ghost predicate AlwaysMeansNotRun(job: Job, e: Trouble) {
    forall s :: Reachable(job, s) && s.parent == Returned(Err(e)) ==> !Entered(s)
  }

  /** The tool reports every error as a command that did not run. That is so exactly for a
      frame that could not be written and for a setup failure the child reported: an error
      while reading the error pipe or waiting can come after the shell was entered. */
  lemma ErrorsThatMeanNotRun(job: Job, e: Trouble)
    requires Fits(job.order)
    ensures AlwaysMeansNotRun(job, e) <==> e.WriteFrame? || e.Unsupported?
  {
    hide Reachable, Entered, GoodPipes, OnPlan;
    if e.WriteFrame? || e.Unsupported? {
      forall s | Reachable(job, s) && s.parent == Returned(Err(e)) ensures !Entered(s) {
        ReachableIsGood(job, s);
        EnteredIsWholePlan(s);
        if Entered(s) { WhatWasRead(job, s); }
      }
    } else {
      var s := LateErrors(job, e);
    }
  }

  // ---------------------------------------------------------------------------------------
  // Nobody stays blocked
  // ---------------------------------------------------------------------------------------

  predicate Finished(s: State) { s.parent.Returned? && s.child.Ended? }

  predicate Happens(job: Job, s: State, a: Action) { Automatic(a) && Enabled(job, s, a) }

  ghost predicate Blocked(job: Job, s: State) { forall a :: !Happens(job, s, a) }

  /** The step of the child that can happen next, if it is not waiting for the parent. */
  function ChildReady(s: State): Action {
    match s.child
    case Reading => if Unframe(s.taken) == Err(ShortRead) && s.framePipe != [] then ChildReads else ChildReadEnds
    case Closing(_) => ChildClosesFrame([10])
    case Setting(_, _) => ChildSucceeds
    case Failing(left) => if left != [] then ChildComplains else ChildClosesErrors
    case Exiting => ChildExits
    case _ => ShellExits(0, false)
  }

  function Ready(job: Job, s: State): Action {
    match s.parent
    case Writing =>
      if s.sent == |FrameOf(job)| then ParentWritten
      else if !FrameReaderOpen(s.child) then ParentHitsBrokenPipe
      else if |s.framePipe| < job.frameCap then ParentWrites
      else ChildReady(s)
    case ClosingFrame(_) => ParentClosesFrame
    case Killing(_) => ParentKills
    case Draining =>
      if s.errPipe != [] then ParentDrains
      else if !ErrorWriterOpen(s.child) then ParentSeesEof
      else ChildReady(s)
    case Waiting => if s.child.Ended? then ParentReaps(false) else ChildReady(s)
    case Reaping(_) => if s.child.Ended? then ParentReaps(false) else ChildDies(false)
    case Returned(_) => ParentKills
  }

  /** The parent is waiting for a child that has ended, and for output that is still held. */
  predicate OutputIsHeld(s: State) {
    (s.parent.Waiting? || s.parent.Reaping?) && s.child.Ended? && s.held
  }

  /** Parent and child never block each other, however small the pipes are. Once nothing happens
      by itself, they are finished, or the one thing missing is that somebody lets the shell's
      output go. */
  lemma BlockedExactlyWhenOutputIsHeld(job: Job, s: State)
    requires Reachable(job, s)
    ensures Blocked(job, s) && !Finished(s) <==> OutputIsHeld(s)
    ensures Finished(s) ==> Blocked(job, s)
  {
    hide GoodPipes, OnPlan, FrameOf, Unframe, Reachable;
    ReachableIsGood(job, s);
    if !Finished(s) && !OutputIsHeld(s) {
      EndOfFrame(job, s);
      assert Happens(job, s, Ready(job, s));
    }
  }

  /** Every order that fits can get there: its shell exits, having left a process behind. A
      context that is done does not help, for the kill it sends goes to the child alone. */
  lemma OutputCanBeHeld(job: Job) returns (s: State)
    requires Fits(job.order)
    ensures Reachable(job, s) && OutputIsHeld(s) && s.cancelled && s.child == Ended(Exited(0))
    ensures Blocked(job, s) && !Finished(s)
  {
    hide Reachable, FrameOf, Entered, Blocked;
    ShellCanRun(job);
    s := Running(job);
    StepStaysReachable(job, s, ShellExits(0, true));
    s := s.(child := Ended(Exited(0)), held := true);
    StepStaysReachable(job, s, ParentSeesEof);
    s := s.(parent := Waiting);
    StepStaysReachable(job, s, Cancel);
    s := s.(cancelled := true);
    BlockedExactlyWhenOutputIsHeld(job, s);
  }

  lemma EndOfFrame(job: Job, s: State)
    requires GoodPipes(job, s)
    ensures s.sent <= |FrameOf(job)| && job.frameCap > 0 && job.errCap > 0
  {
  }

  // ---------------------------------------------------------------------------------------
  // Every run comes to its end
  // ---------------------------------------------------------------------------------------

  /** A run takes possible steps, and may stand still only when nothing happens by itself. */
  ghost predicate Next(job: Job, s: State, s': State) {
    || (exists a :: Enabled(job, s, a) && s' == Apply(job, s, a))
    || (s' == s && Blocked(job, s))
  }

  ghost predicate IsRun(job: Job, run: nat -> State) {
    run(0) == Init() && forall i: nat :: Next(job, run(i), run(i + 1))
  }

  lemma RunStep(job: Job, run: nat -> State, n: nat)
    requires IsRun(job, run)
    ensures Next(job, run(n), run(n + 1))
  {
  }

  lemma {:induction false} RunStaysReachable(job: Job, run: nat -> State, n: nat)
    requires IsRun(job, run)
    ensures Reachable(job, run(n))
  {
    if n == 0 {
      StartIsReachable(job);
    } else {
      hide Reachable, Enabled, Apply, IsRun;
      RunStaysReachable(job, run, n - 1);
      RunStep(job, run, n - 1);
      var s, s' := run(n - 1), run(n);
      if a :| Enabled(job, s, a) && s' == Apply(job, s, a) {
        StepStaysReachable(job, s, a);
      }
    }
  }

  /** Each step takes the child to a later stage, or leaves its stage and moves bytes or the
      parent on. */
  function ChildLeft(c: Child): nat {
    match c
    case Reading => 11
    case Closing(_) => 10
    case Setting(_, step) => 10 - StepsBefore(step)
    case Shell(_) => 3
    case Failing(_) => 2
    case Exiting => 1
    case Ended(_) => 0
  }

  function ParentLeft(p: Parent): nat {
    match p
    case Writing => 5
    case ClosingFrame(_) => 4
    case Draining => 3
    case Killing(_) => 2
    case Waiting => 1
    case Reaping(_) => 1
    case Returned(_) => 0
  }

  function BytesLeft(job: Job, s: State): nat {
    (if s.sent <= |FrameOf(job)| then 2 * (|FrameOf(job)| - s.sent) else 0) + |s.framePipe|
    + (if s.child.Failing? then 2 * |s.child.left| else 0) + |s.errPipe|
    + (if s.cancelled then 0 else 1) + (if s.held then 1 else 0)
  }

  predicate Later(job: Job, s': State, s: State) {
    || ChildLeft(s'.child) < ChildLeft(s.child)
    || (ChildLeft(s'.child) == ChildLeft(s.child) &&
        ParentLeft(s'.parent) + BytesLeft(job, s') < ParentLeft(s.parent) + BytesLeft(job, s))
  }

  lemma ChildMovesOn(job: Job, s: State, a: Action)
    requires Inv(job, s) && Enabled(job, s, a) && ByChild(a)
    ensures Later(job, Apply(job, s, a), s)
  {
    hide GoodChild, GoodParent, GoodPipes, OnPlan, FrameOf, Unframe;
  }

  lemma ParentMovesOn(job: Job, s: State, a: Action)
    requires Inv(job, s) && Enabled(job, s, a) && !ByChild(a)
    ensures Later(job, Apply(job, s, a), s)
  {
    hide GoodChild, GoodParent, OnPlan, FrameOf, Unframe;
  }

  lemma StepMovesOn(job: Job, s: State, a: Action)
    requires Inv(job, s) && Enabled(job, s, a)
    ensures Later(job, Apply(job, s, a), s)
  {
    hide Inv, Enabled, Apply, Later;
    if ByChild(a) { ChildMovesOn(job, s, a); } else { ParentMovesOn(job, s, a); }
  }

  ghost predicate LetGoAt(run: nat -> State, i: nat, j: nat) { i <= j && (run(i).held ==> !run(j).held) }

  ghost predicate LetGoAfter(run: nat -> State, i: nat) { exists j: nat :: LetGoAt(run, i, j) }

  /** Whenever the shell's output is held, somebody lets it go later. */
  ghost predicate LetsOutputGo(run: nat -> State) { forall i: nat :: LetGoAfter(run, i) }

  /** Liveness: in every run that lets the output go the parent returns and the child ends,
      whatever fails. While the run stands still it waits for `j`, where the output is let go. */
  lemma {:induction false} EveryRunFinishes(job: Job, run: nat -> State, n: nat, j: nat) returns (m: nat)
    requires IsRun(job, run) && LetsOutputGo(run) && LetGoAt(run, n, j)
    ensures n <= m && Finished(run(m))
    decreases ChildLeft(run(n).child), ParentLeft(run(n).parent) + BytesLeft(job, run(n)), j - n
  {
    var s := run(n);
    RunStaysReachable(job, run, n);
    ReachableIsGood(job, s);
    BlockedExactlyWhenOutputIsHeld(job, s);
    if Finished(s) {
      m := n;
    } else {
      hide Inv, Enabled, Apply, Reachable, Blocked, IsRun;
      var s' := run(n + 1);
      RunStep(job, run, n);
      if a :| Enabled(job, s, a) && s' == Apply(job, s, a) {
        StepMovesOn(job, s, a);
        assert LetGoAfter(run, n + 1);
        var k: nat :| LetGoAt(run, n + 1, k);
        m := EveryRunFinishes(job, run, n + 1, k);
      } else {
        m := EveryRunFinishes(job, run, n + 1, j);
      }
    }
  }

  lemma {:induction false} FinishedForGood(job: Job, run: nat -> State, m: nat, n: nat)
    requires IsRun(job, run) && Finished(run(m)) && m <= n
    ensures Finished(run(n)) && !run(n).held
    decreases n
  {
    hide IsRun, Finished, Next, Inv, Reachable;
    if m == n {
      RunStaysReachable(job, run, n);
      ReachableIsGood(job, run(n));
      FinishedHoldsNothing(job, run(n));
    } else {
      FinishedForGood(job, run, m, n - 1);
      RunStep(job, run, n - 1);
      NextStaysFinished(job, run(n - 1), run(n));
    }
  }

  lemma FinishedHoldsNothing(job: Job, s: State)
    requires Inv(job, s) && Finished(s)
    ensures !s.held
  {
  }

  lemma NextStaysFinished(job: Job, s: State, s': State)
    requires Next(job, s, s') && Finished(s) && !s.held
    ensures Finished(s') && !s'.held
  {
    hide Enabled, Apply, Finished, Blocked;
    if a :| Enabled(job, s, a) && s' == Apply(job, s, a) {
      FinishedStaysFinished(job, s, a);
    }
  }

  lemma FinishedStaysFinished(job: Job, s: State, a: Action)
    requires Finished(s) && !s.held && Enabled(job, s, a)
    ensures Finished(Apply(job, s, a)) && !Apply(job, s, a).held
  {
    hide FrameOf, Unframe;
  }

  /** The condition is exact: a run comes to its end if and only if it lets the output go. */
  lemma RunsFinishExactlyWhenOutputIsLetGo(job: Job, run: nat -> State)
    requires IsRun(job, run)
    ensures (exists m: nat :: Finished(run(m))) <==> LetsOutputGo(run)
  {
    hide IsRun, Finished;
    if LetsOutputGo(run) {
      assert LetGoAfter(run, 0);
      var j: nat :| LetGoAt(run, 0, j);
      var m := EveryRunFinishes(job, run, 0, j);
    }
    if m: nat :| Finished(run(m)) {
      forall i: nat ensures LetGoAfter(run, i) {
        var j := if i <= m then m else i;
        FinishedForGood(job, run, m, j);
        assert LetGoAt(run, i, j);
      }
    }
  }
}

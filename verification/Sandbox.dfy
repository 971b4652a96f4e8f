/** The two programs of the hand-off, each as it is written: a parent that starts a confined
    child and makes a result of what it sees, and a child that confines itself step by step. */
module Sandbox {
  import opened Wrappers
  import opened Wire
  import opened Handoff

  // ---------------------------------------------------------------------------------------
  // The parent
  // ---------------------------------------------------------------------------------------

  datatype Fd = FrameR | FrameW | ErrR | ErrW

  /** What waiting for a process gives: success, an exit error, or something else. */
  datatype WaitStatus = Clean | ExitError(code: int) | OtherError

  datatype Kid = NotStarted | Alive | Reaped(status: WaitStatus)

  datatype Failure = NoStart | During(e: Trouble)

  /** What the system answers: whether each pipe can be made and the child started, how much of
      the frame the child lets through, what it says, whether that can be read, and how it ends. */
  datatype Environment = Environment(
    framePipe: bool, errPipe: bool, starts: bool, room: nat, readable: bool, said: seq<Byte>, status: WaitStatus)

  function ExitCodeFrom(status: WaitStatus): Result<int, Failure> {
    match status
    case Clean => Ok(0)
    case ExitError(code) => Ok(code)
    case OtherError => Err(During(WaitFailed))
  }

  /** The result that these answers lead to. */
  function ResultOf(env: Environment, root: seq<Byte>, command: seq<Byte>): Result<int, Failure> {
    if !(env.framePipe && env.errPipe && env.starts) then Err(NoStart)
    else if |Frame(root, command)| > env.room then Err(During(Trouble.WriteFrame))
    else if !env.readable then Err(During(ReadErrors))
    else if env.said != [] then Err(During(Unsupported(env.said)))
    else ExitCodeFrom(env.status)
  }

  class Parent {
    const env: Environment
    const frame: Writer

    var open: set<Fd>
    var kid: Kid
    var killed: bool

    constructor (env: Environment)
      ensures this.env == env && fresh(frame) && Idle()
    {
      this.env := env;
      frame := new Writer(env.room);
      open, kid, killed := {}, NotStarted, false;
    }

    predicate Idle()
      reads this, frame
    {
      open == {} && kid.NotStarted? && !killed && frame.written == [] && frame.room == env.room
    }

    method Pipe(r: Fd, w: Fd, ok: bool)
      modifies this`open
      ensures open == old(open) + if ok then {r, w} else {}
    {
      if ok { open := open + {r, w}; }
    }

    method Close(fd: Fd)
      modifies this`open
      ensures open == old(open) - {fd}
    {
      open := open - {fd};
    }

    method Kill()
      requires kid.Alive?
      modifies this`killed
      ensures killed
    {
      killed := true;
    }

    /** Reads to the end of the error pipe, which comes only once no one else holds its other
        end, and the child gets that far only once the frame pipe is closed. */
    method ReadAll() returns (said: Option<seq<Byte>>)
      requires kid.Alive? && ErrR in open && ErrW !in open && FrameW !in open
      ensures said == if env.readable then Some(env.said) else None
    {
      return if env.readable then Some(env.said) else None;
    }

    method Wait() returns (status: WaitStatus)
      requires kid.Alive? && FrameW !in open
      modifies this`kid
      ensures status == env.status && kid == Reaped(status)
    {
      status := env.status;
      kid := Reaped(status);
    }

    /** On every path every pipe end is closed again and a child that was started is waited
        for, after a kill exactly if something went wrong on a pipe. The result is that of the
        first thing that went wrong: starting, writing the whole frame, reading what the child
        said, its saying anything, its not exiting plainly. */
    method ExecSandboxed(root: seq<Byte>, command: seq<Byte>) returns (r: Result<int, Failure>)
      requires Idle()
      modifies this, frame
      ensures open == {}
      ensures var started := env.framePipe && env.errPipe && env.starts;
        var framed := |Frame(root, command)| <= env.room;
        && kid == (if started then Reaped(env.status) else NotStarted)
        && killed == (started && !(framed && env.readable))
        && (started && framed ==> frame.written == Frame(root, command))
        && (started && !framed ==> frame.written < Frame(root, command))
        && r == ResultOf(env, root, command)
        && r == if !started then Err(NoStart)
                else if !framed then Err(During(Trouble.WriteFrame))
                else if !env.readable then Err(During(ReadErrors))
                else if env.said != [] then Err(During(Unsupported(env.said)))
                else if env.status.OtherError? then Err(During(WaitFailed))
                else Ok(if env.status.Clean? then 0 else env.status.code)
    {
      hide Frame;
      Pipe(FrameR, FrameW, env.framePipe);
      if !env.framePipe { return Err(NoStart); }
      Pipe(ErrR, ErrW, env.errPipe);
      if !env.errPipe {
        CloseAll();
        return Err(NoStart);
      }
      if !env.starts {
        CloseAll();
        return Err(NoStart);
      }
      kid := Alive;
      Close(FrameR);
      Close(ErrW);
      r := Converse(root, command);
      CloseAll();
    }

    /** The deferred closes. */
    method CloseAll()
      modifies this`open
      ensures open == {}
    {
      Close(ErrW);
      Close(ErrR);
      Close(FrameW);
      Close(FrameR);
      assert forall fd :: fd in old(open) ==> fd.FrameR? || fd.FrameW? || fd.ErrR? || fd.ErrW?;
    }

    method Converse(root: seq<Byte>, command: seq<Byte>) returns (r: Result<int, Failure>)
      requires kid.Alive? && !killed && frame.written == [] && frame.room == env.room && open == {FrameW, ErrR}
      modifies this, frame
      ensures var framed := |Frame(root, command)| <= env.room;
        && kid == Reaped(env.status)
        && killed == !(framed && env.readable)
        && (if framed then frame.written == Frame(root, command) else frame.written < Frame(root, command))
        && r == if !framed then Err(During(Trouble.WriteFrame))
                else if !env.readable then Err(During(ReadErrors))
                else if env.said != [] then Err(During(Unsupported(env.said)))
                else ExitCodeFrom(env.status)
    {
      hide Frame;
      var ok := Wire.WriteFrame(frame, root, command);
      WholeOrPrefix(frame, env.room, Frame(root, command), ok);
      Close(FrameW);
      if !ok {
        Kill();
        var _ := Wait();
        return Err(During(Trouble.WriteFrame));
      }
      var said := ReadAll();
      if said.None? {
        Kill();
        var _ := Wait();
        return Err(During(ReadErrors));
      }
      var status := Wait();
      if |said.value| > 0 { return Err(During(Unsupported(said.value))); }
      return ExitCodeFrom(status);
    }
  }

  lemma WholeOrPrefix(w: Writer, room: nat, bytes: seq<Byte>, ok: bool)
    requires Took(w, [], room, bytes, ok)
    ensures if ok then w.written == bytes else w.written < bytes
  {
    assert bytes[..|bytes|] == bytes;
  }

  /** A frame that was not written whole is never read as one: whatever the parent failed at,
      the child fails too. */
  lemma HalfAFrameIsNoFrame(order: Order, written: seq<Byte>)
    requires Fits(order) && written < Frame(order.root, order.command)
    ensures Unframe(written) == Err(ShortRead)
  {
    hide Frame, Unframe;
    var frame := Frame(order.root, order.command);
    assert written == frame[..|written|];
    ProperPrefixesAreShort(order.root, order.command, |written|);
  }

  // ---------------------------------------------------------------------------------------
  // The child
  // ---------------------------------------------------------------------------------------

  /** How many events of the plan happen when these steps fail. */
  function Reach(fails: set<Step>): nat {
    if Chdir in fails then 1
    else if NoNewPrivs in fails then 2
    else if Landlock in fails then 3
    else if Seccomp in fails then 4
    else if Exec in fails then 6
    else 7
  }

  class Process {
    const frame: Reader
    const errs: Writer
    const fails: set<Step>

    var frameOpen: bool
    var errsOpen: bool
    var log: seq<Event>

    constructor (frame: Reader, errRoom: nat, fails: set<Step>)
      ensures this.frame == frame && this.fails == fails && fresh(errs) && errs.written == [] && errs.room == errRoom
      ensures frameOpen && errsOpen && log == []
    {
      this.frame, this.fails := frame, fails;
      errs := new Writer(errRoom);
      frameOpen, errsOpen, log := true, true, [];
    }

    /** A system call that either takes effect or does not. */
    method Try(step: Step, e: Event) returns (ok: bool)
      modifies this`log
      ensures ok <==> step !in fails
      ensures log == old(log) + if ok then [e] else []
    {
      ok := step !in fails;
      if ok { log := log + [e]; }
    }

    /** Says why, as far as the pipe takes it, and closes it. */
    method Fail(why: Message) returns (code: Option<int>)
      requires errsOpen && errs.written == []
      modifies this`errsOpen, errs
      ensures code == Some(1) && !errsOpen
      ensures errs.written == why[..Min(old(errs.room), |why|)]
    {
      var _ := errs.Write(why);
      errsOpen := false;
      return Some(1);
    }

    /** No code means that the image was replaced by the shell: that happens exactly when a frame
        can be read and no step fails, with the whole plan for its order done and nothing said
        on the error pipe. Otherwise the child has done the plan up to the step that failed,
        has said so on the error pipe if that takes a byte, and exits with 1. Either way it has
        closed both pipes. */
    method RunChild() returns (code: Option<int>)
      requires frame.Valid() && frameOpen && errsOpen && log == [] && errs.written == []
      modifies this, frame, errs
      ensures !frameOpen && !errsOpen
      ensures match Unframe(frame.data[old(frame.pos)..])
        case Err(_) => code == Some(1) && log == []
        case Ok(f) =>
          && log == Plan(Order(f.root, f.command))[..Reach(fails)]
          && code == (if Reach(fails) == 7 then None else Some(1))
      ensures code == None ==> errs.written == []
      ensures code != None && old(errs.room) > 0 ==> errs.written != []
    {
      hide Unframe;
      var read := ReadFrame(frame);
      frameOpen := false;
      if read.Err? {
        code := Fail(ReadFailed(read.error));
        return;
      }
      code := Confine(Order(read.value.0, read.value.1));
    }

    /** What follows once the order is read. */
    method Confine(order: Order) returns (code: Option<int>)
      requires errsOpen && log == [] && errs.written == []
      modifies this`errsOpen, this`log, errs
      ensures !errsOpen && log == Plan(order)[..Reach(fails)]
      ensures code == (if Reach(fails) == 7 then None else Some(1))
      ensures if code == None then errs.written == [] else old(errs.room) > 0 ==> errs.written != []
    {
      log := log + [FrameRead(order)];
      var ok := Try(Chdir, ChangedInto(order.root));
      if !ok { code := Fail(CallFailed()); return; }
      ok := Try(NoNewPrivs, GaveUpPrivileges);
      if !ok { code := Fail(CallFailed()); return; }
      ok := Try(Landlock, Landlocked(order.root));
      if !ok { code := Fail(CallFailed()); return; }
      ok := Try(Seccomp, Filtered);
      if !ok { code := Fail(CallFailed()); return; }
      log := log + [SealedErrors];
      ok := Try(Exec, EnteredShell(order.command));
      if !ok { code := Fail(CallFailed()); return; }
      errsOpen := false;  // close-on-exec
      return None;
    }
  }

  /** Some message for each failure; only that it is not empty matters. */
  function ReadFailed(e: ReadError): Message { if e.ShortRead? then [82, 10] else [76, 10] }

  function CallFailed(): Message { [67, 10] }

  // ---------------------------------------------------------------------------------------
  // Both against the protocol
  // ---------------------------------------------------------------------------------------

  /** The answers that can be read off a finished hand-off: how much of the frame got out,
      whether a kill followed although all of it did, what was heard, and how the child ended. */
  function EnvironmentOf(job: Job, s: State): Environment
    requires s.parent.Returned? && s.child.Ended?
  {
    var status := if s.parent.result == Err(WaitFailed) then OtherError
                  else if ExitCode(s.child.end) == 0 then Clean else ExitError(ExitCode(s.child.end));
    Environment(true, true, true, s.sent, !(s.killed && s.sent == |FrameOf(job)|), s.heard, status)
  }

  /** However parent and child interleave, the parent returns what it returns one step after the
      other with those answers, and it kills the child in the same cases. */
  lemma HandoffReturnsWhatParentDoes(job: Job, s: State)
    requires Reachable(job, s) && s.parent.Returned?
    ensures s.child.Ended?
    ensures var env := EnvironmentOf(job, s);
      && ResultOf(env, job.order.root, job.order.command) ==
         (match s.parent.result case Ok(code) => Ok(code) case Err(e) => Err(During(e)))
      && s.killed == !(|FrameOf(job)| <= env.room && env.readable)
  {
    ReachableIsGood(job, s);
    hide OnPlan, GoodChild, GoodOutput, Frame;
  }

  /** And a child that was not killed did what it does alone, if some steps fail: nothing if it
      could not read the frame, and otherwise the plan up to the first of those steps. */
  lemma HandoffChildDoesWhatProcessDoes(job: Job, s: State) returns (fails: set<Step>)
    requires Reachable(job, s) && s.child.Ended? && !s.child.end.Killed? && s.log != []
    ensures Unframe(s.taken).Ok? && s.log == Plan(OrderIn(s.taken))[..Reach(fails)]
    ensures s.child.end.Exited? <==> Reach(fails) == 7
  {
    ReachableIsGood(job, s);
    hide GoodPipes, GoodParent, GoodOutput, Unframe;
    fails := match |s.log|
      case 1 => {Chdir}
      case 2 => {NoNewPrivs}
      case 3 => {Landlock}
      case 4 => {Seccomp}
      case 6 => {Exec}
      case _ => {};
    assert |s.log| == Reach(fails);
  }
}

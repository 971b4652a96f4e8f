/** Pythia's vocabulary: messages, tool calls, and the events of the two channels. */
module Domain {
  import opened Wrappers

  /** A role is a string in the source; the four known values have their own constructors. */
  datatype Role = System | User | Assistant | Tool | Other(name: string)

  datatype ToolCall = ToolCall(id: string, name: string, args: string)

  /** What one turn of talk says. The store adds identity and time. */
  datatype Message = Message(role: Role, content: string, toolCalls: seq<ToolCall>, toolCallId: string)

  /** Storing calls as JSON rewrites their raw arguments in a compact form, and nothing else. */
  type Compactor = string -> string

  function CompactCalls(compact: Compactor, calls: seq<ToolCall>): seq<ToolCall> {
    seq(|calls|, i requires 0 <= i < |calls| => calls[i].(args := compact(calls[i].args)))
  }

  function CompactMessage(compact: Compactor, m: Message): Message {
    m.(toolCalls := CompactCalls(compact, m.toolCalls))
  }

  /** What stored messages read back as. */
  function ReadBack(compact: Compactor, ms: seq<Message>): seq<Message> {
    seq(|ms|, i requires 0 <= i < |ms| => CompactMessage(compact, ms[i]))
  }

  datatype Cause = MaxIterations | Failure(what: string)

  /** One increment of a provider's answer. Nothing but convention keeps the fields apart. */
  datatype StreamEvent = StreamEvent(delta: string, calls: seq<ToolCall>, done: bool, err: Option<Cause>)

  function Delta(text: string): StreamEvent { StreamEvent(text, [], false, None) }

  function Done(calls: seq<ToolCall>): StreamEvent { StreamEvent("", calls, true, None) }

  function Broken(cause: Cause): StreamEvent { StreamEvent("", [], false, Some(cause)) }

  predicate Terminal(ev: StreamEvent) { ev.done || ev.err.Some? }

  /** What the turn loop tells its consumer. */
  datatype AgentEvent =
    | TextDelta(text: string)
    | ToolCallStarted(call: ToolCall)
    | ToolCallFinished(result: string)
    | TurnComplete
    | Error(cause: Cause)

  /** The text of many pieces in order. */
  function Join(pieces: seq<string>): string {
    if pieces == [] then "" else Join(pieces[..|pieces| - 1]) + pieces[|pieces| - 1]
  }

  lemma {:induction false} JoinAppend(a: seq<string>, b: seq<string>)
    ensures Join(a + b) == Join(a) + Join(b)
  {
    if b == [] {
      assert a + b == a;
    } else {
      var n := |b| - 1;
      JoinAppend(a, b[..n]);
      assert (a + b)[..|a| + n] == a + b[..n] && (a + b)[|a| + n] == b[n];
      assert Join(a + b) == Join(a + b[..n]) + b[n];
      assert Join(a) + Join(b[..n]) + b[n] == Join(a) + (Join(b[..n]) + b[n]);
    }
  }
}

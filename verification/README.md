# Pythia: a verified model

Pythia is a terminal agent. A turn loop asks a model for an answer, runs the tools the answer
asks for, and feeds the results back, until an answer asks for none. Around the loop stand a
streaming provider, a terminal user interface, an SQLite store, workspace-scoped file tools, and
a sandbox that confines shell commands with Landlock and a seccomp filter.

This project models six parts of it in Dafny and proves what they promise, for every input, every
outcome of every outside call, and every interleaving.

| part | modules | main results |
|---|---|---|
| seccomp filter compiler | `Bpf`, `Seccomp` | the emitted program computes the first-match policy, for all tables and number maps |
| turn loop | `Domain`, `Ollama`, `Conversation`, `AgentLoop`, `TurnProtocol`, `TurnReports` | grammar of the stored history, agreement of events and history, channel discipline, no deadlock, every run ends |
| path containment | `Paths` | acceptance is exactly containment in the resolved root |
| terminal output | `Sanitizer`, `Tui`, `TuiConsumer` | index-jumping scanner equals an automaton; transcript and one-run invariants of every session |
| store | `Store`, `Migrations` | a flat table with `MAX(seq) + 1` refines lists per session; migrations survive failures |
| sandbox hand-off and tools | `Wire`, `Handoff`, `Sandbox`, `LimitedBuffer`, `Edit` | frame codec, two-process protocol, capped buffer, unique replacement |

Where the source changes state step by step, the model is a class or a method with loops, proved
against a specification on values; where several goroutines or processes run side by side, it is a
state machine whose steps may interleave in any order. `dafny verify dfyconfig.toml` verifies
everything.

## Properties that hold only under a condition

Some promises of the code or its comments do not hold on every input. The code is modelled as it
is, and each is proved to hold exactly under a condition a caller can check:

- A tool path lies in the workspace for every argument if and only if the workspace root exists
  (`Paths.PromiseHoldsExactlyWhenRootExists`): a missing root is represented by its nearest
  existing ancestor, so that `..` is then accepted.
- A frame reads back if and only if both fields are at most 8 MiB (`Wire.RoundTripExactlyUpToCap`).
  A field of 4 GiB or more is written with a length that is cut to 32 bits, and may be read as a
  shorter one.
- The sandbox reports every error as a command that was not run. That is so when the child was never
  started, and once it was, exactly for an error while writing the frame and for a setup error the
  child reported (`Handoff.ErrorsThatMeanNotRun`): reading the error pipe and waiting can also fail
  after the shell was entered.
- Handing a command over ends, in every run, if and only if somebody lets the shell's output go
  (`Handoff.RunsFinishExactlyWhenOutputIsLetGo`): waiting for the child is also waiting for the
  end of its output, which a process the shell left in the background may hold. The parent is then
  blocked, and a context that is done does not help (`Handoff.OutputCanBeHeld`).
- A string that is counted once occurs once, in every file, if and only if it has no proper border
  (`Edit.PromiseHoldsExactlyWhenBorderless`): `aa` is counted once in `aaa`.
- Editing back restores every file if and only if the new string has no proper border
  (`Edit.EditingBackRestoresExactlyWhenBorderless`).
- A capped buffer calls itself truncated if and only if more than its capacity was written, or an
  empty write arrived when it was full (`LimitedBuffer.BufferKeepsTheFirstBytes`).
- Sanitizing piece by piece equals sanitizing the whole, for every continuation, if and only if
  the first piece does not end inside an escape sequence (`Sanitizer.PiecewiseExactlyFromGround`).
- A call leaves a database in step with the listing of migrations it saw if and only if the files
  already applied are still the first ones (`Migrations.InStepExactlyWhenAddedAtEnd`): one sorted in
  before them is never applied (`Migrations.FileSortedInIsNeverApplied`).
- The turn loop is stuck if and only if its consumer left without cancelling, while an event is
  held out to it (`TurnProtocol.StuckExactlyWhenAbandoned`), and there are such runs
  (`TurnProtocol.AbandonedRunsAreStuck`).
- The interface attends to every run or cancels its context, if and only if its loop did not stop
  with a cancel function it had not called (`Tui.AbandonedExactlyWhenStoppedUncancelled`); and it
  does so unless the user begins a run between the key that quits and the end of the loop
  (`Tui.NoRunIsAbandoned`, `Tui.LateRunIsAbandoned`).
- All calls of a session are answered if and only if no Send of it was cut off between two results
  (`Conversation.HistoryAnsweredExactlyWhenNoSendWasCutOff`). The next Send hands the provider such
  a session as it is (`Conversation.CutOffSendLeavesACallOpen`).
- The calls delivered to the turn loop are all the calls on the lines it saw if and only if no line
  before the done line carries any (`Ollama.AllCallsDeliveredExactlyWhenOnDoneLine`).
- The shipped filter lets the final execve through if and only if the architecture gives it a
  number below the x32 range, and that number to no other name that is refused
  (`Seccomp.ShippedFilterPermitsExecve`).
- Tool calls survive the way to the wire and back if and only if each has an id
  (`Ollama.WireRoundTrip`).

The repository's documentation differs from its code in these places, and the model follows the
code: `README.md` calls `applySeccomp` a stub, while `seccomp_linux.go` installs a filter; the
comment in `session.go` orders messages by `CreatedAt`, while the store orders them by `seq`; the
comment on `skipEscapeSequence` says that any other sequence is dropped to the end of the text,
while only the escape and one rune are.

## Model

| member | source | states |
|---|---|---|
| `Seccomp.AppendMatchGroup` | internal/adapter/tool/bash/sandbox/seccomp_linux.go:219-231 | wherever its checks stand in a program, they halt with the group's action exactly for the listed numbers and otherwise fall through with the accumulator intact; names the architecture lacks are skipped |
| `Seccomp.DecidesOneMore` | internal/adapter/tool/bash/sandbox/seccomp_linux.go:225-228 | a compare and a return with skips 0 and 1 extend a deciding stretch by one name, in any surroundings |
| `Seccomp.BuildSeccompProgram` | internal/adapter/tool/bash/sandbox/seccomp_linux.go:172-208 | fails exactly without an execve number; otherwise the program halts on every input with the verdict of the first-match policy (foreign architecture, x32, lethal, deny, allow, ENOSYS), within a length bound; and for a table of 32-bit numbers that verdict is told by the numbers themselves, in the words the kernel knows |
| `Seccomp.PolicyInNumbers` | internal/adapter/tool/bash/sandbox/seccomp_linux.go:192-231 | on such a table the policy kills, refuses or allows a call according to whether a listed name has its very number |
| `Seccomp.WordsOfNumbers` | internal/adapter/tool/bash/sandbox/seccomp_linux.go:226 | the conversion to a 32-bit word keeps a number that fits and otherwise gives the one 2^32 apart that does, negative numbers included |
| `Seccomp.GuardsDecide` | internal/adapter/tool/bash/sandbox/seccomp_linux.go:182-198 | the hand-counted skips kill exactly a foreign architecture and, on x86-64, numbers from the x32 bit up; all else reaches the first group with the number loaded |
| `Seccomp.GroupsInOrder` | internal/adapter/tool/bash/sandbox/seccomp_linux.go:200-205 | groups placed one after the other decide by first match even when tables share a number |
| `Seccomp.X32GuardCatchesTheBit` | internal/adapter/tool/bash/sandbox/seccomp_linux.go:190-198 | the range test catches every number carrying the x32 bit |
| `Seccomp.LoadSeccompFilter` | internal/adapter/tool/bash/sandbox/seccomp_linux.go:239-253 | the filter array is a copy, field by field, and its 16-bit length is true exactly below 65536 instructions |
| `Seccomp.ShippedFilterPermitsExecve` | internal/adapter/tool/bash/sandbox/seccomp_linux.go:265-283 | a program that computes the policy of the shipped tables lets the final execve through exactly if its number is below the x32 range and is not that of another, refused name; and it fits the kernel's limit |
| `Seccomp.ShippedProgram` | internal/adapter/tool/bash/sandbox/seccomp_linux.go:271-282 | the program the child installs is built exactly on an architecture with an execve number, computes that policy, and lets execve through under that condition |
| `Seccomp.ExecveIsNotLethalOrDenied` | internal/adapter/tool/bash/sandbox/seccomp_linux.go:56-95 | neither refusing table lists execve |
| `Ollama.FromWireToolCalls` | internal/adapter/provider/ollama/ollama.go:177-190 | every call is taken over in order, with its name and arguments; it keeps its id, or gets one of its own where the wire had none: never empty, not that of another call without one, and not one that is on the wire, each as far as the supply has that property |
| `Ollama.CallsCanBeToldApart` | internal/adapter/provider/ollama/ollama.go:183-187 | with a supply that has all of them, the calls of an answer have different ids exactly if those that came with one do |
| `Ollama.ToWireToolCalls` | internal/adapter/provider/ollama/ollama.go:161-173 | every call is put on the wire in order |
| `Ollama.WireRoundTrip` | internal/adapter/provider/ollama/ollama.go:161-190 | calls survive the round trip exactly when each has an id; calls off the wire always have one |
| `Ollama.StreamChannel.Send` | internal/adapter/provider/ollama/ollama.go:116-123 | an event is delivered, or it lost to a context that is done; after that nothing more is sent |
| `Ollama.Stream` | internal/adapter/provider/ollama/ollama.go:72-111 | closes its channel on every way out; delivers the whole script of its body, or a proper prefix exactly if an event lost to the context |
| `Ollama.ScriptShape` | internal/adapter/provider/ollama/ollama.go:79-110 | a body's script is its non-empty contents up to and including the first done line (or up to an undecodable one), then exactly one terminal event |
| `Ollama.HeardUpToFirstStop` | internal/adapter/provider/ollama/ollama.go:79-101 | a line is heard exactly if no line before it is done or cannot be decoded |
| `Ollama.ContentsInOrder` | internal/adapter/provider/ollama/ollama.go:91-95 | every heard line gives its content, if it has any, in its place |
| `Ollama.AllCallsDeliveredExactlyWhenOnDoneLine` | internal/adapter/provider/ollama/ollama.go:91-100 | calls on any line but the done line are dropped, so that all calls are delivered exactly if no earlier line carries any |
| `Conversation.WhatReadingMakes` | internal/core/agent.go:125-141 | of any stream the first event that fails or is done decides, and nothing after it is read; failing wins over being done; a done event's own text still counts, an error's does not; all texts before are read that are not empty |
| `Conversation.SendKeepsGrammar` | internal/core/agent.go:76-106 | a Send adds nothing, or a user message and answered turns and at most one unfinished one; wherever it stops, the session stays grammatical, in the phase stated |
| `Conversation.SendsKeepGrammar` | internal/core/agent.go:63-106 | so does any number of Sends, one after the other |
| `Conversation.EveryResultHasItsCall` | internal/core/agent.go:163-207 | in a grammatical session an open assistant message is followed by results for its first calls, in order, and the rest is still owed |
| `Conversation.LaterAssistantStandsOnAnswers` | internal/core/agent.go:91-103 | an assistant message that does not directly follow a user message directly follows a complete block of answers |
| `Conversation.SendAnswered` | internal/core/agent.go:76-106 | what a Send adds answers all of its calls exactly if it was not cut off between two results |
| `Conversation.HistoryAnsweredExactlyWhenNoSendWasCutOff` | internal/core/agent.go:63-106 | and so for the whole session: nothing later answers an open call |
| `Conversation.CutOffSendLeavesACallOpen` | internal/core/agent.go:112-119 | a session that is ready for an answer, and goes to the provider, with a call of an earlier Send left open |
| `Conversation.ReadBackKeepsPhase` | internal/core/agent.go:113 | reading a session back, its arguments compacted, does not change where it stands |
| `Conversation.ReadBackChangesOnlyArguments` | internal/core/agent.go:113 | what is read back has every message, call, id and name in its place; only arguments change |
| `Conversation.EventsAreWellFormed` | internal/core/agent.go:125-141 | a trace is accepted as texts and started/finished pairs, then at most one terminal event, and ends as the report says |
| `Conversation.AcceptedTraces` | internal/core/agent.go:76-106 | that is: a terminal event is the last one, a finished call directly follows its start, and nothing but its finish or an error follows a start |
| `Conversation.LedgersAgree` | internal/core/agent.go:125-207 | texts, results and call ids of the trace and of the store agree, results stored ahead by at most one, calls announced ahead by at most one, text ahead by at most the unstored turn |
| `AgentLoop.BoundOf` | internal/core/agent.go:31-52 | of several bounds given in order the last positive one counts, and the default if there is none |
| `AgentLoop.LaterOptionWins` | internal/core/agent.go:31-52 | a later positive option wins over all before it, one that is not positive counts for nothing, and without any the bound is 10 |
| `AgentLoop.Agent.constructor` | internal/core/agent.go:39-52 | the agent has that bound, and the ports and the sessions it was given |
| `AgentLoop.Agent.Send` | internal/core/agent.go:63-71 | an unknown session, or a failing lookup, is an error at once and changes nothing; otherwise the session grows by the messages, and the channel carries the events, of one well-formed report; an error is that of the port that failed, of the stream, or of the bound; results are what the tools gave, each call run once and in order, and at most the announced call ran besides; the provider is asked at most as often as the bound says, each time with the session as it then stands, read back; the grammar is kept, and no call is left open unless a port failed or an event lost to the context |
| `AgentLoop.RequestsAreSessionsSoFar` | internal/core/agent.go:112-119 | each request is what was in the session before, the user's message, and the answers and results of the turns so far, read back, and all of that is still there at the end; there is one request for each turn, and perhaps one more |
| `AgentLoop.Agent.Run` | internal/core/agent.go:76-106 | the channel is closed on every way out, and there is a terminal event unless an event lost to the context; the bound is reported exactly after that many turns that each asked for tools, all of which ran; no port is called after one failed |
| `AgentLoop.Agent.AnswerAndAct` | internal/core/agent.go:92-102 | one round of the loop ends the run with its report, or completes a turn that asked for tools, all of which ran; the provider is asked only when every call of this Send is answered |
| `AgentLoop.Agent.AnswerOnce` | internal/core/agent.go:112-157 | the provider is asked once, with the whole session read back, unless that could not be loaded; the stored answer is the concatenation of the texts delivered, with the calls of the done event; a failed turn stores nothing and reports whose error it was |
| `AgentLoop.Agent.Drain` | internal/core/agent.go:125-141 | texts are delivered up to the first terminal event; if that is an error, it is passed on after all texts before it |
| `AgentLoop.Agent.RunToolCalls` | internal/core/agent.go:163-208 | results are what the tools gave, stored and announced in call order, the store ahead by at most one; at most the call announced last ran besides; an unknown tool's result says so |
| `AgentLoop.Agent.RunToolCall` | internal/core/agent.go:164-206 | one call is announced, run, stored, and announced again, and on failure it is known how far it got: only this call can have run |
| `AgentLoop.UnknownToolSaysWhich` | internal/core/agent.go:170-179 | the result for an unknown tool is one object whose one field names it, so that no two names share a result |
| `AgentLoop.Agent.Emit` | internal/core/agent.go:213-220 | an event is heard, or it lost to a context that is done |
| `TurnProtocol.StepKeepsInv` | internal/core/agent.go:76-220 | every step of agent, streams, consumer and context keeps the protocol's invariant |
| `TurnProtocol.ChannelDiscipline` | internal/core/agent.go:73-77 | in every state of every run nothing was sent on or closed a closed channel, and goroutines that are gone closed theirs once |
| `TurnProtocol.StoredAnswersAreWhole` | internal/core/agent.go:126-156 | an answer about to be stored was heard to its done event, or the context is done |
| `TurnProtocol.StoredAnswersAreMadeOfTheirBodies` | internal/core/agent.go:125-156 | in every run each stored answer is made of its stream's body: all contents up to the done line, joined, with that line's calls, taken over as `Ollama.FromWireToolCalls` does; or, only once the context is done, the contents that got through, without calls |
| `TurnProtocol.AgentActsOnTheVerdict` | internal/core/agent.go:126-156 | in every run the agent does about each event, and about a closed channel, what the verdict on all it heard from that stream says |
| `TurnProtocol.ScriptHeard` | internal/adapter/provider/ollama/ollama.go:79-110 | the agent makes an answer of a body exactly when a done line comes before any undecodable one, with all contents so far and calls that have ids; otherwise it fails, for the reason that applies |
| `TurnProtocol.NoDeadlock` | internal/core/agent.go:213-220 | as long as the consumer has not left or the context is done, something can happen until agent and streams have returned |
| `TurnProtocol.StuckExactlyWhenAbandoned` | internal/core/agent.go:210-220 | the one way to be stuck is a consumer that left without cancelling |
| `TurnProtocol.AbandonedRunsAreStuck` | internal/core/agent.go:210-220 | runs that get stuck so, with any bound |
| `TurnProtocol.EveryRunFinishes` | internal/adapter/provider/ollama/ollama.go:113-123 | every run that from some point on has a consumer or a context that is done, however late, gets to a state where the agent and all streams have returned |
| `TurnReports.StepAccounts` | internal/core/agent.go:76-220 | every step of the concurrent system grows the report of what was delivered and stored by what the step delivers or stores, and by nothing else |
| `TurnReports.EveryStateIsOfAReport` | internal/core/agent.go:76-220 | in every state of every run, whatever the interleaving, what the consumer received and what was stored are the events and messages of one well-formed report within the bound, with the stored answers; an agent that is through has had its last word, unless the context is done |
| `TurnReports.EveryStateIsInOrder` | internal/core/agent.go:76-220 | so in every state of every run the session is grammatical; the trace is well-formed, and over exactly after a last word; results are stored before they are announced and calls announced before they are answered, each by at most one, and text is delivered before it is stored |
| `Paths.AncestorIsDeepest` | internal/adapter/tool/toolkit/path.go:85-111 | the walk stops at the deepest prefix that is not missing, and fails only if even the file system's root is |
| `Paths.SplitExistingAncestor` | internal/adapter/tool/toolkit/path.go:79-112 | it returns that prefix resolved, and the rest of the path in its order |
| `Paths.Reversed` | internal/adapter/tool/toolkit/path.go:91-97 | the collected names are put back in order |
| `Paths.ResolveDefensive` | internal/adapter/tool/toolkit/path.go:57-66 | the resolved prefix with the missing names below it, none of them a dot or a double dot |
| `Paths.ResolveExistingAncestor` | internal/adapter/tool/toolkit/path.go:70-73 | the resolved prefix alone |
| `Paths.EscapesReadsFirstComponent` | internal/adapter/tool/toolkit/path.go:46-48 | the text test is about the first component, and is not fooled by names that begin with two dots |
| `Paths.RelDecidesContainment` | internal/adapter/tool/toolkit/path.go:45-48 | a relative path escapes exactly when the base is not a component-wise prefix of the target |
| `Paths.RelLeadsToTarget` | internal/adapter/tool/toolkit/path.go:45 | walking the relative path from its base leads to its target |
| `Paths.ResolvePath` | internal/adapter/tool/toolkit/path.go:27-51 | succeeds with the contained path, and refuses or fails otherwise; an empty or absolute argument is refused |
| `Paths.PlainTextsLeadBelowTheRoot` | internal/adapter/tool/toolkit/path.go:32-50 | without symlinks, the text of names between slashes is accepted as the root with those names below it, in order; empty components and dots change nothing |
| `Paths.DoubleDotTakesBack` | internal/adapter/tool/toolkit/path.go:32-33 | a name and a double dot behind it, anywhere in an argument, make no difference to what it resolves to |
| `Paths.RootInText` | internal/adapter/tool/toolkit/path.go:32-33 | an absolute root text leads to its names in order, a relative one to those below the working directory |
| `Paths.SplitIsExact` | internal/adapter/tool/toolkit/path.go:32-33 | the components of a text are the one list without slashes that makes that text again |
| `Paths.ContainmentIsExact` | internal/adapter/tool/toolkit/path.go:21-51 | with an existing root and no other error, a relative argument is accepted if and only if the resolved root is a prefix of the result, which is the resolved deepest ancestor and clean names |
| `Paths.PromiseHoldsExactlyWhenRootExists` | internal/adapter/tool/toolkit/path.go:35-50 | all accepted paths lie in the root if and only if the root exists |
| `Paths.AbsOfJoin` | internal/adapter/tool/toolkit/path.go:32-33 | joining, cleaning and making absolute is walking on from the absolute root |
| `Sanitizer.Sanitize` | internal/adapter/tui/sanitize.go:22-43 | equals the one-rune-at-a-time filter from the ground state |
| `Sanitizer.SkipEscapeSequence` | internal/adapter/tui/sanitize.go:70-87 | the filter shows nothing of what is skipped and is back on the ground behind it |
| `Sanitizer.SkipCSI` | internal/adapter/tui/sanitize.go:93-100 | likewise within a control sequence, to its final byte or the end |
| `Sanitizer.SkipOSC` | internal/adapter/tui/sanitize.go:107-117 | likewise within a control string, to BEL, ESC and backslash, or the end |
| `Sanitizer.FilterAppend` | internal/adapter/tui/sanitize.go:22-43 | filtering a concatenation continues from the mode the first part ends in |
| `Sanitizer.SanitizedText` | internal/adapter/tui/sanitize.go:14-62 | the result has no stripped control, is a subsequence of its input, is the input exactly when that was clean, and is unchanged by sanitizing again |
| `Sanitizer.PlainRunesStay` | internal/adapter/tui/sanitize.go:50-62 | outside sequences a rune stays, unless it is a control other than newline and tab |
| `Sanitizer.ControlSequencesVanish` | internal/adapter/tui/sanitize.go:93-100 | a control sequence vanishes up to its first rune from `@` to `~`, or to the end |
| `Sanitizer.ControlStringsVanish` | internal/adapter/tui/sanitize.go:107-117 | a control string vanishes up to the first BEL, or ESC with a backslash behind it, or to the end |
| `Sanitizer.OtherEscapesVanish` | internal/adapter/tui/sanitize.go:70-87 | any other escape vanishes with the rune behind it |
| `Sanitizer.PiecewiseExactlyFromGround` | internal/adapter/tui/sanitize.go:102-117 | piecewise equals whole for all continuations exactly when the first piece ends on the ground |
| `Tui.Model.Update` | internal/adapter/tui/model.go:114-142 | its whole new state and command, for every message |
| `Tui.Model.HandleKey` | internal/adapter/tui/model.go:177-199 | quitting cancels; entering submits only when idle and not blank |
| `Tui.Model.Submit` | internal/adapter/tui/model.go:204-228 | the model becomes busy with a new run, and the sanitized text opens a block |
| `Tui.Model.HandleAgentEvent` | internal/adapter/tui/model.go:250-312 | a terminal event or a closed channel lets the run go; anything else is shown and listened past |
| `Tui.Model.BeginBlock` | internal/adapter/tui/model.go:319-327 | adds what puts a block after a blank line |
| `Tui.SeparatorIsBlankLine` | internal/adapter/tui/model.go:319-327 | that is nothing in an empty transcript, and else the end of the line, if it is not at its end, and one more |
| `Tui.TrimIsExact` | internal/adapter/tui/model.go:189 | what is submitted is the typed text without the space on both sides, all of it and nothing else |
| `Tui.StepKeepsOneRun` | internal/adapter/tui/model.go:114-312 | every step of the event loop keeps the one-run invariant |
| `Tui.AtMostOneRunIsLive` | internal/adapter/tui/model.go:122-136 | always: busy exactly when a cancel function is held and exactly one turn command is outstanding; only that run may still act, and all others were cancelled |
| `Tui.AbandonedExactlyWhenStoppedUncancelled` | internal/adapter/tui/model.go:177-183 | always: every run is attended to or was cancelled, exactly unless the loop stopped while the model held a cancel function it had not called |
| `Tui.NoRunIsAbandoned` | internal/adapter/tui/model.go:177-228 | and that does not happen unless a run is begun after the key that quits and before the loop stops |
| `Tui.LateRunIsAbandoned` | internal/adapter/tui/model.go:177-193 | such a run is abandoned |
| `TuiConsumer.EveryTurnFinishes` | internal/adapter/tui/model.go:230-243 | with the interface as its consumer, and no run begun late, the agent and all streams of every turn return |
| `Tui.HandlingKeepsTranscript` | internal/adapter/tui/model.go:204-327 | handling any message keeps a good transcript good |
| `Tui.TranscriptIsAlwaysGood` | internal/adapter/tui/model.go:245-327 | always: no control a terminal would obey in transcript or status, every block begins with its label, and every block but the first after a blank line |
| `Tui.DeltasShareOneLabel` | internal/adapter/tui/model.go:261-271 | while a run is in flight, its deltas between two of its other events share one label, whatever keys, resizes or pastes are handled in between |
| `Tui.StretchesShareOneLabel` | internal/adapter/tui/model.go:250-311 | in every run of the event loop the transcript grows meanwhile by the sanitized deltas under that label, and by at most one block |
| `Tui.EachStepShows` | internal/adapter/tui/model.go:204-288 | in every run: a delta begins a block labelled `Pythia: ` exactly if no text goes on, and otherwise is appended; a submission begins one labelled `You: `, and a tool's result one without a label; nothing else shows anything |
| `Tui.StreamingMeansTextGoesOn` | internal/adapter/tui/model.go:261-288 | the model takes itself to be in the middle of a text exactly if one was shown and no tool event, end of a turn or submission came after it |
| `Tui.FirstTextOpensBlock` | internal/adapter/tui/model.go:261-288 | so the first text after a tool event, the end of a turn or a submission, after an error too, begins its own block behind all that was shown until then |
| `Tui.TranscriptGrows` | internal/adapter/tui/model.go:204-288 | what is in the transcript stays there |
| `Store.Repo.CreateSession` | internal/adapter/store/sqlite/repository.go:20-28 | unless the engine fails, a new id starts an empty list and a known one is refused; a refusal has no effect |
| `Store.Repo.GetSession` | internal/adapter/store/sqlite/repository.go:32-56 | unless the engine fails, gives back what was created, or not found |
| `Store.Repo.AppendMessage` | internal/adapter/store/sqlite/repository.go:64-93 | unless the engine fails, appends to its session's list and no other, exactly when the calls can be encoded, the role and session are known and the id is new; a refusal changes nothing and is never due to the sequence number |
| `Store.Repo.Messages` | internal/adapter/store/sqlite/repository.go:98-143 | unless the engine fails, the session's appends, in order, each as it reads back |
| `Store.RowRoundTrip` | internal/adapter/store/sqlite/repository.go:147-177 | what is read back from a row is the record, with arguments compacted; the columns hold what they are named for, NULL exactly for no calls and for no id |
| `Store.ReadingChangesOnlyArguments` | internal/adapter/store/sqlite/repository.go:147-169 | reading back keeps every record, every call, its id and its name, in order; only arguments change, and only once |
| `Store.ReadSessionsStandWhereTheyStood` | internal/adapter/store/sqlite/repository.go:98-143 | a session is as grammatical, and as far answered, when it is read as when it was appended; what is read is what the turn loop is handed |
| `Store.NextSeqIsFree` | internal/adapter/store/sqlite/repository.go:80-84 | the greatest number of a session is its length, and the next one is not taken |
| `Store.UniqueNeverFires` | internal/adapter/store/sqlite/migrations/0001_init.sql:24 | no append is refused for its number |
| `Store.OrderIsTableOrder` | internal/adapter/store/sqlite/repository.go:99-103 | ordering a session's rows by number gives the order in which they were appended, however the engine sorts |
| `Store.NewRow` | internal/adapter/store/sqlite/repository.go:64-93 | a row with the next number extends one list by one message and keeps the numbering 1 to n |
| `Migrations.Database.ApplyMigration` | internal/adapter/store/sqlite/migrate.go:55-72 | a migration and its version number take effect together, or, if any step of the transaction fails, not at all |
| `Migrations.Database.Migrate` | internal/adapter/store/sqlite/migrate.go:18-47 | applies, in order and once, the files above the version up to the first that fails, and says which that was |
| `Migrations.EveryHistoryStaysInStep` | internal/adapter/store/sqlite/migrate.go:13-47 | after any calls, failing anywhere, with files added at the end, the schema is the fold of the first files up to the version; a success has all of them, and calling again changes nothing |
| `Migrations.InStepExactlyWhenAddedAtEnd` | internal/adapter/store/sqlite/migrate.go:28-34 | the database is in step with the listing a call saw exactly if the files applied before are still the first ones |
| `Migrations.FileSortedInIsNeverApplied` | internal/adapter/store/sqlite/migrate.go:28-44 | of two files, the one sorted in first after the other was applied is skipped, and the other is applied again |
| `Wire.WriteFrame` | internal/adapter/tool/bash/sandbox/wire.go:31-39 | succeeds exactly if the writer has room for the frame, and otherwise leaves a proper prefix of it |
| `Wire.WriteField` | internal/adapter/tool/bash/sandbox/wire.go:60-71 | succeeds exactly if the writer has room for the field, and otherwise leaves a proper prefix of it |
| `Wire.ReadField` | internal/adapter/tool/bash/sandbox/wire.go:77-94 | takes exactly one field off the stream, or fails by a short read or an excessive claim |
| `Wire.ReadFrame` | internal/adapter/tool/bash/sandbox/wire.go:45-57 | takes exactly one frame off the stream and nothing after it, or fails; never half of one |
| `Wire.BigEndianRoundTrip` | internal/adapter/tool/bash/sandbox/wire.go:61-62 | a length reads back up to its low 32 bits, and its first byte weighs most |
| `Wire.BigEndianIsCanonical` | internal/adapter/tool/bash/sandbox/wire.go:83 | every four bytes are the encoding of the number they are read as |
| `Wire.FrameLayout` | internal/adapter/tool/bash/sandbox/wire.go:31-39 | the root comes before the command, each behind its own length |
| `Wire.FieldReadsBack` | internal/adapter/tool/bash/sandbox/wire.go:60-94 | what becomes of a written field of any length |
| `Wire.RoundTripExactlyUpToCap` | internal/adapter/tool/bash/sandbox/wire.go:20-57 | a frame followed by anything reads back, leaving just that, exactly when both fields fit the cap |
| `Wire.AcceptedStreamsAreFrames` | internal/adapter/tool/bash/sandbox/wire.go:41-57 | what an accepted stream was read from is the one encoding of the result |
| `Wire.ProperPrefixesAreShort` | internal/adapter/tool/bash/sandbox/wire.go:73-94 | every proper prefix of a frame is rejected as too short |
| `Handoff.StepKeepsInv` | internal/adapter/tool/bash/sandbox/sandbox_linux.go:39-96 | every step of parent, child and both pipes keeps the protocol's invariant |
| `Handoff.ShellIsEnteredLast` | internal/adapter/tool/bash/sandbox/child_linux.go:46-104 | the shell is entered only after frame, chdir, NO_NEW_PRIVS, Landlock, seccomp and close-on-exec, in that order, and with the parent's root and command exactly when both fit the cap |
| `Handoff.OversizedOrdersDoNothing` | internal/adapter/tool/bash/sandbox/wire.go:83-86 | a field over the cap stops the child before it does anything, and the parent reports an error unless the child was killed from outside |
| `Handoff.ComplaintMeansNoShell` | internal/adapter/tool/bash/sandbox/child_linux.go:51-57 | a byte on the error pipe means that the shell was not entered, and a child that failed left one |
| `Handoff.SuccessMeansTheShellRan` | internal/adapter/tool/bash/sandbox/sandbox_linux.go:87-95 | an exit code means that the shell ran and exited with it, unless the child was killed from outside; a failed setup is always an error |
| `Handoff.ErrorsThatMeanNotRun` | internal/adapter/tool/bash/bash.go:146-151 | which errors mean that the command did not run |
| `Handoff.ShellCanRun` | internal/adapter/tool/bash/sandbox/sandbox_linux.go:61-75 | every order that fits can get to its shell, through pipes of any size |
| `Handoff.BlockedExactlyWhenOutputIsHeld` | internal/adapter/tool/bash/sandbox/sandbox_linux.go:56-95 | parent and child never block each other: nothing happens by itself exactly when both are finished, or the parent waits for a child that has ended while its output is still held |
| `Handoff.OutputCanBeHeld` | internal/adapter/tool/bash/sandbox/sandbox_linux.go:56-87 | every order that fits can get to that state, and a context that is done does not end it |
| `Handoff.EveryRunFinishes` | internal/adapter/tool/bash/sandbox/sandbox_linux.go:61-95 | in every run that lets the output go the parent returns and the child ends |
| `Handoff.RunsFinishExactlyWhenOutputIsLetGo` | internal/adapter/tool/bash/sandbox/sandbox_linux.go:61-95 | and in no other run |
| `Sandbox.Parent.ExecSandboxed` | internal/adapter/tool/bash/sandbox/sandbox_linux.go:39-96 | on every path all pipe ends are closed and a started child is waited for, after a kill exactly if something went wrong on a pipe; the result is that of the first thing that went wrong, and an exit code needs a whole frame, a silent error pipe and a plain exit |
| `Sandbox.HandoffReturnsWhatParentDoes` | internal/adapter/tool/bash/sandbox/sandbox_linux.go:39-110 | however parent and child interleave, the parent returns, and kills, as it does one step after the other with the answers it got |
| `Sandbox.HalfAFrameIsNoFrame` | internal/adapter/tool/bash/sandbox/sandbox_linux.go:75-81 | what is left of a frame that could not be written whole is never read as a frame |
| `Sandbox.Process.RunChild` | internal/adapter/tool/bash/sandbox/child_linux.go:46-104 | the image is replaced exactly when a frame can be read and no step fails; otherwise the child has done the plan up to the step that failed, said so, and exits with 1; both pipes are closed either way |
| `Sandbox.HandoffChildDoesWhatProcessDoes` | internal/adapter/tool/bash/sandbox/child_linux.go:46-104 | and a child that was not killed has done what it does alone, for some steps that fail |
| `LimitedBuffer.Buffer.Write` | internal/adapter/tool/bash/bash.go:241-254 | keeps what was there and as much of the beginning of the write as fits, notices the rest, and always reports the whole write |
| `LimitedBuffer.BufferKeepsTheFirstBytes` | internal/adapter/tool/bash/bash.go:226-254 | after any writes the content is the first bytes of all of them joined, and when the flag is set |
| `Edit.Workspace.Invoke` | internal/adapter/tool/edit/edit.go:58-91 | a file is written exactly when the old string is counted once, and then only there; which outcome is reported when; a failing write can spoil only the file it writes, and any other outcome changes none |
| `Edit.CountedOnceMeansOnePlace` | internal/adapter/tool/edit/edit.go:77-85 | counted once means one place with no start before it and none from its end on, and that place is what is replaced |
| `Edit.CountIsMostApart` | internal/adapter/tool/edit/edit.go:77-83 | the count that is reported is the greatest number of occurrences of which none reaches into another |
| `Edit.CountIsAllOccurrences` | internal/adapter/tool/edit/edit.go:77-83 | without a proper border the greedy count is the number of all occurrences |
| `Edit.PromiseHoldsExactlyWhenBorderless` | internal/adapter/tool/edit/edit.go:77-83 | a string counted once occurs once, in every file, exactly when it has no proper border |
| `Edit.ReverseEditRestores` | internal/adapter/tool/edit/edit.go:85 | editing back restores the file if the new string has no proper border and is counted once |
| `Edit.EditingBackRestoresExactlyWhenBorderless` | internal/adapter/tool/edit/edit.go:85 | and that condition cannot be dropped: it holds for every file exactly for strings without a proper border |

## Left out

- HTTP, NDJSON and JSON parsing: a response body is a list of decoded lines, perhaps followed by a read error.
- The SQL engine: tables are sequences of rows, statements are atomic, and sorting is any sort by the key. JSON and time formats are functions that read back what they wrote, but for arguments, which JSON rewrites once in a compact form.
- Why the database fails a statement for reasons of its own: that it does is a parameter of each operation of `Store`.
- The order in which SQLite checks the constraints of a row that breaks several.
- Ids and time stamps of messages in `Conversation`; that each stored message has its own id is `Store`'s concern.
- Where generated ids come from: what a supply of ids is good for is stated as its property, for each answer on its own; a store refuses a duplicate.
- What a request carries besides the messages: the model's name and the schemas of the tools.
- The real kernel: Landlock, `prctl`, TSYNC and `exec` are steps that succeed or fail. A pipe holds at least one byte.
- `TmpDir` and the environment of the child: the frame carries neither.
- `bpf.Assemble` and the seccomp system call. Instructions mean what `Bpf.Exec` says.
- That no name is in two of the shipped tables: the policy says which table wins.
- What the operating system does with a path after it was resolved; `EvalSymlinks` is any partial function with clean absolute results.
- Signals that end the interface, and what becomes of a run when its process exits.
- Layout: Bubble Tea's widgets, resizing and styling; formatting of tool results is any function, and typed text is any text.
- Encodings: text is a sequence of characters, file contents and counts of `Edit` included.
- `config.go`, `main.go`, `registry.go`, `read.go`, `write.go`, `validate.go`, `result.go`, `env.go`, `landlock_linux.go`, and the unsandboxed way of running a command: wiring and short functions.
- Sandbox.Process.RunChild: the error pipe takes a given number of bytes there; that the parent empties it meanwhile is in `Handoff`.
- Handoff.EveryRunFinishes: assumes that a shell, once entered, ends.
- Sandbox.Parent.ExecSandboxed: says nothing about the child's steps, which interleave with the parent's in `Handoff`, and takes for granted that waiting ends.
- TurnProtocol.EveryRunFinishes: assumes that reads, tool calls and calls of the repository end.
- AgentLoop.Agent.Send: runs the loop to its end; that it runs beside its caller is in `TurnProtocol`, and that this makes no difference to what it leaves behind in `TurnReports`.
- LimitedBuffer.Buffer.Write: the 64-bit width of the capacity is not modelled, because no buffer in memory gets near it.

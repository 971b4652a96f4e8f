/** The terminal interface as the consumer of the turn loop. */
module TuiConsumer {
  import opened Wrappers
  import U = Tui
  import P = TurnProtocol

  /** A state that the interface can reach without a run begun after the key that quits. */
  ghost predicate ReachedOnTime(format: string -> string, w: U.World) {
    exists steps :: U.Reached(format, steps) == Some(w) && U.OnTime(format, steps)
  }

  /** The interface is the consumer of `run`: it is there as long as it attends to that run, and
      the cancel function it calls is that of the run's context. */
  predicate Consumes(w: U.World, run: U.Run, s: P.State) {
    && run < |w.lives|
    && (s.consumer.Left? ==> !U.Attends(w, run))
    && (run in w.ui.cancelled ==> s.ctxDone)
  }

  lemma NeverAbandons(format: string -> string, w: U.World, run: U.Run, s: P.State)
    requires ReachedOnTime(format, w) && Consumes(w, run, s)
    ensures !s.consumer.Left? || s.ctxDone
  {
    var steps :| U.Reached(format, steps) == Some(w) && U.OnTime(format, steps);
    U.NoRunIsAbandoned(format, steps);
  }

  /** With this consumer no turn gets stuck: the agent and every stream goroutine return. */
  lemma EveryTurnFinishes(format: string -> string, worlds: nat -> U.World, run: U.Run, states: nat -> P.State)
    returns (m: nat)
    requires P.IsRun(states)
    requires forall i: nat :: ReachedOnTime(format, worlds(i)) && Consumes(worlds(i), run, states(i))
    ensures P.Finished(states(m))
  {
    forall i: nat | 0 <= i ensures !states(i).consumer.Left? || states(i).ctxDone {
      NeverAbandons(format, worlds(i), run, states(i));
    }
    m := P.EveryRunFinishes(states, 0);
  }
}

/** The abstract run and effect machines (domain/state.rs). */
module States {
  import opened Bytes

  datatype RunState = Queued | RetryWait | Leased | Running | Succeeded | Failed | Cancelled | NeedsReconciliation
  {
    predicate Terminal() {
      Succeeded? || Failed? || Cancelled?
    }

    predicate Slotted() {
      Leased? || Running?
    }

    /** RunState::transition. */
    predicate May(to: RunState, unresolved: bool, explicitResume: bool) {
      && !(unresolved && (to.Succeeded? || to.Cancelled? || to.Queued? || to.RetryWait? || to.Failed?))
      && match this
         case Queued => to.Leased? || to.Cancelled? || to.Failed?
         case Leased => to.Running? || to.Queued? || to.RetryWait? || to.Cancelled? || to.Failed? || to.NeedsReconciliation?
         case Running => to.Succeeded? || to.Failed? || to.Cancelled? || to.Queued? || to.RetryWait? || to.NeedsReconciliation?
         case RetryWait => to.Queued? || to.Cancelled? || to.Failed? || to.NeedsReconciliation?
         case NeedsReconciliation => to.Failed? || (to.Queued? && explicitResume)
         case _ => false
    }
  }

  datatype EffectState = Prepared | Dispatching | Committed | DefinitelyFailed | OutcomeUnknown
  {
    /** EffectState::unresolved. */
    predicate Uncertain() {
      Dispatching? || OutcomeUnknown?
    }

    predicate Settled() {
      Committed? || DefinitelyFailed?
    }

    /** EffectState::transition. */
    predicate May(to: EffectState, evidenced: bool, eligibleRetry: bool) {
      || (Prepared? && to.Dispatching?)
      || (Dispatching? && (to.Committed? || to.DefinitelyFailed? || to.OutcomeUnknown?))
      || (OutcomeUnknown? && ((evidenced && to.Settled()) || (eligibleRetry && to.Dispatching?)))
    }
  }

  // ---------------------------------------------------------------- the machines as tables

  /** The moves open to a run without uncertain effects and without a resume. */
  const RunMoves: set<(RunState, RunState)> := {
    (Queued, Leased), (Queued, Cancelled), (Queued, Failed),
    (Leased, Running), (Leased, Queued), (Leased, RetryWait), (Leased, Cancelled), (Leased, Failed),
    (Leased, NeedsReconciliation),
    (Running, Succeeded), (Running, Failed), (Running, Cancelled), (Running, Queued), (Running, RetryWait),
    (Running, NeedsReconciliation),
    (RetryWait, Queued), (RetryWait, Cancelled), (RetryWait, Failed), (RetryWait, NeedsReconciliation),
    (NeedsReconciliation, Failed)}

  /** A run moves along the table; a resume opens one move more; and while an effect is uncertain
      nothing leads to the queue, to a retry or to an end. */
  lemma RunTable(from: RunState, to: RunState, unresolved: bool, resume: bool)
    ensures from.May(to, unresolved, resume) <==>
            && ((from, to) in RunMoves || (resume && from == NeedsReconciliation && to == Queued))
            && (unresolved ==> to == Leased || to == Running || to == NeedsReconciliation)
  {
  }

  /** Ends are final, every other state can end, and a run awaiting reconciliation never returns to
      work by itself. */
  lemma RunEnds(s: RunState)
    ensures s == Succeeded || s == Failed || s == Cancelled ==> forall to, u, resume :: !s.May(to, u, resume)
    ensures s == Succeeded || s == Failed || s == Cancelled || s.May(Failed, false, false)
    ensures forall to, u :: s == NeedsReconciliation && s.May(to, u, false) ==> to == Failed && !u
  {
  }

  /** An effect is sent once prepared, is settled or becomes unknown once sent, and leaves the
      unknown only by evidence or, if that is allowed, by being sent again. */
  lemma EffectTable(from: EffectState, to: EffectState, evidenced: bool, retry: bool)
    ensures from.May(to, evidenced, retry) <==>
            || (from, to) in {(Prepared, Dispatching), (Dispatching, Committed), (Dispatching, DefinitelyFailed),
                              (Dispatching, OutcomeUnknown)}
            || (evidenced && (from, to) in {(OutcomeUnknown, Committed), (OutcomeUnknown, DefinitelyFailed)})
            || (retry && (from, to) == (OutcomeUnknown, Dispatching))
  {
  }
}

/** Exactly when the operations succeed in a reachable state, and what they then leave behind. */
module Outcomes {
  import opened Bytes
  import opened Domain
  import opened States
  import opened Grants
  import opened Db
  import opened Scheduler
  import opened Execution
  import opened Rows
  import opened Deltas
  import opened Invariants
  import opened Reachable
  import opened Lifecycle
  import opened Forest
  import opened Budget
  import opened Allowances
  import Corruption
  import EventChain

  /** A new key is admitted exactly when tenant, module and grant are there and the queue, with the
      deferred retries in it, has room. Then one row, at the start of its life, and its one-event
      log are added; otherwise nothing changes. */
  lemma AdmitsExactly(p: Policy, db: Tables, tenant: Uuid, key: Text, request: NormalizedRun, newId: Uuid)
    returns (log: seq<EventChain.Event>)
    requires Inv(p, db) && db.reaping.None? && newId !in db.runs && AdmitArguments(p, key)
    requires FindKey(db, tenant, key).None?
    ensures var (db', reply) := Admit(p, db, tenant, key, request, newId);
            var row := Stamp(NewRun(tenant, key, request, p.runHash(request), db.clock), log);
            && (reply.Admitted? <==>
                  tenant in db.tenants && (tenant, request.moduleDigest) in db.modules
                  && GrantUsable(db, tenant, request.grantId) && !QueueFull(p, db, tenant))
            && (reply.Admitted? ==>
                  && reply == Admitted(newId, false) && LifeOf(p, row) == 4 * p.maxAttempts - 1 && |log| == 1
                  && db' == db.(runs := db.runs[newId := row], events := db.events[newId := log]))
            && (!reply.Admitted? ==> db' == db)
  {
    InvEvents(p, db);
    hide Inv, QueueFull, GrantUsable, FindKey;
    var run := NewRun(tenant, key, request, p.runHash(request), db.clock);
    log := Logged(p.link, newId, run, [], EventChain.RunAdmitted, EventChain.StateIs(Queued));
    AppendExtends(p.link, newId, run, [], EventChain.RunAdmitted, EventChain.StateIs(Queued));
  }

  lemma InvEvents(p: Policy, db: Tables)
    requires Inv(p, db)
    ensures db.events.Keys == db.runs.Keys && ValidPolicy(p)
  {
  }

  /** The run is leased to the worker under its next epoch, until the lease time runs out or its
      grant expires. */
  predicate Leases(p: Policy, db: Tables, db': Tables, worker: Text, r: Uuid, later: Time)
    requires r in db.runs && r in db'.runs
  {
    var run, run', g := db.runs[r], db'.runs[r], db.runs[r].request.grantId;
    && run'.state.Leased? && run'.held && run'.leaseOwner == Some(worker) && run'.leaseEpoch == run.leaseEpoch + 1
    && run'.tenant == run.tenant && run'.request == run.request && run'.cancel == run.cancel
    && g in db.grants && run'.leaseExpires == Some(Min(Later(db, later) + p.leaseMs * 1000, Expiry(db.grants[g].authority)))
    && db'.clock == Later(db, later)
  }

  /** A well-formed claim takes the candidate's slot exactly when there is room, the whole line of
      the run's grant is live and a sequence number is left; a candidate without a live line fails
      for good instead, and no other run is touched. */
  lemma ClaimsExactly(p: Policy, db: Tables, worker: Text, allowed: seq<Uuid>, slots: int, later: Time)
    requires GrantInv(p, db) && db.reaping.None? && ClaimArguments(p, worker, allowed, slots)
    requires ClaimCandidate(p, db, allowed).Some?
    requires ActiveTotal(db.tenants) < p.maxActiveGlobal && Count(db.runs, SlotHeldBy(worker)) < 2
    ensures var (t, r) := ClaimCandidate(p, db, allowed).value;
            var (db', reply) := Claim(p, db, worker, allowed, slots, later);
            && r in db.runs && r in db'.runs
            && var live := LiveLine(db.grants, db.runs[r].request.grantId, db.clock);
               && (reply.Claimed? <==> live && db.dispatchSeq < I64_MAX)
               && (reply.Claimed? ==> Leases(p, db, db', worker, r, later))
               && (!live ==> reply.NoClaim? && db'.runs[r].state.Failed? && db'.runs[r].errorCode == Some(GRANT_DENIED_CODE))
               && (forall q | q in db.runs && q != r :: q in db'.runs && db'.runs[q] == db.runs[q])
  {
    Corruption.TotalsInRange(p, db);
    ClaimUnfolds(p, db, worker, allowed, slots, later);
    ClaimCandidateFacts(p, db, allowed);
    InvArguments(p, db, worker, allowed, slots);
    var (t, r) := ClaimCandidate(p, db, allowed).value;
    InvReady(p, db, r);
    hide Claim, Inv, BudgetOk, LeasesOk, ClaimCandidate, ClaimArguments, ClaimRun, Ready, Chosen, LiveLine, LoadChain, Leases;
    hide LeaseExpiry, LiveChain;
    ClaimRunLeases(p, db, worker, t, r, later);
  }

  lemma ClaimRunLeases(p: Policy, db: Tables, worker: Text, t: Uuid, r: Uuid, later: Time)
    requires GrantInv(p, db) && ClaimReady(p, db, t, r) && Ready(p, db, r)
    requires db.tenants[t].activeCount >= 0 && db.dispatchSeq <= I64_MAX && WorkerName(worker)
    ensures var g := db.runs[r].request.grantId;
            var (db', reply) := ClaimRun(p, db, worker, t, r, LoadChain(db.grants, t, g), later);
            var live := LiveLine(db.grants, g, db.clock);
            && r in db'.runs
            && (reply.Claimed? <==> live && db.dispatchSeq < I64_MAX)
            && (reply.Claimed? ==> Leases(p, db, db', worker, r, later))
            && (!live ==> reply.NoClaim? && db'.runs[r].state.Failed? && db'.runs[r].errorCode == Some(GRANT_DENIED_CODE))
            && (forall q | q in db.runs && q != r :: q in db'.runs && db'.runs[q] == db.runs[q])
  {
    CandidateChain(p, db, t, r, Later(db, later));
    hide GrantInv, Ready, LiveLine, LoadChain, LiveChain, LeaseExpiry, ClaimRun, Leases, ClaimReady;
    var chain := Chain(db.grants, db.runs[r].request.grantId);
    var log := ClaimRunOutcome(p, db, worker, t, r, chain, later);
    var (db', reply) := ClaimRun(p, db, worker, t, r, Ok(chain), later);
    if reply.Claimed? {
      RowLeases(p, db, db', worker, r, chain, later, log);
    }
  }

  lemma RowLeases(p: Policy, db: Tables, db': Tables, worker: Text, r: Uuid, chain: seq<Grant>, later: Time,
                  log: seq<EventChain.Event>)
    requires r in db.runs && r in db'.runs && db'.clock == Later(db, later)
    requires db'.runs[r] == Stamp(LeasedRow(p, db, worker, r, chain, Later(db, later)), log)
    requires var g := db.runs[r].request.grantId;
             g in db.grants && LeaseExpiry(p, chain, Later(db, later))
                               == Min(Later(db, later) + p.leaseMs * 1000, Expiry(db.grants[g].authority))
    ensures Leases(p, db, db', worker, r, later)
  {
    hide LeaseExpiry;
  }

  lemma CandidateChain(p: Policy, db: Tables, t: Uuid, r: Uuid, now: Time)
    requires GrantInv(p, db) && r in db.runs && t == db.runs[r].tenant
    ensures var g := db.runs[r].request.grantId;
            && g in db.grants && LoadChain(db.grants, t, g) == Ok(Chain(db.grants, g))
            && (LiveChain(Chain(db.grants, g), db.clock) <==> LiveLine(db.grants, g, db.clock))
            && LeaseExpiry(p, Chain(db.grants, g), now) == Min(now + p.leaseMs * 1000, Expiry(db.grants[g].authority))
  {
    hide Inv, UseOk, ReservedOk, AllowedOk;
    ChainLoads(db.grants, t, db.runs[r].request.grantId);
    LiveChainIsLine(db.grants, db.runs[r].request.grantId, db.clock);
    LeafExpiresFirst(db.grants, db.runs[r].request.grantId);
  }

  lemma ClaimRunOutcome(p: Policy, db: Tables, worker: Text, t: Uuid, r: Uuid, chain: seq<Grant>, later: Time)
    returns (log: seq<EventChain.Event>)
    requires ClaimReady(p, db, t, r) && Ready(p, db, r) && db.tenants[t].activeCount >= 0 && db.dispatchSeq <= I64_MAX
    requires WorkerName(worker)
    ensures var (db', reply) := ClaimRun(p, db, worker, t, r, Ok(chain), later);
            && r in db'.runs
            && (reply.Claimed? <==> LiveChain(chain, db.clock) && db.dispatchSeq < I64_MAX)
            && (reply.Claimed? ==>
                  && db'.clock == Later(db, later)
                  && db'.runs[r] == Stamp(LeasedRow(p, db, worker, r, chain, Later(db, later)), log))
            && (!LiveChain(chain, db.clock) ==>
                  reply.NoClaim? && db'.runs[r].state.Failed? && db'.runs[r].errorCode == Some(GRANT_DENIED_CODE))
            && (forall q | q in db.runs && q != r :: q in db'.runs && db'.runs[q] == db.runs[q])
  {
    log := [];
    if !LiveChain(chain, db.clock) {
      var row := db.runs[r].(state := Failed, errorCode := Some(GRANT_DENIED_CODE));
      log := RecordMovesTwice(p, db, r, db.runs[r], row, EventChain.GrantDenied, EventChain.GrantInactive,
                                  EventChain.RunFailed, EventChain.DeniedFailure);
    } else if db.dispatchSeq < I64_MAX {
      log := LeaseWritten(p, db, worker, t, r, chain, later);
    }
  }

  /** A well-formed start of a visible run succeeds exactly under its live lease; the run is then
      running under the same lease, and a repeated start changes nothing. */
  lemma StartsExactly(p: Policy, db: Tables, r: Uuid, worker: Text, allowed: seq<Uuid>, epoch: int)
    requires Inv(p, db) && WorkerName(worker) && epoch > 0 && Visible(db, r, allowed)
    ensures var (db', reply) := MarkStarted(p, db, r, worker, allowed, epoch);
            && (reply.Started? <==> Holds(db.runs[r], worker, epoch, db.clock))
            && (reply.Started? ==>
                  r in db'.runs && db'.runs[r].state.Running? && Holds(db'.runs[r], worker, epoch, db'.clock))
            && (!reply.Started? || db.runs[r].state.Running? ==> db' == db)
  {
    InvReady(p, db, r);
    hide Inv, MarkStarted, Ready, Holds;
    if Holds(db.runs[r], worker, epoch, db.clock) {
      StartSucceeds(p, db, r, worker, allowed, epoch);
    } else {
      StartRefuses(p, db, r, worker, allowed, epoch);
    }
  }

  lemma StartRefuses(p: Policy, db: Tables, r: Uuid, worker: Text, allowed: seq<Uuid>, epoch: int)
    requires Visible(db, r, allowed) && !Holds(db.runs[r], worker, epoch, db.clock)
    ensures var (db', reply) := MarkStarted(p, db, r, worker, allowed, epoch); db' == db && reply.Refused?
  {
    hide Holds, Record;
  }

  lemma StartSucceeds(p: Policy, db: Tables, r: Uuid, worker: Text, allowed: seq<Uuid>, epoch: int)
    requires WorkerName(worker) && epoch > 0 && Visible(db, r, allowed) && Ready(p, db, r)
    requires Holds(db.runs[r], worker, epoch, db.clock)
    ensures var (db', reply) := MarkStarted(p, db, r, worker, allowed, epoch);
            && reply.Started? && r in db'.runs && db'.runs[r].state.Running?
            && Holds(db'.runs[r], worker, epoch, db'.clock)
            && (db.runs[r].state.Running? ==> db' == db)
  {
    if db.runs[r].state.Leased? {
      var log := RecordMoves(p, db, r, db.runs[r], db.runs[r].(state := Running), EventChain.RunnerStarted,
                             EventChain.StateIs(Running));
    }
    hide Record, Ready, RowOk, WorkerName;
  }

  /** A well-formed finish of a visible run succeeds exactly when the run is running under the
      caller's live lease and all its effects are settled; a cancellation outranks a failure, and
      a failure a success. */
  lemma FinishesExactly(p: Policy, db: Tables, r: Uuid, worker: Text, allowed: seq<Uuid>, epoch: int,
                        output: Option<seq<byte>>, code: Option<Text>)
    requires Inv(p, db) && db.reaping.None? && FinishArguments(worker, epoch, output, code) && Visible(db, r, allowed)
    ensures var (db', reply) := Finish(p, db, r, worker, allowed, epoch, output, code);
            && (reply.Finished? <==>
                  db.runs[r].state.Running? && Holds(db.runs[r], worker, epoch, db.clock) && !Unsettled(db.effects, r))
            && (reply.Finished? ==>
                  && r in db'.runs && reply == Finished(r, db'.runs[r].state)
                  && db'.runs[r].output == output && db'.runs[r].errorCode == code && !db'.runs[r].held
                  && (db'.runs[r].state.Cancelled? <==> db.runs[r].cancel)
                  && (db'.runs[r].state.Failed? <==> !db.runs[r].cancel && code.Some?)
                  && (db'.runs[r].state.Succeeded? <==> !db.runs[r].cancel && code.None?))
            && (!reply.Finished? ==> db' == db && reply.Refused?)
  {
    InvReady(p, db, r);
    InvSlots(p, db);
    if db.runs[r].held {
      ActiveWhenHeld(p, db, r);
    }
    hide Inv, Unsettled, Finish, Ready, FinishArguments;
    if db.runs[r].state.Running? && Holds(db.runs[r], worker, epoch, db.clock) && !Unsettled(db.effects, r) {
      FinishSucceeds(p, db, r, worker, allowed, epoch, output, code);
    } else {
      FinishRefuses(p, db, r, worker, allowed, epoch, output, code);
    }
  }

  lemma FinishRefuses(p: Policy, db: Tables, r: Uuid, worker: Text, allowed: seq<Uuid>, epoch: int,
                      output: Option<seq<byte>>, code: Option<Text>)
    requires FinishArguments(worker, epoch, output, code) && Visible(db, r, allowed)
    requires !(db.runs[r].state.Running? && Holds(db.runs[r], worker, epoch, db.clock) && !Unsettled(db.effects, r))
    ensures var (db', reply) := Finish(p, db, r, worker, allowed, epoch, output, code); db' == db && reply.Refused?
  {
    hide Unsettled, Record, FinishArguments;
  }

  lemma FinishSucceeds(p: Policy, db: Tables, r: Uuid, worker: Text, allowed: seq<Uuid>, epoch: int,
                       output: Option<seq<byte>>, code: Option<Text>)
    requires FinishArguments(worker, epoch, output, code) && Visible(db, r, allowed) && Ready(p, db, r)
    requires db.runs[r].state.Running? && Holds(db.runs[r], worker, epoch, db.clock) && !Unsettled(db.effects, r)
    requires db.tenants[db.runs[r].tenant].activeCount > 0
    ensures var (db', reply) := Finish(p, db, r, worker, allowed, epoch, output, code);
            && r in db'.runs && reply == Finished(r, db'.runs[r].state)
            && db'.runs[r].output == output && db'.runs[r].errorCode == code && !db'.runs[r].held
            && db'.runs[r].state == FinalState(db.runs[r], code)
  {
    var log := FinishWritten(p, db, r, output, code);
    hide Ready, Unsettled, Record, RowOk, FinishArguments;
  }

  lemma InvOf(p: Policy, db: Tables)
    requires GrantInv(p, db)
    ensures Inv(p, db)
  {
  }

  lemma InvSlots(p: Policy, db: Tables)
    requires Inv(p, db)
    ensures SlotsOk(p, db) && TenantsKnown(db)
  {
  }

  /** Where an expired run goes: to reconciliation if one of its effects is in flight or unknown,
      else a cancellation is honoured, else the attempts decide, and only a full queue defers a
      retry. */
  predicate ReapedAs(p: Policy, db: Tables, r: Uuid, state: RunState)
    requires r in db.runs && db.runs[r].tenant in db.tenants
  {
    var run, t := db.runs[r], db.runs[r].tenant;
    var uncertain := exists e | e in db.effects && e.run == r ::
                       db.effects[e].state.Dispatching? || db.effects[e].state.OutcomeUnknown?;
    var queued := |set q | q in db.runs && db.runs[q].state.Queued?|;
    var queuedOf := |set q | q in db.runs && db.runs[q].state.Queued? && db.runs[q].tenant == t|;
    var room := queued < p.maxPendingGlobal && queuedOf < db.tenants[t].queueLimit && queuedOf < p.maxPendingTenant;
    && (state.NeedsReconciliation? <==> uncertain)
    && (state.Cancelled? <==> !uncertain && run.cancel)
    && (state.Failed? <==> !uncertain && !run.cancel && run.attempt == p.maxAttempts)
    && (state.Queued? <==> !uncertain && !run.cancel && run.attempt < p.maxAttempts && room)
    && (state.RetryWait? <==> !uncertain && !run.cancel && run.attempt < p.maxAttempts && !room)
  }

  lemma ReapsTo(p: Policy, db: Tables)
    requires Inv(p, db) && db.reaping.Some? && Expired(db, db.reaping.value.run)
    ensures var r, (db', reply) := db.reaping.value.run, ReapCommit(p, db);
            && r in db.runs && db.runs[r].tenant in db.tenants && r in db'.runs && reply.Reaped? && reply.id == r
            && ReapedAs(p, db, r, db'.runs[r].state)
  {
    var c := db.reaping.value;
    InvReaping(p, db);
    InvReady(p, db, c.run);
    hide Inv;
    var log := ReapWritten(p, db, c);
    ReapedStates(p, db, c);
    hide Ready, RowOk, ReapCommit, LifeOf, ReapedState, ReapedAs, ReleaseSlot, Expired;
  }

  lemma ReapedStates(p: Policy, db: Tables, c: Candidate)
    requires Ready(p, db, c.run) && c.tenant == db.runs[c.run].tenant && c.globalPending == Count(db.runs, InQueue)
    ensures ReapedAs(p, db, c.run, ReapedState(p, db.(reaping := None), c))
  {
    var t := c.tenant;
    assert Select(db.runs, InQueue) == set q | q in db.runs && db.runs[q].state.Queued?;
    assert Select(db.runs, InQueueOf(t)) == set q | q in db.runs && db.runs[q].state.Queued? && db.runs[q].tenant == t;
    UncertainFields(db.effects, c.run);
    hide Chained, Replay, Claims, Select, Db.Uncertain;
  }

  lemma UncertainFields(effects: map<EffectId, Effect>, r: Uuid)
    ensures Db.Uncertain(effects, r) <==>
            exists e | e in effects && e.run == r :: effects[e].state.Dispatching? || effects[e].state.OutcomeUnknown?
  {
  }

  /** Where a deferred retry goes when its turn comes: back to the queue, unless it was cancelled
      meanwhile. */
  lemma PromotesTo(p: Policy, db: Tables, r: Uuid)
    requires Inv(p, db) && r in db.runs && db.runs[r].state.RetryWait?
    ensures var (db', reply) := Promote(p, db, r);
            && reply.Reaped? && reply.id == r && r in db'.runs
            && (db'.runs[r].state.Cancelled? <==> db.runs[r].cancel)
            && (db'.runs[r].state.Queued? <==> !db.runs[r].cancel)
            && db'.runs[r].attempt == db.runs[r].attempt && !db'.runs[r].held
            && (forall q | q in db.runs && q != r :: q in db'.runs && db'.runs[q] == db.runs[q])
  {
    hide Inv, Ready, Promote, PromotedState;
    InvReady(p, db, r);
    RetryHoldsNothing(p, db, r);
    PromotedNext(p, db, r);
    var log := PromoteWritten(p, db, r);
  }

  lemma RetryHoldsNothing(p: Policy, db: Tables, r: Uuid)
    requires Ready(p, db, r) && db.runs[r].state.RetryWait?
    ensures !db.runs[r].held
  {
    hide Chained, Replay, Claims, Db.Uncertain;
  }

  lemma PromotedNext(p: Policy, db: Tables, r: Uuid)
    requires Ready(p, db, r) && db.runs[r].state.RetryWait?
    ensures PromotedState(p, db, r) == if db.runs[r].cancel then Cancelled else Queued
  {
    hide Db.Uncertain, Chained, Replay, Claims;
  }

  lemma PromoteWritten(p: Policy, db: Tables, r: Uuid) returns (log: seq<EventChain.Event>)
    requires Ready(p, db, r) && db.runs[r].state.RetryWait?
    ensures var next := PromotedState(p, db, r);
            Promote(p, db, r) == (db.(runs := db.runs[r := Stamp(db.runs[r].(state := next), log)],
                                      events := db.events[r := log]),
                                  Reaped(r, ReapKindOf(next)))
  {
    PromotedNext(p, db, r);
    var next := PromotedState(p, db, r);
    log := RecordMoves(p, db, r, db.runs[r], db.runs[r].(state := next), ReapEvent(next), EventChain.StateIs(next));
    hide PromotedState, Record, RowOk;
  }
}

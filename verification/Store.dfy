/** The store as the program runs it: rows updated in place, one transaction per method. Each
    method is proved to do to the tables what its function in Scheduler.dfy says, and on an
    error to leave them as they were. */
module Store {
  import opened Bytes
  import opened Domain
  import opened Hash
  import opened EventChain
  import opened States
  import opened Grants
  import opened Db
  import opened Scheduler
  import opened Queries
  import Sweeping

  class Store {
    const policy: Policy
    var clock: Time
    var tenants: map<Uuid, Tenant>
    var modules: set<(Uuid, seq<byte>)>
    var grants: map<Uuid, GrantRow>
    var runs: map<Uuid, Run>
    var events: map<Uuid, seq<Event>>
    var effects: map<EffectId, Effect>
    var reservations: set<Reservation>
    var dispatchSeq: int
    var reaping: Option<Candidate>

    function Snapshot(): Tables
      reads this
    {
      Tables(clock, tenants, modules, grants, runs, events, effects, reservations, dispatchSeq, reaping)
    }

    constructor (p: Policy, db: Tables)
      ensures policy == p && Snapshot() == db
    {
      policy := p;
      clock, tenants, modules, grants, runs := db.clock, db.tenants, db.modules, db.grants, db.runs;
      events, effects, reservations, dispatchSeq, reaping := db.events, db.effects, db.reservations, db.dispatchSeq, db.reaping;
    }

    /** Dropping a transaction that has not been committed. */
    method Rollback(before: Tables)
      modifies this
      ensures Snapshot() == before
    {
      clock, tenants, modules, grants, runs := before.clock, before.tenants, before.modules, before.grants, before.runs;
      events, effects, reservations, dispatchSeq, reaping :=
        before.events, before.effects, before.reservations, before.dispatchSeq, before.reaping;
    }

    /** append_event, under the run's row lock: returns the error, if there is one. */
    method AppendEvent(run: Uuid, kind: Kind, payload: Payload) returns (fault: Option<Error>)
      requires run in runs
      modifies this
      ensures match Record(policy.link, old(Snapshot()), run, old(runs[run]), kind, payload)
              case Err(e) => fault == Some(e) && Snapshot() == old(Snapshot())
              case Ok(db) => fault.None? && Snapshot() == db
    {
      if !Fits(kind, payload) {
        return Some(Configuration);
      }
      var row := runs[run];
      if row.nextSeq <= 0 || row.nextSeq >= I64_MAX {
        return Some(CorruptEventHead);
      }
      var log := if run in events then events[run] else [];
      var hash := policy.link(Entry(row.tenant, run, row.nextSeq, row.lastHash, kind, payload));
      events := events[run := log + [Event(row.nextSeq, kind, payload, row.lastHash, hash)]];
      runs := runs[run := row.(nextSeq := row.nextSeq + 1, lastHash := hash)];
      fault := None;
    }

    /** Write a row and append one event about it; on a fault drop the transaction. */
    method WriteRow(before: Tables, run: Uuid, row: Run, kind: Kind, payload: Payload) returns (fault: Option<Error>)
      modifies this
      ensures match Record(policy.link, old(Snapshot()), run, row, kind, payload)
              case Err(e) => fault == Some(e) && Snapshot() == before
              case Ok(db) => fault.None? && Snapshot() == db
    {
      Overwrites(policy.link, Snapshot(), run, row, kind, payload);
      runs := runs[run := row];
      fault := AppendEvent(run, kind, payload);
      if fault.Some? {
        Rollback(before);
      }
    }

    /** The same with a second event. */
    method WriteRowTwice(before: Tables, run: Uuid, row: Run, kind: Kind, payload: Payload, kind': Kind, payload': Payload)
      returns (fault: Option<Error>)
      modifies this
      ensures match RecordTwo(policy.link, old(Snapshot()), run, row, kind, payload, kind', payload')
              case Err(e) => fault == Some(e) && Snapshot() == before
              case Ok(db) => fault.None? && Snapshot() == db
    {
      fault := WriteRow(before, run, row, kind, payload);
      if fault.None? {
        fault := AppendEvent(run, kind', payload');
        if fault.Some? {
          Rollback(before);
        }
      }
    }

    // -------------------------------------------------------------- runs

    method AdmitRun(tenant: Uuid, key: Text, request: NormalizedRun, newId: Uuid) returns (reply: Reply)
      requires UniqueKeys(Snapshot())
      modifies this
      ensures (Snapshot(), reply) == Admit(policy, old(Snapshot()), tenant, key, request, newId)
    {
      hide Record, RecordTwo;
      if !AdmitArguments(policy, key) {
        return Refused(Configuration);
      }
      var hash := policy.runHash(request);
      if tenant !in tenants {
        return Refused(Error.GrantDenied);
      }
      if id :| id in runs && HasKey(Snapshot(), tenant, key, id) {
        KeyIsFound(Snapshot(), tenant, key, id);
        return if runs[id].requestHash != hash then Refused(IdempotencyConflict) else Admitted(id, true);
      }
      if (tenant, request.moduleDigest) !in modules {
        return Refused(ModuleNotFound);
      }
      if !GrantUsable(Snapshot(), tenant, request.grantId) {
        return Refused(Error.GrantDenied);
      }
      var globalPending := Count(runs, InQueue) + Count(runs, Waiting);
      var tenantPending := Count(runs, InQueueOf(tenant)) + Count(runs, WaitingOf(tenant));
      if globalPending >= policy.maxPendingGlobal || tenantPending >= Min(tenants[tenant].queueLimit, policy.maxPendingTenant) {
        return Refused(CapacityExhausted);
      }
      var before := Snapshot();
      var fault := WriteRow(before, newId, NewRun(tenant, key, request, hash, clock), RunAdmitted, StateIs(Queued));
      if fault.Some? {
        return Refused(fault.value);
      }
      reply := Admitted(newId, false);
    }

    method SumActive() returns (total: int)
      ensures total == ActiveTotal(tenants)
    {
      total := 0;
      var left := tenants;
      while left != map[]
        invariant total + ActiveTotal(left) == ActiveTotal(tenants)
        decreases |left|
      {
        var t :| t in left;
        ActiveTotalSplit(left, t);
        total := total + left[t].activeCount;
        left := left - {t};
      }
    }

    method ClaimRun(worker: Text, allowed: seq<Uuid>, slots: int, later: Time) returns (reply: Reply)
      modifies this
      ensures (Snapshot(), reply) == Claim(policy, old(Snapshot()), worker, allowed, slots, later)
    {
      if !ClaimArguments(policy, worker, allowed, slots) {
        return Refused(Configuration);
      }
      var active := SumActive();
      if !(0 <= active <= 4) {
        return Refused(CorruptScheduler);
      }
      if active >= policy.maxActiveGlobal {
        return NoClaim;
      }
      if Count(runs, SlotHeldBy(worker)) >= 2 {
        return NoClaim;
      }
      if t, r :| t in tenants && r in runs && Chosen(policy, Snapshot(), allowed, t, r) {
        ChosenIsCandidate(policy, Snapshot(), allowed, t, r);
        hide Claim, Chosen, ClaimCandidate;
        reply := ClaimChosenRun(worker, t, r, later);
      } else {
        reply := NoClaim;
      }
    }

    method ClaimChosenRun(worker: Text, t: Uuid, r: Uuid, later: Time) returns (reply: Reply)
      requires t in tenants && r in runs
      modifies this
      ensures (Snapshot(), reply) ==
              Scheduler.ClaimRun(policy, old(Snapshot()), worker, t, r,
                                 LoadChain(old(grants), t, old(runs[r]).request.grantId), later)
    {
      var tenant, run := tenants[t], runs[r];
      if tenant.activeCount < 0 || tenant.activeCount >= tenant.activeLimit || tenant.activeCount >= policy.maxActivePerTenant {
        return Refused(CorruptScheduler);
      }
      if !run.state.Queued? || run.held || run.leaseEpoch == I64_MAX || run.attempt >= policy.maxAttempts {
        return Refused(CorruptScheduler);
      }
      var loaded := LoadGrantChain(t, run.request.grantId);
      if loaded.Err? {
        return Refused(loaded.error);
      }
      if !LiveChain(loaded.value, clock) {
        reply := DenyGrant(r);
        return;
      }
      if dispatchSeq >= I64_MAX {
        return Refused(CorruptScheduler);
      }
      reply := LeaseRun(worker, t, r, loaded.value, later);
    }

    method DenyGrant(r: Uuid) returns (reply: Reply)
      requires r in runs
      modifies this
      ensures (Snapshot(), reply) == DenyClaim(policy, old(Snapshot()), r)
    {
      hide Record, RecordTwo;
      var row := runs[r].(state := Failed, errorCode := Some(GRANT_DENIED_CODE));
      var fault := WriteRowTwice(Snapshot(), r, row, Kind.GrantDenied, GrantInactive, RunFailed, DeniedFailure);
      if fault.Some? {
        return Refused(fault.value);
      }
      reply := NoClaim;
    }

    method LeaseRun(worker: Text, t: Uuid, r: Uuid, chain: seq<Grant>, later: Time) returns (reply: Reply)
      requires t in tenants && r in runs
      modifies this
      ensures (Snapshot(), reply) == GiveLease(policy, old(Snapshot()), worker, t, r, chain, later)
    {
      hide Record, RecordTwo;
      hide LeaseExpiry;
      var before := Snapshot();
      var run := runs[r];
      clock := if later > clock then later else clock;
      dispatchSeq := dispatchSeq + 1;
      tenants := tenants[t := tenants[t].(activeCount := tenants[t].activeCount + 1, lastServed := dispatchSeq)];
      var epoch, expires := run.leaseEpoch + 1, LeaseExpiry(policy, chain, clock);
      var row := run.(state := Leased, leaseEpoch := epoch, leaseOwner := Some(worker), leaseExpires := Some(expires),
                      attempt := run.attempt + 1, held := true);
      var fault := WriteRow(before, r, row, LeaseClaimed, ClaimedBy(if epoch < 0 then 0 else epoch, worker));
      if fault.Some? {
        return Refused(fault.value);
      }
      reply := Claimed(Lease(t, r, epoch, expires, run.request));
    }

    method HeartbeatRun(r: Uuid, worker: Text, allowed: seq<Uuid>, epoch: int) returns (reply: Reply)
      modifies this
      ensures (Snapshot(), reply) == Heartbeat(policy, old(Snapshot()), r, worker, allowed, epoch)
    {
      if !WorkerName(worker) || epoch <= 0 || !(1 <= policy.leaseMs <= 6000) {
        return Refused(Configuration);
      }
      if r !in runs || runs[r].tenant !in allowed {
        return Refused(RunNotFound);
      }
      var run := runs[r];
      if run.leaseOwner != Some(worker) || run.leaseEpoch != epoch || !LiveLease(run, clock)
         || !GrantUsable(Snapshot(), run.tenant, run.request.grantId) {
        return Refused(LeaseConflict);
      }
      var expires := Min(clock + policy.leaseMs * 1000, Expiry(grants[run.request.grantId].authority));
      runs := runs[r := run.(leaseExpires := Some(expires))];
      reply := Renewed(expires, run.cancel);
    }

    method MarkRunStarted(r: Uuid, worker: Text, allowed: seq<Uuid>, epoch: int) returns (reply: Reply)
      modifies this
      ensures (Snapshot(), reply) == MarkStarted(policy, old(Snapshot()), r, worker, allowed, epoch)
    {
      hide Record, RecordTwo;
      if !WorkerName(worker) || epoch <= 0 {
        return Refused(Configuration);
      }
      if r !in runs || runs[r].tenant !in allowed {
        return Refused(RunNotFound);
      }
      var run := runs[r];
      if run.leaseOwner != Some(worker) || run.leaseEpoch != epoch || !LiveLease(run, clock) {
        return Refused(LeaseConflict);
      }
      if run.state.Leased? {
        var before := Snapshot();
        var fault := WriteRow(before, r, run.(state := Running), RunnerStarted, StateIs(Running));
        if fault.Some? {
          return Refused(fault.value);
        }
      }
      reply := Started;
    }

    method FinishRun(r: Uuid, worker: Text, allowed: seq<Uuid>, epoch: int, output: Option<seq<byte>>, code: Option<Text>)
      returns (reply: Reply)
      modifies this
      ensures (Snapshot(), reply) == Finish(policy, old(Snapshot()), r, worker, allowed, epoch, output, code)
    {
      hide Record, RecordTwo;
      if !FinishArguments(worker, epoch, output, code) {
        return Refused(Configuration);
      }
      if r !in runs || runs[r].tenant !in allowed {
        return Refused(RunNotFound);
      }
      var run := runs[r];
      var t := run.tenant;
      if t !in tenants || tenants[t].activeCount <= 0 {
        return Refused(CorruptScheduler);
      }
      if !run.state.Running? || run.leaseOwner != Some(worker) || run.leaseEpoch != epoch || !LiveLease(run, clock) {
        return Refused(LeaseConflict);
      }
      if Unsettled(effects, r) {
        return Refused(LeaseConflict);
      }
      var state := if run.cancel then Cancelled else if code.Some? then Failed else Succeeded;
      var before := Snapshot();
      tenants := tenants[t := tenants[t].(activeCount := tenants[t].activeCount - 1)];
      var row := run.(state := state, output := output, errorCode := code,
                      held := false, leaseOwner := None, leaseExpires := None);
      var fault := WriteRow(before, r, row, FinalKind(state), StateIs(state));
      if fault.Some? {
        return Refused(fault.value);
      }
      reply := Finished(r, state);
    }

    // -------------------------------------------------------------- reaping

    /** reap_one up to the row locks of the expired candidate, under the scheduler lock. */
    method SelectExpired() returns (reply: Reply)
      requires reaping.None?
      modifies this
      ensures (Snapshot(), reply) == ReapSelect(policy, old(Snapshot()))
    {
      if !ReapArguments(policy) {
        return Refused(Configuration);
      }
      var pending := Count(runs, InQueue);
      if pending < policy.maxPendingGlobal {
        if r :| r in runs && NextPromoted(policy, Snapshot(), r) {
          PromotedIsCandidate(policy, Snapshot(), r);
          hide NextPromoted, PromotionCandidate;
          reply := PromoteRun(r);
          return;
        } else {
          NothingPromoted(policy, Snapshot());
        }
      }
      if r :| r in runs && FirstExpired(Snapshot(), r) {
        ExpiredIsCandidate(Snapshot(), r);
        reaping := Some(Candidate(runs[r].tenant, r, pending));
        reply := Selected;
      } else {
        reply := NothingReaped;
      }
    }

    method PromoteRun(r: Uuid) returns (reply: Reply)
      requires r in runs
      modifies this
      ensures (Snapshot(), reply) == Promote(policy, old(Snapshot()), r)
    {
      hide Record, RecordTwo;
      var run := runs[r];
      if !run.state.RetryWait? || run.held {
        return Refused(CorruptScheduler);
      }
      var next := if Db.Uncertain(effects, r) then NeedsReconciliation
                  else if run.cancel then Cancelled
                  else if run.attempt >= policy.maxAttempts then Failed
                  else Queued;
      var before := Snapshot();
      var fault := WriteRow(before, r, run.(state := next), ReapEvent(next), StateIs(next));
      if fault.Some? {
        return Refused(fault.value);
      }
      reply := Reaped(r, ReapKindOf(next));
    }

    /** The rest of reap_one, once the row locks are held. */
    method ReapExpired() returns (reply: Reply)
      requires reaping.Some?
      modifies this
      ensures (Snapshot(), reply) == ReapCommit(policy, old(Snapshot()))
    {
      hide Record, RecordTwo;
      var c := reaping.value;
      reaping := None;
      if c.tenant !in tenants || c.run !in runs || tenants[c.tenant].activeCount <= 0 {
        return Refused(CorruptScheduler);
      }
      var run := runs[c.run];
      if !run.held {
        return Refused(CorruptScheduler);
      }
      if run.leaseExpires.None? || run.leaseExpires.value > clock {
        return NothingReaped;
      }
      var tenantCap := Min(tenants[c.tenant].queueLimit, policy.maxPendingTenant);
      var next := if Db.Uncertain(effects, c.run) then NeedsReconciliation
                  else if run.cancel then Cancelled
                  else if run.attempt >= policy.maxAttempts then Failed
                  else if c.globalPending >= policy.maxPendingGlobal
                       || Count(runs, InQueueOf(c.tenant)) >= tenantCap then RetryWait
                  else Queued;
      var before := Snapshot();
      tenants := tenants[c.tenant := tenants[c.tenant].(activeCount := tenants[c.tenant].activeCount - 1)];
      var row := run.(state := next, held := false, leaseOwner := None, leaseExpires := None);
      var fault := WriteRowTwice(before, c.run, row, LeaseExpired, LeaseRanOut, ReapEvent(next), StateIs(next));
      if fault.Some? {
        return Refused(fault.value);
      }
      reply := Reaped(c.run, ReapKindOf(next));
    }

    method ReapOne() returns (reply: Reply)
      requires reaping.None?
      modifies this
      ensures (Snapshot(), reply) == Scheduler.ReapOne(policy, old(Snapshot()))
    {
      ghost var before := Snapshot();
      SelectedOpens(policy, before);
      reply := SelectExpired();
      if reply.Selected? {
        hide ReapSelect, ReapCommit;
        reply := ReapExpired();
      }
    }

    /** One tick of the sweeper. */
    method Sweep(budget: nat)
      requires reaping.None?
      modifies this
      ensures Snapshot() == Sweeping.Tick(policy, old(Snapshot()), budget)
    {
      ghost var before := Snapshot();
      hide Scheduler.ReapOne;
      for k := 0 to budget
        invariant reaping.None?
        invariant Sweeping.Tick(policy, before, budget) == Sweeping.Tick(policy, Snapshot(), budget - k)
      {
        SweepGoesOn(policy, Snapshot());
        var reply := ReapOne();
        if !reply.Reaped? {
          return;
        }
      }
    }

    // -------------------------------------------------------------- grants

    /** load_grant_chain_locked: the rows root first, then the same rows unrevoked for the
        structural check. */
    method LoadGrantChain(tenant: Uuid, leaf: Uuid) returns (r: Result<seq<Grant>, Error>)
      ensures r == LoadChain(grants, tenant, leaf)
    {
      var ids := Walk(grants, tenant, leaf, 6);
      if |ids| == 0 || |ids| > 5 {
        return Err(GrantNotFound);
      }
      var chain: seq<Grant> := [];
      for k := 0 to |ids|
        invariant |chain| == k && forall i | 0 <= i < k :: chain[i] == ToGrant(ids[i], grants[ids[i]])
      {
        chain := chain + [ToGrant(ids[k], grants[ids[k]])];
      }
      assert chain == Rows(grants, ids);
      var structural := chain;
      for k := 0 to |chain|
        invariant |structural| == |chain|
        invariant forall i | 0 <= i < |chain| :: structural[i] == if i < k then chain[i].(revoked := false) else chain[i]
      {
        structural := structural[k := structural[k].(revoked := false)];
      }
      assert structural == Unrevoked(chain);
      var fault := ValidateChain(structural, tenant, I64_MIN);
      match fault
      case None =>
        r := Ok(chain);
      case Some(e) =>
        r := Err(if e.Inactive? then CorruptGrant else GrantValidation(e));
    }

    method CreateGrant(tenant: Uuid, parent: Option<Uuid>, authority: Authority, newId: Uuid) returns (reply: Reply)
      modifies this
      ensures (Snapshot(), reply) == Scheduler.CreateGrant(old(Snapshot()), tenant, parent, authority, newId)
    {
      var ancestry: seq<Grant> := [];
      if parent.Some? {
        var loaded := LoadGrantChain(tenant, parent.value);
        if loaded.Err? {
          return Refused(loaded.error);
        }
        ancestry := loaded.value;
        LoadedNonempty(grants, tenant, parent.value);
      } else if tenant !in tenants {
        return Refused(GrantNotFound);
      }
      var nowMs := Millis(clock);
      if |ancestry| == 0 {
        if !Grants.Valid(authority, nowMs) {
          return Refused(GrantValidation(Invalid));
        }
      } else {
        var fault := ValidateChild(authority, ancestry, tenant, nowMs);
        if fault.Some? {
          return Refused(GrantValidation(fault.value));
        }
      }
      grants := grants[newId := GrantRow(tenant, parent, |ancestry|, authority, 0, false)];
      reply := GrantCreated(newId);
    }

    method RevokeGrant(tenant: Uuid, id: Uuid) returns (reply: Reply)
      modifies this
      ensures (Snapshot(), reply) == Scheduler.RevokeGrant(old(Snapshot()), tenant, id)
    {
      var loaded := LoadGrantChain(tenant, id);
      if loaded.Err? {
        return Refused(loaded.error);
      }
      if id in grants && !grants[id].revoked {
        grants := grants[id := grants[id].(revoked := true)];
      }
      reply := GrantRevoked(id);
    }

    method ReserveGrantChain(tenant: Uuid, run: Uuid, ordinal: int) returns (reply: Reply)
      modifies this
      ensures (Snapshot(), reply) == ReserveChain(old(Snapshot()), tenant, run, ordinal)
    {
      if run !in runs || runs[run].tenant != tenant {
        return Refused(RunNotFound);
      }
      var loaded := LoadGrantChain(tenant, runs[run].request.grantId);
      if loaded.Err? {
        return Refused(loaded.error);
      }
      var e := EffectId(run, ordinal);
      if e !in effects {
        return Refused(EffectNotFound);
      }
      hide LoadChain;
      reply := ReserveLoaded(tenant, e, loaded.value);
    }

    method ReserveLoaded(tenant: Uuid, e: EffectId, chain: seq<Grant>) returns (reply: Reply)
      requires e in effects
      modifies this
      ensures (Snapshot(), reply) == ReserveEffect(old(Snapshot()), tenant, e, chain)
    {
      var effect := effects[e];
      var existing := ReservedFor(reservations, e);
      if existing != {} {
        return if existing == ChainIds(chain) && effect.charged then Charged(true) else Refused(CorruptGrant);
      }
      if effect.charged || !effect.state.Prepared? {
        return Refused(CorruptGrant);
      }
      var plan := ReservationPlan(chain, tenant, Millis(clock), effect.action, effect.destination, effect.project);
      if plan.Err? {
        return Refused(GrantValidation(plan.error));
      }
      PlanNames(chain, tenant, Millis(clock), effect.action, effect.destination, effect.project);
      var before := Snapshot();
      var applied := ChargePlan(e, plan.value);
      if !applied {
        Rollback(before);
        return Refused(CorruptGrant);
      }
      effects := effects[e := effect.(charged := true)];
      reply := Charged(false);
    }

    /** Raise the use of each planned grant from the value it was planned with, and reserve it
        for the effect; stop at a row that has another value. */
    method ChargePlan(e: EffectId, plan: seq<(Uuid, int)>) returns (applied: bool)
      modifies this
      ensures applied <==> ApplyPlan(old(grants), plan).Some?
      ensures applied ==>
                Snapshot() == old(Snapshot()).(grants := ApplyPlan(old(grants), plan).value,
                                               reservations := old(reservations) + set g | g in PlanIds(plan) :: Reservation(e, g))
    {
      ghost var before := Snapshot();
      assert plan[0..] == plan;
      for k := 0 to |plan|
        invariant ApplyPlan(before.grants, plan) == ApplyPlan(grants, plan[k..])
        invariant Snapshot() == before.(grants := grants, reservations := before.reservations + Reserved(e, plan, k))
      {
        var (g, next) := plan[k];
        assert plan[k..][0] == plan[k] && plan[k..][1..] == plan[k + 1..];
        if g !in grants || grants[g].used != next - 1 {
          return false;
        }
        grants := grants[g := grants[g].(used := next)];
        reservations := reservations + {Reservation(e, g)};
        assert Reserved(e, plan, k + 1) == Reserved(e, plan, k) + {Reservation(e, g)};
      }
      assert plan[|plan|..] == [];
      ReservedAll(e, plan);
      applied := true;
    }
  }
}

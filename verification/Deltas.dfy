/** Every step of an execution, whichever of the operations it is, changes the runs and the
    tenants in one of five ways. The invariants are proved from these five. */
module Deltas {
  import opened Bytes
  import opened Domain
  import opened Hash
  import opened EventChain
  import opened States
  import opened Db
  import opened Scheduler
  import opened Execution
  import opened Rows

  datatype Delta =
    | Same
    | Insert(r: Uuid)
    | Rewrite(r: Uuid)
    | Take(r: Uuid)
    | Release(r: Uuid)

  // ---------------------------------------------------------------- invariants used to classify a step

  ghost predicate ReapingOk(db: Tables) {
    db.reaping.Some? ==>
      && db.reaping.value.run in db.runs
      && db.reaping.value.tenant == db.runs[db.reaping.value.run].tenant
      && db.runs[db.reaping.value.run].held
      && db.reaping.value.globalPending == Count(db.runs, InQueue)
  }

  /** Only leased, running and unreconciled runs have effects in flight or unknown, and the
      effects of a succeeded run are all settled. */
  ghost predicate EffectsOk(db: Tables) {
    && (forall e | e in db.effects :: e.run in db.runs)
    && (forall r | r in db.runs && Db.Uncertain(db.effects, r) ::
          db.runs[r].state.Slotted() || db.runs[r].state.NeedsReconciliation?)
    && (forall r | r in db.runs && db.runs[r].state.Succeeded? :: !Unsettled(db.effects, r))
  }

  predicate TenantsKnown(db: Tables) {
    forall r | r in db.runs :: db.runs[r].tenant in db.tenants
  }

  // ---------------------------------------------------------------- the five ways

  predicate SameIdentity(a: Run, b: Run) {
    a.tenant == b.tenant && a.key == b.key && a.request == b.request && a.requestHash == b.requestHash
    && a.createdAt == b.createdAt && (a.cancel ==> b.cancel)
  }

  predicate QueueRoom(p: Policy, db: Tables, t: Uuid) {
    && t in db.tenants && Count(db.runs, InQueue) < p.maxPendingGlobal
    && Count(db.runs, InQueueOf(t)) < Min(db.tenants[t].queueLimit, p.maxPendingTenant)
  }

  /** Only row r and its log differ, and the row invariant holds of them again. */
  ghost predicate OneRow(p: Policy, db: Tables, db': Tables, r: Uuid) {
    && r in db'.runs && r in db'.events
    && db'.runs == db.runs[r := db'.runs[r]] && db'.events == db.events[r := db'.events[r]]
    && RowOk(p, r, db'.runs[r], db'.events[r])
  }

  /** An existing row changed: its identity stays, its state moves as the domain allows and
      then its life falls, and it enters the queue only where there is room. */
  ghost predicate Moved(p: Policy, db: Tables, db': Tables, r: Uuid) {
    && r in db.runs && OneRow(p, db, db', r)
    && SameIdentity(db.runs[r], db'.runs[r])
    && (db'.runs[r].state != db.runs[r].state ==>
          && db.runs[r].state.May(db'.runs[r].state, Db.Uncertain(db.effects, r), false)
          && LifeOf(p, db'.runs[r]) < LifeOf(p, db.runs[r])
          && (db'.runs[r].state.Queued? ==> QueueRoom(p, db, db.runs[r].tenant))
          && (db'.runs[r].state.Succeeded? ==> !Unsettled(db.effects, r)))
  }

  ghost predicate Inserted(p: Policy, db: Tables, db': Tables, r: Uuid) {
    && r !in db.runs && OneRow(p, db, db', r)
    && db'.tenants == db.tenants && db'.dispatchSeq == db.dispatchSeq && db.reaping.None?
    && db'.runs[r].state.Queued? && db'.runs[r].tenant in db.tenants
    && LifeOf(p, db'.runs[r]) == 4 * p.maxAttempts - 1
    && !QueueFull(p, db, db'.runs[r].tenant)
    && NewIdentity(p, db, db'.runs[r])
  }

  /** A new run has an unused key, a usable grant of its own tenant and its request's hash. */
  ghost predicate NewIdentity(p: Policy, db: Tables, row: Run) {
    && FindKey(db, row.tenant, row.key).None?
    && row.requestHash == p.runHash(row.request)
    && GrantUsable(db, row.tenant, row.request.grantId)
  }

  ghost predicate Rewritten(p: Policy, db: Tables, db': Tables, r: Uuid) {
    && Moved(p, db, db', r)
    && db'.tenants == db.tenants && db'.dispatchSeq == db.dispatchSeq
    && db'.runs[r].held == db.runs[r].held && db'.runs[r].leaseOwner == db.runs[r].leaseOwner
    && db'.runs[r].attempt == db.runs[r].attempt
    && ((db.runs[r].state.Queued? || db'.runs[r].state.Queued?) && db.runs[r].state != db'.runs[r].state ==> db.reaping.None?)
    && (db'.runs[r].state.RetryWait? ==> db.runs[r].state.RetryWait?)
    && (db'.runs[r].leaseExpires != db.runs[r].leaseExpires ==>
          LiveLease(db.runs[r], db.clock) && WithinGrant(db.grants, db'.runs[r]) && WithinTerm(p, db.clock, db'.runs[r]))
  }

  /** The run's lease, if it has one, ends within one lease time. */
  predicate WithinTerm(p: Policy, now: Time, run: Run) {
    run.leaseExpires.Some? ==> run.leaseExpires.value <= now + p.leaseMs * 1000
  }

  /** The run's lease, if it has one, ends no later than its grant. */
  predicate WithinGrant(grants: map<Uuid, GrantRow>, run: Run) {
    run.leaseExpires.Some? ==>
      run.request.grantId in grants && run.leaseExpires.value <= Expiry(grants[run.request.grantId].authority)
  }

  /** A tenant's row after one more of its runs is leased. */
  function Served(db: Tables, t: Uuid): Tenant
    requires t in db.tenants
  {
    db.tenants[t].(activeCount := db.tenants[t].activeCount + 1, lastServed := db.dispatchSeq + 1)
  }

  ghost predicate Taken(p: Policy, db: Tables, db': Tables, r: Uuid) {
    && Moved(p, db, db', r) && db.reaping.None?
    && db.runs[r].state.Queued? && db'.runs[r].state.Leased? && !db.runs[r].held && !db.runs[r].cancel
    && db'.runs[r].attempt == db.runs[r].attempt + 1
    && var t := db.runs[r].tenant;
       && t in db.tenants
       && db'.dispatchSeq == db.dispatchSeq + 1 <= I64_MAX
       && db'.tenants == db.tenants[t := Served(db, t)]
       && ActiveTotal(db.tenants) < p.maxActiveGlobal
       && db.tenants[t].activeCount < Min(db.tenants[t].activeLimit, p.maxActivePerTenant)
       && db'.runs[r].leaseOwner.Some? && Count(db.runs, SlotHeldBy(db'.runs[r].leaseOwner.value)) < 2
  }

  ghost predicate Released(p: Policy, db: Tables, db': Tables, r: Uuid) {
    && Moved(p, db, db', r) && db'.reaping.None?
    && db.runs[r].held && !db'.runs[r].held
    && db'.runs[r].attempt == db.runs[r].attempt
    && db'.dispatchSeq == db.dispatchSeq
    && db.runs[r].tenant in db.tenants && db'.tenants == ReleaseSlot(db, db.runs[r].tenant).tenants
    && db.tenants[db.runs[r].tenant].activeCount > 0
  }

  ghost predicate IsDelta(p: Policy, db: Tables, db': Tables, d: Delta) {
    && db'.clock >= db.clock
    && match d
       case Same =>
         db'.runs == db.runs && db'.events == db.events && db'.tenants == db.tenants && db'.dispatchSeq == db.dispatchSeq
       case Insert(r) => Inserted(p, db, db', r)
       case Rewrite(r) => Rewritten(p, db, db', r)
       case Take(r) => Taken(p, db, db', r)
       case Release(r) => Released(p, db, db', r)
  }

  /** What the caller is told fits what was written. */
  predicate Agrees(d: Delta, reply: Reply) {
    && (reply.Claimed? <==> d.Take?)
    && (reply.Claimed? ==> d.r == reply.lease.run)
    && (reply.Finished? ==> d == Release(reply.id))
    && (reply.Reaped? ==> d == Release(reply.id) || d == Rewrite(reply.id))
    && (d.Insert? <==> reply.Admitted? && !reply.existing)
    && (d.Insert? ==> d.r == reply.id)
    && (d.Release? ==> reply.Reaped? || reply.Finished?)
  }

  // ---------------------------------------------------------------- classifying the operations

  ghost predicate Sound(p: Policy, db: Tables) {
    ValidPolicy(p) && RowsOk(p, db) && ReapingOk(db) && EffectsOk(db) && TenantsKnown(db)
  }

  /** What the operations on one existing run may rely on. */
  ghost predicate Ready(p: Policy, db: Tables, r: Uuid) {
    && ValidPolicy(p) && r in db.runs && r in db.events && |db.events[r]| <= 23
    && RowOk(p, r, db.runs[r], db.events[r]) && db.runs[r].tenant in db.tenants
    && (Db.Uncertain(db.effects, r) ==> db.runs[r].state.Slotted() || db.runs[r].state.NeedsReconciliation?)
  }

  lemma SoundReady(p: Policy, db: Tables, r: Uuid)
    requires Sound(p, db) && r in db.runs
    ensures Ready(p, db, r)
  {
    LogShort(p, db, r);
  }

  lemma AdmitDelta(p: Policy, db: Tables, tenant: Uuid, key: Text, request: NormalizedRun, id: Uuid) returns (d: Delta)
    requires ValidPolicy(p) && id !in db.runs && id !in db.events && db.reaping.None?
    ensures IsDelta(p, db, Admit(p, db, tenant, key, request, id).0, d) && Agrees(d, Admit(p, db, tenant, key, request, id).1)
    ensures d == if Admit(p, db, tenant, key, request, id).1 == Admitted(id, false) then Insert(id) else Same
    ensures Admit(p, db, tenant, key, request, id).1 != Refused(CorruptEventHead)
  {
    d := if Admit(p, db, tenant, key, request, id).1 == Admitted(id, false) then Insert(id) else Same;
    AppendExtends(p.link, id, NewRun(tenant, key, request, p.runHash(request), db.clock), [], RunAdmitted, StateIs(Queued));
  }

  lemma DenyDelta(p: Policy, db: Tables, r: Uuid)
    requires Ready(p, db, r) && db.runs[r].state.Queued? && db.reaping.None?
    ensures var (db', reply) := DenyClaim(p, db, r);
            Rewritten(p, db, db', r) && db'.clock == db.clock && reply == NoClaim
  {
    var row := db.runs[r].(state := Failed, errorCode := Some(GRANT_DENIED_CODE));
    var log := RecordMovesTwice(p, db, r, db.runs[r], row, Kind.GrantDenied, GrantInactive, RunFailed, DeniedFailure);
  }

  function LeasedRow(p: Policy, db: Tables, worker: Text, r: Uuid, chain: seq<Grants.Grant>, clock: Time): Run
    requires r in db.runs
  {
    db.runs[r].(state := Leased, leaseEpoch := db.runs[r].leaseEpoch + 1, leaseOwner := Some(worker),
                leaseExpires := Some(LeaseExpiry(p, chain, clock)), attempt := db.runs[r].attempt + 1, held := true)
  }

  function Later(db: Tables, later: Time): Time {
    if later > db.clock then later else db.clock
  }

  /** The tables after a granted lease, written out. */
  lemma LeaseWritten(p: Policy, db: Tables, worker: Text, t: Uuid, r: Uuid, chain: seq<Grants.Grant>, later: Time)
    returns (log: seq<Event>)
    requires Ready(p, db, r) && WorkerName(worker) && t == db.runs[r].tenant && Claimable(db.runs[r], p.maxAttempts)
    ensures var row := Stamp(LeasedRow(p, db, worker, r, chain, Later(db, later)), log);
            && RowOk(p, r, row, log)
            && GiveLease(p, db, worker, t, r, chain, later) == (
              db.(clock := Later(db, later), dispatchSeq := db.dispatchSeq + 1,
                  tenants := db.tenants[t := Served(db, t)],
                  runs := db.runs[r := row], events := db.events[r := log]),
              Claimed(Lease(t, r, row.leaseEpoch, row.leaseExpires.value, row.request)))
  {
    var row := LeasedRow(p, db, worker, r, chain, Later(db, later));
    var db1 := db.(clock := Later(db, later), dispatchSeq := db.dispatchSeq + 1,
                   tenants := db.tenants[t := Served(db, t)]);
    assert Digits(row.leaseEpoch) == 1;
    log := RecordMoves(p, db1, r, db.runs[r], row, LeaseClaimed, ClaimedBy(row.leaseEpoch, worker));
  }

  lemma LeaseDelta(p: Policy, db: Tables, worker: Text, t: Uuid, r: Uuid, chain: seq<Grants.Grant>, later: Time)
    requires Ready(p, db, r) && db.reaping.None? && WorkerName(worker)
    requires t == db.runs[r].tenant && Claimable(db.runs[r], p.maxAttempts)
    requires ActiveTotal(db.tenants) < p.maxActiveGlobal && db.dispatchSeq < I64_MAX
    requires db.tenants[t].activeCount < Min(db.tenants[t].activeLimit, p.maxActivePerTenant)
    requires Count(db.runs, SlotHeldBy(worker)) < 2
    ensures var (db', reply) := GiveLease(p, db, worker, t, r, chain, later);
            Taken(p, db, db', r) && db'.clock >= db.clock && reply.Claimed?
  {
    var log := LeaseWritten(p, db, worker, t, r, chain, later);
    var db' := GiveLease(p, db, worker, t, r, chain, later).0;
    assert db'.runs[r] == Stamp(LeasedRow(p, db, worker, r, chain, Later(db, later)), log);
  }

  /** The claim after its candidate is chosen, whatever reading the grant chain gave. */
  lemma ClaimRunDelta(p: Policy, db: Tables, worker: Text, t: Uuid, r: Uuid,
                      loaded: Result<seq<Grants.Grant>, Error>, later: Time) returns (d: Delta)
    requires Ready(p, db, r) && db.reaping.None? && WorkerName(worker)
    requires t == db.runs[r].tenant && Claimable(db.runs[r], p.maxAttempts)
    requires ActiveTotal(db.tenants) < p.maxActiveGlobal && Count(db.runs, SlotHeldBy(worker)) < 2
    requires db.tenants[t].activeCount < Min(db.tenants[t].activeLimit, p.maxActivePerTenant)
    ensures var (db', reply) := ClaimRun(p, db, worker, t, r, loaded, later);
            && IsDelta(p, db, db', d) && Agrees(d, reply)
            && (d == if reply.Claimed? then Take(r) else if reply.NoClaim? then Rewrite(r) else Same)
            && (loaded.Ok? ==> reply != Refused(CorruptEventHead))
            && (loaded.Ok? && reply == Refused(CorruptScheduler) ==> db.tenants[t].activeCount < 0 || db.dispatchSeq >= I64_MAX)
  {
    d := Same;
    if db.tenants[t].activeCount >= 0 && loaded.Ok? {
      if !LiveChain(loaded.value, db.clock) {
        DenyDelta(p, db, r);
        d := Rewrite(r);
      } else if db.dispatchSeq < I64_MAX {
        LeaseDelta(p, db, worker, t, r, loaded.value, later);
        d := Take(r);
      }
    }
  }

  lemma HeartbeatDelta(p: Policy, db: Tables, r: Uuid, worker: Text, allowed: seq<Uuid>, epoch: int) returns (d: Delta)
    requires r in db.runs ==> Ready(p, db, r)
    ensures var (db', reply) := Heartbeat(p, db, r, worker, allowed, epoch);
            IsDelta(p, db, db', d) && Agrees(d, reply) && d == if reply.Renewed? then Rewrite(r) else Same
  {
    d := if Heartbeat(p, db, r, worker, allowed, epoch).1.Renewed? then Rewrite(r) else Same;
    if d.Rewrite? {
      assert db.events == db.events[r := db.events[r]];
    }
  }

  lemma StartDelta(p: Policy, db: Tables, r: Uuid, worker: Text, allowed: seq<Uuid>, epoch: int) returns (d: Delta)
    requires r in db.runs ==> Ready(p, db, r)
    ensures var (db', reply) := MarkStarted(p, db, r, worker, allowed, epoch);
            && IsDelta(p, db, db', d) && Agrees(d, reply) && reply != Refused(CorruptEventHead)
            && (d.Rewrite? ==> reply.Started? && d.r == r)
            && (d.Same? || d.Rewrite?) && (d.Same? ==> db' == db)
  {
    d := Same;
    if MarkStarted(p, db, r, worker, allowed, epoch).1.Started? && db.runs[r].state.Leased? {
      d := Rewrite(r);
    }
    if r in db.runs && db.runs[r].state.Leased? {
      var log := RecordMoves(p, db, r, db.runs[r], db.runs[r].(state := Running), RunnerStarted, StateIs(Running));
    }
  }

  lemma FinishDelta(p: Policy, db: Tables, r: Uuid, worker: Text, allowed: seq<Uuid>, epoch: int,
                    output: Option<seq<byte>>, code: Option<Text>) returns (d: Delta)
    requires r in db.runs ==> Ready(p, db, r)
    requires db.reaping.None? && UncertainIsUnsettled(db, r)
    ensures var (db', reply) := Finish(p, db, r, worker, allowed, epoch, output, code);
            && IsDelta(p, db, db', d) && Agrees(d, reply) && d == (if reply.Finished? then Release(r) else Same)
            && reply != Refused(CorruptEventHead)
  {
    d := Same;
    if FinishArguments(worker, epoch, output, code) && Visible(db, r, allowed)
       && db.tenants[db.runs[r].tenant].activeCount > 0
       && db.runs[r].state.Running? && Holds(db.runs[r], worker, epoch, db.clock) && !Unsettled(db.effects, r) {
      var log := FinishWritten(p, db, r, output, code);
      FinishReleases(p, db, r, output, code, log);
      d := Release(r);
      assert Finish(p, db, r, worker, allowed, epoch, output, code)
             == (FinishedTables(db, r, output, code, log), Finished(r, FinalState(db.runs[r], code)));
    }
  }

  function FinishedRow(run: Run, output: Option<seq<byte>>, code: Option<Text>): Run {
    WithoutLease(run, FinalState(run, code)).(output := output, errorCode := code)
  }

  /** The tables after a finish, written out. */
  function FinishedTables(db: Tables, r: Uuid, output: Option<seq<byte>>, code: Option<Text>, log: seq<Event>): Tables
    requires r in db.runs && db.runs[r].tenant in db.tenants
  {
    db.(tenants := ReleaseSlot(db, db.runs[r].tenant).tenants,
        runs := db.runs[r := Stamp(FinishedRow(db.runs[r], output, code), log)], events := db.events[r := log])
  }

  lemma FinishWritten(p: Policy, db: Tables, r: Uuid, output: Option<seq<byte>>, code: Option<Text>) returns (log: seq<Event>)
    requires Ready(p, db, r) && db.runs[r].state.Running?
    ensures var run := db.runs[r];
            var state := FinalState(run, code);
            && RowOk(p, r, Stamp(FinishedRow(run, output, code), log), log)
            && Record(p.link, ReleaseSlot(db, run.tenant), r, FinishedRow(run, output, code), FinalKind(state), StateIs(state))
               == Ok(FinishedTables(db, r, output, code, log))
  {
    var run := db.runs[r];
    var state := FinalState(run, code);
    log := RecordMoves(p, ReleaseSlot(db, run.tenant), r, run, FinishedRow(run, output, code),
                       FinalKind(state), StateIs(state));
  }

  lemma FinishReleases(p: Policy, db: Tables, r: Uuid, output: Option<seq<byte>>, code: Option<Text>, log: seq<Event>)
    requires Ready(p, db, r) && db.runs[r].state.Running? && db.reaping.None?
    requires db.tenants[db.runs[r].tenant].activeCount > 0
    requires !Db.Uncertain(db.effects, r) && !Unsettled(db.effects, r)
    requires RowOk(p, r, Stamp(FinishedRow(db.runs[r], output, code), log), log)
    ensures Released(p, db, FinishedTables(db, r, output, code, log), r)
  {
    var db' := FinishedTables(db, r, output, code, log);
    assert db'.runs[r] == Stamp(FinishedRow(db.runs[r], output, code), log);
  }

  predicate UncertainIsUnsettled(db: Tables, r: Uuid) {
    Db.Uncertain(db.effects, r) ==> Unsettled(db.effects, r)
  }

  lemma UncertainUnsettled(db: Tables, r: Uuid)
    ensures UncertainIsUnsettled(db, r)
  {
  }

  lemma PromoteDelta(p: Policy, db: Tables, r: Uuid)
    requires Ready(p, db, r) && db.runs[r].state.RetryWait? && db.reaping.None?
    requires QueueRoom(p, db, db.runs[r].tenant)
    ensures var (db', reply) := Promote(p, db, r);
            Rewritten(p, db, db', r) && db'.clock == db.clock && reply.Reaped? && reply.id == r
            && db'.reaping.None? && !db'.runs[r].state.RetryWait?
  {
    var next := PromotedState(p, db, r);
    var row := db.runs[r].(state := next);
    var log := RecordMoves(p, db, r, db.runs[r], row, ReapEvent(next), StateIs(next));
  }

  /** The tables after a lease is reaped, written out. */
  lemma ReapWritten(p: Policy, open: Tables, c: Candidate) returns (log: seq<Event>)
    requires open.reaping == Some(c) && Ready(p, open, c.run) && c.tenant == open.runs[c.run].tenant
    requires open.runs[c.run].held && Expired(open, c.run) && open.tenants[c.tenant].activeCount > 0
    ensures var next := ReapedState(p, open.(reaping := None), c);
            var row := Stamp(WithoutLease(open.runs[c.run], next), log);
            && RowOk(p, c.run, row, log) && LifeOf(p, row) < LifeOf(p, open.runs[c.run])
            && ReapCommit(p, open) == (
              open.(reaping := None, tenants := ReleaseSlot(open, c.tenant).tenants,
                    runs := open.runs[c.run := row], events := open.events[c.run := log]),
              Reaped(c.run, ReapKindOf(next)))
  {
    var db := open.(reaping := None);
    var next := ReapedState(p, db, c);
    log := RecordMovesTwice(p, ReleaseSlot(db, c.tenant), c.run, db.runs[c.run], WithoutLease(db.runs[c.run], next),
                            LeaseExpired, LeaseRanOut, ReapEvent(next), StateIs(next));
  }

  lemma ReapCommitDelta(p: Policy, open: Tables) returns (d: Delta)
    requires open.reaping.Some? && ReapingOk(open) && Ready(p, open, open.reaping.value.run)
    ensures var (db', reply) := ReapCommit(p, open);
            && IsDelta(p, open, db', d) && Agrees(d, reply) && db'.reaping.None?
            && d == (if reply.Reaped? then Release(open.reaping.value.run) else Same)
            && (reply.Reaped? ==> d.r in db'.runs && !db'.runs[d.r].held)
            && (!reply.Reaped? ==> db' == open.(reaping := None))
            && reply != Refused(CorruptEventHead)
            && (reply == Refused(CorruptScheduler) ==> open.tenants[open.reaping.value.tenant].activeCount <= 0)
            && (open.tenants[open.reaping.value.tenant].activeCount > 0 ==>
                  if Expired(open, open.reaping.value.run) then reply.Reaped? else reply.NothingReaped?)
  {
    var c := open.reaping.value;
    d := Same;
    if Expired(open, c.run) && open.tenants[c.tenant].activeCount > 0 {
      d := ReapExpiredDelta(p, open);
      hide IsDelta, Ready, ReapCommit;
    } else {
      hide RowOk, RecordTwo, ReapedState;
    }
  }

  lemma ReapExpiredDelta(p: Policy, open: Tables) returns (d: Delta)
    requires open.reaping.Some? && ReapingOk(open) && Ready(p, open, open.reaping.value.run)
    requires Expired(open, open.reaping.value.run) && open.tenants[open.reaping.value.tenant].activeCount > 0
    ensures var r, (db', reply) := open.reaping.value.run, ReapCommit(p, open);
            && d == Release(r) && IsDelta(p, open, db', d) && db'.reaping.None?
            && reply.Reaped? && reply.id == r && r in db'.runs && !db'.runs[r].held
  {
    var c := open.reaping.value;
    var log := ReapWritten(p, open, c);
    d := Release(c.run);
    assert ReapCommit(p, open).0.runs[c.run]
           == Stamp(WithoutLease(open.runs[c.run], ReapedState(p, open.(reaping := None), c)), log);
    hide ReapCommit;
  }

  lemma CancelDelta(p: Policy, db: Tables, r: Uuid) returns (d: Delta)
    requires r in db.runs ==> Ready(p, db, r)
    ensures IsDelta(p, db, MarkCancelled(db, r).0, d) && Agrees(d, MarkCancelled(db, r).1)
    ensures d == if r in db.runs then Rewrite(r) else Same
  {
    d := if r in db.runs then Rewrite(r) else Same;
    if d.Rewrite? {
      assert db.events == db.events[r := db.events[r]];
    }
  }

  /** What being the row of the candidate query entails for a claim. */
  predicate ClaimReady(p: Policy, db: Tables, t: Uuid, r: Uuid) {
    && t in db.tenants && r in db.runs && db.runs[r].tenant == t && Claimable(db.runs[r], p.maxAttempts)
    && db.tenants[t].activeCount < Min(db.tenants[t].activeLimit, p.maxActivePerTenant)
  }

  lemma ClaimCandidateFacts(p: Policy, db: Tables, allowed: seq<Uuid>)
    ensures match ClaimCandidate(p, db, allowed)
            case None => true
            case Some((t, r)) => ClaimReady(p, db, t, r) && Chosen(p, db, allowed, t, r)
  {
  }

  lemma ClaimChosenDelta(p: Policy, db: Tables, worker: Text, candidate: Option<(Uuid, Uuid)>, later: Time) returns (d: Delta)
    requires candidate.Some? ==> ClaimReady(p, db, candidate.value.0, candidate.value.1) && Ready(p, db, candidate.value.1)
    requires db.reaping.None? && WorkerName(worker)
    requires ActiveTotal(db.tenants) < p.maxActiveGlobal && Count(db.runs, SlotHeldBy(worker)) < 2
    ensures var (db', reply) := ClaimChosen(p, db, worker, candidate, later);
            && IsDelta(p, db, db', d) && Agrees(d, reply)
            && (reply.Claimed? <==> d.Take?) && (d.Take? || d.Rewrite? || d.Same?)
            && (d == Same ==> db' == db) && (d != Same ==> candidate.Some? && d.r == candidate.value.1)
  {
    d := Same;
    if candidate.Some? {
      var (t, r) := candidate.value;
      d := ClaimRunDelta(p, db, worker, t, r, LoadChain(db.grants, t, db.runs[r].request.grantId), later);
    }
  }

  lemma ClaimDelta(p: Policy, db: Tables, worker: Text, allowed: seq<Uuid>, slots: int, later: Time) returns (d: Delta)
    requires ClaimCandidate(p, db, allowed).Some? ==> Ready(p, db, ClaimCandidate(p, db, allowed).value.1)
    requires db.reaping.None?
    ensures var (db', reply) := Claim(p, db, worker, allowed, slots, later);
            && IsDelta(p, db, db', d) && Agrees(d, reply)
            && (reply.Claimed? <==> d.Take?) && (d.Take? || d.Rewrite? || d.Same?)
            && (d == Same ==> db' == db)
            && (d != Same ==> ClaimCandidate(p, db, allowed).Some? && d.r == ClaimCandidate(p, db, allowed).value.1)
  {
    d := Same;
    if ClaimArguments(p, worker, allowed, slots) && 0 <= ActiveTotal(db.tenants) <= 4
       && ActiveTotal(db.tenants) < p.maxActiveGlobal && Count(db.runs, SlotHeldBy(worker)) < 2 {
      ClaimCandidateFacts(p, db, allowed);
      d := ClaimChosenDelta(p, db, worker, ClaimCandidate(p, db, allowed), later);
    }
  }

  lemma ReapSelectDelta(p: Policy, db: Tables) returns (d: Delta)
    requires PromotionCandidate(p, db).Some? ==> Ready(p, db, PromotionCandidate(p, db).value)
    requires db.reaping.None?
    ensures var (db', reply) := ReapSelect(p, db);
            && IsDelta(p, db, db', d) && Agrees(d, reply) && (d.Same? || d.Rewrite?)
            && reply != Refused(CorruptEventHead) && reply != Refused(CorruptScheduler)
            && (reply.Selected? <==> db'.reaping.Some?)
            && (d.Rewrite? <==> reply.Reaped?)
            && db'.clock == db.clock
            && (d.Rewrite? ==> db'.reaping.None? && PromotionCandidate(p, db) == Some(d.r) && reply.id == d.r)
            && (d.Rewrite? ==> d.r in db'.runs && !db'.runs[d.r].state.RetryWait?)
            && (ReapArguments(p) ==> reply.Selected? || reply.Reaped? || reply.NothingReaped?)
            && (reply.NothingReaped? ==> db' == db && ExpiryCandidate(db).None?)
            && (reply.NothingReaped? && Count(db.runs, InQueue) < p.maxPendingGlobal ==> PromotionCandidate(p, db).None?)
            && (reply.Selected? ==> ExpiryCandidate(db).Some? && db' == SelectedTables(db, ExpiryCandidate(db).value))
  {
    d := Same;
    if ReapArguments(p) {
      var promoted := if Count(db.runs, InQueue) < p.maxPendingGlobal then PromotionCandidate(p, db) else None;
      PromotionFacts(p, db);
      if promoted.Some? {
        PromoteDelta(p, db, promoted.value);
        d := Rewrite(promoted.value);
      }
    }
  }

  /** The tables while a reap transaction is open on run r. */
  function SelectedTables(db: Tables, r: Uuid): Tables
    requires r in db.runs
  {
    db.(reaping := Some(Candidate(db.runs[r].tenant, r, Count(db.runs, InQueue))))
  }

  lemma PromotionFacts(p: Policy, db: Tables)
    ensures match PromotionCandidate(p, db)
            case None => true
            case Some(r) => NextPromoted(p, db, r) && r in db.runs && db.runs[r].state.RetryWait?
  {
  }

  // ---------------------------------------------------------------- every operation

  lemma SameAgrees(p: Policy, db: Tables)
    ensures IsDelta(p, db, db, Same) && Agrees(Same, Blocked)
  {
  }

  lemma StepAdmission(p: Policy, db: Tables, op: Op) returns (d: Delta)
    requires Sound(p, db) && op.Admission?
    ensures IsDelta(p, db, Perform(p, db, op).0, d) && Agrees(d, Perform(p, db, op).1)
  {
    SameAgrees(p, db);
    hide IsDelta, Agrees;
    d := Same;
    if op.id !in db.runs && db.reaping.None? {
      d := AdmitDelta(p, db, op.tenant, op.key, op.request, op.id);
    }
  }

  lemma StepClaiming(p: Policy, db: Tables, op: Op) returns (d: Delta)
    requires Sound(p, db) && op.Claiming?
    ensures IsDelta(p, db, Perform(p, db, op).0, d) && Agrees(d, Perform(p, db, op).1)
  {
    SameAgrees(p, db);
    hide IsDelta, Agrees, RowsOk, EffectsOk, Ready, Claim, ClaimCandidate, ClaimReady, Chosen;
    d := Same;
    if db.reaping.None? {
      ClaimCandidateFacts(p, db, op.allowed);
      if ClaimCandidate(p, db, op.allowed).Some? {
        SoundReady(p, db, ClaimCandidate(p, db, op.allowed).value.1);
      }
      d := ClaimDelta(p, db, op.worker, op.allowed, op.slots, op.later);
    }
  }

  lemma StepBeating(p: Policy, db: Tables, op: Op) returns (d: Delta)
    requires Sound(p, db) && op.Beating?
    ensures IsDelta(p, db, Perform(p, db, op).0, d) && Agrees(d, Perform(p, db, op).1)
  {
    SameAgrees(p, db);
    hide IsDelta, Agrees, RowsOk, EffectsOk, Ready, Heartbeat;
    if op.run in db.runs {
      SoundReady(p, db, op.run);
    }
    d := HeartbeatDelta(p, db, op.run, op.worker, op.allowed, op.epoch);
  }

  lemma StepStarting(p: Policy, db: Tables, op: Op) returns (d: Delta)
    requires Sound(p, db) && op.Starting?
    ensures IsDelta(p, db, Perform(p, db, op).0, d) && Agrees(d, Perform(p, db, op).1)
  {
    SameAgrees(p, db);
    hide IsDelta, Agrees, RowsOk, EffectsOk, Ready, MarkStarted;
    if op.run in db.runs {
      SoundReady(p, db, op.run);
    }
    d := StartDelta(p, db, op.run, op.worker, op.allowed, op.epoch);
  }

  lemma StepCancelling(p: Policy, db: Tables, op: Op) returns (d: Delta)
    requires Sound(p, db) && op.Cancelling?
    ensures IsDelta(p, db, Perform(p, db, op).0, d) && Agrees(d, Perform(p, db, op).1)
  {
    SameAgrees(p, db);
    hide IsDelta, Agrees;
    if op.run in db.runs {
      SoundReady(p, db, op.run);
    }
    d := CancelDelta(p, db, op.run);
  }

  lemma StepFinishing(p: Policy, db: Tables, op: Op) returns (d: Delta)
    requires Sound(p, db) && op.Finishing?
    ensures IsDelta(p, db, Perform(p, db, op).0, d) && Agrees(d, Perform(p, db, op).1)
  {
    SameAgrees(p, db);
    hide IsDelta, Agrees, RowsOk, EffectsOk, Ready, Finish;
    d := Same;
    if db.reaping.None? {
      if op.run in db.runs {
        SoundReady(p, db, op.run);
      }
      UncertainUnsettled(db, op.run);
      d := FinishDelta(p, db, op.run, op.worker, op.allowed, op.epoch, op.output, op.code);
    }
  }

  lemma StepReaping(p: Policy, db: Tables, op: Op) returns (d: Delta)
    requires Sound(p, db) && (op.ReapChoose? || op.ReapFinish?)
    ensures IsDelta(p, db, Perform(p, db, op).0, d) && Agrees(d, Perform(p, db, op).1)
  {
    SameAgrees(p, db);
    hide IsDelta, Agrees, RowsOk, EffectsOk, Ready, ReapSelect, ReapCommit;
    d := Same;
    if op.ReapChoose? && db.reaping.None? {
      PromotionFacts(p, db);
      if PromotionCandidate(p, db).Some? {
        SoundReady(p, db, PromotionCandidate(p, db).value);
      }
      d := ReapSelectDelta(p, db);
    } else if op.ReapFinish? && db.reaping.Some? {
      SoundReady(p, db, db.reaping.value.run);
      d := ReapCommitDelta(p, db);
    }
  }

  predicate TouchesRuns(op: Op) {
    || op.Admission? || op.Claiming? || op.Beating? || op.Starting? || op.Finishing? || op.Cancelling?
    || op.ReapChoose? || op.ReapFinish?
  }

  lemma StepElsewhere(p: Policy, db: Tables, op: Op)
    requires !TouchesRuns(op)
    ensures IsDelta(p, db, Perform(p, db, op).0, Same) && Agrees(Same, Perform(p, db, op).1)
    ensures Perform(p, db, op).0.clock == db.clock
  {
    hide Admit, Claim, Heartbeat, MarkStarted, Finish, ReapSelect, ReapCommit, MarkCancelled;
    hide CreateGrant, RevokeGrant, ReserveChain, Prepare, MoveEffect;
  }

  /** Every operation is one of the five deltas. */
  lemma PerformDelta(p: Policy, db: Tables, op: Op) returns (d: Delta)
    requires Sound(p, db)
    ensures IsDelta(p, db, Perform(p, db, op).0, d) && Agrees(d, Perform(p, db, op).1)
  {
    hide IsDelta, Agrees, Perform;
    if op.Admission? {
      d := StepAdmission(p, db, op);
    } else if op.Claiming? {
      d := StepClaiming(p, db, op);
    } else if op.ReapChoose? || op.ReapFinish? {
      d := StepReaping(p, db, op);
    } else if op.Finishing? {
      d := StepFinishing(p, db, op);
    } else if op.Beating? {
      d := StepBeating(p, db, op);
    } else if op.Starting? {
      d := StepStarting(p, db, op);
    } else if op.Cancelling? {
      d := StepCancelling(p, db, op);
    } else {
      StepElsewhere(p, db, op);
      d := Same;
    }
  }
}

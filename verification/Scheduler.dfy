/** What each store transaction does to the tables (store/scheduler.rs and the run and grant
    operations of store/lib.rs), as functions from the tables before to the tables after.
    A transaction that returns an error has changed nothing. */
module Scheduler {
  import opened Bytes
  import opened Domain
  import opened Hash
  import opened EventChain
  import opened States
  import opened Grants
  import opened Db

  /** A granted lease, with the digest, input and limits of the request it is to run. */
  datatype Lease = Lease(tenant: Uuid, run: Uuid, epoch: int, expires: Time, request: NormalizedRun)

  datatype ReapKind = Requeued | WaitingForQueue | ForReconciliation | WasCancelled | HasFailed

  datatype Reply =
    | Refused(error: Error)
    | Admitted(id: Uuid, existing: bool)
    | Claimed(lease: Lease)
    | NoClaim
    | Renewed(expires: Time, cancelRequested: bool)
    | Started
    | Selected
    | Reaped(id: Uuid, outcome: ReapKind)
    | NothingReaped
    | Finished(id: Uuid, state: RunState)
    | GrantCreated(id: Uuid)
    | GrantRevoked(id: Uuid)
    | Charged(existing: bool)
    | Done
    | Blocked

  /** Nothing but runs, their events, tenants, the sequence and the clock has changed. */
  predicate KeepsEffects(db: Tables, db': Tables) {
    db'.effects == db.effects && db'.grants == db.grants && db'.reservations == db.reservations && db'.modules == db.modules
  }

  predicate SchedulesOnly(db: Tables, db': Tables) {
    KeepsEffects(db, db') && db'.reaping == db.reaping
  }

  /** Nothing about runs, tenants or the scheduler has changed. */
  predicate KeepsRuns(db: Tables, db': Tables) {
    && db'.runs == db.runs && db'.events == db.events && db'.tenants == db.tenants && db'.dispatchSeq == db.dispatchSeq
    && db'.reaping == db.reaping && db'.clock == db.clock
  }

  // ---------------------------------------------------------------- argument checks

  predicate WorkerName(w: Text) {
    0 < |w| <= 64 && forall i | 0 <= i < |w| :: Alphanumeric(w[i]) || w[i] == 45 || w[i] == 95
  }

  predicate KeyText(key: Text) {
    0 < |key| <= 128 && forall i | 0 <= i < |key| :: 33 <= key[i] <= 126
  }

  predicate ErrorCode(code: Text) {
    0 < |code| <= 64 && forall i | 0 <= i < |code| :: 65 <= code[i] <= 90 || code[i] == 95
  }

  predicate AdmitArguments(p: Policy, key: Text) {
    KeyText(key) && 1 <= p.maxPendingTenant <= 100 && p.maxPendingTenant <= p.maxPendingGlobal <= 1000
  }

  predicate ClaimArguments(p: Policy, worker: Text, allowed: seq<Uuid>, slots: int) {
    && WorkerName(worker) && 0 < |allowed| <= 1024 && 1 <= slots <= 2
    && 1 <= p.maxActiveGlobal <= 4 && p.maxActivePerTenant == 1
    && 1 <= p.maxAttempts <= 3 && 1 <= p.leaseMs <= 6000
  }

  predicate ReapArguments(p: Policy) {
    && 1 <= p.maxAttempts <= 3 && 1 <= p.maxPendingGlobal <= 1000
    && 1 <= p.maxPendingTenant <= 100 && p.maxPendingTenant <= p.maxPendingGlobal
  }

  predicate FinishArguments(worker: Text, epoch: int, output: Option<seq<byte>>, code: Option<Text>) {
    && WorkerName(worker) && epoch > 0
    && (output.Some? ==> |output.value| <= 65536)
    && (code.Some? ==> ErrorCode(code.value))
    && !(output.Some? && code.Some?)
  }

  // ---------------------------------------------------------------- admission

  predicate HasKey(db: Tables, tenant: Uuid, key: Text, id: Uuid) {
    id in db.runs && db.runs[id].tenant == tenant && db.runs[id].key == key
  }

  /** UNIQUE(tenant_id, idempotency_key). */
  predicate UniqueKeys(db: Tables) {
    forall r, q | r in db.runs && q in db.runs
                  && db.runs[r].tenant == db.runs[q].tenant && db.runs[r].key == db.runs[q].key :: r == q
  }

  /** The run admitted under this tenant and key, if any. */
  ghost function FindKey(db: Tables, tenant: Uuid, key: Text): Option<Uuid> {
    if id :| id in db.runs && HasKey(db, tenant, key, id) then Some(id) else None
  }

  function NewRun(tenant: Uuid, key: Text, request: NormalizedRun, hash: Digest, now: Time): Run {
    Run(tenant, key, request, hash, now, Queued, 0, None, None, 0, false, false, None, None, 1, ZERO_HASH)
  }

  predicate GrantUsable(db: Tables, tenant: Uuid, id: Uuid) {
    id in db.grants && db.grants[id].tenant == tenant && !db.grants[id].revoked
    && Expiry(db.grants[id].authority) > db.clock
  }

  predicate QueueFull(p: Policy, db: Tables, tenant: Uuid)
    requires tenant in db.tenants
  {
    || Count(db.runs, InQueue) + Count(db.runs, Waiting) >= p.maxPendingGlobal
    || Count(db.runs, InQueueOf(tenant)) + Count(db.runs, WaitingOf(tenant))
       >= Min(db.tenants[tenant].queueLimit, p.maxPendingTenant)
  }

  ghost function Admit(p: Policy, db: Tables, tenant: Uuid, key: Text, request: NormalizedRun, newId: Uuid)
    : (result: (Tables, Reply))
    ensures SchedulesOnly(db, result.0)
    ensures result.1.Refused? || result.1.Admitted?
  {
    var hash := p.runHash(request);
    if !AdmitArguments(p, key) then (db, Refused(Configuration))
    else if tenant !in db.tenants then (db, Refused(Error.GrantDenied))
    else if FindKey(db, tenant, key).Some? then
      var id := FindKey(db, tenant, key).value;
      if db.runs[id].requestHash != hash then (db, Refused(IdempotencyConflict)) else (db, Admitted(id, true))
    else if (tenant, request.moduleDigest) !in db.modules then (db, Refused(ModuleNotFound))
    else if !GrantUsable(db, tenant, request.grantId) then (db, Refused(Error.GrantDenied))
    else if QueueFull(p, db, tenant) then (db, Refused(CapacityExhausted))
    else
      match Record(p.link, db, newId, NewRun(tenant, key, request, hash, db.clock), RunAdmitted, StateIs(Queued))
      case Err(e) => (db, Refused(e))
      case Ok(db') => (db', Admitted(newId, false))
  }

  // ---------------------------------------------------------------- claiming

  /** A lease is written with the next epoch, for this worker, on the run it names. */
  predicate LeaseGranted(db: Tables, db': Tables, worker: Text, lease: Lease) {
    && lease.run in db.runs && lease.run in db'.runs
    && db'.runs[lease.run].leaseEpoch == lease.epoch == db.runs[lease.run].leaseEpoch + 1
    && db'.runs[lease.run].leaseOwner == Some(worker)
    && db'.runs[lease.run].leaseExpires == Some(lease.expires)
    && lease.request == db.runs[lease.run].request && db'.runs[lease.run].request == lease.request
  }

  /** The lease ends with the lease time, or earlier with the first grant of a live chain. */
  predicate LeaseBounded(p: Policy, db: Tables, db': Tables, loaded: Result<seq<Grant>, Error>, lease: Lease) {
    loaded.Ok? && LiveChain(loaded.value, db.clock) && lease.expires == LeaseExpiry(p, loaded.value, db'.clock)
  }

  predicate Claimable(run: Run, maxAttempts: int) {
    run.state.Queued? && !run.cancel && run.attempt < maxAttempts
  }

  /** ORDER BY created_at, id. */
  predicate Older(runs: map<Uuid, Run>, a: Uuid, b: Uuid)
    requires a in runs && b in runs
  {
    runs[a].createdAt < runs[b].createdAt || (runs[a].createdAt == runs[b].createdAt && a < b)
  }

  predicate OldestClaimable(p: Policy, db: Tables, tenant: Uuid, r: Uuid) {
    && r in db.runs && db.runs[r].tenant == tenant && Claimable(db.runs[r], p.maxAttempts)
    && forall q | q in db.runs && db.runs[q].tenant == tenant && Claimable(db.runs[q], p.maxAttempts) ::
         q == r || Older(db.runs, r, q)
  }

  predicate Eligible(p: Policy, db: Tables, allowed: seq<Uuid>, t: Uuid) {
    && t in db.tenants && t in allowed
    && db.tenants[t].activeCount < Min(db.tenants[t].activeLimit, p.maxActivePerTenant)
    && exists r | r in db.runs :: db.runs[r].tenant == t && Claimable(db.runs[r], p.maxAttempts)
  }

  /** ORDER BY last_served_seq, id. */
  predicate ServedBefore(tenants: map<Uuid, Tenant>, a: Uuid, b: Uuid)
    requires a in tenants && b in tenants
  {
    tenants[a].lastServed < tenants[b].lastServed || (tenants[a].lastServed == tenants[b].lastServed && a < b)
  }

  predicate NextTenant(p: Policy, db: Tables, allowed: seq<Uuid>, t: Uuid) {
    && Eligible(p, db, allowed, t)
    && forall u | u in db.tenants && Eligible(p, db, allowed, u) :: u == t || ServedBefore(db.tenants, t, u)
  }

  /** The row of the candidate query. */
  predicate Chosen(p: Policy, db: Tables, allowed: seq<Uuid>, t: Uuid, r: Uuid) {
    NextTenant(p, db, allowed, t) && OldestClaimable(p, db, t, r)
  }

  ghost function ClaimCandidate(p: Policy, db: Tables, allowed: seq<Uuid>): Option<(Uuid, Uuid)> {
    if t, r :| t in db.tenants && r in db.runs && Chosen(p, db, allowed, t, r) then Some((t, r)) else None
  }

  /** `later` is a second reading of the clock, taken when the lease is written. */
  ghost function Claim(p: Policy, db: Tables, worker: Text, allowed: seq<Uuid>, slots: int, later: Time)
    : (result: (Tables, Reply))
    ensures SchedulesOnly(db, result.0)
    ensures result.1.Claimed? ==> LeaseGranted(db, result.0, worker, result.1.lease)
    ensures result.1.Claimed? ==> Chosen(p, db, allowed, result.1.lease.tenant, result.1.lease.run)
    ensures result.1.Refused? || result.1.NoClaim? || result.1.Claimed?
    ensures result.1.Claimed? ==>
              var lease := result.1.lease;
              LeaseBounded(p, db, result.0, LoadChain(db.grants, lease.tenant, db.runs[lease.run].request.grantId), lease)
  {
    var active := ActiveTotal(db.tenants);
    if !ClaimArguments(p, worker, allowed, slots) then (db, Refused(Configuration))
    else if !(0 <= active <= 4) then (db, Refused(CorruptScheduler))
    else if active >= p.maxActiveGlobal then (db, NoClaim)
    else if Count(db.runs, SlotHeldBy(worker)) >= 2 then (db, NoClaim)
    else ClaimChosen(p, db, worker, ClaimCandidate(p, db, allowed), later)
  }

  ghost function ClaimChosen(p: Policy, db: Tables, worker: Text, candidate: Option<(Uuid, Uuid)>, later: Time)
    : (result: (Tables, Reply))
    requires candidate.Some? ==> candidate.value.0 in db.tenants && candidate.value.1 in db.runs
    ensures SchedulesOnly(db, result.0)
    ensures result.1.Claimed? ==> LeaseGranted(db, result.0, worker, result.1.lease)
    ensures result.1.Claimed? ==> candidate == Some((result.1.lease.tenant, result.1.lease.run))
    ensures result.1.Refused? || result.1.NoClaim? || result.1.Claimed?
    ensures result.1.Claimed? ==>
              var lease := result.1.lease;
              LeaseBounded(p, db, result.0, LoadChain(db.grants, lease.tenant, db.runs[lease.run].request.grantId), lease)
  {
    match candidate
    case None => (db, NoClaim)
    case Some((t, r)) => ClaimRun(p, db, worker, t, r, LoadChain(db.grants, t, db.runs[r].request.grantId), later)
  }

  /** The claim once its candidate is chosen and the chain of the run's grant is read. */
  function ClaimRun(p: Policy, db: Tables, worker: Text, t: Uuid, r: Uuid, loaded: Result<seq<Grant>, Error>, later: Time)
    : (result: (Tables, Reply))
    requires t in db.tenants && r in db.runs
    ensures SchedulesOnly(db, result.0)
    ensures result.1.Claimed? ==> LeaseGranted(db, result.0, worker, result.1.lease)
    ensures result.1.Claimed? ==> result.1.lease.tenant == t && result.1.lease.run == r
    ensures result.1.Refused? || result.1.NoClaim? || result.1.Claimed?
    ensures result.1.Claimed? ==> LeaseBounded(p, db, result.0, loaded, result.1.lease)
  {
    var tenant, run := db.tenants[t], db.runs[r];
    if tenant.activeCount < 0 || tenant.activeCount >= tenant.activeLimit || tenant.activeCount >= p.maxActivePerTenant then
      (db, Refused(CorruptScheduler))
    else if !run.state.Queued? || run.held || run.leaseEpoch == I64_MAX || run.attempt >= p.maxAttempts then
      (db, Refused(CorruptScheduler))
    else
      match loaded
      case Err(e) => (db, Refused(e))
      case Ok(chain) =>
        if !LiveChain(chain, db.clock) then DenyClaim(p, db, r)
        else if db.dispatchSeq >= I64_MAX then (db, Refused(CorruptScheduler))
        else GiveLease(p, db, worker, t, r, chain, later)
  }

  function DenyClaim(p: Policy, db: Tables, r: Uuid): (result: (Tables, Reply))
    requires r in db.runs
    ensures SchedulesOnly(db, result.0)
    ensures result.1.Refused? || result.1.NoClaim?
  {
    var row := db.runs[r].(state := Failed, errorCode := Some(GRANT_DENIED_CODE));
    match RecordTwo(p.link, db, r, row, Kind.GrantDenied, GrantInactive, RunFailed, DeniedFailure)
    case Err(e) => (db, Refused(e))
    case Ok(db') => (db', NoClaim)
  }

  function LeaseExpiry(p: Policy, chain: seq<Grant>, now: Time): Time {
    if chain == [] then now else Min(now + p.leaseMs * 1000, MinExpiry(chain))
  }

  function GiveLease(p: Policy, db: Tables, worker: Text, t: Uuid, r: Uuid, chain: seq<Grant>, later: Time)
    : (result: (Tables, Reply))
    requires t in db.tenants && r in db.runs
    ensures SchedulesOnly(db, result.0)
    ensures result.1.Claimed? ==> LeaseGranted(db, result.0, worker, result.1.lease)
    ensures result.1.Claimed? ==> result.1.lease.tenant == t && result.1.lease.run == r
    ensures result.1.Refused? || result.1.Claimed?
    ensures result.1.Claimed? ==> result.1.lease.expires == LeaseExpiry(p, chain, result.0.clock)
  {
    var clock := if later > db.clock then later else db.clock;
    var served := db.dispatchSeq + 1;
    var tenant := db.tenants[t].(activeCount := db.tenants[t].activeCount + 1, lastServed := served);
    var expires := LeaseExpiry(p, chain, clock);
    var run := db.runs[r];
    var row := run.(state := Leased, leaseEpoch := run.leaseEpoch + 1, leaseOwner := Some(worker),
                    leaseExpires := Some(expires), attempt := run.attempt + 1, held := true);
    var db1 := db.(clock := clock, dispatchSeq := served, tenants := db.tenants[t := tenant]);
    match Record(p.link, db1, r, row, LeaseClaimed, ClaimedBy(if row.leaseEpoch < 0 then 0 else row.leaseEpoch, worker))
    case Err(e) => (db, Refused(e))
    case Ok(db') => (db', Claimed(Lease(t, r, row.leaseEpoch, expires, run.request)))
  }

  // ---------------------------------------------------------------- holding a lease

  /** A run a worker may name: it exists and its tenant is on the worker's allowlist. */
  predicate Visible(db: Tables, r: Uuid, allowed: seq<Uuid>) {
    r in db.runs && db.runs[r].tenant in allowed
  }

  predicate Holds(run: Run, worker: Text, epoch: int, now: Time) {
    run.leaseOwner == Some(worker) && run.leaseEpoch == epoch && LiveLease(run, now)
  }

  function Heartbeat(p: Policy, db: Tables, r: Uuid, worker: Text, allowed: seq<Uuid>, epoch: int): (result: (Tables, Reply))
    ensures SchedulesOnly(db, result.0)
    ensures result.1.Refused? || result.1.Renewed?
  {
    if !WorkerName(worker) || epoch <= 0 || !(1 <= p.leaseMs <= 6000) then (db, Refused(Configuration))
    else if !Visible(db, r, allowed) then (db, Refused(RunNotFound))
    else
      var run := db.runs[r];
      if !Holds(run, worker, epoch, db.clock) || !GrantUsable(db, run.tenant, run.request.grantId) then
        (db, Refused(LeaseConflict))
      else
        var expires := Min(db.clock + p.leaseMs * 1000, Expiry(db.grants[run.request.grantId].authority));
        (db.(runs := db.runs[r := run.(leaseExpires := Some(expires))]), Renewed(expires, run.cancel))
  }

  function MarkStarted(p: Policy, db: Tables, r: Uuid, worker: Text, allowed: seq<Uuid>, epoch: int): (result: (Tables, Reply))
    ensures SchedulesOnly(db, result.0)
    ensures result.1.Refused? || result.1.Started?
  {
    if !WorkerName(worker) || epoch <= 0 then (db, Refused(Configuration))
    else if !Visible(db, r, allowed) then (db, Refused(RunNotFound))
    else
      var run := db.runs[r];
      if !Holds(run, worker, epoch, db.clock) then (db, Refused(LeaseConflict))
      else if run.state.Running? then (db, Started)
      else
        match Record(p.link, db, r, run.(state := Running), RunnerStarted, StateIs(Running))
        case Err(e) => (db, Refused(e))
        case Ok(db') => (db', Started)
  }

  function FinalState(run: Run, code: Option<Text>): RunState {
    if run.cancel then Cancelled else if code.Some? then Failed else Succeeded
  }

  function FinalKind(s: RunState): Kind {
    if s.Cancelled? then RunCancelled else if s.Failed? then RunFailed else RunSucceeded
  }

  function Finish(p: Policy, db: Tables, r: Uuid, worker: Text, allowed: seq<Uuid>, epoch: int,
                  output: Option<seq<byte>>, code: Option<Text>): (result: (Tables, Reply))
    ensures SchedulesOnly(db, result.0)
    ensures result.1.Refused? || result.1.Finished?
  {
    if !FinishArguments(worker, epoch, output, code) then (db, Refused(Configuration))
    else if !Visible(db, r, allowed) then (db, Refused(RunNotFound))
    else
      var run := db.runs[r];
      if run.tenant !in db.tenants || db.tenants[run.tenant].activeCount <= 0 then (db, Refused(CorruptScheduler))
      else if !run.state.Running? || !Holds(run, worker, epoch, db.clock) then (db, Refused(LeaseConflict))
      else if Unsettled(db.effects, r) then (db, Refused(LeaseConflict))
      else
        var state := FinalState(run, code);
        var row := WithoutLease(run, state).(output := output, errorCode := code);
        match Record(p.link, ReleaseSlot(db, run.tenant), r, row, FinalKind(state), StateIs(state))
        case Err(e) => (db, Refused(e))
        case Ok(db') => (db', Finished(r, state))
  }

  function WithoutLease(run: Run, state: RunState): Run {
    run.(state := state, held := false, leaseOwner := None, leaseExpires := None)
  }

  function ReleaseSlot(db: Tables, t: Uuid): Tables
    requires t in db.tenants
  {
    db.(tenants := db.tenants[t := db.tenants[t].(activeCount := db.tenants[t].activeCount - 1)])
  }

  // ---------------------------------------------------------------- reaping

  function ReapKindOf(s: RunState): ReapKind {
    match s
    case Queued => Requeued
    case RetryWait => WaitingForQueue
    case Cancelled => WasCancelled
    case Failed => HasFailed
    case _ => ForReconciliation
  }

  function ReapEvent(s: RunState): Kind {
    match s
    case Queued => RunRequeued
    case RetryWait => RunRetryWait
    case Cancelled => RunCancelled
    case Failed => RunFailed
    case _ => RunNeedsReconciliation
  }

  /** A deferred retry whose tenant's queue has room. */
  predicate Promotable(p: Policy, db: Tables, r: Uuid) {
    && r in db.runs && db.runs[r].state.RetryWait? && db.runs[r].tenant in db.tenants
    && Count(db.runs, InQueueOf(db.runs[r].tenant)) < Min(db.tenants[db.runs[r].tenant].queueLimit, p.maxPendingTenant)
  }

  predicate NextPromoted(p: Policy, db: Tables, r: Uuid) {
    && Promotable(p, db, r)
    && forall q | q in db.runs && Promotable(p, db, q) :: q == r || Older(db.runs, r, q)
  }

  ghost function PromotionCandidate(p: Policy, db: Tables): Option<Uuid> {
    if r :| r in db.runs && NextPromoted(p, db, r) then Some(r) else None
  }

  function PromotedState(p: Policy, db: Tables, r: Uuid): RunState
    requires r in db.runs
  {
    if Db.Uncertain(db.effects, r) then NeedsReconciliation
    else if db.runs[r].cancel then Cancelled
    else if db.runs[r].attempt >= p.maxAttempts then Failed
    else Queued
  }

  function Promote(p: Policy, db: Tables, r: Uuid): (result: (Tables, Reply))
    requires r in db.runs
    ensures SchedulesOnly(db, result.0)
    ensures result.1.Refused? || result.1.Reaped?
  {
    var run := db.runs[r];
    if !run.state.RetryWait? || run.held then (db, Refused(CorruptScheduler))
    else
      var next := PromotedState(p, db, r);
      match Record(p.link, db, r, run.(state := next), ReapEvent(next), StateIs(next))
      case Err(e) => (db, Refused(e))
      case Ok(db') => (db', Reaped(r, ReapKindOf(next)))
  }

  predicate Expired(db: Tables, r: Uuid) {
    r in db.runs && Matches(ExpiredAt(db.clock), db.runs[r])
  }

  predicate ExpiresBefore(runs: map<Uuid, Run>, a: Uuid, b: Uuid)
    requires a in runs && b in runs
  {
    var x, y := runs[a].leaseExpires, runs[b].leaseExpires;
    x.Some? && y.Some? && (x.value < y.value || (x.value == y.value && a < b))
  }

  predicate FirstExpired(db: Tables, r: Uuid) {
    && Expired(db, r)
    && forall q | q in db.runs && Expired(db, q) :: q == r || ExpiresBefore(db.runs, r, q)
  }

  ghost function ExpiryCandidate(db: Tables): Option<Uuid> {
    if r :| r in db.runs && FirstExpired(db, r) then Some(r) else None
  }

  /** reap_one up to its row locks: promote one deferred retry, or choose an expired slot. */
  ghost function ReapSelect(p: Policy, db: Tables): (result: (Tables, Reply))
    ensures KeepsEffects(db, result.0)
    ensures result.1.Refused? || result.1.Reaped? || result.1.Selected? || result.1.NothingReaped?
  {
    var pending := Count(db.runs, InQueue);
    if !ReapArguments(p) then (db, Refused(Configuration))
    else ReapChosen(p, db, if pending < p.maxPendingGlobal then PromotionCandidate(p, db) else None, ExpiryCandidate(db))
  }

  function ReapChosen(p: Policy, db: Tables, promoted: Option<Uuid>, expired: Option<Uuid>): (result: (Tables, Reply))
    requires promoted.Some? ==> promoted.value in db.runs
    requires expired.Some? ==> expired.value in db.runs
    ensures KeepsEffects(db, result.0)
    ensures result.1.Refused? || result.1.Reaped? || result.1.Selected? || result.1.NothingReaped?
  {
    match (promoted, expired)
    case (Some(r), _) => Promote(p, db, r)
    case (None, None) => (db, NothingReaped)
    case (None, Some(r)) => (db.(reaping := Some(Candidate(db.runs[r].tenant, r, Count(db.runs, InQueue)))), Selected)
  }

  function ReapedState(p: Policy, db: Tables, c: Candidate): RunState
    requires c.run in db.runs && c.tenant in db.tenants
  {
    if Db.Uncertain(db.effects, c.run) then NeedsReconciliation
    else if db.runs[c.run].cancel then Cancelled
    else if db.runs[c.run].attempt >= p.maxAttempts then Failed
    else if c.globalPending >= p.maxPendingGlobal
         || Count(db.runs, InQueueOf(c.tenant)) >= Min(db.tenants[c.tenant].queueLimit, p.maxPendingTenant)
    then RetryWait
    else Queued
  }

  /** The rest of reap_one, after the row locks are held. */
  function ReapCommit(p: Policy, open: Tables): (result: (Tables, Reply))
    requires open.reaping.Some?
    ensures KeepsEffects(open, result.0) && result.0.reaping.None?
    ensures result.1.Refused? || result.1.Reaped? || result.1.NothingReaped?
  {
    var c := open.reaping.value;
    var db := open.(reaping := None);
    if c.tenant !in db.tenants || c.run !in db.runs || db.tenants[c.tenant].activeCount <= 0 then
      (db, Refused(CorruptScheduler))
    else
      var run := db.runs[c.run];
      if !run.held then (db, Refused(CorruptScheduler))
      else if !(run.leaseExpires.Some? && run.leaseExpires.value <= db.clock) then (db, NothingReaped)
      else
        var next := ReapedState(p, db, c);
        match RecordTwo(p.link, ReleaseSlot(db, c.tenant), c.run, WithoutLease(run, next),
                        LeaseExpired, LeaseRanOut, ReapEvent(next), StateIs(next))
        case Err(e) => (db, Refused(e))
        case Ok(db') => (db', Reaped(c.run, ReapKindOf(next)))
  }

  /** reap_one with nothing interleaved. */
  ghost function ReapOne(p: Policy, db: Tables): (Tables, Reply)
    requires db.reaping.None?
  {
    var (db', r) := ReapSelect(p, db);
    if r.Selected? && db'.reaping.Some? then ReapCommit(p, db') else (db', r)
  }

  // ---------------------------------------------------------------- grants

  ghost function CreateGrant(db: Tables, tenant: Uuid, parent: Option<Uuid>, authority: Authority, newId: Uuid)
    : (result: (Tables, Reply))
    ensures KeepsRuns(db, result.0) && db.modules == result.0.modules
    ensures result.1.Refused? || result.1.GrantCreated?
  {
    match parent
    case None =>
      if tenant !in db.tenants then (db, Refused(GrantNotFound))
      else if !Grants.Valid(authority, Millis(db.clock)) then (db, Refused(GrantValidation(Invalid)))
      else (db.(grants := db.grants[newId := GrantRow(tenant, None, 0, authority, 0, false)]), GrantCreated(newId))
    case Some(above) =>
      match LoadChain(db.grants, tenant, above)
      case Err(e) => (db, Refused(e))
      case Ok(chain) =>
        match ChildFault(authority, chain, tenant, Millis(db.clock))
        case Some(e) => (db, Refused(GrantValidation(e)))
        case None =>
          (db.(grants := db.grants[newId := GrantRow(tenant, parent, |chain|, authority, 0, false)]), GrantCreated(newId))
  }

  ghost function RevokeGrant(db: Tables, tenant: Uuid, id: Uuid): (result: (Tables, Reply))
    ensures KeepsRuns(db, result.0) && db.modules == result.0.modules
    ensures result.1.Refused? || result.1.GrantRevoked?
  {
    match LoadChain(db.grants, tenant, id)
    case Err(e) => (db, Refused(e))
    case Ok(chain) =>
      if id !in db.grants || db.grants[id].revoked then (db, GrantRevoked(id))
      else (db.(grants := db.grants[id := db.grants[id].(revoked := true)]), GrantRevoked(id))
  }

  /** Rows of effect_reservations for one effect. */
  function ReservedFor(reservations: set<Reservation>, e: EffectId): set<Uuid> {
    set x | x in reservations && x.effect == e :: x.grant
  }

  function ChainIds(chain: seq<Grant>): set<Uuid> {
    set i | 0 <= i < |chain| :: chain[i].id
  }

  function PlanIds(plan: seq<(Uuid, int)>): set<Uuid> {
    set i | 0 <= i < |plan| :: plan[i].0
  }

  /** UPDATE ... SET used_effects WHERE used_effects = next - 1, for each planned grant; None
      when a row did not match. */
  function ApplyPlan(grants: map<Uuid, GrantRow>, plan: seq<(Uuid, int)>): Option<map<Uuid, GrantRow>> {
    if plan == [] then Some(grants)
    else
      var (g, next) := plan[0];
      if g !in grants || grants[g].used != next - 1 then None
      else ApplyPlan(grants[g := grants[g].(used := next)], plan[1..])
  }

  ghost function ReserveChain(db: Tables, tenant: Uuid, run: Uuid, ordinal: int): (result: (Tables, Reply))
    ensures KeepsRuns(db, result.0) && db.modules == result.0.modules
    ensures result.1.Refused? || result.1.Charged?
  {
    var e := EffectId(run, ordinal);
    if run !in db.runs || db.runs[run].tenant != tenant then (db, Refused(RunNotFound))
    else
      match LoadChain(db.grants, tenant, db.runs[run].request.grantId)
      case Err(x) => (db, Refused(x))
      case Ok(chain) =>
        if e !in db.effects then (db, Refused(EffectNotFound))
        else ReserveEffect(db, tenant, e, chain)
  }

  ghost function ReserveEffect(db: Tables, tenant: Uuid, e: EffectId, chain: seq<Grant>): (result: (Tables, Reply))
    requires e in db.effects
    ensures KeepsRuns(db, result.0) && db.modules == result.0.modules
    ensures result.1.Refused? || result.1.Charged?
  {
    var effect := db.effects[e];
    var existing := ReservedFor(db.reservations, e);
    if existing != {} then
      if existing == ChainIds(chain) && effect.charged then (db, Charged(true)) else (db, Refused(CorruptGrant))
    else if effect.charged || !effect.state.Prepared? then (db, Refused(CorruptGrant))
    else
      match Plan(chain, tenant, Millis(db.clock), effect.action, effect.destination, effect.project)
      case Err(x) => (db, Refused(GrantValidation(x)))
      case Ok(plan) =>
        match ApplyPlan(db.grants, plan)
        case None => (db, Refused(CorruptGrant))
        case Some(grants) =>
          (db.(grants := grants,
               reservations := db.reservations + set g | g in ChainIds(chain) :: Reservation(e, g),
               effects := db.effects[e := effect.(charged := true)]), Charged(false))
  }
}

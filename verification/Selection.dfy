/** Which row a query picks, in the fields of the rows: claims, reaps and promotions. */
module Selection {
  import opened Bytes
  import opened States
  import opened Grants
  import opened Db
  import opened Scheduler
  import opened Execution
  import opened Reachable
  import opened Fencing
  import opened Terms
  import EventChain
  import Domain
  import Fairness
  import Deltas
  import Outcomes
  import Sweeping
  import Budget
  import opened Rows
  import opened Invariants
  import opened Forest
  import opened Allowances
  import Collections

  // ---------------------------------------------------------------- what the counts count

  /** Each counting query counts the runs its condition names. */
  lemma CountsAreSets(runs: map<Uuid, Run>, t: Uuid, worker: Text, now: Time)
    ensures Count(runs, InQueue) == |set r | r in runs && runs[r].state.Queued?|
    ensures Count(runs, InQueueOf(t)) == |set r | r in runs && runs[r].state.Queued? && runs[r].tenant == t|
    ensures Count(runs, Waiting) == |set r | r in runs && runs[r].state.RetryWait?|
    ensures Count(runs, WaitingOf(t)) == |set r | r in runs && runs[r].state.RetryWait? && runs[r].tenant == t|
    ensures Count(runs, SlotHeld) == |set r | r in runs && runs[r].held|
    ensures Count(runs, SlotHeldOf(t)) == |set r | r in runs && runs[r].held && runs[r].tenant == t|
    ensures Count(runs, SlotHeldBy(worker)) == |set r | r in runs && runs[r].held && runs[r].leaseOwner == Some(worker)|
    ensures Count(runs, ExpiredAt(now)) ==
            |set r | r in runs && runs[r].held && (runs[r].state.Leased? || runs[r].state.Running?)
                     && runs[r].leaseExpires.Some? && runs[r].leaseExpires.value <= now|
  {
    assert Select(runs, InQueue) == set r | r in runs && runs[r].state.Queued?;
    assert Select(runs, InQueueOf(t)) == set r | r in runs && runs[r].state.Queued? && runs[r].tenant == t;
    assert Select(runs, Waiting) == set r | r in runs && runs[r].state.RetryWait?;
    assert Select(runs, WaitingOf(t)) == set r | r in runs && runs[r].state.RetryWait? && runs[r].tenant == t;
    assert Select(runs, SlotHeld) == set r | r in runs && runs[r].held;
    assert Select(runs, SlotHeldOf(t)) == set r | r in runs && runs[r].held && runs[r].tenant == t;
    assert Select(runs, SlotHeldBy(worker)) == set r | r in runs && runs[r].held && runs[r].leaseOwner == Some(worker);
    assert Select(runs, ExpiredAt(now)) ==
           set r | r in runs && runs[r].held && (runs[r].state.Leased? || runs[r].state.Running?)
                   && runs[r].leaseExpires.Some? && runs[r].leaseExpires.value <= now;
  }

  // ---------------------------------------------------------------- claims

  /** A run a claim may take. */
  predicate Takeable(run: Run, maxAttempts: int) {
    run.state.Queued? && !run.cancel && run.attempt < maxAttempts
  }

  /** A tenant a claim may serve: on the worker's list, with a free slot and a run to take. */
  predicate Servable(p: Policy, s: Tables, allowed: seq<Uuid>, t: Uuid) {
    && t in s.tenants && t in allowed
    && s.tenants[t].activeCount < s.tenants[t].activeLimit && s.tenants[t].activeCount < p.maxActivePerTenant
    && exists q | q in s.runs :: s.runs[q].tenant == t && Takeable(s.runs[q], p.maxAttempts)
  }

  /** The claim query's row: the servable tenant served longest ago, the smaller id on a tie, and of
      its runs the oldest, the smaller id on a tie. */
  lemma CandidateOrder(p: Policy, s: Tables, allowed: seq<Uuid>, t: Uuid, r: Uuid)
    requires Chosen(p, s, allowed, t, r)
    ensures r in s.runs && s.runs[r].tenant == t && Takeable(s.runs[r], p.maxAttempts) && Servable(p, s, allowed, t)
    ensures forall q | q in s.runs && s.runs[q].tenant == t && Takeable(s.runs[q], p.maxAttempts) ::
              s.runs[r].createdAt <= s.runs[q].createdAt && (s.runs[r].createdAt == s.runs[q].createdAt ==> r <= q)
    ensures forall u | u in s.tenants && Servable(p, s, allowed, u) ::
              && s.tenants[t].lastServed <= s.tenants[u].lastServed
              && (s.tenants[t].lastServed == s.tenants[u].lastServed ==> t <= u)
  {
    forall u | u in s.tenants ensures Servable(p, s, allowed, u) <==> Eligible(p, s, allowed, u) {
      ServableIsEligible(p, s, allowed, u);
    }
    hide Eligible, Servable;
  }

  lemma ServableIsEligible(p: Policy, s: Tables, allowed: seq<Uuid>, u: Uuid)
    ensures Servable(p, s, allowed, u) <==> Eligible(p, s, allowed, u)
  {
    forall q | q in s.runs ensures Takeable(s.runs[q], p.maxAttempts) <==> Claimable(s.runs[q], p.maxAttempts) {
    }
    hide Takeable, Claimable;
  }

  /** In every execution a claim answered with a run takes it from the tenant served longest ago
      among those the worker may serve, and of that tenant's runs that are queued, not cancelled and
      have an attempt left it takes the one created first. */
  lemma ClaimTakesOldest(p: Policy, db: Tables, actions: seq<Action>, k: nat)
    requires k < |actions| && ReplyAt(p, db, actions, k).Claimed?
    ensures actions[k].op.Claiming?
    ensures var s, lease, allowed := Seen(p, db, actions, k), ReplyAt(p, db, actions, k).lease, actions[k].op.allowed;
            var t, r := lease.tenant, lease.run;
            && r in s.runs && s.runs[r].tenant == t && t in s.tenants && t in allowed
            && s.runs[r].state.Queued? && !s.runs[r].cancel && s.runs[r].attempt < p.maxAttempts
            && s.tenants[t].activeCount < s.tenants[t].activeLimit && s.tenants[t].activeCount < p.maxActivePerTenant
            && (forall q | q in s.runs && s.runs[q].tenant == t
                           && s.runs[q].state.Queued? && !s.runs[q].cancel && s.runs[q].attempt < p.maxAttempts ::
                  s.runs[r].createdAt <= s.runs[q].createdAt && (s.runs[r].createdAt == s.runs[q].createdAt ==> r <= q))
            && (forall u | u in s.tenants && Servable(p, s, allowed, u) ::
                  && s.tenants[t].lastServed <= s.tenants[u].lastServed
                  && (s.tenants[t].lastServed == s.tenants[u].lastServed ==> t <= u))
  {
    var s, op := Seen(p, db, actions, k), actions[k].op;
    hide Perform, Exec, Chosen;
    ClaimFacts(p, s, op);
    CandidateOrder(p, s, op.allowed, ReplyAt(p, db, actions, k).lease.tenant, ReplyAt(p, db, actions, k).lease.run);
  }

  /** Bounded overtaking, in the same fields: with N tenants, while t is servable at every successful
      claim, at most N - 1 of them go to others before one goes to t. */
  lemma NeverOvertakenLong(p: Policy, db: Tables, actions: seq<Action>, i: nat, k: nat, t: Uuid)
    requires Inv(p, db) && i <= k <= |actions| && t in Before(p, db, actions, i).tenants
    requires forall j | i <= j < k && ReplyAt(p, db, actions, j).Claimed? ::
               && actions[j].op.Claiming? && Servable(p, Seen(p, db, actions, j), actions[j].op.allowed, t)
               && ReplyAt(p, db, actions, j).lease.tenant != t
    ensures Fairness.ClaimsIn(p, db, actions, i, k) <= |Before(p, db, actions, i).tenants| - 1
  {
    forall j | i <= j < k && ReplyAt(p, db, actions, j).Claimed?
      ensures actions[j].op.Claiming? && Eligible(p, At(Before(p, db, actions, j), actions[j].now), actions[j].op.allowed, t)
    {
      ServableIsEligible(p, Seen(p, db, actions, j), actions[j].op.allowed, t);
    }
    hide Inv, Perform, Exec, Eligible, Servable, Fairness.ClaimsIn;
    Fairness.BoundedOvertaking(p, db, actions, i, k, t);
  }

  /** Fewer runs hold slots than the policy allows, and fewer than two for this worker. */
  predicate SlotsFree(p: Policy, s: Tables, worker: Text) {
    && |set r | r in s.runs && s.runs[r].held| < p.maxActiveGlobal
    && |set r | r in s.runs && s.runs[r].held && s.runs[r].leaseOwner == Some(worker)| < 2
  }

  /** Some queued run has failed. */
  predicate SomeDenied(s: Tables, s': Tables) {
    exists r | r in s.runs && r in s'.runs :: s.runs[r].state.Queued? && s'.runs[r].state.Failed?
  }

  /** A claim finds work when there is some: if a slot is free and some tenant is servable, then
      either a run is leased or a queued run whose grant is dead fails as denied. */
  lemma WorkIsFound(p: Policy, s: Tables, worker: Text, allowed: seq<Uuid>, slots: int, later: Time, t: Uuid)
    requires GrantInv(p, s) && s.reaping.None? && s.dispatchSeq < I64_MAX
    requires Identifier(worker) && 1 <= |allowed| <= 1024 && 1 <= slots <= 2
    requires SlotsFree(p, s, worker) && Servable(p, s, allowed, t)
    ensures var (s', reply) := Claim(p, s, worker, allowed, slots, later); reply.Claimed? || SomeDenied(s, s')
  {
    hide *;
    SlotTotal(p, s);
    FreeCounts(p, s, worker);
    GoodArguments(p, worker, allowed, slots);
    ServableCandidate(p, s, allowed, t);
    Outcomes.ClaimsExactly(p, s, worker, allowed, slots, later);
    var r := ClaimCandidate(p, s, allowed).value.1;
    if !Claim(p, s, worker, allowed, slots, later).1.Claimed? {
      DeniedOne(s, Claim(p, s, worker, allowed, slots, later).0, r);
    }
  }

  lemma FreeCounts(p: Policy, s: Tables, worker: Text)
    requires SlotsFree(p, s, worker)
    ensures Count(s.runs, SlotHeld) < p.maxActiveGlobal && Count(s.runs, SlotHeldBy(worker)) < 2
  {
    assert Select(s.runs, SlotHeld) == set r | r in s.runs && s.runs[r].held;
    assert Select(s.runs, SlotHeldBy(worker)) == set r | r in s.runs && s.runs[r].held && s.runs[r].leaseOwner == Some(worker);
  }

  lemma ServableCandidate(p: Policy, s: Tables, allowed: seq<Uuid>, t: Uuid)
    requires Servable(p, s, allowed, t)
    ensures ClaimCandidate(p, s, allowed).Some?
    ensures ClaimCandidate(p, s, allowed).value.1 in s.runs && s.runs[ClaimCandidate(p, s, allowed).value.1].state.Queued?
  {
    ServableIsEligible(p, s, allowed, t);
    assert t in s.tenants;
    hide ClaimCandidate, Chosen, Eligible, Servable;
    Fairness.CandidateExists(p, s, allowed);
    Deltas.ClaimCandidateFacts(p, s, allowed);
    var (u, r) := ClaimCandidate(p, s, allowed).value;
    assert Deltas.ClaimReady(p, s, u, r);
  }

  lemma DeniedOne(s: Tables, s': Tables, r: Uuid)
    requires r in s.runs && r in s'.runs && s.runs[r].state.Queued? && s'.runs[r].state.Failed?
    ensures SomeDenied(s, s')
  {
  }

  lemma SlotTotal(p: Policy, s: Tables)
    requires GrantInv(p, s)
    ensures ActiveTotal(s.tenants) == Count(s.runs, SlotHeld) && ValidPolicy(p)
  {
    hide RowsOk, Budget.BudgetOk, LeasesOk, TenantOk;
  }

  lemma GoodArguments(p: Policy, worker: Text, allowed: seq<Uuid>, slots: int)
    requires ValidPolicy(p) && Identifier(worker) && 1 <= |allowed| <= 1024 && 1 <= slots <= 2
    ensures ClaimArguments(p, worker, allowed, slots)
  {
    ArgumentWords(worker, [], None);
    hide WorkerName, Identifier;
  }

  // ---------------------------------------------------------------- reaps

  /** A run whose lease the reaper may take. */
  predicate RanOut(run: Run, now: Time) {
    && run.held && (run.state.Leased? || run.state.Running?)
    && run.leaseExpires.Some? && run.leaseExpires.value <= now
  }

  /** A deferred retry whose tenant has fewer queued runs than its limit and the policy allow. */
  predicate HasTurn(p: Policy, s: Tables, r: Uuid) {
    && r in s.runs && s.runs[r].state.RetryWait? && s.runs[r].tenant in s.tenants
    && var queued := |set q | q in s.runs && s.runs[q].state.Queued? && s.runs[q].tenant == s.runs[r].tenant|;
       queued < s.tenants[s.runs[r].tenant].queueLimit && queued < p.maxPendingTenant
  }

  lemma HasTurnIsPromotable(p: Policy, s: Tables, r: Uuid)
    ensures HasTurn(p, s, r) <==> Promotable(p, s, r)
  {
    if r in s.runs {
      var t := s.runs[r].tenant;
      assert Select(s.runs, InQueueOf(t)) == set q | q in s.runs && s.runs[q].state.Queued? && s.runs[q].tenant == t;
    }
  }

  /** The reaper takes the lease that ran out first, the smaller id on a tie. */
  lemma ReapsEarliest(p: Policy, s: Tables)
    requires ReapSelect(p, s).1.Selected?
    ensures var s' := ReapSelect(p, s).0;
            && s'.reaping.Some?
            && var r := s'.reaping.value.run;
               && r in s.runs && RanOut(s.runs[r], s.clock)
               && (forall q | q in s.runs && RanOut(s.runs[q], s.clock) ::
                     && s.runs[r].leaseExpires.value <= s.runs[q].leaseExpires.value
                     && (s.runs[r].leaseExpires.value == s.runs[q].leaseExpires.value ==> r <= q))
               && s'.reaping.value.tenant == s.runs[r].tenant
               && s'.reaping.value.globalPending == |set q | q in s.runs && s.runs[q].state.Queued?|
  {
    assert Select(s.runs, InQueue) == set q | q in s.runs && s.runs[q].state.Queued?;
    assert FirstExpired(s, ExpiryCandidate(s).value);
    forall q | q in s.runs ensures RanOut(s.runs[q], s.clock) <==> Expired(s, q) {
    }
    hide PromotionCandidate, Promote, Count;
  }

  /** Before any lease, the deferred retry created first gets its turn, the smaller id on a tie, as
      long as the global queue has room. */
  lemma PromotesOldest(p: Policy, s: Tables)
    requires ReapSelect(p, s).1.Reaped?
    ensures var r := ReapSelect(p, s).1.id;
            && HasTurn(p, s, r)
            && |set q | q in s.runs && s.runs[q].state.Queued?| < p.maxPendingGlobal
            && (forall q | q in s.runs && HasTurn(p, s, q) ::
                  s.runs[r].createdAt <= s.runs[q].createdAt && (s.runs[r].createdAt == s.runs[q].createdAt ==> r <= q))
  {
    assert Select(s.runs, InQueue) == set q | q in s.runs && s.runs[q].state.Queued?;
    forall q ensures HasTurn(p, s, q) <==> Promotable(p, s, q) {
      HasTurnIsPromotable(p, s, q);
    }
    hide HasTurn, Promotable, Count;
    assert NextPromoted(p, s, PromotionCandidate(p, s).value);
    PromoteNames(p, s, PromotionCandidate(p, s).value);
    hide Promote;
  }

  lemma PromoteNames(p: Policy, s: Tables, r: Uuid)
    requires r in s.runs
    ensures Promote(p, s, r).1.Reaped? ==> Promote(p, s, r).1.id == r
  {
  }

  // ---------------------------------------------------------------- what replies say

  lemma RecordedState(link: EventChain.Link, db: Tables, id: Uuid, row: Run, kind: EventChain.Kind, payload: EventChain.Payload)
    ensures var result := Record(link, db, id, row, kind, payload);
            result.Ok? ==> id in result.value.runs && result.value.runs[id].state == row.state
                           && result.value.runs[id] == row.(nextSeq := result.value.runs[id].nextSeq,
                                                            lastHash := result.value.runs[id].lastHash)
  {
  }

  lemma RecordedTwice(link: EventChain.Link, db: Tables, id: Uuid, row: Run, kind: EventChain.Kind, payload: EventChain.Payload,
                      kind': EventChain.Kind, payload': EventChain.Payload)
    ensures var result := RecordTwo(link, db, id, row, kind, payload, kind', payload');
            result.Ok? ==> id in result.value.runs && result.value.runs[id].state == row.state
  {
    RecordedState(link, db, id, row, kind, payload);
    var once := Record(link, db, id, row, kind, payload);
    if once.Ok? {
      RecordedState(link, once.value, id, once.value.runs[id], kind', payload');
    }
    hide Record;
  }

  /** The outcome names the state the run is in afterwards. */
  predicate Tells(outcome: ReapKind, state: RunState) {
    && (outcome == Requeued <==> state.Queued?)
    && (outcome == WaitingForQueue <==> state.RetryWait?)
    && (outcome == ForReconciliation <==> state.NeedsReconciliation?)
    && (outcome == WasCancelled <==> state.Cancelled?)
    && (outcome == HasFailed <==> state.Failed?)
  }

  lemma PromoteTells(p: Policy, s: Tables, r: Uuid)
    requires r in s.runs && Promote(p, s, r).1.Reaped?
    ensures var (s', reply) := Promote(p, s, r); reply.id in s'.runs && Tells(reply.outcome, s'.runs[reply.id].state)
  {
    var next := PromotedState(p, s, r);
    RecordedState(p.link, s, r, s.runs[r].(state := next), ReapEvent(next), EventChain.StateIs(next));
    hide Record, Db.Uncertain;
  }

  lemma CommitTells(p: Policy, s: Tables)
    requires s.reaping.Some? && ReapCommit(p, s).1.Reaped?
    ensures var (s', reply) := ReapCommit(p, s); reply.id in s'.runs && Tells(reply.outcome, s'.runs[reply.id].state)
  {
    var c, db := s.reaping.value, s.(reaping := None);
    var next := ReapedState(p, db, c);
    RecordedTwice(p.link, ReleaseSlot(db, c.tenant), c.run, WithoutLease(db.runs[c.run], next),
                  EventChain.LeaseExpired, EventChain.LeaseRanOut, ReapEvent(next), EventChain.StateIs(next));
    ReapedStateKinds(p, db, c);
    hide RecordTwo, ReapedState;
  }

  lemma ReapedStateKinds(p: Policy, db: Tables, c: Candidate)
    requires c.run in db.runs && c.tenant in db.tenants
    ensures var s := ReapedState(p, db, c); s.Queued? || s.RetryWait? || s.Cancelled? || s.Failed? || s.NeedsReconciliation?
  {
    hide Db.Uncertain, Count;
  }

  lemma SelectTells(p: Policy, s: Tables)
    requires ReapSelect(p, s).1.Reaped?
    ensures var (s', reply) := ReapSelect(p, s); reply.id in s'.runs && Tells(reply.outcome, s'.runs[reply.id].state)
  {
    hide Promote, Count;
    var r := PromotionCandidate(p, s).value;
    PromoteTells(p, s, r);
  }

  lemma ReapedBy(p: Policy, s: Tables, op: Op)
    requires Perform(p, s, op).1.Reaped?
    ensures (op.ReapChoose? && Perform(p, s, op) == ReapSelect(p, s))
            || (op.ReapFinish? && s.reaping.Some? && Perform(p, s, op) == ReapCommit(p, s))
  {
    hide Admit, Claim, Heartbeat, MarkStarted, Finish, ReapSelect, ReapCommit;
    hide CreateGrant, RevokeGrant, ReserveChain, Prepare, MoveEffect;
  }

  /** In every execution the outcome in the reaper's reply is the state the run is left in. */
  lemma ReapedTells(p: Policy, db: Tables, actions: seq<Action>, k: nat)
    requires k < |actions| && ReplyAt(p, db, actions, k).Reaped?
    ensures var s', reply := Before(p, db, actions, k + 1), ReplyAt(p, db, actions, k);
            && reply.id in s'.runs
            && var state := s'.runs[reply.id].state;
               && (reply.outcome == Requeued <==> state.Queued?)
               && (reply.outcome == WaitingForQueue <==> state.RetryWait?)
               && (reply.outcome == ForReconciliation <==> state.NeedsReconciliation?)
               && (reply.outcome == WasCancelled <==> state.Cancelled?)
               && (reply.outcome == HasFailed <==> state.Failed?)
  {
    var s, op := Seen(p, db, actions, k), actions[k].op;
    NextState(p, db, actions, k);
    hide Perform, Exec, ReapSelect, ReapCommit;
    ReapedBy(p, s, op);
    if op.ReapChoose? {
      SelectTells(p, s);
    } else {
      CommitTells(p, s);
    }
  }

  // ---------------------------------------------------------------- admission

  /** Queued runs and deferred retries. */
  predicate Pending(run: Run) {
    run.state.Queued? || run.state.RetryWait?
  }

  lemma PendingCounts(s: Tables, t: Uuid)
    ensures Count(s.runs, InQueue) + Count(s.runs, Waiting) == |set r | r in s.runs && Pending(s.runs[r])|
    ensures Count(s.runs, InQueueOf(t)) + Count(s.runs, WaitingOf(t))
            == |set r | r in s.runs && Pending(s.runs[r]) && s.runs[r].tenant == t|
  {
    PendingSets(s.runs, t);
    hide Select, Pending;
    Collections.Disjoint(Select(s.runs, InQueue), Select(s.runs, Waiting));
    Collections.Disjoint(Select(s.runs, InQueueOf(t)), Select(s.runs, WaitingOf(t)));
  }

  lemma PendingSets(runs: map<Uuid, Run>, t: Uuid)
    ensures (set r | r in runs && Pending(runs[r])) == Select(runs, InQueue) + Select(runs, Waiting)
    ensures Select(runs, InQueue) !! Select(runs, Waiting)
    ensures (set r | r in runs && Pending(runs[r]) && runs[r].tenant == t)
            == Select(runs, InQueueOf(t)) + Select(runs, WaitingOf(t))
    ensures Select(runs, InQueueOf(t)) !! Select(runs, WaitingOf(t))
  {
  }

  /** Tenant and module are stored, and the grant is a stored one of the tenant, neither revoked nor
      expired. */
  predicate Known(s: Tables, tenant: Uuid, request: Domain.NormalizedRun) {
    && tenant in s.tenants && (tenant, request.moduleDigest) in s.modules
    && request.grantId in s.grants && s.grants[request.grantId].tenant == tenant
    && !s.grants[request.grantId].revoked && s.grants[request.grantId].authority.expiresAtMs * 1000 > s.clock
  }

  /** Fewer runs are pending than the policy allows in all, and than the tenant's limit and the
      policy allow for the tenant. */
  predicate HasRoom(p: Policy, s: Tables, tenant: Uuid) {
    && tenant in s.tenants
    && |set r | r in s.runs && Pending(s.runs[r])| < p.maxPendingGlobal
    && var mine := |set r | r in s.runs && Pending(s.runs[r]) && s.runs[r].tenant == tenant|;
       mine < s.tenants[tenant].queueLimit && mine < p.maxPendingTenant
  }

  /** The run holds what was submitted and has not begun. */
  predicate FreshRun(p: Policy, run: Run, tenant: Uuid, key: Text, request: Domain.NormalizedRun, now: Time) {
    && run.tenant == tenant && run.key == key && run.request == request
    && run.requestHash == p.runHash(request) && run.createdAt == now
    && run.state.Queued? && !run.held && !run.cancel && run.attempt == 0 && run.leaseEpoch == 0
    && run.leaseOwner.None? && run.leaseExpires.None? && run.output.None? && run.errorCode.None?
  }

  /** A new key is admitted exactly when it is known what to run and there is room, deferred retries
      counted; lack of room alone is answered with exhausted capacity. The new run holds what was
      submitted and no other run is touched. */
  lemma AdmittedExactly(p: Policy, s: Tables, tenant: Uuid, key: Text, request: Domain.NormalizedRun, id: Uuid)
    requires Inv(p, s) && s.reaping.None? && id !in s.runs && Graphic(key)
    requires forall r | r in s.runs :: !(s.runs[r].tenant == tenant && s.runs[r].key == key)
    ensures var (s', reply) := Admit(p, s, tenant, key, request, id);
            && (reply == Admitted(id, false) <==> Known(s, tenant, request) && HasRoom(p, s, tenant))
            && (reply == Refused(CapacityExhausted) <==> Known(s, tenant, request) && !HasRoom(p, s, tenant))
            && (reply != Admitted(id, false) ==> s' == s && reply.Refused?)
            && (reply == Admitted(id, false) ==>
                  && s'.runs.Keys == s.runs.Keys + {id} && (forall r | r in s.runs :: s'.runs[r] == s.runs[r])
                  && FreshRun(p, s'.runs[id], tenant, key, request, s.clock))
  {
    hide Inv, KeyText, Graphic, FindKey, Known, HasRoom, FreshRun, QueueFull, GrantUsable, Admit;
    RoomIsNotFull(p, s, tenant);
    NoSuchKey(s, tenant, key);
    ArgumentWords([], key, None);
    PolicyOf(p, s);
    KnownParts(s, tenant, request);
    var log := Outcomes.AdmitsExactly(p, s, tenant, key, request, id);
    AdmitErrors(p, s, tenant, key, request, id);
    FreshRunRow(p, tenant, key, request, s.clock, log);
  }

  lemma KnownParts(s: Tables, tenant: Uuid, request: Domain.NormalizedRun)
    ensures Known(s, tenant, request) <==>
            && tenant in s.tenants && (tenant, request.moduleDigest) in s.modules && GrantUsable(s, tenant, request.grantId)
  {
  }

  lemma RoomIsNotFull(p: Policy, s: Tables, tenant: Uuid)
    ensures tenant in s.tenants ==> (HasRoom(p, s, tenant) <==> !QueueFull(p, s, tenant))
    ensures HasRoom(p, s, tenant) ==> tenant in s.tenants
  {
    PendingCounts(s, tenant);
    hide Count, Pending;
  }

  lemma FreshRunRow(p: Policy, tenant: Uuid, key: Text, request: Domain.NormalizedRun, now: Time, log: seq<EventChain.Event>)
    ensures FreshRun(p, Stamp(NewRun(tenant, key, request, p.runHash(request), now), log), tenant, key, request, now)
  {
  }

  lemma PolicyOf(p: Policy, s: Tables)
    requires Inv(p, s)
    ensures ValidPolicy(p)
  {
  }

  lemma NoSuchKey(s: Tables, tenant: Uuid, key: Text)
    requires forall r | r in s.runs :: !(s.runs[r].tenant == tenant && s.runs[r].key == key)
    ensures FindKey(s, tenant, key).None?
  {
  }

  lemma AdmitErrors(p: Policy, s: Tables, tenant: Uuid, key: Text, request: Domain.NormalizedRun, id: Uuid)
    requires AdmitArguments(p, key) && FindKey(s, tenant, key).None?
    ensures var reply := Admit(p, s, tenant, key, request, id).1;
            && (reply == Refused(CapacityExhausted) <==>
                  tenant in s.tenants && (tenant, request.moduleDigest) in s.modules
                  && GrantUsable(s, tenant, request.grantId) && QueueFull(p, s, tenant))
            && (reply.Admitted? ==> reply == Admitted(id, false))
  {
    hide GrantUsable, QueueFull, FindKey;
  }

  // ---------------------------------------------------------------- a settled database

  /** What a sweep that has settled leaves: no held slot whose lease has run out, and no deferred
      retry whose turn it is. */
  lemma SettledMeans(p: Policy, s: Tables)
    requires Sweeping.Quiescent(p, s) && ValidPolicy(p)
    ensures forall r | r in s.runs && s.runs[r].held :: s.runs[r].leaseExpires.Some? && s.runs[r].leaseExpires.value > s.clock
    ensures |set q | q in s.runs && s.runs[q].state.Queued?| < p.maxPendingGlobal ==>
              forall r | r in s.runs :: !HasTurn(p, s, r)
  {
    assert Select(s.runs, InQueue) == set q | q in s.runs && s.runs[q].state.Queued?;
    forall r | r in s.runs ensures HasTurn(p, s, r) <==> Promotable(p, s, r) {
      HasTurnIsPromotable(p, s, r);
    }
    hide HasTurn, Count;
  }
}

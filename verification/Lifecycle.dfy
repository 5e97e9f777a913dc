/** What holds of every run and every tenant in every execution from a provisioned database. */
module Lifecycle {
  import opened Bytes
  import opened Hash
  import opened EventChain
  import opened States
  import opened Db
  import opened Scheduler
  import opened Execution
  import opened Rows
  import opened Deltas
  import opened Invariants
  import opened Reachable
  import opened Fencing

  // ---------------------------------------------------------------- slots and queues

  function HeldSlots(runs: map<Uuid, Run>, t: Uuid): set<Uuid> {
    set r | r in runs && runs[r].tenant == t && runs[r].state.Slotted()
  }

  /** Slot conservation: in every reachable state a slot is held exactly by the leased and
      running runs, active_count counts them, and the limits of tenant, deployment and worker
      are kept. */
  lemma SlotConservation(p: Policy, db: Tables, actions: seq<Action>)
    requires ValidPolicy(p) && Initial(db)
    ensures var s := Exec(p, db, actions);
            && (forall r | r in s.runs :: (s.runs[r].held <==> s.runs[r].state.Slotted()))
            && (forall t | t in s.tenants :: s.tenants[t].activeCount == |HeldSlots(s.runs, t)| <= 1)
            && Count(s.runs, SlotHeld) <= p.maxActiveGlobal
            && (forall w: Text :: Count(s.runs, SlotHeldBy(w)) <= 2)
  {
    InvInitially(p, db);
    InvReachable(p, db, actions);
    hide Exec, TenantOk, QueuesOk, KeysOk, ReapingOk, EffectsOk, RowOk;
    var s := Exec(p, db, actions);
    forall r | r in s.runs ensures s.runs[r].held <==> s.runs[r].state.Slotted() {
      RowShapes(p, s, r);
    }
    forall t | t in s.tenants ensures s.tenants[t].activeCount == |HeldSlots(s.runs, t)| <= 1 {
      TenantSlots(p, s, t);
    }
  }

  lemma TenantSlots(p: Policy, s: Tables, t: Uuid)
    requires ValidPolicy(p) && t in s.tenants && TenantOk(p, s, t)
    requires forall r | r in s.runs :: (s.runs[r].held <==> s.runs[r].state.Slotted())
    ensures s.tenants[t].activeCount == |HeldSlots(s.runs, t)| <= 1
  {
    assert HeldSlots(s.runs, t) == Select(s.runs, SlotHeldOf(t));
  }

  /** Queue bounds: queued runs stay within the caps even though retries are deferred, and
      everything unfinished stays within the caps plus the slots. */
  lemma QueueBounds(p: Policy, db: Tables, actions: seq<Action>)
    requires ValidPolicy(p) && Initial(db)
    ensures var s := Exec(p, db, actions);
            && Count(s.runs, InQueue) <= p.maxPendingGlobal
            && Count(s.runs, InQueue) + Count(s.runs, Waiting) + Count(s.runs, SlotHeld) <= p.maxPendingGlobal + p.maxActiveGlobal
            && (forall t | t in s.tenants ::
                  && Count(s.runs, InQueueOf(t)) <= TenantCap(p, s.tenants[t])
                  && Count(s.runs, InQueueOf(t)) + Count(s.runs, WaitingOf(t)) + Count(s.runs, SlotHeldOf(t))
                     <= TenantCap(p, s.tenants[t]) + 1)
  {
    InvInitially(p, db);
    InvReachable(p, db, actions);
    hide Exec, Sound, SlotsOk, KeysOk;
    var s := Exec(p, db, actions);
    forall t | t in s.tenants ensures TenantQueueOk(p, s, t) {
    }
  }

  // ---------------------------------------------------------------- admission is idempotent

  /** Submitting a known key again with the same request names the same run and changes
      nothing, however full the queue; with another request it is refused unless the two
      requests have one hash. */
  lemma Readmission(p: Policy, db: Tables, r: Uuid, request: Domain.NormalizedRun, newId: Uuid)
    requires Inv(p, db) && r in db.runs && AdmitArguments(p, db.runs[r].key)
    ensures var (db', reply) := Admit(p, db, db.runs[r].tenant, db.runs[r].key, request, newId);
            && db' == db
            && (request == db.runs[r].request ==> reply == Admitted(r, true))
            && (reply == Admitted(r, true) || reply == Refused(IdempotencyConflict))
            && (reply == Admitted(r, true) <==> p.runHash(request) == p.runHash(db.runs[r].request))
  {
    hide SlotsOk, QueuesOk, RowsOk, EffectsOk, ReapingOk;
    assert HasKey(db, db.runs[r].tenant, db.runs[r].key, r);
    assert FindKey(db, db.runs[r].tenant, db.runs[r].key) == Some(r);
  }

  /** hash::run: the request hash is SHA-256 of the request's preimage. */
  ghost predicate RunsHashedBy(p: Policy, sha: Sha) {
    forall x: Domain.NormalizedRun :: RunFits(x) ==> p.runHash(x) == sha(Preimage(RunHash, RunFields(x)))
  }

  /** A known key is never answered for another request, unless the two collide under SHA-256. */
  lemma KeyNamesOneRequest(p: Policy, sha: Sha, db: Tables, r: Uuid, request: Domain.NormalizedRun, newId: Uuid)
    requires Inv(p, db) && RunsHashedBy(p, sha) && r in db.runs && AdmitArguments(p, db.runs[r].key)
    requires RunFits(request) && RunFits(db.runs[r].request) && request != db.runs[r].request
    ensures var (db', reply) := Admit(p, db, db.runs[r].tenant, db.runs[r].key, request, newId);
            && db' == db
            && (reply == Refused(IdempotencyConflict) ||
                var a, b := Preimage(RunHash, RunFields(request)), Preimage(RunHash, RunFields(db.runs[r].request));
                a != b && sha(a) == sha(b))
  {
    Readmission(p, db, r, request, newId);
    hide Inv, Admit, Preimage, RunFields;
    if Preimage(RunHash, RunFields(request)) == Preimage(RunHash, RunFields(db.runs[r].request)) {
      RunPreimageInjective(request, db.runs[r].request);
    }
  }

  // ---------------------------------------------------------------- replay

  /** Replaying a run's log gives its stored state, slot, attempt and epoch; the log is a hash
      chain whose length and head are the stored ones. */
  lemma LogReplaysToRow(p: Policy, db: Tables, actions: seq<Action>, r: Uuid)
    requires ValidPolicy(p) && Initial(db) && r in Exec(p, db, actions).runs
    ensures var s := Exec(p, db, actions);
            && r in s.events
            && Replay(s.events[r]) == View(s.runs[r])
            && s.runs[r].nextSeq == |s.events[r]| + 1 && s.runs[r].lastHash == Head(s.events[r])
            && Linked(p.link, s.runs[r].tenant, r, s.events[r])
            && 0 < |s.events[r]| < 8 * p.maxAttempts
            && Claims(s.events[r]) == s.runs[r].leaseEpoch
  {
    InvInitially(p, db);
    InvReachable(p, db, actions);
    hide Exec, SlotsOk, QueuesOk, KeysOk, EffectsOk, ReapingOk;
    var s := Exec(p, db, actions);
    LogShort(p, s, r);
    LifeIsNatural(p, s.runs[r]);
  }

  /** Stored logs are tamper evident: a log that passes verification against a run's stored head
      holds exactly the run's stored rows, or two rows are found whose preimages collide under
      SHA-256. */
  lemma StoredLogTamperEvident(p: Policy, sha: Sha, db: Tables, actions: seq<Action>, r: Uuid, other: seq<Event>)
    returns (i: nat, j: nat)
    requires ValidPolicy(p) && HashedBy(p.link, sha) && Initial(db) && r in Exec(p, db, actions).runs
    requires var run := Exec(p, db, actions).runs[r];
             Linked(p.link, run.tenant, r, other) && 0 < |other| < U64 && Head(other) == run.lastHash
    ensures var s := Exec(p, db, actions);
            && r in s.events
            && (SameRows(s.events[r], other) || Collision(sha, s.runs[r].tenant, r, s.events[r], other, i, j))
  {
    LogReplaysToRow(p, db, actions, r);
    hide Exec, Replay, Claims, HashedBy, Linked, SameRows, Collision;
    var s := Exec(p, db, actions);
    i, j := EqualHeadsEqualLogs(sha, p.link, s.runs[r].tenant, r, s.events[r], other);
  }

  // ---------------------------------------------------------------- refinement of the domain machine

  lemma StepOfRun(p: Policy, s: Tables, a: Action, r: Uuid)
    requires Inv(p, s) && r in s.runs
    ensures var s' := Apply(p, s, a).0;
            && r in s'.runs
            && (s'.runs[r].state != s.runs[r].state ==>
                  && s.runs[r].state.May(s'.runs[r].state, Db.Uncertain(s.effects, r), false)
                  && LifeOf(p, s'.runs[r]) < LifeOf(p, s.runs[r]))
            && (s'.runs[r].state == s.runs[r].state ==> LifeOf(p, s'.runs[r]) == LifeOf(p, s.runs[r]))
  {
    hide Perform, Inv;
    InvAt(p, s, a.now);
    var d := InvApply(p, s, a);
    DeltaOfRun(p, At(s, a.now), Apply(p, s, a).0, d, r);
  }

  lemma DeltaOfRun(p: Policy, db: Tables, db': Tables, d: Delta, r: Uuid)
    requires IsDelta(p, db, db', d) && r in db.runs
    ensures r in db'.runs
    ensures db'.runs[r].state != db.runs[r].state ==>
              && db.runs[r].state.May(db'.runs[r].state, Db.Uncertain(db.effects, r), false)
              && LifeOf(p, db'.runs[r]) < LifeOf(p, db.runs[r])
    ensures db'.runs[r].state == db.runs[r].state ==> LifeOf(p, db'.runs[r]) == LifeOf(p, db.runs[r])
  {
    hide QueueRoom, QueueFull, NewIdentity, ReleaseSlot;
    if d == Same || d.r != r {
      assert db'.runs[r] == db.runs[r];
    } else {
      assert RowOk(p, r, db'.runs[r], db'.events[r]);
    }
  }

  /** The store refines the domain machine: in every execution each change of a run's state is
      a transition RunState::transition allows, computed from the run's effects at that moment
      and without an explicit resume. */
  lemma StoreRefinesDomain(p: Policy, db: Tables, actions: seq<Action>, k: nat, r: Uuid)
    requires Inv(p, db) && k < |actions| && r in Before(p, db, actions, k).runs
    ensures var s, s' := Before(p, db, actions, k), Before(p, db, actions, k + 1);
            && r in s'.runs
            && (s'.runs[r].state != s.runs[r].state ==>
                  s.runs[r].state.May(s'.runs[r].state, Db.Uncertain(s.effects, r), false))
  {
    hide Perform, Inv, Exec;
    InvBefore(p, db, actions, k);
    NextState(p, db, actions, k);
    StepOfRun(p, Before(p, db, actions, k), actions[k], r);
  }

  /** In every reachable state an effect in flight or unknown belongs to a run that still holds
      a slot or awaits reconciliation, and a succeeded run has only settled effects. */
  lemma EffectsAgreeWithRuns(p: Policy, db: Tables, actions: seq<Action>, e: EffectId)
    requires ValidPolicy(p) && Initial(db) && e in Exec(p, db, actions).effects
    ensures var s := Exec(p, db, actions);
            && e.run in s.runs
            && (s.effects[e].state.Uncertain() ==> s.runs[e.run].state.Slotted() || s.runs[e.run].state.NeedsReconciliation?)
            && (s.runs[e.run].state.Succeeded? ==> s.effects[e].state.Settled())
  {
    InvInitially(p, db);
    InvReachable(p, db, actions);
    hide Exec, SlotsOk, QueuesOk, KeysOk, RowsOk, ReapingOk;
    var s := Exec(p, db, actions);
    assert s.effects[e].state.Uncertain() ==> Db.Uncertain(s.effects, e.run);
    assert !s.effects[e].state.Settled() ==> Unsettled(s.effects, e.run);
  }

  // ---------------------------------------------------------------- the bounded life of a run

  /** How often the state of run r changed in the first k actions. */
  ghost function Changes(p: Policy, db: Tables, actions: seq<Action>, k: nat, r: Uuid): nat
    requires k <= |actions|
  {
    if k == 0 then 0
    else
      var s, s' := Before(p, db, actions, k - 1), Before(p, db, actions, k);
      Changes(p, db, actions, k - 1, r)
      + (if r in s.runs && r in s'.runs && s.runs[r].state != s'.runs[r].state then 1 else 0)
  }

  /** A run makes at most 4 * maxAttempts - 1 changes of state after its admission. */
  lemma {:induction false} BoundedLife(p: Policy, db: Tables, actions: seq<Action>, k: nat, r: Uuid)
    requires Inv(p, db) && db.runs == map[] && k <= |actions| && r in Before(p, db, actions, k).runs
    ensures Changes(p, db, actions, k, r) + LifeOf(p, Before(p, db, actions, k).runs[r]) <= 4 * p.maxAttempts - 1
    ensures LifeOf(p, Before(p, db, actions, k).runs[r]) >= 0
    decreases k
  {
    hide Perform, Inv, Exec, LifeOf;
    InvBefore(p, db, actions, k);
    InvRows(p, Before(p, db, actions, k));
    RowShapes(p, Before(p, db, actions, k), r);
    LifeIsNatural(p, Before(p, db, actions, k).runs[r]);
    if k == 0 {
      assert actions[..0] == [];
      ExecNone(p, db);
    } else {
      NextState(p, db, actions, k - 1);
      InvBefore(p, db, actions, k - 1);
      if r in Before(p, db, actions, k - 1).runs {
        BoundedLife(p, db, actions, k - 1, r);
        StepOfRun(p, Before(p, db, actions, k - 1), actions[k - 1], r);
      } else {
        NoChangeBefore(p, db, actions, k - 1, r);
      }
    }
  }

  lemma {:induction false} NoChangeBefore(p: Policy, db: Tables, actions: seq<Action>, k: nat, r: Uuid)
    requires Inv(p, db) && k <= |actions| && r !in Before(p, db, actions, k).runs
    ensures Changes(p, db, actions, k, r) == 0
    decreases k
  {
    hide Perform, Inv, Exec;
    if k > 0 {
      NextState(p, db, actions, k - 1);
      InvBefore(p, db, actions, k - 1);
      if r in Before(p, db, actions, k - 1).runs {
        StepOfRun(p, Before(p, db, actions, k - 1), actions[k - 1], r);
        assert false;
      }
      NoChangeBefore(p, db, actions, k - 1, r);
    }
  }

  // ---------------------------------------------------------------- corruption is unreachable

  /** A reaper that chose its candidate earlier never takes a slot whose lease is live when it
      commits; it takes exactly those that have expired by then. */
  lemma ReaperSparesLiveLeases(p: Policy, db: Tables)
    requires Inv(p, db) && db.reaping.Some?
    ensures var r, (db', reply) := db.reaping.value.run, ReapCommit(p, db);
            && r in db.runs && r in db'.runs
            && (LiveLease(db.runs[r], db.clock) ==> reply.NothingReaped? && db'.runs == db.runs && db'.tenants == db.tenants)
            && (!LiveLease(db.runs[r], db.clock) ==> reply.Reaped? && reply.id == r && !db'.runs[r].held)
  {
    var r := db.reaping.value.run;
    hide Inv, IsDelta, ReapCommit, Ready;
    InvRows(p, db);
    InvReaping(p, db);
    InvReady(p, db, r);
    RowShapes(p, db, r);
    LiveOrExpired(db.runs[r], db.clock);
    hide RowsOk, Matches, LiveLease;
    var d := ReapCommitDelta(p, db);
  }

  lemma InvReady(p: Policy, db: Tables, r: Uuid)
    requires Inv(p, db) && r in db.runs
    ensures Ready(p, db, r)
  {
    hide SlotsOk, QueuesOk, KeysOk;
    SoundReady(p, db, r);
  }

  lemma InvReaping(p: Policy, db: Tables)
    requires Inv(p, db)
    ensures ReapingOk(db)
    ensures db.reaping.Some? ==>
              db.reaping.value.tenant in db.tenants && db.tenants[db.reaping.value.tenant].activeCount > 0
  {
    hide RowsOk, EffectsOk, QueuesOk, KeysOk;
    if db.reaping.Some? {
      ActiveWhenHeld(p, db, db.reaping.value.run);
    }
  }

  lemma LiveOrExpired(run: Run, now: Time)
    requires SlotShape(run) && run.held
    ensures LiveLease(run, now) <==> !Matches(ExpiredAt(now), run)
  {
  }

  lemma ActiveWhenHeld(p: Policy, db: Tables, r: Uuid)
    requires SlotsOk(p, db) && TenantsKnown(db) && r in db.runs && db.runs[r].held
    ensures db.runs[r].tenant in db.tenants && db.tenants[db.runs[r].tenant].activeCount > 0
  {
    var t := db.runs[r].tenant;
    assert TenantOk(p, db, t);
    assert r in Select(db.runs, SlotHeldOf(t));
  }
}

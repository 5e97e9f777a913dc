/** The store-wide invariants and their preservation by every operation. */
module Invariants {
  import opened Bytes
  import opened States
  import opened Db
  import opened Scheduler
  import opened Execution
  import opened Rows
  import opened Deltas

  // ---------------------------------------------------------------- what the deltas leave alone

  /** How the open reap transaction may change. */
  ghost predicate ReapingStep(db: Tables, db': Tables) {
    || db'.reaping == db.reaping
    || db'.reaping.None?
    || (db.reaping.None? && ExpiryCandidate(db).Some? && db' == SelectedTables(db, ExpiryCandidate(db).value))
  }

  ghost predicate OneEffect(db: Tables, db': Tables, e: EffectId) {
    && e in db'.effects && e.run in db.runs && db'.effects == db.effects[e := db'.effects[e]]
    && if e in db.effects then
         (db'.effects[e].state == db.effects[e].state
          || ((exists evidenced, retry :: db.effects[e].state.May(db'.effects[e].state, evidenced, retry))
              && (db'.effects[e].state.Dispatching? ==> LiveLease(db.runs[e.run], db.clock))))
       else db'.effects[e].state.Prepared? && LiveLease(db.runs[e.run], db.clock)
  }

  lemma TouchingRunsFrames(p: Policy, db: Tables, op: Op)
    requires TouchesRuns(op)
    ensures var db' := Perform(p, db, op).0;
            && db'.effects == db.effects && db'.grants == db.grants && db'.reservations == db.reservations
            && ReapingStep(db, db')
  {
  }

  lemma ElsewhereFrames(p: Policy, db: Tables, op: Op)
    requires !TouchesRuns(op)
    ensures var db' := Perform(p, db, op).0;
            ReapingStep(db, db') && (db'.effects == db.effects || exists e :: OneEffect(db, db', e))
  {
    var db' := Perform(p, db, op).0;
    match op
    case Preparing(e, _, _, _) =>
      if db' != db { assert OneEffect(db, db', e); }
    case Moving(e, to, evidenced, retry) =>
      if db' != db {
        assert db.effects[e].state.May(db'.effects[e].state, evidenced, retry);
        assert OneEffect(db, db', e);
      }
    case Reserving(_, run, ordinal) =>
      if db' != db && EffectId(run, ordinal) in db.effects {
        ReserveFrames(db, op.tenant, run, ordinal);
      }
    case _ =>
  }

  lemma ReserveFrames(db: Tables, tenant: Uuid, run: Uuid, ordinal: int)
    ensures var db' := ReserveChain(db, tenant, run, ordinal).0;
            && db'.reaping == db.reaping
            && (db'.effects == db.effects || OneEffect(db, db', EffectId(run, ordinal)))
  {
  }

  // ---------------------------------------------------------------- the outline of a delta

  predicate OutlineRow(db: Tables, db': Tables, r: Uuid) {
    r in db'.runs && db'.runs == db.runs[r := db'.runs[r]]
    && (db'.runs[r].held <==> db'.runs[r].state.Slotted())
    && (r in db.runs ==> (db.runs[r].held <==> db.runs[r].state.Slotted()) && db'.runs[r].tenant == db.runs[r].tenant)
    && db'.runs[r].tenant in db.tenants
  }

  /** As much of a delta as the counts depend on. */
  ghost predicate Outline(p: Policy, db: Tables, db': Tables, d: Delta) {
    if d == Same then db'.runs == db.runs && db'.tenants == db.tenants && db'.dispatchSeq == db.dispatchSeq
    else
      OutlineRow(db, db', d.r) &&
      var row, t := db'.runs[d.r], db'.runs[d.r].tenant;
      match d
      case Insert(r) =>
        r !in db.runs && row.state.Queued? && !QueueFull(p, db, t)
        && db'.tenants == db.tenants && db'.dispatchSeq == db.dispatchSeq
      case Rewrite(r) =>
        r in db.runs && row.held == db.runs[r].held && row.leaseOwner == db.runs[r].leaseOwner
        && db'.tenants == db.tenants && db'.dispatchSeq == db.dispatchSeq
        && (row.state.Queued? ==> db.runs[r].state.Queued? || (db.runs[r].state.RetryWait? && QueueRoom(p, db, t)))
        && (row.state.RetryWait? ==> db.runs[r].state.RetryWait?)
      case Take(r) =>
        r in db.runs && db.runs[r].state.Queued? && row.held && row.leaseOwner.Some?
        && db'.dispatchSeq == db.dispatchSeq + 1 <= I64_MAX
        && db'.tenants == db.tenants[t := Served(db, t)]
        && ActiveTotal(db.tenants) < p.maxActiveGlobal
        && db.tenants[t].activeCount < Min(db.tenants[t].activeLimit, p.maxActivePerTenant)
        && Count(db.runs, SlotHeldBy(row.leaseOwner.value)) < 2
      case Release(r) =>
        r in db.runs && db.runs[r].held && !row.held
        && db'.dispatchSeq == db.dispatchSeq
        && db'.tenants == db.tenants[t := db.tenants[t].(activeCount := db.tenants[t].activeCount - 1)]
        && (row.state.Queued? ==> QueueRoom(p, db, t))
  }

  lemma Outlined(p: Policy, db: Tables, db': Tables, d: Delta)
    requires RowsOk(p, db) && TenantsKnown(db) && IsDelta(p, db, db', d)
    ensures Outline(p, db, db', d)
  {
    hide QueueFull, QueueRoom, NewIdentity, LifeOf, Matches, LiveLease;
    if d != Same {
      RowsOutline(p, db, db', d);
      hide RowsOk, OneRow;
    }
  }

  lemma RowsOutline(p: Policy, db: Tables, db': Tables, d: Delta)
    requires RowsOk(p, db) && TenantsKnown(db) && d != Same && IsDelta(p, db, db', d)
    ensures OutlineRow(db, db', d.r)
  {
    hide QueueFull, QueueRoom, LifeOf, Matches, LiveLease, Chained, Replay, Claims, AttemptShape, ReleaseSlot;
    if d.r in db.runs {
      assert RowOk(p, d.r, db.runs[d.r], db.events[d.r]);
    }
  }

  // ---------------------------------------------------------------- slots

  ghost predicate TenantOk(p: Policy, db: Tables, t: Uuid)
    requires t in db.tenants
  {
    && 1 <= db.tenants[t].queueLimit && 1 <= db.tenants[t].activeLimit <= 4
    && db.tenants[t].activeCount == Count(db.runs, SlotHeldOf(t))
    && db.tenants[t].activeCount <= Min(db.tenants[t].activeLimit, p.maxActivePerTenant)
    && 0 <= db.tenants[t].lastServed <= db.dispatchSeq
  }

  /** Every tenant's active_count counts its runs holding a slot, and the totals are within
      the tenant's, the global and each worker's limit. */
  ghost predicate SlotsOk(p: Policy, db: Tables) {
    && (forall t | t in db.tenants :: TenantOk(p, db, t))
    && ActiveTotal(db.tenants) == Count(db.runs, SlotHeld) <= p.maxActiveGlobal
    && (forall w: Text :: Count(db.runs, SlotHeldBy(w)) <= 2)
    && 0 <= db.dispatchSeq <= I64_MAX
  }

  lemma TenantKept(p: Policy, db: Tables, db': Tables, d: Delta, t: Uuid)
    requires t in db.tenants && t in db'.tenants && TenantOk(p, db, t) && Outline(p, db, db', d)
    ensures TenantOk(p, db', t)
  {
    if d != Same {
      CountUpdate(db.runs, d.r, db'.runs[d.r], SlotHeldOf(t));
    }
  }

  lemma WorkerKept(p: Policy, db: Tables, db': Tables, d: Delta, w: Text)
    requires Count(db.runs, SlotHeldBy(w)) <= 2 && Outline(p, db, db', d)
    ensures Count(db'.runs, SlotHeldBy(w)) <= 2
  {
    if d != Same {
      CountUpdate(db.runs, d.r, db'.runs[d.r], SlotHeldBy(w));
    }
  }

  lemma TotalKept(p: Policy, db: Tables, db': Tables, d: Delta)
    requires ActiveTotal(db.tenants) == Count(db.runs, SlotHeld) <= p.maxActiveGlobal && Outline(p, db, db', d)
    ensures ActiveTotal(db'.tenants) == Count(db'.runs, SlotHeld) <= p.maxActiveGlobal
  {
    if d != Same {
      CountUpdate(db.runs, d.r, db'.runs[d.r], SlotHeld);
      if d.Take? || d.Release? {
        var t := db'.runs[d.r].tenant;
        ActiveTotalUpdate(db.tenants, t, db'.tenants[t]);
      }
    }
  }

  lemma SlotsKept(p: Policy, db: Tables, db': Tables, d: Delta)
    requires SlotsOk(p, db) && Outline(p, db, db', d)
    ensures SlotsOk(p, db')
  {
    forall t | t in db'.tenants ensures TenantOk(p, db', t) {
      TenantKept(p, db, db', d, t);
    }
    forall w: Text ensures Count(db'.runs, SlotHeldBy(w)) <= 2 {
      WorkerKept(p, db, db', d, w);
    }
    TotalKept(p, db, db', d);
  }

  // ---------------------------------------------------------------- queues

  function TenantCap(p: Policy, t: Tenant): int {
    Min(t.queueLimit, p.maxPendingTenant)
  }

  ghost predicate TenantQueueOk(p: Policy, db: Tables, t: Uuid)
    requires t in db.tenants
  {
    && Count(db.runs, InQueueOf(t)) <= TenantCap(p, db.tenants[t])
    && Count(db.runs, InQueueOf(t)) + Count(db.runs, WaitingOf(t)) + Count(db.runs, SlotHeldOf(t))
       <= TenantCap(p, db.tenants[t]) + p.maxActivePerTenant
  }

  /** Queues stay within their caps; with deferred retries and held slots, within the caps plus
      the slots. */
  ghost predicate QueuesOk(p: Policy, db: Tables) {
    && Count(db.runs, InQueue) <= p.maxPendingGlobal
    && Count(db.runs, InQueue) + Count(db.runs, Waiting) + Count(db.runs, SlotHeld) <= p.maxPendingGlobal + p.maxActiveGlobal
    && forall t | t in db.tenants :: TenantQueueOk(p, db, t)
  }

  lemma TenantQueueKept(p: Policy, db: Tables, db': Tables, d: Delta, t: Uuid)
    requires ValidPolicy(p) && t in db.tenants && t in db'.tenants && Outline(p, db, db', d)
    requires TenantOk(p, db, t) && TenantQueueOk(p, db, t)
    ensures TenantQueueOk(p, db', t)
  {
    if d != Same {
      CountUpdate(db.runs, d.r, db'.runs[d.r], InQueueOf(t));
      CountUpdate(db.runs, d.r, db'.runs[d.r], WaitingOf(t));
      CountUpdate(db.runs, d.r, db'.runs[d.r], SlotHeldOf(t));
    }
  }

  lemma QueuesKept(p: Policy, db: Tables, db': Tables, d: Delta)
    requires ValidPolicy(p) && QueuesOk(p, db) && SlotsOk(p, db) && Outline(p, db, db', d)
    ensures QueuesOk(p, db')
  {
    hide TenantQueueOk;
    OutlineTenants(p, db, db', d);
    forall t | t in db'.tenants ensures TenantQueueOk(p, db', t) {
      TenantQueueKept(p, db, db', d, t);
    }
    GlobalQueueKept(p, db, db', d);
  }

  lemma OutlineTenants(p: Policy, db: Tables, db': Tables, d: Delta)
    requires Outline(p, db, db', d)
    ensures db'.tenants.Keys == db.tenants.Keys
  {
  }

  lemma GlobalQueueKept(p: Policy, db: Tables, db': Tables, d: Delta)
    requires Outline(p, db, db', d) && ActiveTotal(db.tenants) == Count(db.runs, SlotHeld) <= p.maxActiveGlobal
    requires Count(db.runs, InQueue) <= p.maxPendingGlobal
    requires Count(db.runs, InQueue) + Count(db.runs, Waiting) + Count(db.runs, SlotHeld) <= p.maxPendingGlobal + p.maxActiveGlobal
    ensures Count(db'.runs, InQueue) <= p.maxPendingGlobal
    ensures Count(db'.runs, InQueue) + Count(db'.runs, Waiting) + Count(db'.runs, SlotHeld) <= p.maxPendingGlobal + p.maxActiveGlobal
  {
    if d != Same {
      CountUpdate(db.runs, d.r, db'.runs[d.r], InQueue);
      CountUpdate(db.runs, d.r, db'.runs[d.r], Waiting);
      CountUpdate(db.runs, d.r, db'.runs[d.r], SlotHeld);
    }
  }

  // ---------------------------------------------------------------- rows, effects and the open reap

  lemma OneRowKeeps(p: Policy, db: Tables, db': Tables, x: Uuid)
    requires RowsOk(p, db) && OneRow(p, db, db', x)
    ensures RowsOk(p, db')
  {
    forall r | r in db'.runs ensures RowOk(p, r, db'.runs[r], db'.events[r]) {
      if r != x {
        assert RowOk(p, r, db.runs[r], db.events[r]);
      }
    }
  }

  lemma DeltaRow(p: Policy, db: Tables, db': Tables, d: Delta)
    requires IsDelta(p, db, db', d) && d != Same
    ensures OneRow(p, db, db', d.r)
    ensures d.r in db.runs ==> SameIdentity(db.runs[d.r], db'.runs[d.r])
    ensures d.Insert? <==> d.r !in db.runs
    ensures d.Insert? ==> NewIdentity(p, db, db'.runs[d.r]) && db'.runs[d.r].state.Queued?
    ensures !d.Insert? ==> Moved(p, db, db', d.r)
  {
  }

  lemma RowsKept(p: Policy, db: Tables, db': Tables, d: Delta)
    requires RowsOk(p, db) && IsDelta(p, db, db', d)
    ensures RowsOk(p, db')
  {
    if d != Same {
      DeltaRow(p, db, db', d);
      OneRowKeeps(p, db, db', d.r);
    }
  }

  /** While a reap transaction is open its run keeps its slot and the queue does not change. */
  lemma ReapingKept(p: Policy, db: Tables, db': Tables, d: Delta)
    requires ReapingOk(db) && Outline(p, db, db', d) && ReapingStep(db, db')
    requires d.Insert? || d.Take? ==> db.reaping.None?
    requires d.Release? ==> db'.reaping.None?
    requires d.Rewrite? && db'.runs[d.r].state != db.runs[d.r].state && (db.runs[d.r].state.Queued? || db'.runs[d.r].state.Queued?) ==>
               db.reaping.None? && db'.reaping.None?
    ensures ReapingOk(db')
  {
    if db'.reaping == db.reaping && db'.reaping.Some? && d != Same {
      CountUpdate(db.runs, d.r, db'.runs[d.r], InQueue);
    } else if db'.reaping.Some? && db.reaping.None? {
      assert FirstExpired(db, ExpiryCandidate(db).value);
    }
  }

  /** The effects of run r as a delta sees them: an effect moves only under a live lease, or
      towards being settled. */
  lemma UncertainKept(db: Tables, db': Tables, e: EffectId, r: Uuid)
    requires OneEffect(db, db', e) && r in db.runs && !db.runs[r].state.Slotted()
    ensures Db.Uncertain(db'.effects, r) ==> Db.Uncertain(db.effects, r)
    ensures Unsettled(db'.effects, r) ==> Unsettled(db.effects, r)
  {
    if Unsettled(db'.effects, r) {
      var x :| x in db'.effects && x.run == r && !db'.effects[x].state.Settled();
      assert x in db.effects && !db.effects[x].state.Settled();
    }
    if Db.Uncertain(db'.effects, r) {
      var x :| x in db'.effects && x.run == r && db'.effects[x].state.Uncertain();
      assert x in db.effects && db.effects[x].state.Uncertain();
    }
  }

  lemma EffectsKeptElsewhere(db: Tables, db': Tables)
    requires EffectsOk(db) && db'.runs == db.runs
    requires db'.effects == db.effects || exists e :: OneEffect(db, db', e)
    ensures EffectsOk(db')
  {
    if db'.effects != db.effects {
      var e :| OneEffect(db, db', e);
      forall r | r in db.runs && !db.runs[r].state.Slotted()
        ensures Db.Uncertain(db'.effects, r) ==> Db.Uncertain(db.effects, r)
        ensures Unsettled(db'.effects, r) ==> Unsettled(db.effects, r)
      {
        UncertainKept(db, db', e, r);
      }
    }
  }

  lemma MovedEffects(p: Policy, db: Tables, db': Tables, x: Uuid)
    requires EffectsOk(db) && db'.effects == db.effects && x in db'.runs && db'.runs == db.runs[x := db'.runs[x]]
    requires x in db.runs && db'.runs[x].state != db.runs[x].state ==>
               db.runs[x].state.May(db'.runs[x].state, Db.Uncertain(db.effects, x), false)
               && (db'.runs[x].state.Succeeded? ==> !Unsettled(db.effects, x))
    requires x !in db.runs ==> db'.runs[x].state.Queued?
    ensures EffectsOk(db')
  {
    forall r | r in db'.runs && Db.Uncertain(db'.effects, r)
      ensures db'.runs[r].state.Slotted() || db'.runs[r].state.NeedsReconciliation?
    {
      var e :| e in db.effects && e.run == r && db.effects[e].state.Uncertain();
      assert r in db.runs;
    }
    forall r | r in db'.runs && db'.runs[r].state.Succeeded? ensures !Unsettled(db'.effects, r) {
      if r == x {
        assert r in db.runs;
      }
    }
  }

  // ---------------------------------------------------------------- keys and request hashes

  /** Within a tenant a key names one run, and a run stores the hash of its own request. */
  predicate KeysOk(p: Policy, db: Tables) {
    && UniqueKeys(db)
    && (forall r | r in db.runs :: db.runs[r].requestHash == p.runHash(db.runs[r].request))
  }

  lemma KeysKept(p: Policy, db: Tables, db': Tables, x: Uuid)
    requires KeysOk(p, db) && x in db'.runs && db'.runs == db.runs[x := db'.runs[x]]
    requires x in db.runs ==> SameIdentity(db.runs[x], db'.runs[x])
    requires x !in db.runs ==>
               FindKey(db, db'.runs[x].tenant, db'.runs[x].key).None?
               && db'.runs[x].requestHash == p.runHash(db'.runs[x].request)
    ensures KeysOk(p, db')
  {
    if x !in db.runs {
      forall r | r in db.runs ensures !HasKey(db, db'.runs[x].tenant, db'.runs[x].key, r) {
      }
    }
  }
}

/** Repeated reaping at one instant reaches a fixpoint (control/scheduler/mod.rs, `sweep`). */
module Sweeping {
  import opened Bytes
  import opened States
  import Collections
  import opened Db
  import opened Scheduler
  import opened Execution
  import opened Rows
  import opened Deltas
  import opened Invariants
  import opened Reachable
  import opened Lifecycle

  /** Nothing is left to reap: no held lease has expired, and every deferred retry is blocked
      by a full queue. */
  predicate Quiescent(p: Policy, db: Tables) {
    && (forall r | r in db.runs && db.runs[r].held :: LiveLease(db.runs[r], db.clock))
    && (forall r | r in db.runs && db.runs[r].state.RetryWait? ::
          db.runs[r].tenant in db.tenants && !QueueRoom(p, db, db.runs[r].tenant))
  }

  function Backlog(db: Tables): nat {
    2 * Count(db.runs, ExpiredAt(db.clock)) + Count(db.runs, Waiting)
  }

  // ---------------------------------------------------------------- the two candidate queries

  lemma PromotionExists(p: Policy, db: Tables)
    ensures PromotionCandidate(p, db).Some? <==> exists r | r in db.runs :: Promotable(p, db, r)
  {
    if r0 :| r0 in db.runs && Promotable(p, db, r0) {
      var candidates := set r | r in db.runs && Promotable(p, db, r);
      var older := (a: Uuid, b: Uuid) => a in db.runs && b in db.runs && Older(db.runs, a, b);
      assert r0 in candidates;
      var r := Collections.LeastExists<Uuid>(older, candidates);
      forall q | q in db.runs && Promotable(p, db, q) ensures q == r || Older(db.runs, r, q) {
        assert q in candidates;
      }
      assert NextPromoted(p, db, r);
    }
  }

  lemma ExpiryExists(db: Tables)
    ensures ExpiryCandidate(db).Some? <==> exists r | r in db.runs :: Expired(db, r)
  {
    if r0 :| r0 in db.runs && Expired(db, r0) {
      var candidates := set r | r in db.runs && Expired(db, r);
      var earlier := (a: Uuid, b: Uuid) => a in db.runs && b in db.runs && ExpiresBefore(db.runs, a, b);
      assert r0 in candidates;
      var r := Collections.LeastExists<Uuid>(earlier, candidates);
      forall q | q in db.runs && Expired(db, q) ensures q == r || ExpiresBefore(db.runs, r, q) {
        assert q in candidates;
      }
      assert FirstExpired(db, r);
    }
  }

  lemma NothingLeft(p: Policy, db: Tables)
    requires Inv(p, db)
    requires Count(db.runs, InQueue) < p.maxPendingGlobal ==> PromotionCandidate(p, db).None?
    requires ExpiryCandidate(db).None?
    ensures Quiescent(p, db)
  {
    InvRows(p, db);
    InvTenants(p, db);
    hide Inv;
    NoneExpired(p, db);
    NoneWaiting(p, db);
  }

  lemma NoneExpired(p: Policy, db: Tables)
    requires RowsOk(p, db) && ExpiryCandidate(db).None?
    ensures forall r | r in db.runs && db.runs[r].held :: LiveLease(db.runs[r], db.clock)
  {
    ExpiryExists(db);
    hide RowsOk, ExpiryCandidate, LiveLease, SlotShape;
    forall r | r in db.runs && db.runs[r].held ensures LiveLease(db.runs[r], db.clock) {
      RowShapes(p, db, r);
      LiveOrExpired(db.runs[r], db.clock);
      assert !Expired(db, r);
    }
  }

  lemma NoneWaiting(p: Policy, db: Tables)
    requires TenantsKnown(db)
    requires Count(db.runs, InQueue) < p.maxPendingGlobal ==> PromotionCandidate(p, db).None?
    ensures forall r | r in db.runs && db.runs[r].state.RetryWait? ::
              db.runs[r].tenant in db.tenants && !QueueRoom(p, db, db.runs[r].tenant)
  {
    PromotionExists(p, db);
    hide PromotionCandidate, Count;
    forall r | r in db.runs && db.runs[r].state.RetryWait?
      ensures db.runs[r].tenant in db.tenants && !QueueRoom(p, db, db.runs[r].tenant)
    {
      assert Promotable(p, db, r) || !QueueRoom(p, db, db.runs[r].tenant);
    }
  }

  lemma InvTenants(p: Policy, db: Tables)
    requires Inv(p, db)
    ensures TenantsKnown(db)
  {
  }

  // ---------------------------------------------------------------- one reap

  /** With nothing interleaved, reap_one reaps something and shrinks the backlog, or finds the
      tables quiescent and leaves them alone. */
  lemma ReapOneProgress(p: Policy, db: Tables)
    requires Inv(p, db) && db.reaping.None?
    ensures var (db', reply) := ReapOne(p, db);
            && Inv(p, db') && db'.reaping.None? && db'.clock == db.clock
            && (reply.Reaped? || reply.NothingReaped?)
            && (reply.Reaped? ==> Backlog(db') < Backlog(db))
            && (reply.NothingReaped? ==> db' == db && Quiescent(p, db))
  {
    hide Inv, Ready, IsDelta, ReapCommit, Quiescent, Backlog, Promote, PromotionCandidate, ExpiryCandidate;
    InvPolicy(p, db);
    var (mid, chosen) := ReapSelect(p, db);
    PromotionFacts(p, db);
    if PromotionCandidate(p, db).Some? {
      InvReady(p, db, PromotionCandidate(p, db).value);
    }
    var d := ReapSelectDelta(p, db);
    PerformIsSelect(p, db);
    var e := InvPerform(p, db, ReapChoose);
    if chosen.Selected? {
      SelectedExpired(db);
      ReapSelectedProgress(p, db, mid);
    } else if chosen.Reaped? {
      PromotedShrinks(p, db, mid, d);
    } else {
      NothingLeft(p, db);
    }
  }

  lemma InvPolicy(p: Policy, db: Tables)
    requires Inv(p, db)
    ensures ValidPolicy(p) && ReapArguments(p)
  {
  }

  lemma PerformIsSelect(p: Policy, db: Tables)
    requires db.reaping.None?
    ensures Perform(p, db, ReapChoose) == ReapSelect(p, db)
  {
  }

  lemma PerformIsCommit(p: Policy, db: Tables)
    requires db.reaping.Some?
    ensures Perform(p, db, ReapFinish) == ReapCommit(p, db)
  {
  }

  lemma SelectedExpired(db: Tables)
    ensures ExpiryCandidate(db).Some? ==> Expired(db, ExpiryCandidate(db).value)
  {
    if ExpiryCandidate(db).Some? {
      assert FirstExpired(db, ExpiryCandidate(db).value);
    }
  }

  lemma ReapSelectedProgress(p: Policy, db: Tables, mid: Tables)
    requires Inv(p, mid) && ExpiryCandidate(db).Some? && Expired(db, ExpiryCandidate(db).value)
    requires mid == SelectedTables(db, ExpiryCandidate(db).value)
    ensures var (db', reply) := ReapCommit(p, mid);
            && Inv(p, db') && db'.reaping.None? && db'.clock == db.clock && reply.Reaped?
            && Backlog(db') < Backlog(db)
  {
    hide Inv, Ready, IsDelta, Perform, ExpiryCandidate, Backlog;
    var r := mid.reaping.value.run;
    InvReady(p, mid, r);
    InvReaping(p, mid);
    var d := ReapCommitDelta(p, mid);
    PerformIsCommit(p, mid);
    var e := InvPerform(p, mid, ReapFinish);
    CommitKeepsClock(p, mid);
    ReapedShrinks(p, mid, ReapCommit(p, mid).0, d);
    assert Backlog(mid) == Backlog(db) by {
      BacklogSame(mid, db);
    }
  }

  lemma BacklogSame(a: Tables, b: Tables)
    requires a.runs == b.runs && a.clock == b.clock
    ensures Backlog(a) == Backlog(b)
  {
  }

  lemma CommitKeepsClock(p: Policy, open: Tables)
    requires open.reaping.Some?
    ensures ReapCommit(p, open).0.clock == open.clock
  {
  }

  lemma ReapedShrinks(p: Policy, db: Tables, db': Tables, d: Delta)
    requires d.Release? && IsDelta(p, db, db', d) && db'.clock == db.clock && Expired(db, d.r)
    ensures Backlog(db') < Backlog(db)
  {
    hide RowOk, QueueRoom, LifeOf;
    CountUpdate(db.runs, d.r, db'.runs[d.r], ExpiredAt(db.clock));
    CountUpdate(db.runs, d.r, db'.runs[d.r], Waiting);
  }

  lemma PromotedShrinks(p: Policy, db: Tables, db': Tables, d: Delta)
    requires d.Rewrite? && IsDelta(p, db, db', d) && db'.clock == db.clock
    requires d.r in db.runs && db.runs[d.r].state.RetryWait? && d.r in db'.runs && !db'.runs[d.r].state.RetryWait?
    ensures Backlog(db') < Backlog(db)
  {
    hide QueueRoom;
    CountUpdate(db.runs, d.r, db'.runs[d.r], ExpiredAt(db.clock));
    CountUpdate(db.runs, d.r, db'.runs[d.r], Waiting);
  }

  // ---------------------------------------------------------------- sweeping

  /** One tick of the sweeper: at most `budget` reaps, stopping early when nothing is left. */
  ghost function Tick(p: Policy, db: Tables, budget: nat): Tables
    requires db.reaping.None?
    decreases budget
  {
    if budget == 0 then db
    else
      var (db', reply) := ReapOne(p, db);
      if reply.Reaped? && db'.reaping.None? then Tick(p, db', budget - 1) else db
  }

  /** A tick leaves nothing to reap, or has used its whole budget on the backlog; with a budget
      larger than the backlog it always leaves nothing. */
  lemma {:induction false} TickSettles(p: Policy, db: Tables, budget: nat)
    requires Inv(p, db) && db.reaping.None?
    ensures var db' := Tick(p, db, budget);
            && Inv(p, db') && db'.reaping.None? && db'.clock == db.clock
            && (Quiescent(p, db') || Backlog(db') + budget <= Backlog(db))
            && (budget > Backlog(db) ==> Quiescent(p, db'))
    decreases budget
  {
    hide Inv, ReapOne, Quiescent, Backlog;
    if budget > 0 {
      ReapOneProgress(p, db);
      var (db', reply) := ReapOne(p, db);
      if reply.Reaped? {
        TickSettles(p, db', budget - 1);
      }
    }
  }

  /** Quiescence is a fixpoint: sweeping a quiescent database changes nothing. */
  lemma QuiescentStays(p: Policy, db: Tables, budget: nat)
    requires Inv(p, db) && db.reaping.None? && Quiescent(p, db)
    ensures Tick(p, db, budget) == db
  {
    if budget > 0 {
      NothingExpired(p, db);
      hide Inv, Quiescent, ReapChosen;
      NothingSelected(p, db);
    }
  }

  lemma NothingExpired(p: Policy, db: Tables)
    requires Inv(p, db) && Quiescent(p, db)
    ensures ExpiryCandidate(db).None?
    ensures Count(db.runs, InQueue) < p.maxPendingGlobal ==> PromotionCandidate(p, db).None?
  {
    hide Inv, ExpiryCandidate, PromotionCandidate;
    PromotionExists(p, db);
    ExpiryExists(db);
    forall r | r in db.runs ensures !Expired(db, r) {
    }
    forall r | r in db.runs && Count(db.runs, InQueue) < p.maxPendingGlobal ensures !Promotable(p, db, r) {
    }
  }

  lemma NothingSelected(p: Policy, db: Tables)
    requires db.reaping.None? && ExpiryCandidate(db).None?
    requires Count(db.runs, InQueue) < p.maxPendingGlobal ==> PromotionCandidate(p, db).None?
    ensures ReapOne(p, db).0 == db && !ReapOne(p, db).1.Reaped?
  {
  }
}

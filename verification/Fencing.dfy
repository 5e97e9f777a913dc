/** Lease fencing over whole executions. */
module Fencing {
  import opened Bytes
  import opened States
  import opened Db
  import opened Scheduler
  import opened Execution
  import opened Rows
  import opened Deltas
  import opened Invariants
  import opened Reachable

  /** The lease of this epoch has been superseded, released or has expired. */
  predicate Dead(db: Tables, r: Uuid, epoch: int) {
    && r in db.runs
    && (db.runs[r].leaseEpoch > epoch || (db.runs[r].leaseEpoch == epoch && !LiveLease(db.runs[r], db.clock)))
  }

  /** The operation claims to hold the lease of run r with this epoch. */
  predicate Names(op: Op, r: Uuid, epoch: int) {
    (op.Beating? || op.Starting? || op.Finishing?) && op.run == r && op.epoch == epoch
  }

  // ---------------------------------------------------------------- one step

  lemma DeltaEpochs(p: Policy, db: Tables, db': Tables, d: Delta, r: Uuid)
    requires RowsOk(p, db) && RowsOk(p, db') && IsDelta(p, db, db', d) && r in db.runs
    ensures r in db'.runs && Onwards(db.runs[r], db'.runs[r], db.clock)
    ensures db'.runs[r].leaseEpoch == if d == Take(r) then db.runs[r].leaseEpoch + 1 else db.runs[r].leaseEpoch
  {
    hide RowsOk, RowOk, QueueRoom, QueueFull, NewIdentity, ReleaseSlot;
    RowShapes(p, db, r);
    assert r in db'.runs;
    RowShapes(p, db', r);
    if d == Same || d.r != r {
      assert db'.runs[r] == db.runs[r];
    }
  }

  /** How a row may go on: its epoch does not fall, a lease that keeps its epoch keeps its
      holder and is only renewed while live, and a final state stays. */
  predicate Onwards(run: Run, run': Run, now: Time) {
    && run'.leaseEpoch >= run.leaseEpoch
    && (run'.leaseEpoch == run.leaseEpoch && run'.held ==>
          run.held && run'.leaseOwner == run.leaseOwner && (run'.leaseExpires == run.leaseExpires || LiveLease(run, now)))
    && (run.state.Terminal() || run.state.NeedsReconciliation? ==> run'.state == run.state)
  }

  lemma DeadStays(p: Policy, db: Tables, a: Action, r: Uuid, epoch: int)
    requires Inv(p, db) && Dead(db, r, epoch)
    ensures Dead(Apply(p, db, a).0, r, epoch)
  {
    hide Perform, IsDelta, Inv;
    var s, s' := At(db, a.now), Apply(p, db, a).0;
    InvAt(p, db, a.now);
    var d := InvApply(p, db, a);
    InvRows(p, s);
    InvRows(p, s');
    DeltaEpochs(p, s, s', d, r);
    ClockRuns(p, s, s', d);
  }

  lemma ClockRuns(p: Policy, db: Tables, db': Tables, d: Delta)
    requires IsDelta(p, db, db', d)
    ensures db'.clock >= db.clock
  {
  }

  /** A heartbeat, start or finish under a dead epoch does not succeed and changes nothing. */
  lemma DeadRefused(p: Policy, db: Tables, op: Op, r: Uuid, epoch: int)
    requires Dead(db, r, epoch) && Names(op, r, epoch)
    ensures Perform(p, db, op).0 == db
    ensures Perform(p, db, op).1.Refused? || Perform(p, db, op).1.Blocked?
  {
    assert forall worker :: !Holds(db.runs[r], worker, epoch, db.clock);
  }

  lemma DeadAt(db: Tables, now: Time, r: Uuid, epoch: int)
    requires Dead(db, r, epoch)
    ensures Dead(At(db, now), r, epoch)
  {
  }

  // ---------------------------------------------------------------- whole executions

  lemma InvBefore(p: Policy, db: Tables, actions: seq<Action>, k: nat)
    requires Inv(p, db) && k <= |actions|
    ensures Inv(p, Before(p, db, actions, k))
  {
    InvReachable(p, db, actions[..k]);
  }

  lemma {:induction false} DeadForever(p: Policy, db: Tables, actions: seq<Action>, i: nat, k: nat, r: Uuid, epoch: int)
    requires Inv(p, db) && i <= k <= |actions| && Dead(Before(p, db, actions, i), r, epoch)
    ensures Dead(Before(p, db, actions, k), r, epoch)
    decreases k - i
  {
    hide *;
    if i < k {
      DeadForever(p, db, actions, i, k - 1, r, epoch);
      InvBefore(p, db, actions, k - 1);
      NextState(p, db, actions, k - 1);
      DeadStays(p, Before(p, db, actions, k - 1), actions[k - 1], r, epoch);
    }
  }

  /** Fencing: once a lease has expired, been released or been superseded, no later operation
      that names its epoch succeeds or changes anything, in any interleaving. */
  lemma Fenced(p: Policy, db: Tables, actions: seq<Action>, i: nat, k: nat, r: Uuid, epoch: int)
    requires Inv(p, db) && i <= k < |actions|
    requires Dead(Before(p, db, actions, i), r, epoch) && Names(actions[k].op, r, epoch)
    ensures ReplyAt(p, db, actions, k).Refused? || ReplyAt(p, db, actions, k).Blocked?
    ensures Before(p, db, actions, k + 1) == At(Before(p, db, actions, k), actions[k].now)
  {
    DeadForever(p, db, actions, i, k, r, epoch);
    var s := Before(p, db, actions, k);
    DeadAt(s, actions[k].now, r, epoch);
    DeadRefused(p, At(s, actions[k].now), actions[k].op, r, epoch);
    NextState(p, db, actions, k);
  }

  lemma {:induction false} EpochsRise(p: Policy, db: Tables, actions: seq<Action>, i: nat, k: nat, r: Uuid)
    requires Inv(p, db) && i <= k <= |actions| && r in Before(p, db, actions, i).runs
    ensures r in Before(p, db, actions, k).runs
    ensures Before(p, db, actions, i).runs[r].leaseEpoch <= Before(p, db, actions, k).runs[r].leaseEpoch
    decreases k - i
  {
    hide *;
    if i < k {
      EpochsRise(p, db, actions, i, k - 1, r);
      StepEpoch(p, db, actions, k - 1, r);
    }
  }

  /** The epoch of a run changes at a claim of that run, by one, and at nothing else. */
  lemma StepEpoch(p: Policy, db: Tables, actions: seq<Action>, k: nat, r: Uuid)
    requires Inv(p, db) && k < |actions| && r in Before(p, db, actions, k).runs
    ensures r in Before(p, db, actions, k + 1).runs
    ensures var s, s' := Before(p, db, actions, k).runs[r], Before(p, db, actions, k + 1).runs[r];
            && s'.leaseEpoch >= s.leaseEpoch
            && (s'.held && s'.leaseEpoch == s.leaseEpoch ==> s.held && s'.leaseOwner == s.leaseOwner)
            && (s.state.Terminal() || s.state.NeedsReconciliation? ==> s'.state == s.state)
            && (s'.leaseEpoch == s.leaseEpoch <==> !ClaimsRun(ReplyAt(p, db, actions, k), r))
  {
    InvBefore(p, db, actions, k);
    InvBefore(p, db, actions, k + 1);
    NextState(p, db, actions, k);
    var s := Before(p, db, actions, k);
    ApplyEpoch(p, s, actions[k], r);
  }

  predicate ClaimsRun(reply: Reply, r: Uuid) {
    reply.Claimed? && reply.lease.run == r
  }

  lemma ApplyEpoch(p: Policy, s: Tables, a: Action, r: Uuid)
    requires Inv(p, s) && Inv(p, Apply(p, s, a).0) && r in s.runs
    ensures r in Apply(p, s, a).0.runs
    ensures var (s', reply) := Apply(p, s, a);
            && s'.runs[r].leaseEpoch >= s.runs[r].leaseEpoch
            && (s'.runs[r].held && s'.runs[r].leaseEpoch == s.runs[r].leaseEpoch ==>
                  s.runs[r].held && s'.runs[r].leaseOwner == s.runs[r].leaseOwner)
            && (s.runs[r].state.Terminal() || s.runs[r].state.NeedsReconciliation? ==> s'.runs[r].state == s.runs[r].state)
            && (s'.runs[r].leaseEpoch == s.runs[r].leaseEpoch <==> !ClaimsRun(reply, r))
  {
    InvAt(p, s, a.now);
    var d := InvApply(p, s, a);
    DeltaEpochs(p, At(s, a.now), Apply(p, s, a).0, d, r);
  }

  /** Replies come from the operation that owns them. */
  lemma RepliesBelong(p: Policy, db: Tables, op: Op)
    ensures Perform(p, db, op).1.Claimed? ==> op.Claiming? && db.reaping.None?
    ensures Perform(p, db, op).1.Finished? ==> op.Finishing?
  {
    hide Admit, Claim, Heartbeat, MarkStarted, Finish, ReapSelect, ReapCommit;
    hide CreateGrant, RevokeGrant, ReserveChain, Prepare, MoveEffect;
  }

  lemma ClaimFacts(p: Policy, db: Tables, op: Op)
    requires Perform(p, db, op).1.Claimed?
    ensures op.Claiming? && LeaseGranted(db, Perform(p, db, op).0, op.worker, Perform(p, db, op).1.lease)
    ensures Chosen(p, db, op.allowed, Perform(p, db, op).1.lease.tenant, Perform(p, db, op).1.lease.run)
  {
    RepliesBelong(p, db, op);
  }

  lemma FinishFacts(p: Policy, db: Tables, op: Op)
    requires Perform(p, db, op).1.Finished?
    ensures op.Finishing? && op.run == Perform(p, db, op).1.id && op.run in db.runs
    ensures db.runs[op.run].state.Running? && Holds(db.runs[op.run], op.worker, op.epoch, db.clock)
    ensures op.run in Perform(p, db, op).0.runs && Perform(p, db, op).0.runs[op.run].state.Terminal()
  {
    RepliesBelong(p, db, op);
  }

  /** No epoch of a run is issued twice: a later claim of the run carries a larger one. */
  lemma EpochIssuedOnce(p: Policy, db: Tables, actions: seq<Action>, i: nat, k: nat)
    requires Inv(p, db) && i < k < |actions|
    requires ReplyAt(p, db, actions, i).Claimed? && ReplyAt(p, db, actions, k).Claimed?
    requires ReplyAt(p, db, actions, i).lease.run == ReplyAt(p, db, actions, k).lease.run
    ensures ReplyAt(p, db, actions, i).lease.epoch < ReplyAt(p, db, actions, k).lease.epoch
  {
    hide Inv, Perform, Exec;
    var r := ReplyAt(p, db, actions, i).lease.run;
    NextState(p, db, actions, i);
    ClaimFacts(p, At(Before(p, db, actions, i), actions[i].now), actions[i].op);
    ClaimFacts(p, At(Before(p, db, actions, k), actions[k].now), actions[k].op);
    EpochsRise(p, db, actions, i + 1, k, r);
  }

  /** The last claim of run r among the actions: its lease and the worker it went to. */
  ghost function LatestClaim(p: Policy, db: Tables, actions: seq<Action>, k: nat, r: Uuid): Option<(Lease, Text)>
    requires k <= |actions|
  {
    if k == 0 then None
    else if ClaimsRun(ReplyAt(p, db, actions, k - 1), r) && actions[k - 1].op.Claiming? then
      Some((ReplyAt(p, db, actions, k - 1).lease, actions[k - 1].op.worker))
    else LatestClaim(p, db, actions, k - 1, r)
  }

  /** The row always shows its latest claim: the epoch, and while a slot is held the holder. */
  ghost predicate ShowsClaim(run: Run, latest: Option<(Lease, Text)>) {
    match latest
    case None => run.leaseEpoch == 0 && !run.held
    case Some((lease, worker)) => run.leaseEpoch == lease.epoch && (run.held ==> run.leaseOwner == Some(worker))
  }

  lemma {:induction false} RowShowsLatestClaim(p: Policy, db: Tables, actions: seq<Action>, k: nat, r: Uuid)
    requires Inv(p, db) && db.runs == map[] && k <= |actions| && r in Before(p, db, actions, k).runs
    ensures ShowsClaim(Before(p, db, actions, k).runs[r], LatestClaim(p, db, actions, k, r))
    decreases k
  {
    hide Inv, Perform, Exec;
    if k == 0 {
      assert actions[..0] == [];
      ExecNone(p, db);
    } else {
      var s := Before(p, db, actions, k - 1);
      NextState(p, db, actions, k - 1);
      InvBefore(p, db, actions, k - 1);
      if r in s.runs {
        RowShowsLatestClaim(p, db, actions, k - 1, r);
        StepEpoch(p, db, actions, k - 1, r);
        if ClaimsRun(ReplyAt(p, db, actions, k - 1), r) {
          ClaimFacts(p, At(s, actions[k - 1].now), actions[k - 1].op);
        }
      } else {
        NoClaimBeforeAdmission(p, db, actions, k - 1, r);
        NewRowFresh(p, s, actions[k - 1], r);
      }
    }
  }

  lemma ExecNone(p: Policy, db: Tables)
    ensures Exec(p, db, []) == db
  {
  }

  lemma NewRowFresh(p: Policy, s: Tables, a: Action, r: Uuid)
    requires Inv(p, s) && r !in s.runs && r in Apply(p, s, a).0.runs
    ensures Apply(p, s, a).0.runs[r].leaseEpoch == 0 && !Apply(p, s, a).0.runs[r].held
    ensures !ClaimsRun(Apply(p, s, a).1, r)
  {
    hide Perform, Inv, IsDelta, RowsOk, SlotShape, AttemptShape;
    InvAt(p, s, a.now);
    var d := InvApply(p, s, a);
    var s' := Apply(p, s, a).0;
    InvRows(p, s');
    RowShapes(p, s', r);
    NewRowInserted(p, At(s, a.now), s', d, r);
    QueuedUnclaimed(p, s'.runs[r]);
  }

  lemma NewRowInserted(p: Policy, db: Tables, db': Tables, d: Delta, r: Uuid)
    requires IsDelta(p, db, db', d) && r !in db.runs && r in db'.runs
    ensures d == Insert(r) && db'.runs[r].state.Queued? && LifeOf(p, db'.runs[r]) == 4 * p.maxAttempts - 1
  {
    hide RowOk, QueueRoom, QueueFull, NewIdentity, LifeOf, ReleaseSlot;
  }

  lemma QueuedUnclaimed(p: Policy, run: Run)
    requires run.state.Queued? && LifeOf(p, run) == 4 * p.maxAttempts - 1 && SlotShape(run) && AttemptShape(p, run)
    ensures run.leaseEpoch == 0 && !run.held
  {
  }

  lemma {:induction false} NoClaimBeforeAdmission(p: Policy, db: Tables, actions: seq<Action>, k: nat, r: Uuid)
    requires Inv(p, db) && k <= |actions| && r !in Before(p, db, actions, k).runs
    ensures LatestClaim(p, db, actions, k, r).None?
    decreases k
  {
    hide Inv, Perform, Exec;
    if k > 0 {
      NextState(p, db, actions, k - 1);
      InvBefore(p, db, actions, k - 1);
      if r in Before(p, db, actions, k - 1).runs {
        StepEpoch(p, db, actions, k - 1, r);
        assert false;
      }
      NoClaimBeforeAdmission(p, db, actions, k - 1, r);
      if ClaimsRun(ReplyAt(p, db, actions, k - 1), r) {
        ClaimFacts(p, At(Before(p, db, actions, k - 1), actions[k - 1].now), actions[k - 1].op);
        assert false;
      }
    }
  }

  /** A finish that succeeds carries the epoch and the worker of the latest claim of its run. */
  lemma FinishCarriesLatestClaim(p: Policy, db: Tables, actions: seq<Action>, i: nat)
    requires Inv(p, db) && db.runs == map[] && i < |actions| && ReplyAt(p, db, actions, i).Finished?
    ensures actions[i].op.Finishing?
    ensures LatestClaim(p, db, actions, i, actions[i].op.run).Some?
    ensures var (lease, worker) := LatestClaim(p, db, actions, i, actions[i].op.run).value;
            lease.epoch == actions[i].op.epoch && worker == actions[i].op.worker
  {
    hide Inv, Perform, Exec;
    var s := Before(p, db, actions, i);
    FinishFacts(p, At(s, actions[i].now), actions[i].op);
    RowShowsLatestClaim(p, db, actions, i, actions[i].op.run);
  }

  lemma {:induction false} FinalForever(p: Policy, db: Tables, actions: seq<Action>, i: nat, k: nat, r: Uuid)
    requires Inv(p, db) && i <= k <= |actions|
    requires r in Before(p, db, actions, i).runs && Before(p, db, actions, i).runs[r].state.Terminal()
    ensures r in Before(p, db, actions, k).runs
    ensures Before(p, db, actions, k).runs[r].state == Before(p, db, actions, i).runs[r].state
    decreases k - i
  {
    hide Inv, Perform, Exec;
    if i < k {
      FinalForever(p, db, actions, i, k - 1, r);
      StepEpoch(p, db, actions, k - 1, r);
    }
  }

  /** At most one finish of a run ever succeeds, and no claim of the run follows it. */
  lemma FinishedOnce(p: Policy, db: Tables, actions: seq<Action>, i: nat, k: nat)
    requires Inv(p, db) && i < k < |actions| && ReplyAt(p, db, actions, i).Finished?
    ensures actions[i].op.Finishing?
    ensures !(ReplyAt(p, db, actions, k).Finished? && ReplyAt(p, db, actions, k).id == actions[i].op.run)
    ensures !ClaimsRun(ReplyAt(p, db, actions, k), actions[i].op.run)
  {
    hide Inv, Perform, Exec;
    var s := Before(p, db, actions, i);
    FinishFacts(p, At(s, actions[i].now), actions[i].op);
    NextState(p, db, actions, i);
    FinalForever(p, db, actions, i + 1, k, actions[i].op.run);
    var t := At(Before(p, db, actions, k), actions[k].now);
    if ReplyAt(p, db, actions, k).Finished? {
      FinishFacts(p, t, actions[k].op);
    }
    if ReplyAt(p, db, actions, k).Claimed? {
      ClaimFacts(p, t, actions[k].op);
    }
  }
}

/** The store serving a whole execution: every action of Execution.dfy is carried out by the
    method that implements it, so what is proved of executions holds of the store object. */
module Service {
  import opened Bytes
  import opened Db
  import opened Scheduler
  import opened Execution
  import opened Reachable
  import opened Allowances
  import opened Store

  lemma InvKeys(p: Policy, db: Tables)
    requires Inv(p, db)
    ensures UniqueKeys(db)
  {
  }

  /** Carry out one action at its clock reading. */
  method Step(store: Store, a: Action) returns (reply: Reply)
    requires GrantInv(store.policy, store.Snapshot())
    modifies store
    ensures (store.Snapshot(), reply) == Apply(store.policy, old(store.Snapshot()), a)
    ensures GrantInv(store.policy, store.Snapshot())
  {
    GrantInvApply(store.policy, store.Snapshot(), a);
    InvKeys(store.policy, store.Snapshot());
    hide GrantInv;
    if a.now > store.clock {
      store.clock := a.now;
    }
    if TakesLock(a.op) && store.reaping.Some? {
      return Blocked;
    }
    reply := Serve(store, a.op);
  }

  method Serve(store: Store, op: Op) returns (reply: Reply)
    requires UniqueKeys(store.Snapshot()) && !(TakesLock(op) && store.reaping.Some?)
    modifies store
    ensures (store.Snapshot(), reply) == Perform(store.policy, old(store.Snapshot()), op)
  {
    hide UniqueKeys, Admit, Claim, Heartbeat, MarkStarted, Finish, ReapSelect, ReapCommit, CreateGrant,
        RevokeGrant, ReserveChain;
    reply := Blocked;
    match op
    case Admission(tenant, key, request, id) =>
      if id !in store.runs {
        reply := store.AdmitRun(tenant, key, request, id);
      }
    case Claiming(worker, allowed, slots, later) =>
      reply := store.ClaimRun(worker, allowed, slots, later);
    case Beating(run, worker, allowed, epoch) =>
      reply := store.HeartbeatRun(run, worker, allowed, epoch);
    case Starting(run, worker, allowed, epoch) =>
      reply := store.MarkRunStarted(run, worker, allowed, epoch);
    case Finishing(run, worker, allowed, epoch, output, code) =>
      reply := store.FinishRun(run, worker, allowed, epoch, output, code);
    case ReapChoose =>
      reply := store.SelectExpired();
    case ReapFinish =>
      if store.reaping.Some? {
        reply := store.ReapExpired();
      }
    case ReapAbort =>
      store.reaping := None;
      reply := Done;
    case MakeGrant(tenant, parent, authority, id) =>
      if id !in store.grants {
        reply := store.CreateGrant(tenant, parent, authority, id);
      }
    case Revoking(tenant, grant) =>
      reply := store.RevokeGrant(tenant, grant);
    case Reserving(tenant, run, ordinal) =>
      reply := store.ReserveGrantChain(tenant, run, ordinal);
    case Cancelling(run) =>
      if run in store.runs {
        store.runs := store.runs[run := store.runs[run].(cancel := true)];
        reply := Done;
      }
    case Preparing(effect, action, destination, project) =>
      var (db, answer) := Prepare(store.Snapshot(), effect, action, destination, project);
      store.effects := db.effects;
      reply := answer;
    case Moving(effect, to, evidenced, eligibleRetry) =>
      var (db, answer) := MoveEffect(store.Snapshot(), effect, to, evidenced, eligibleRetry);
      store.effects := db.effects;
      reply := answer;
    case Uploading(tenant, digest) =>
      store.modules := store.modules + {(tenant, digest)};
      reply := Done;
    case Idling =>
      reply := Done;
  }

  /** Carry out any sequence of actions. */
  method Run(store: Store, actions: seq<Action>)
    requires GrantInv(store.policy, store.Snapshot())
    modifies store
    ensures store.Snapshot() == Exec(store.policy, old(store.Snapshot()), actions)
    ensures GrantInv(store.policy, store.Snapshot())
  {
    ghost var before := store.Snapshot();
    hide GrantInv, Apply;
    for k := 0 to |actions|
      invariant store.Snapshot() == Exec(store.policy, before, actions[..k])
      invariant GrantInv(store.policy, store.Snapshot())
    {
      assert actions[..k + 1][..k] == actions[..k];
      var reply := Step(store, actions[k]);
    }
    assert actions[..|actions|] == actions;
  }
}

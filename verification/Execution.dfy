/** Whole runs of the system: every interleaving of store transactions, the effect broker,
    cancellation requests and the passing of time. */
module Execution {
  import opened Bytes
  import opened Domain
  import opened Hash
  import opened EventChain
  import opened States
  import opened Grants
  import opened Db
  import opened Scheduler

  datatype Op =
    | Admission(tenant: Uuid, key: Text, request: NormalizedRun, id: Uuid)
    | Claiming(worker: Text, allowed: seq<Uuid>, slots: int, later: Time)
    | Beating(run: Uuid, worker: Text, allowed: seq<Uuid>, epoch: int)
    | Starting(run: Uuid, worker: Text, allowed: seq<Uuid>, epoch: int)
    | Finishing(run: Uuid, worker: Text, allowed: seq<Uuid>, epoch: int, output: Option<seq<byte>>, code: Option<Text>)
    | ReapChoose | ReapFinish | ReapAbort
    | MakeGrant(tenant: Uuid, parent: Option<Uuid>, authority: Authority, id: Uuid)
    | Revoking(tenant: Uuid, grant: Uuid)
    | Reserving(tenant: Uuid, run: Uuid, ordinal: int)
    // steps of the environment
    | Cancelling(run: Uuid)
    | Preparing(effect: EffectId, action: Text, destination: Text, project: Text)
    | Moving(effect: EffectId, to: EffectState, evidenced: bool, eligibleRetry: bool)
    | Uploading(tenant: Uuid, digest: seq<byte>)
    | Idling

  /** An operation and the clock reading under which it runs. */
  datatype Action = Action(now: Time, op: Op)

  /** Operations that begin with the scheduler lock, which an open reap transaction holds. */
  predicate TakesLock(op: Op) {
    op.Admission? || op.Claiming? || op.Finishing? || op.ReapChoose?
  }

  /** The clock never runs backwards. */
  function At(db: Tables, now: Time): Tables {
    db.(clock := if now > db.clock then now else db.clock)
  }

  ghost function Apply(p: Policy, db: Tables, a: Action): (Tables, Reply) {
    Perform(p, At(db, a.now), a.op)
  }

  ghost function Perform(p: Policy, db: Tables, op: Op): (Tables, Reply) {
    if TakesLock(op) && db.reaping.Some? then (db, Blocked)
    else
      match op
      case Admission(tenant, key, request, id) =>
        if id in db.runs then (db, Blocked) else Admit(p, db, tenant, key, request, id)
      case Claiming(worker, allowed, slots, later) => Claim(p, db, worker, allowed, slots, later)
      case Beating(run, worker, allowed, epoch) => Heartbeat(p, db, run, worker, allowed, epoch)
      case Starting(run, worker, allowed, epoch) => MarkStarted(p, db, run, worker, allowed, epoch)
      case Finishing(run, worker, allowed, epoch, output, code) => Finish(p, db, run, worker, allowed, epoch, output, code)
      case ReapChoose => ReapSelect(p, db)
      case ReapFinish => if db.reaping.None? then (db, Blocked) else ReapCommit(p, db)
      case ReapAbort => (db.(reaping := None), Done)
      case MakeGrant(tenant, parent, authority, id) =>
        if id in db.grants then (db, Blocked) else CreateGrant(db, tenant, parent, authority, id)
      case Revoking(tenant, grant) => RevokeGrant(db, tenant, grant)
      case Reserving(tenant, run, ordinal) => ReserveChain(db, tenant, run, ordinal)
      case Cancelling(run) => MarkCancelled(db, run)
      case Preparing(effect, action, destination, project) => Prepare(db, effect, action, destination, project)
      case Moving(effect, to, evidenced, eligibleRetry) => MoveEffect(db, effect, to, evidenced, eligibleRetry)
      case Uploading(tenant, digest) => (db.(modules := db.modules + {(tenant, digest)}), Done)
      case Idling => (db, Done)
  }

  function MarkCancelled(db: Tables, run: Uuid): (Tables, Reply) {
    if run !in db.runs then (db, Blocked)
    else (db.(runs := db.runs[run := db.runs[run].(cancel := true)]), Done)
  }

  /** The broker creates effects only under a live lease (runtime/supervisor.rs). */
  function Prepare(db: Tables, e: EffectId, action: Text, destination: Text, project: Text): (result: (Tables, Reply))
    ensures KeepsRuns(db, result.0) && (result.1.Done? || result.1.Blocked?)
  {
    if e in db.effects || e.run !in db.runs || !(0 <= e.ordinal < MAX_EFFECTS) || !LiveLease(db.runs[e.run], db.clock) then
      (db, Blocked)
    else (db.(effects := db.effects[e := Effect(action, destination, project, Prepared, false)]), Done)
  }

  /** Effects move only along EffectState::transition, and are sent only under a live lease. */
  function MoveEffect(db: Tables, e: EffectId, to: EffectState, evidenced: bool, eligibleRetry: bool): (result: (Tables, Reply))
    ensures KeepsRuns(db, result.0) && (result.1.Done? || result.1.Blocked?)
  {
    if e !in db.effects || e.run !in db.runs || !db.effects[e].state.May(to, evidenced, eligibleRetry)
       || (to.Dispatching? && !LiveLease(db.runs[e.run], db.clock)) then (db, Blocked)
    else (db.(effects := db.effects[e := db.effects[e].(state := to)]), Done)
  }

  // ---------------------------------------------------------------- executions

  ghost function Exec(p: Policy, db: Tables, actions: seq<Action>): Tables {
    if actions == [] then db
    else Apply(p, Exec(p, db, actions[..|actions| - 1]), actions[|actions| - 1]).0
  }

  /** The state before action k. */
  ghost function Before(p: Policy, db: Tables, actions: seq<Action>, k: nat): Tables
    requires k <= |actions|
  {
    Exec(p, db, actions[..k])
  }

  /** The reply to action k. */
  ghost function ReplyAt(p: Policy, db: Tables, actions: seq<Action>, k: nat): Reply
    requires k < |actions|
  {
    Apply(p, Before(p, db, actions, k), actions[k]).1
  }

  lemma NextState(p: Policy, db: Tables, actions: seq<Action>, k: nat)
    requires k < |actions|
    ensures Before(p, db, actions, k + 1) == Apply(p, Before(p, db, actions, k), actions[k]).0
  {
    assert actions[..k + 1][..k] == actions[..k];
  }

  /** Tenants provisioned, nothing admitted and no grants yet; the clock reads a time after 1970. */
  predicate Initial(db: Tables) {
    && 0 <= db.clock
    && db.grants == map[] && db.runs == map[] && db.events == map[] && db.effects == map[] && db.reservations == {}
    && db.dispatchSeq == 0 && db.reaping.None?
    && forall t | t in db.tenants :: InitialTenant(db.tenants[t])
  }

  predicate InitialTenant(t: Tenant) {
    1 <= t.queueLimit <= 1000 && 1 <= t.activeLimit <= 4 && t.activeCount == 0 && t.lastServed == 0
  }
}

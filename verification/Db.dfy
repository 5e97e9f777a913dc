/** The tables the store works on, as values, and the queries its transactions make. */
module Db {
  import opened Bytes
  import opened Domain
  import Collections
  import opened Hash
  import opened EventChain
  import opened States
  import opened Grants

  /** Microseconds, the resolution of timestamptz. */
  type Time = int

  datatype Tenant = Tenant(queueLimit: int, activeLimit: int, activeCount: int, lastServed: int)

  datatype Run = Run(
    tenant: Uuid, key: Text, request: NormalizedRun, requestHash: Digest, createdAt: Time,
    state: RunState, leaseEpoch: int, leaseOwner: Option<Text>, leaseExpires: Option<Time>,
    attempt: int, held: bool, cancel: bool, output: Option<seq<byte>>, errorCode: Option<Text>,
    nextSeq: int, lastHash: Digest)

  datatype GrantRow = GrantRow(
    tenant: Uuid, parent: Option<Uuid>, depth: int, authority: Authority, used: int, revoked: bool)

  datatype EffectId = EffectId(run: Uuid, ordinal: int)

  datatype Effect = Effect(action: Text, destination: Text, project: Text, state: EffectState, charged: bool)

  /** A row of effect_reservations. */
  datatype Reservation = Reservation(effect: EffectId, grant: Uuid)

  /** What an open reap transaction has read when it waits for its row locks. */
  datatype Candidate = Candidate(tenant: Uuid, run: Uuid, globalPending: int)

  datatype Tables = Tables(
    clock: Time,
    tenants: map<Uuid, Tenant>,
    modules: set<(Uuid, seq<byte>)>,
    grants: map<Uuid, GrantRow>,
    runs: map<Uuid, Run>,
    events: map<Uuid, seq<Event>>,
    effects: map<EffectId, Effect>,
    reservations: set<Reservation>,
    dispatchSeq: int,
    reaping: Option<Candidate>)

  /** One configuration, with the event and request hashes in use. */
  datatype Policy = Policy(
    link: Link, runHash: NormalizedRun -> Digest, maxActiveGlobal: int, maxActivePerTenant: int, maxAttempts: int, leaseMs: int,
    maxPendingGlobal: int, maxPendingTenant: int)

  /** The limits a configuration file may set (control/config.rs). */
  predicate ValidPolicy(p: Policy) {
    && 1 <= p.maxActiveGlobal <= 4 && p.maxActivePerTenant == 1
    && 1 <= p.maxAttempts <= 3 && 1 <= p.leaseMs <= 6000
    && 1 <= p.maxPendingTenant <= 100 && p.maxPendingTenant <= p.maxPendingGlobal <= 1000
  }

  datatype Error =
    | Configuration | RunNotFound | EffectNotFound | CorruptEventHead | ModuleNotFound | GrantDenied
    | IdempotencyConflict | CapacityExhausted | GrantNotFound | GrantValidation(cause: GrantError) | CorruptGrant
    | LeaseConflict | CorruptScheduler

  // ---------------------------------------------------------------- counting queries

  datatype Query =
    | InQueue | InQueueOf(tenant: Uuid)
    | Waiting | WaitingOf(tenant: Uuid)
    | SlotHeld | SlotHeldOf(tenant: Uuid) | SlotHeldBy(worker: Text)
    | ExpiredAt(now: Time)

  predicate Matches(q: Query, run: Run) {
    match q
    case InQueue => run.state.Queued?
    case InQueueOf(t) => run.state.Queued? && run.tenant == t
    case Waiting => run.state.RetryWait?
    case WaitingOf(t) => run.state.RetryWait? && run.tenant == t
    case SlotHeld => run.held
    case SlotHeldOf(t) => run.held && run.tenant == t
    case SlotHeldBy(w) => run.held && run.leaseOwner == Some(w)
    case ExpiredAt(now) => run.held && run.state.Slotted() && run.leaseExpires.Some? && run.leaseExpires.value <= now
  }

  function Select(runs: map<Uuid, Run>, q: Query): set<Uuid> {
    set r | r in runs && Matches(q, runs[r])
  }

  function Count(runs: map<Uuid, Run>, q: Query): nat {
    |Select(runs, q)|
  }

  /** Writing one row changes a count by what the row stops and starts matching. */
  lemma CountUpdate(runs: map<Uuid, Run>, r: Uuid, row: Run, q: Query)
    ensures Count(runs[r := row], q) ==
            Count(runs, q) - (if r in runs && Matches(q, runs[r]) then 1 else 0) + (if Matches(q, row) then 1 else 0)
  {
    var before, after := Select(runs, q), Select(runs[r := row], q);
    Collections.SetUpdate(before, after, r) by {
      hide Matches;
    }
  }

  /** sum(active_count) over the tenants. */
  ghost function ActiveTotal(tenants: map<Uuid, Tenant>): int {
    if tenants == map[] then 0
    else
      var t :| t in tenants;
      tenants[t].activeCount + ActiveTotal(tenants - {t})
  }

  lemma {:induction false} ActiveTotalSplit(tenants: map<Uuid, Tenant>, t: Uuid)
    requires t in tenants
    ensures ActiveTotal(tenants) == tenants[t].activeCount + ActiveTotal(tenants - {t})
    decreases |tenants|
  {
    var first :| first in tenants && ActiveTotal(tenants) == tenants[first].activeCount + ActiveTotal(tenants - {first});
    if first != t {
      ActiveTotalSplit(tenants - {first}, t);
      ActiveTotalSplit(tenants - {t}, first);
      assert tenants - {first} - {t} == tenants - {t} - {first};
    }
  }

  lemma ActiveTotalUpdate(tenants: map<Uuid, Tenant>, t: Uuid, row: Tenant)
    requires t in tenants
    ensures ActiveTotal(tenants[t := row]) == ActiveTotal(tenants) - tenants[t].activeCount + row.activeCount
  {
    ActiveTotalSplit(tenants, t);
    ActiveTotalSplit(tenants[t := row], t);
    assert tenants[t := row] - {t} == tenants - {t};
  }

  /** An effect of the run is in flight or its outcome is unknown. */
  predicate Uncertain(effects: map<EffectId, Effect>, run: Uuid) {
    exists e | e in effects :: e.run == run && effects[e].state.Uncertain()
  }

  /** An effect of the run is not settled: prepared, in flight or unknown. */
  predicate Unsettled(effects: map<EffectId, Effect>, run: Uuid) {
    exists e | e in effects :: e.run == run && !effects[e].state.Settled()
  }

  /** The stored lease is live: it names the holder and has not expired. */
  predicate LiveLease(run: Run, now: Time) {
    run.held && run.state.Slotted() && run.leaseExpires.Some? && run.leaseExpires.value > now
  }

  // ---------------------------------------------------------------- grant chains

  /** Ids from the root down to `id`, at most `fuel` of them. */
  function Walk(grants: map<Uuid, GrantRow>, tenant: Uuid, id: Uuid, fuel: nat): (ids: seq<Uuid>)
    ensures |ids| <= fuel
    ensures forall i | 0 <= i < |ids| :: ids[i] in grants && grants[ids[i]].tenant == tenant
    decreases fuel
  {
    if fuel == 0 || id !in grants || grants[id].tenant != tenant then []
    else match grants[id].parent
      case None => [id]
      case Some(p) => Walk(grants, tenant, p, fuel - 1) + [id]
  }

  function ToGrant(id: Uuid, row: GrantRow): Grant {
    Grant(id, row.tenant, row.parent, row.depth, row.authority, row.used, row.revoked)
  }

  function Rows(grants: map<Uuid, GrantRow>, ids: seq<Uuid>): (chain: seq<Grant>)
    requires forall i | 0 <= i < |ids| :: ids[i] in grants
    ensures |chain| == |ids|
  {
    seq(|ids|, i requires 0 <= i < |ids| => ToGrant(ids[i], grants[ids[i]]))
  }

  function Unrevoked(chain: seq<Grant>): (r: seq<Grant>)
    ensures |r| == |chain|
  {
    seq(|chain|, i requires 0 <= i < |chain| => chain[i].(revoked := false))
  }

  /** load_grant_chain_locked: the rows root first, checked for structure but not liveness. */
  ghost function LoadChain(grants: map<Uuid, GrantRow>, tenant: Uuid, leaf: Uuid): Result<seq<Grant>, Error> {
    var ids := Walk(grants, tenant, leaf, 6);
    if ids == [] || |ids| > 5 then Err(GrantNotFound)
    else
      var chain := Rows(grants, ids);
      match ChainFault(Unrevoked(chain), tenant, I64_MIN)
      case None => Ok(chain)
      case Some(Inactive) => Err(CorruptGrant)
      case Some(other) => Err(GrantValidation(other))
  }

  function Expiry(a: Authority): Time {
    a.expiresAtMs * 1000
  }

  predicate LiveGrant(g: Grant, now: Time) {
    !g.revoked && Expiry(g.authority) > now
  }

  predicate LiveChain(chain: seq<Grant>, now: Time) {
    forall i | 0 <= i < |chain| :: LiveGrant(chain[i], now)
  }

  function MinExpiry(chain: seq<Grant>): (m: Time)
    requires chain != []
    ensures forall i | 0 <= i < |chain| :: m <= Expiry(chain[i].authority)
    ensures exists i | 0 <= i < |chain| :: m == Expiry(chain[i].authority)
  {
    if |chain| == 1 then Expiry(chain[0].authority)
    else Min(MinExpiry(chain[..|chain| - 1]), Expiry(chain[|chain| - 1].authority))
  }

  /** floor(extract(epoch from clock) * 1000). */
  function Millis(now: Time): int {
    now / 1000
  }

  /** The two liveness tests of the store agree: comparing timestamps, or whole milliseconds. */
  lemma LivenessTestsAgree(expiresAtMs: int, now: Time)
    ensures expiresAtMs * 1000 > now <==> expiresAtMs > Millis(now)
  {
  }

  // ---------------------------------------------------------------- events

  const GRANT_DENIED_CODE := Ascii("GRANT_DENIED")

  /** append_event on one run: the row with its new head, and the longer log. */
  function Append(link: Link, id: Uuid, run: Run, log: seq<Event>, kind: Kind, payload: Payload)
    : (result: Result<(Run, seq<Event>), Error>)
    ensures result.Err? ==> result.error == Configuration || result.error == CorruptEventHead
  {
    if !Fits(kind, payload) then Err(Configuration)
    else if run.nextSeq <= 0 || run.nextSeq >= I64_MAX then Err(CorruptEventHead)
    else
      var hash := link(Entry(run.tenant, id, run.nextSeq, run.lastHash, kind, payload));
      Ok((run.(nextSeq := run.nextSeq + 1, lastHash := hash),
          log + [Event(run.nextSeq, kind, payload, run.lastHash, hash)]))
  }

  /** Write a run row together with one event. */
  function Record(link: Link, db: Tables, id: Uuid, row: Run, kind: Kind, payload: Payload): (result: Result<Tables, Error>)
    ensures result.Err? ==> result.error == Configuration || result.error == CorruptEventHead
  {
    var log := if id in db.events then db.events[id] else [];
    match Append(link, id, row, log, kind, payload)
    case Err(e) => Err(e)
    case Ok((row', log')) => Ok(db.(runs := db.runs[id := row'], events := db.events[id := log']))
  }

  /** Write a run row together with two events. */
  function RecordTwo(link: Link, db: Tables, id: Uuid, row: Run, kind: Kind, payload: Payload, kind': Kind, payload': Payload)
    : (result: Result<Tables, Error>)
    ensures result.Err? ==> result.error == Configuration || result.error == CorruptEventHead
  {
    match Record(link, db, id, row, kind, payload)
    case Err(e) => Err(e)
    case Ok(db') => Record(link, db', id, db'.runs[id], kind', payload')
  }
}

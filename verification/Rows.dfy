/** What every run row satisfies together with its event log: the log is a hash chain that
    replays to the row, slots and leases agree with the state, and the row's life is bounded. */
module Rows {
  import opened Bytes
  import opened Domain
  import opened Hash
  import opened EventChain
  import opened States
  import opened Db
  import opened Scheduler

  // ---------------------------------------------------------------- replaying a log

  datatype Replica = Replica(state: Option<RunState>, held: bool, attempt: int, epoch: int)

  /** What one event says about the run. */
  function Advance(x: Replica, kind: Kind): Replica {
    match kind
    case RunAdmitted => Replica(Some(Queued), false, 0, 0)
    case LeaseClaimed => Replica(Some(Leased), true, x.attempt + 1, x.epoch + 1)
    case RunnerStarted => x.(state := Some(Running))
    case LeaseExpired => x.(held := false)
    case RunRequeued => x.(state := Some(Queued))
    case RunRetryWait => x.(state := Some(RetryWait))
    case RunNeedsReconciliation => x.(state := Some(NeedsReconciliation))
    case RunCancelled => x.(state := Some(Cancelled), held := false)
    case RunFailed => x.(state := Some(Failed), held := false)
    case RunSucceeded => x.(state := Some(Succeeded), held := false)
    case GrantDenied => x
    case Other(_) => x
  }

  function Replay(log: seq<Event>): Replica {
    if log == [] then Replica(None, false, 0, 0)
    else Advance(Replay(log[..|log| - 1]), log[|log| - 1].kind)
  }

  /** The number of lease.claimed events. */
  function Claims(log: seq<Event>): nat {
    if log == [] then 0 else Claims(log[..|log| - 1]) + (if log[|log| - 1].kind.LeaseClaimed? then 1 else 0)
  }

  function View(run: Run): Replica {
    Replica(Some(run.state), run.held, run.attempt, run.leaseEpoch)
  }

  // ---------------------------------------------------------------- the bounded life of a run

  /** Falls at every change of state, and starts at 4 * maxAttempts - 1. */
  function Life(maxAttempts: int, state: RunState, attempt: int): int {
    match state
    case Queued => 4 * (maxAttempts - attempt) - 1
    case RetryWait => 4 * (maxAttempts - attempt)
    case Leased => 4 * (maxAttempts - attempt) + 2
    case Running => 4 * (maxAttempts - attempt) + 1
    case _ => 0
  }

  function LifeOf(p: Policy, run: Run): int {
    Life(p.maxAttempts, run.state, run.attempt)
  }

  // ---------------------------------------------------------------- the row invariant

  predicate Chained(link: Link, id: Uuid, run: Run, log: seq<Event>) {
    && run.nextSeq == |log| + 1
    && run.lastHash == Head(log)
    && Linked(link, run.tenant, id, log)
  }

  predicate SlotShape(run: Run) {
    && (run.held <==> run.state.Slotted())
    && (run.held <==> run.leaseOwner.Some?)
    && (run.held <==> run.leaseExpires.Some?)
    && (run.held ==> WorkerName(run.leaseOwner.value))
  }

  predicate AttemptShape(p: Policy, run: Run) {
    && run.leaseEpoch == run.attempt
    && 0 <= run.attempt <= p.maxAttempts
    && (run.state.Queued? || run.state.RetryWait? ==> run.attempt < p.maxAttempts)
    && (run.held || run.state.RetryWait? ==> run.attempt > 0)
  }

  ghost predicate RowOk(p: Policy, id: Uuid, run: Run, log: seq<Event>) {
    && Chained(p.link, id, run, log)
    && Replay(log) == View(run) && Claims(log) == run.leaseEpoch
    && SlotShape(run)
    && AttemptShape(p, run)
    && log != [] && |log| + 2 * LifeOf(p, run) <= 8 * p.maxAttempts - 1
  }

  ghost predicate RowsOk(p: Policy, db: Tables) {
    && db.events.Keys == db.runs.Keys
    && forall r | r in db.runs :: RowOk(p, r, db.runs[r], db.events[r])
  }

  lemma LifeIsNatural(p: Policy, run: Run)
    requires p.maxAttempts >= 1 && AttemptShape(p, run) && SlotShape(run)
    ensures 0 <= LifeOf(p, run) <= 4 * p.maxAttempts - 1
    ensures LifeOf(p, run) == 0 <==> run.state.Terminal() || run.state.NeedsReconciliation?
  {
  }

  // ---------------------------------------------------------------- appending never fails

  function Logged(link: Link, id: Uuid, run: Run, log: seq<Event>, kind: Kind, payload: Payload): seq<Event> {
    log + [Event(|log| + 1, kind, payload, Head(log), link(Entry(run.tenant, id, |log| + 1, Head(log), kind, payload)))]
  }

  function Stamp(run: Run, log: seq<Event>): Run {
    run.(nextSeq := |log| + 1, lastHash := Head(log))
  }

  /** Appending to a chained log succeeds, keeps it chained, and replays one step further. */
  lemma AppendExtends(link: Link, id: Uuid, run: Run, log: seq<Event>, kind: Kind, payload: Payload)
    requires Chained(link, id, run, log) && |log| < 1000 && Fits(kind, payload)
    ensures var log' := Logged(link, id, run, log, kind, payload);
            && Append(link, id, run, log, kind, payload) == Ok((Stamp(run, log'), log'))
            && Chained(link, id, Stamp(run, log'), log')
            && Replay(log') == Advance(Replay(log), kind)
            && Claims(log') == Claims(log) + (if kind.LeaseClaimed? then 1 else 0)
  {
    var log' := Logged(link, id, run, log, kind, payload);
    assert log'[..|log|] == log;
  }

  /** A new row that says what the event says, with less life left, satisfies the invariant. */
  lemma RowAdvances(p: Policy, id: Uuid, run: Run, log: seq<Event>, row: Run, kind: Kind, payload: Payload)
    requires RowOk(p, id, run, log) && |log| < 1000 && Fits(kind, payload) && !kind.RunAdmitted?
    requires row.tenant == run.tenant && row.nextSeq == run.nextSeq && row.lastHash == run.lastHash
    requires SlotShape(row) && AttemptShape(p, row) && LifeOf(p, row) < LifeOf(p, run)
    requires Advance(View(run), kind) == View(row)
    ensures var log' := Logged(p.link, id, row, log, kind, payload);
            && Append(p.link, id, row, log, kind, payload) == Ok((Stamp(row, log'), log'))
            && RowOk(p, id, Stamp(row, log'), log')
  {
    AppendExtends(p.link, id, row, log, kind, payload);
  }

  lemma RowAdvancesTwice(p: Policy, id: Uuid, run: Run, log: seq<Event>, row: Run,
                         kind: Kind, payload: Payload, kind': Kind, payload': Payload)
    returns (mid: seq<Event>, end: seq<Event>)
    requires RowOk(p, id, run, log) && |log| < 999 && Fits(kind, payload) && Fits(kind', payload')
    requires !kind.RunAdmitted? && !kind'.RunAdmitted?
    requires row.tenant == run.tenant && row.nextSeq == run.nextSeq && row.lastHash == run.lastHash
    requires SlotShape(row) && AttemptShape(p, row) && LifeOf(p, row) < LifeOf(p, run)
    requires Advance(Advance(View(run), kind), kind') == View(row)
    ensures Append(p.link, id, row, log, kind, payload) == Ok((Stamp(row, mid), mid))
    ensures Append(p.link, id, Stamp(row, mid), mid, kind', payload') == Ok((Stamp(row, end), end))
    ensures RowOk(p, id, Stamp(row, end), end)
  {
    mid := Logged(p.link, id, row, log, kind, payload);
    AppendExtends(p.link, id, row, log, kind, payload);
    end := Logged(p.link, id, Stamp(row, mid), mid, kind', payload');
    hide Append, Chained, Replay, Claims, Fits;
    AppendExtends(p.link, id, Stamp(row, mid), mid, kind', payload');
  }

  /** Append one event about a row of the tables. */
  lemma RecordMoves(p: Policy, db: Tables, r: Uuid, run: Run, row: Run, kind: Kind, payload: Payload) returns (log: seq<Event>)
    requires r in db.runs && r in db.events && |db.events[r]| < 1000
    requires RowOk(p, r, run, db.events[r]) && Fits(kind, payload) && !kind.RunAdmitted?
    requires row.tenant == run.tenant && row.nextSeq == run.nextSeq && row.lastHash == run.lastHash
    requires SlotShape(row) && AttemptShape(p, row) && LifeOf(p, row) < LifeOf(p, run)
    requires Advance(View(run), kind) == View(row)
    ensures Record(p.link, db, r, row, kind, payload)
            == Ok(db.(runs := db.runs[r := Stamp(row, log)], events := db.events[r := log]))
    ensures RowOk(p, r, Stamp(row, log), log)
  {
    log := Logged(p.link, r, row, db.events[r], kind, payload);
    RowAdvances(p, r, run, db.events[r], row, kind, payload);
  }

  lemma RecordMovesTwice(p: Policy, db: Tables, r: Uuid, run: Run, row: Run,
                         kind: Kind, payload: Payload, kind': Kind, payload': Payload) returns (log: seq<Event>)
    requires r in db.runs && r in db.events && |db.events[r]| < 999
    requires RowOk(p, r, run, db.events[r]) && Fits(kind, payload) && Fits(kind', payload')
    requires !kind.RunAdmitted? && !kind'.RunAdmitted?
    requires row.tenant == run.tenant && row.nextSeq == run.nextSeq && row.lastHash == run.lastHash
    requires SlotShape(row) && AttemptShape(p, row) && LifeOf(p, row) < LifeOf(p, run)
    requires Advance(Advance(View(run), kind), kind') == View(row)
    ensures RecordTwo(p.link, db, r, row, kind, payload, kind', payload')
            == Ok(db.(runs := db.runs[r := Stamp(row, log)], events := db.events[r := log]))
    ensures RowOk(p, r, Stamp(row, log), log)
  {
    var mid, end := RowAdvancesTwice(p, r, run, db.events[r], row, kind, payload, kind', payload');
    log := end;
    var db' := db.(runs := db.runs[r := Stamp(row, mid)], events := db.events[r := mid]);
    assert Record(p.link, db, r, row, kind, payload) == Ok(db');
    assert db'.runs[r := Stamp(row, end)] == db.runs[r := Stamp(row, end)];
    assert db'.events[r := end] == db.events[r := end];
  }

  lemma RowShapes(p: Policy, db: Tables, r: Uuid)
    requires RowsOk(p, db) && r in db.runs
    ensures SlotShape(db.runs[r]) && AttemptShape(p, db.runs[r])
  {
    assert RowOk(p, r, db.runs[r], db.events[r]);
  }

  lemma LogShort(p: Policy, db: Tables, r: Uuid)
    requires ValidPolicy(p) && RowsOk(p, db) && r in db.runs
    ensures r in db.events && 0 < |db.events[r]| <= 23
    ensures RowOk(p, r, db.runs[r], db.events[r])
  {
    LifeIsNatural(p, db.runs[r]);
  }
}

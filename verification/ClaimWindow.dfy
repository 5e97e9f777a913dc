/** The claim chooses its candidate before it locks the run's row. Meanwhile a cancellation may be
    requested, which the claim does not look at again. The model claims in one step; that loses
    nothing, because the two orders end alike. */
module ClaimWindow {
  import opened Bytes
  import opened Hash
  import opened EventChain
  import opened States
  import opened Grants
  import opened Db
  import opened Scheduler
  import opened Execution

  function Cancelled(db: Tables, q: Uuid): Tables
    requires q in db.runs
  {
    db.(runs := db.runs[q := db.runs[q].(cancel := true)])
  }

  function WithCancel(row: Run, cancel: bool): Run {
    if cancel then row.(cancel := true) else row
  }

  /** The second result is the first with run q cancelled afterwards. */
  predicate CancelledAfter(plain: Result<Tables, Error>, other: Result<Tables, Error>, q: Uuid) {
    match plain
    case Err(_) => other == plain
    case Ok(db) => q in db.runs && other == Ok(Cancelled(db, q))
  }

  lemma RecordCommutes(link: Link, db: Tables, q: Uuid, r: Uuid, row: Run, kind: Kind, payload: Payload)
    requires q in db.runs && r in db.runs
    ensures CancelledAfter(Record(link, db, r, row, kind, payload),
                           Record(link, Cancelled(db, q), r, WithCancel(row, r == q), kind, payload), q)
    ensures var plain := Record(link, db, r, row, kind, payload); plain.Ok? ==> r in plain.value.runs
  {
    var plain := Record(link, db, r, row, kind, payload);
    if plain.Ok? {
      var row' := plain.value.runs[r];
      assert plain.value.runs == db.runs[r := row'];
      assert db.runs[q := db.runs[q].(cancel := true)][r := WithCancel(row', r == q)]
             == db.runs[r := row'][q := db.runs[r := row'][q].(cancel := true)];
    }
  }

  lemma RowCancelled(db: Tables, q: Uuid, r: Uuid)
    requires q in db.runs && r in db.runs
    ensures r in Cancelled(db, q).runs && Cancelled(db, q).runs[r] == WithCancel(db.runs[r], r == q)
  {
  }

  lemma RecordTwoCommutes(link: Link, db: Tables, q: Uuid, r: Uuid, row: Run, kind: Kind, payload: Payload,
                          kind': Kind, payload': Payload)
    requires q in db.runs && r in db.runs
    ensures CancelledAfter(RecordTwo(link, db, r, row, kind, payload, kind', payload'),
                           RecordTwo(link, Cancelled(db, q), r, WithCancel(row, r == q), kind, payload, kind', payload'), q)
  {
    hide Record, Cancelled, WithCancel;
    RecordCommutes(link, db, q, r, row, kind, payload);
    var once := Record(link, db, r, row, kind, payload);
    if once.Ok? {
      RowCancelled(once.value, q, r);
      RecordCommutes(link, once.value, q, r, once.value.runs[r], kind', payload');
      hide CancelledAfter;
    }
  }

  lemma DenyCommutes(p: Policy, db: Tables, r: Uuid, q: Uuid)
    requires q in db.runs && r in db.runs
    ensures q in DenyClaim(p, db, r).0.runs
    ensures DenyClaim(p, Cancelled(db, q), r) == (Cancelled(DenyClaim(p, db, r).0, q), DenyClaim(p, db, r).1)
  {
    var row := db.runs[r].(state := Failed, errorCode := Some(GRANT_DENIED_CODE));
    RecordTwoCommutes(p.link, db, q, r, row, Kind.GrantDenied, GrantInactive, RunFailed, DeniedFailure);
    hide RecordTwo;
  }

  lemma LeaseCommutes(p: Policy, db: Tables, worker: Text, t: Uuid, r: Uuid, chain: seq<Grant>, later: Time, q: Uuid)
    requires t in db.tenants && q in db.runs && r in db.runs
    ensures var plain := GiveLease(p, db, worker, t, r, chain, later);
            && q in plain.0.runs
            && GiveLease(p, Cancelled(db, q), worker, t, r, chain, later) == (Cancelled(plain.0, q), plain.1)
  {
    hide Record, LeaseExpiry;
    var clock := if later > db.clock then later else db.clock;
    var tenant := db.tenants[t].(activeCount := db.tenants[t].activeCount + 1, lastServed := db.dispatchSeq + 1);
    var run := db.runs[r];
    var row := run.(state := Leased, leaseEpoch := run.leaseEpoch + 1, leaseOwner := Some(worker),
                    leaseExpires := Some(LeaseExpiry(p, chain, clock)), attempt := run.attempt + 1, held := true);
    var db1 := db.(clock := clock, dispatchSeq := db.dispatchSeq + 1, tenants := db.tenants[t := tenant]);
    RecordCommutes(p.link, db1, q, r, row, LeaseClaimed, ClaimedBy(if row.leaseEpoch < 0 then 0 else row.leaseEpoch, worker));
  }

  /** A cancellation between the candidate query and the row lock has the effect of one after the
      claim: the same reply, the same tables. */
  lemma CancellationCommutes(p: Policy, db: Tables, worker: Text, t: Uuid, r: Uuid,
                             loaded: Result<seq<Grant>, Error>, later: Time, q: Uuid)
    requires t in db.tenants && q in db.runs && r in db.runs
    ensures var plain := ClaimRun(p, db, worker, t, r, loaded, later);
            ClaimRun(p, MarkCancelled(db, q).0, worker, t, r, loaded, later) == (MarkCancelled(plain.0, q).0, plain.1)
  {
    hide DenyClaim, GiveLease, LiveChain;
    DenyCommutes(p, db, r, q);
    if loaded.Ok? {
      LeaseCommutes(p, db, worker, t, r, loaded.value, later, q);
    }
  }
}

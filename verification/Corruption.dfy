/** When the store reports corruption: never from the states it can reach, except that a claim
    stops when the dispatch sequence is exhausted, and a finish for an idle tenant is told so. */
module Corruption {
  import opened Bytes
  import opened States
  import opened Grants
  import opened Db
  import opened Scheduler
  import opened Execution
  import opened Rows
  import opened Deltas
  import opened Invariants
  import opened Reachable
  import opened Lifecycle
  import opened Fencing

  predicate Corrupt(reply: Reply) {
    reply == Refused(CorruptScheduler) || reply == Refused(CorruptEventHead)
  }

  /** A live candidate exists and only the next sequence number is missing. */
  ghost predicate SequenceExhausted(p: Policy, db: Tables, worker: Text, allowed: seq<Uuid>, slots: int) {
    && ClaimArguments(p, worker, allowed, slots)
    && ActiveTotal(db.tenants) < p.maxActiveGlobal && Count(db.runs, SlotHeldBy(worker)) < 2
    && ClaimCandidate(p, db, allowed).Some?
    && var (t, r) := ClaimCandidate(p, db, allowed).value;
       var loaded := LoadChain(db.grants, t, db.runs[r].request.grantId);
       loaded.Ok? && LiveChain(loaded.value, db.clock) && db.dispatchSeq == I64_MAX
  }

  /** A claim reports a corrupt scheduler exactly when the dispatch sequence is exhausted. */
  lemma ClaimCorruptOnlyAtExhaustion(p: Policy, db: Tables, worker: Text, allowed: seq<Uuid>, slots: int, later: Time)
    requires Inv(p, db)
    ensures var reply := Claim(p, db, worker, allowed, slots, later).1;
            && (reply == Refused(CorruptScheduler) <==> SequenceExhausted(p, db, worker, allowed, slots))
            && reply != Refused(CorruptEventHead)
  {
    hide Inv, ClaimCandidate, ClaimRun, LoadChain, LiveChain, ClaimArguments, Ready;
    TotalsInRange(p, db);
    ClaimCandidateFacts(p, db, allowed);
    hide Chosen;
    if ClaimArguments(p, worker, allowed, slots) && ClaimCandidate(p, db, allowed).Some? {
      var (t, r) := ClaimCandidate(p, db, allowed).value;
      InvReady(p, db, r);
      ArgumentsName(p, worker, allowed, slots);
      ClaimChosenCorrupt(p, db, worker, t, r, LoadChain(db.grants, t, db.runs[r].request.grantId), later);
      LoadChainErrors(db.grants, t, db.runs[r].request.grantId);
    }
  }

  lemma ArgumentsName(p: Policy, worker: Text, allowed: seq<Uuid>, slots: int)
    requires ClaimArguments(p, worker, allowed, slots)
    ensures WorkerName(worker)
  {
  }

  lemma TotalsInRange(p: Policy, db: Tables)
    requires Inv(p, db)
    ensures 0 <= ActiveTotal(db.tenants) <= 4 && db.dispatchSeq <= I64_MAX
    ensures forall t | t in db.tenants :: db.tenants[t].activeCount >= 0
  {
    hide RowsOk, EffectsOk, QueuesOk, KeysOk, ReapingOk;
    forall t | t in db.tenants ensures db.tenants[t].activeCount >= 0 {
      assert TenantOk(p, db, t);
    }
  }

  lemma LoadChainErrors(grants: map<Uuid, GrantRow>, tenant: Uuid, leaf: Uuid)
    ensures match LoadChain(grants, tenant, leaf)
            case Ok(chain) => chain != []
            case Err(e) => e == GrantNotFound || e == CorruptGrant || e.GrantValidation?
  {
  }

  lemma ClaimChosenCorrupt(p: Policy, db: Tables, worker: Text, t: Uuid, r: Uuid,
                           loaded: Result<seq<Grant>, Error>, later: Time)
    requires ClaimReady(p, db, t, r) && Ready(p, db, r) && db.tenants[t].activeCount >= 0 && db.dispatchSeq <= I64_MAX
    requires WorkerName(worker)
    ensures loaded.Ok? ==>
              var reply := ClaimRun(p, db, worker, t, r, loaded, later).1;
              && (reply == Refused(CorruptScheduler) <==> LiveChain(loaded.value, db.clock) && db.dispatchSeq == I64_MAX)
              && reply != Refused(CorruptEventHead)
    ensures loaded.Err? ==> ClaimRun(p, db, worker, t, r, loaded, later).1 == Refused(loaded.error)
  {
    if loaded.Ok? {
      if !LiveChain(loaded.value, db.clock) {
        var row := db.runs[r].(state := Failed, errorCode := Some(GRANT_DENIED_CODE));
        var log := RecordMovesTwice(p, db, r, db.runs[r], row, EventChain.GrantDenied, EventChain.GrantInactive,
                                    EventChain.RunFailed, EventChain.DeniedFailure);
      } else if db.dispatchSeq < I64_MAX {
        var log := LeaseWritten(p, db, worker, t, r, loaded.value, later);
      }
    }
  }

  /** Neither half of the reaper ever reports corruption. */
  lemma ReaperNeverCorrupt(p: Policy, db: Tables)
    requires Inv(p, db)
    ensures db.reaping.None? ==> !Corrupt(ReapSelect(p, db).1)
    ensures db.reaping.Some? ==> !Corrupt(ReapCommit(p, db).1)
  {
    hide Inv, IsDelta, Ready, ReapSelect, ReapCommit;
    InvReaping(p, db);
    if db.reaping.None? {
      PromotionFacts(p, db);
      if PromotionCandidate(p, db).Some? {
        InvReady(p, db, PromotionCandidate(p, db).value);
      }
      var d := ReapSelectDelta(p, db);
    } else {
      InvReady(p, db, db.reaping.value.run);
      var d := ReapCommitDelta(p, db);
    }
  }

  /** A finish reports corruption exactly when its arguments are well formed, the run is visible
      to the worker and the tenant holds no slot at all: the counter is read before the fence. */
  lemma FinishCorruptExactly(p: Policy, db: Tables, r: Uuid, worker: Text, allowed: seq<Uuid>, epoch: int,
                             output: Option<seq<byte>>, code: Option<Text>)
    requires Inv(p, db) && db.reaping.None?
    ensures var reply := Finish(p, db, r, worker, allowed, epoch, output, code).1;
            && (reply == Refused(CorruptScheduler) <==>
                  FinishArguments(worker, epoch, output, code) && Visible(db, r, allowed)
                  && HeldSlots(db.runs, db.runs[r].tenant) == {})
            && reply != Refused(CorruptEventHead)
  {
    hide Inv, IsDelta, Ready, HeldSlots, Record, Unsettled, Holds;
    if r in db.runs {
      InvReady(p, db, r);
      ActiveIsHeld(p, db, r);
    }
    UncertainUnsettled(db, r);
    var d := FinishDelta(p, db, r, worker, allowed, epoch, output, code);
  }

  lemma ActiveIsHeld(p: Policy, db: Tables, r: Uuid)
    requires Inv(p, db) && r in db.runs
    ensures var t := db.runs[r].tenant;
            t in db.tenants && (db.tenants[t].activeCount <= 0 <==> HeldSlots(db.runs, t) == {})
  {
    hide QueuesOk, KeysOk, EffectsOk, RowOk;
    var t := db.runs[r].tenant;
    assert TenantOk(p, db, t);
    forall q | q in db.runs ensures db.runs[q].held <==> db.runs[q].state.Slotted() {
      RowShapes(p, db, q);
    }
    TenantSlots(p, db, t);
  }
}

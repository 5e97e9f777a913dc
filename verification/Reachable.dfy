/** The invariant of the scheduler holds in every state of every execution. */
module Reachable {
  import opened Bytes
  import opened States
  import opened Db
  import opened Scheduler
  import opened Execution
  import opened Rows
  import opened Deltas
  import opened Invariants

  ghost predicate Inv(p: Policy, db: Tables) {
    Sound(p, db) && SlotsOk(p, db) && QueuesOk(p, db) && KeysOk(p, db)
  }

  lemma InvInitially(p: Policy, db: Tables)
    requires ValidPolicy(p) && Initial(db)
    ensures Inv(p, db)
  {
    forall q ensures Count(db.runs, q) == 0 {
      assert Select(db.runs, q) == {};
    }
    NoneActive(db.tenants);
    forall t | t in db.tenants ensures TenantOk(p, db, t) && TenantQueueOk(p, db, t) {
      assert InitialTenant(db.tenants[t]);
    }
  }

  lemma {:induction false} NoneActive(tenants: map<Uuid, Tenant>)
    requires forall t | t in tenants :: tenants[t].activeCount == 0
    ensures ActiveTotal(tenants) == 0
    decreases |tenants|
  {
    if tenants != map[] {
      var t :| t in tenants && ActiveTotal(tenants) == tenants[t].activeCount + ActiveTotal(tenants - {t});
      NoneActive(tenants - {t});
    }
  }

  lemma ReapingFrames(p: Policy, db: Tables, op: Op, d: Delta)
    requires IsDelta(p, db, Perform(p, db, op).0, d)
    ensures ReapingStep(db, Perform(p, db, op).0)
    ensures TouchesRuns(op) ==> Perform(p, db, op).0.effects == db.effects
    ensures !TouchesRuns(op) ==> Perform(p, db, op).0.runs == db.runs
  {
    if TouchesRuns(op) {
      TouchingRunsFrames(p, db, op);
    } else {
      ElsewhereFrames(p, db, op);
      StepElsewhere(p, db, op);
    }
  }

  lemma ReapingStays(p: Policy, db: Tables, op: Op, d: Delta)
    requires RowsOk(p, db) && TenantsKnown(db) && ReapingOk(db) && IsDelta(p, db, Perform(p, db, op).0, d)
    ensures ReapingOk(Perform(p, db, op).0)
  {
    var db' := Perform(p, db, op).0;
    ReapingFrames(p, db, op, d);
    Outlined(p, db, db', d);
    DeltaLocks(p, db, db', d);
    ReapingKept(p, db, db', d);
  }

  lemma DeltaLocks(p: Policy, db: Tables, db': Tables, d: Delta)
    requires IsDelta(p, db, db', d) && ReapingStep(db, db')
    ensures d.Insert? || d.Take? ==> db.reaping.None?
    ensures d.Release? ==> db'.reaping.None?
    ensures d.Rewrite? && db'.runs[d.r].state != db.runs[d.r].state && (db.runs[d.r].state.Queued? || db'.runs[d.r].state.Queued?) ==>
              db.reaping.None? && db'.reaping.None?
  {
  }

  lemma EffectsStay(p: Policy, db: Tables, op: Op, d: Delta)
    requires RowsOk(p, db) && EffectsOk(db) && IsDelta(p, db, Perform(p, db, op).0, d)
    ensures EffectsOk(Perform(p, db, op).0)
  {
    var db' := Perform(p, db, op).0;
    ReapingFrames(p, db, op, d);
    if TouchesRuns(op) {
      if d != Same {
        DeltaRow(p, db, db', d);
        MovedEffects(p, db, db', d.r);
      }
    } else {
      ElsewhereFrames(p, db, op);
      EffectsKeptElsewhere(db, db');
    }
  }

  lemma KeysStay(p: Policy, db: Tables, db': Tables, d: Delta)
    requires KeysOk(p, db) && IsDelta(p, db, db', d)
    ensures KeysOk(p, db')
  {
    if d != Same {
      DeltaRow(p, db, db', d);
      KeysKept(p, db, db', d.r);
    }
  }

  lemma InvFromDelta(p: Policy, db: Tables, db': Tables, d: Delta)
    requires Inv(p, db) && IsDelta(p, db, db', d) && ReapingOk(db') && EffectsOk(db')
    ensures Inv(p, db')
  {
    Outlined(p, db, db', d);
    RowsKept(p, db, db', d);
    SlotsKept(p, db, db', d);
    QueuesKept(p, db, db', d);
    KeysStay(p, db, db', d);
    TenantsStay(p, db, db', d);
  }

  lemma TenantsStay(p: Policy, db: Tables, db': Tables, d: Delta)
    requires TenantsKnown(db) && Outline(p, db, db', d)
    ensures TenantsKnown(db')
  {
  }

  /** Every operation preserves the invariant, whatever it is and whatever it replies. */
  lemma InvPerform(p: Policy, db: Tables, op: Op) returns (d: Delta)
    requires Inv(p, db)
    ensures Inv(p, Perform(p, db, op).0)
    ensures IsDelta(p, db, Perform(p, db, op).0, d) && Agrees(d, Perform(p, db, op).1)
  {
    d := PerformDelta(p, db, op);
    ReapingStays(p, db, op, d);
    EffectsStay(p, db, op, d);
    InvFromDelta(p, db, Perform(p, db, op).0, d);
  }

  lemma InvAt(p: Policy, db: Tables, now: Time)
    requires Inv(p, db)
    ensures Inv(p, At(db, now))
  {
    InvFromDelta(p, db, At(db, now), Same);
  }

  lemma InvApply(p: Policy, db: Tables, a: Action) returns (d: Delta)
    requires Inv(p, db)
    ensures Inv(p, Apply(p, db, a).0)
    ensures IsDelta(p, At(db, a.now), Apply(p, db, a).0, d) && Agrees(d, Apply(p, db, a).1)
  {
    InvAt(p, db, a.now);
    d := InvPerform(p, At(db, a.now), a.op);
  }

  /** The invariant holds after any sequence of actions. */
  lemma {:induction false} InvReachable(p: Policy, db: Tables, actions: seq<Action>)
    requires Inv(p, db)
    ensures Inv(p, Exec(p, db, actions))
  {
    if actions != [] {
      var before := actions[..|actions| - 1];
      InvReachable(p, db, before);
      var d := InvApply(p, Exec(p, db, before), actions[|actions| - 1]);
    }
  }

  lemma InvRows(p: Policy, db: Tables)
    requires Inv(p, db)
    ensures ValidPolicy(p) && RowsOk(p, db)
  {
  }
}

/** Fair selection: how claims order tenants, and how often a tenant can be passed over. */
module Fairness {
  import opened Bytes
  import opened States
  import Collections
  import opened Db
  import opened Scheduler
  import opened Execution
  import opened Rows
  import opened Deltas
  import opened Invariants
  import opened Reachable
  import opened Fencing

  // ---------------------------------------------------------------- the candidate query

  /** The candidate query finds a row exactly when some tenant is eligible, and then the tenant
      served longest ago and its oldest claimable run. */
  lemma CandidateExists(p: Policy, db: Tables, allowed: seq<Uuid>)
    ensures ClaimCandidate(p, db, allowed).Some? <==> exists t | t in db.tenants :: Eligible(p, db, allowed, t)
  {
    if t0 :| t0 in db.tenants && Eligible(p, db, allowed, t0) {
      var t := NextExists(p, db, allowed, t0);
      var r := OldestExists(p, db, t);
      assert Chosen(p, db, allowed, t, r);
    }
  }

  lemma NextExists(p: Policy, db: Tables, allowed: seq<Uuid>, t0: Uuid) returns (t: Uuid)
    requires t0 in db.tenants && Eligible(p, db, allowed, t0)
    ensures NextTenant(p, db, allowed, t)
    ensures exists r | r in db.runs :: db.runs[r].tenant == t && Claimable(db.runs[r], p.maxAttempts)
  {
    var eligible := set t | t in db.tenants && Eligible(p, db, allowed, t);
    var before := (a: Uuid, b: Uuid) => a in db.tenants && b in db.tenants && ServedBefore(db.tenants, a, b);
    assert t0 in eligible;
    t := Collections.LeastExists<Uuid>(before, eligible);
    forall u | u in db.tenants && Eligible(p, db, allowed, u) ensures u == t || ServedBefore(db.tenants, t, u) {
      assert u in eligible;
    }
  }

  lemma OldestExists(p: Policy, db: Tables, t: Uuid) returns (r: Uuid)
    requires exists r | r in db.runs :: db.runs[r].tenant == t && Claimable(db.runs[r], p.maxAttempts)
    ensures OldestClaimable(p, db, t, r)
  {
    var r0 :| r0 in db.runs && db.runs[r0].tenant == t && Claimable(db.runs[r0], p.maxAttempts);
    var runs := set r | r in db.runs && db.runs[r].tenant == t && Claimable(db.runs[r], p.maxAttempts);
    var older := (a: Uuid, b: Uuid) => a in db.runs && b in db.runs && Older(db.runs, a, b);
    assert r0 in runs;
    r := Collections.LeastExists<Uuid>(older, runs);
    forall q | q in db.runs && db.runs[q].tenant == t && Claimable(db.runs[q], p.maxAttempts)
      ensures q == r || Older(db.runs, r, q)
    {
      assert q in runs;
    }
  }

  // ---------------------------------------------------------------- bounded overtaking

  /** The tenants a claim would serve before t if they were eligible. */
  function Ahead(tenants: map<Uuid, Tenant>, t: Uuid): set<Uuid>
    requires t in tenants
  {
    set u | u in tenants && u != t && ServedBefore(tenants, u, t)
  }

  /** In the interval [i, k) tenant t is eligible, and allowed, at every successful claim. */
  ghost predicate StaysEligible(p: Policy, db: Tables, actions: seq<Action>, i: nat, k: nat, t: Uuid)
    requires i <= k <= |actions|
  {
    forall j | i <= j < k && ReplyAt(p, db, actions, j).Claimed? ::
      actions[j].op.Claiming? && Eligible(p, At(Before(p, db, actions, j), actions[j].now), actions[j].op.allowed, t)
  }

  ghost predicate NotServed(p: Policy, db: Tables, actions: seq<Action>, i: nat, k: nat, t: Uuid)
    requires i <= k <= |actions|
  {
    forall j | i <= j < k && ReplyAt(p, db, actions, j).Claimed? :: ReplyAt(p, db, actions, j).lease.tenant != t
  }

  /** Successful claims in the interval [i, k). */
  ghost function ClaimsIn(p: Policy, db: Tables, actions: seq<Action>, i: nat, k: nat): nat
    requires i <= k <= |actions|
    decreases k - i
  {
    if i == k then 0
    else ClaimsIn(p, db, actions, i, k - 1) + (if ReplyAt(p, db, actions, k - 1).Claimed? then 1 else 0)
  }

  /** A successful claim for another tenant moves that tenant from ahead of t to behind it, and
      no other step puts anyone ahead of t. */
  lemma StepAhead(p: Policy, s: Tables, a: Action, t: Uuid)
    requires Inv(p, s) && t in s.tenants
    requires Apply(p, s, a).1.Claimed? ==>
               a.op.Claiming? && Eligible(p, At(s, a.now), a.op.allowed, t) && Apply(p, s, a).1.lease.tenant != t
    ensures var (s', reply) := Apply(p, s, a);
            && s'.tenants.Keys == s.tenants.Keys
            && |Ahead(s'.tenants, t)| + (if reply.Claimed? then 1 else 0) <= |Ahead(s.tenants, t)|
  {
    hide Perform, Inv;
    InvAt(p, s, a.now);
    var d := InvApply(p, s, a);
    var s0, s', reply := At(s, a.now), Apply(p, s, a).0, Apply(p, s, a).1;
    if reply.Claimed? {
      ClaimFacts(p, s0, a.op);
      InvServed(p, s0);
      TakenTenants(p, s0, s', d);
      var u := reply.lease.tenant;
      assert ServedBefore(s0.tenants, u, t);
      assert Ahead(s'.tenants, t) == Ahead(s.tenants, t) - {u};
    } else {
      OtherTenants(p, s0, s', d, t);
    }
  }

  lemma InvServed(p: Policy, db: Tables)
    requires Inv(p, db)
    ensures forall t | t in db.tenants :: db.tenants[t].lastServed <= db.dispatchSeq
  {
    hide RowsOk, EffectsOk, QueuesOk, KeysOk;
    forall t | t in db.tenants ensures db.tenants[t].lastServed <= db.dispatchSeq {
      assert TenantOk(p, db, t);
    }
  }

  lemma TakenTenants(p: Policy, db: Tables, db': Tables, d: Delta)
    requires d.Take? && IsDelta(p, db, db', d)
    ensures d.r in db.runs && db.runs[d.r].tenant in db.tenants
    ensures var t := db.runs[d.r].tenant;
            && db'.tenants.Keys == db.tenants.Keys
            && db'.tenants[t].lastServed == db.dispatchSeq + 1
            && forall u | u in db.tenants && u != t :: db'.tenants[u] == db.tenants[u]
  {
  }

  lemma OtherTenants(p: Policy, db: Tables, db': Tables, d: Delta, t: Uuid)
    requires !d.Take? && IsDelta(p, db, db', d) && t in db.tenants
    ensures db'.tenants.Keys == db.tenants.Keys
    ensures Ahead(db'.tenants, t) == Ahead(db.tenants, t)
  {
    hide RowOk, LifeOf;
    assert forall u | u in db.tenants :: u in db'.tenants && db'.tenants[u].lastServed == db.tenants[u].lastServed;
  }

  lemma {:induction false} AheadFalls(p: Policy, db: Tables, actions: seq<Action>, i: nat, k: nat, t: Uuid)
    requires Inv(p, db) && i <= k <= |actions| && t in Before(p, db, actions, i).tenants
    requires StaysEligible(p, db, actions, i, k, t) && NotServed(p, db, actions, i, k, t)
    ensures Before(p, db, actions, k).tenants.Keys == Before(p, db, actions, i).tenants.Keys
    ensures ClaimsIn(p, db, actions, i, k) + |Ahead(Before(p, db, actions, k).tenants, t)|
            <= |Ahead(Before(p, db, actions, i).tenants, t)|
    decreases k - i
  {
    hide Perform, Inv, Exec, Eligible, Ahead;
    if i < k {
      AheadFalls(p, db, actions, i, k - 1, t);
      InvBefore(p, db, actions, k - 1);
      NextState(p, db, actions, k - 1);
      StepAhead(p, Before(p, db, actions, k - 1), actions[k - 1], t);
    }
  }

  /** Bounded overtaking: with N tenants, while t stays eligible and allowed at most N - 1
      successful claims go to others before one goes to t. */
  lemma BoundedOvertaking(p: Policy, db: Tables, actions: seq<Action>, i: nat, k: nat, t: Uuid)
    requires Inv(p, db) && i <= k <= |actions| && t in Before(p, db, actions, i).tenants
    requires StaysEligible(p, db, actions, i, k, t) && NotServed(p, db, actions, i, k, t)
    ensures ClaimsIn(p, db, actions, i, k) <= |Before(p, db, actions, i).tenants| - 1
  {
    AheadFalls(p, db, actions, i, k, t);
    hide Perform, Inv, Exec, Eligible, StaysEligible, NotServed, ClaimsIn;
    AheadBound(Before(p, db, actions, i).tenants, t);
  }

  lemma AheadBound(tenants: map<Uuid, Tenant>, t: Uuid)
    requires t in tenants
    ensures |Ahead(tenants, t)| <= |tenants| - 1
  {
    Collections.SubsetSize(Ahead(tenants, t), tenants.Keys - {t});
    assert |tenants.Keys - {t}| == |tenants| - 1;
  }
}

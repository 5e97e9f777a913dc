/** What the grant forest guarantees in every execution: budgets, leases, revocation and
    reservations. */
module Allowances {
  import opened Bytes
  import Collections
  import opened States
  import opened Grants
  import opened Db
  import opened Scheduler
  import opened Execution
  import opened Rows
  import opened Deltas
  import opened Invariants
  import opened Reachable
  import opened Fencing
  import opened Forest
  import opened Budget
  import Lifecycle
  import Corruption
  import EventChain

  /** Every lease ends no later than the grant of its run, and within one lease time. */
  predicate LeasesOk(p: Policy, db: Tables) {
    forall r | r in db.runs :: WithinGrant(db.grants, db.runs[r]) && WithinTerm(p, db.clock, db.runs[r])
  }

  ghost predicate GrantInv(p: Policy, db: Tables) {
    Inv(p, db) && BudgetOk(db) && LeasesOk(p, db)
  }

  lemma GrantInvInitially(p: Policy, db: Tables)
    requires ValidPolicy(p) && Initial(db)
    ensures GrantInv(p, db)
  {
    InvInitially(p, db);
    hide Inv;
  }

  // ---------------------------------------------------------------- leases end with their grants

  lemma ClaimWithin(p: Policy, db: Tables, op: Op)
    requires BudgetOk(db) && Perform(p, db, op).1.Claimed?
    requires var lease := Perform(p, db, op).1.lease; lease.run in db.runs && lease.tenant == db.runs[lease.run].tenant
    ensures var (db', reply) := Perform(p, db, op);
            && reply.lease.run in db'.runs && db'.runs[reply.lease.run].leaseExpires.Some?
            && LiveLine(db.grants, db.runs[reply.lease.run].request.grantId, db.clock)
            && db'.runs[reply.lease.run].leaseExpires.value
               <= Expiry(db.grants[db.runs[reply.lease.run].request.grantId].authority)
            && db'.runs[reply.lease.run].leaseExpires.value <= db'.clock + p.leaseMs * 1000
  {
    ClaimBound(p, db, op);
    hide Perform;
    ClaimFacts(p, db, op);
    var lease := Perform(p, db, op).1.lease;
    var g := db.runs[lease.run].request.grantId;
    ChainLoads(db.grants, lease.tenant, g);
    LiveChainIsLine(db.grants, g, db.clock);
    LeafExpiresFirst(db.grants, g);
    hide Claim, LoadChain, LiveLine, LiveChain, ForestOk, Chain, MinExpiry, UseOk, ReservedOk, AllowedOk, Chosen;
  }

  lemma ClaimBound(p: Policy, db: Tables, op: Op)
    requires Perform(p, db, op).1.Claimed?
    ensures var (db', reply) := Perform(p, db, op);
            reply.lease.run in db.runs
            && LeaseBounded(p, db, db', LoadChain(db.grants, reply.lease.tenant, db.runs[reply.lease.run].request.grantId),
                            reply.lease)
  {
    RepliesBelong(p, db, op);
    hide Claim, LoadChain, LeaseBounded, Chosen;
  }

  lemma DeltaWithin(p: Policy, db: Tables, db': Tables, d: Delta)
    requires LeasesOk(p, db) && IsDelta(p, db, db', d) && Extends(db.grants, db'.grants)
    requires d.Take? ==> d.r in db'.runs && WithinGrant(db.grants, db'.runs[d.r]) && WithinTerm(p, db'.clock, db'.runs[d.r])
    ensures LeasesOk(p, db')
  {
    hide Chained, Replay, Claims, LifeOf, QueueRoom, QueueFull, NewIdentity, LiveLease, AttemptShape;
    forall r | r in db'.runs ensures WithinGrant(db'.grants, db'.runs[r]) && WithinTerm(p, db'.clock, db'.runs[r]) {
      if d == Same || r != d.r {
        assert WithinGrant(db.grants, db.runs[r]) && WithinTerm(p, db.clock, db.runs[r]);
      } else {
        assert RowOk(p, r, db'.runs[r], db'.events[r]);
        assert !d.Insert? ==> WithinGrant(db.grants, db.runs[r]) && WithinTerm(p, db.clock, db.runs[r]);
      }
    }
  }

  lemma GrantInvPerform(p: Policy, db: Tables, op: Op)
    requires GrantInv(p, db)
    ensures GrantInv(p, Perform(p, db, op).0) && Onward(db, Perform(p, db, op).0)
  {
    hide Inv, IsDelta, BudgetOk, Perform;
    var d := InvPerform(p, db, op);
    BudgetPerform(p, db, op, d);
    if d.Take? {
      TakeWithin(p, db, op, d);
    }
    DeltaWithin(p, db, Perform(p, db, op).0, d);
  }

  lemma TakeWithin(p: Policy, db: Tables, op: Op, d: Delta)
    requires BudgetOk(db) && d.Take? && IsDelta(p, db, Perform(p, db, op).0, d) && Agrees(d, Perform(p, db, op).1)
    ensures d.r in Perform(p, db, op).0.runs && WithinGrant(db.grants, Perform(p, db, op).0.runs[d.r])
    ensures WithinTerm(p, Perform(p, db, op).0.clock, Perform(p, db, op).0.runs[d.r])
  {
    hide Perform, BudgetOk;
    DeltaRow(p, db, Perform(p, db, op).0, d);
    hide IsDelta;
    ClaimFacts(p, db, op);
    ClaimWithin(p, db, op);
  }

  lemma GrantInvAt(p: Policy, db: Tables, now: Time)
    requires GrantInv(p, db)
    ensures GrantInv(p, At(db, now)) && Onward(db, At(db, now))
  {
    InvAt(p, db, now);
    AtMoves(db, now);
    hide Inv, BudgetOk, RunsMove, Onward;
    RunsMoveKeeps(db, At(db, now));
    MovesOnward(db, At(db, now));
  }

  lemma AtMoves(db: Tables, now: Time)
    ensures RunsMove(db, At(db, now)) && At(db, now).clock >= db.clock
  {
  }

  lemma GrantInvApply(p: Policy, db: Tables, a: Action)
    requires GrantInv(p, db)
    ensures GrantInv(p, Apply(p, db, a).0) && Onward(db, Apply(p, db, a).0)
  {
    GrantInvAt(p, db, a.now);
    GrantInvPerform(p, At(db, a.now), a.op);
    hide GrantInv, Perform;
  }

  /** Forest, budgets and leases are in order after any sequence of actions. */
  lemma {:induction false} GrantInvReachable(p: Policy, db: Tables, actions: seq<Action>)
    requires GrantInv(p, db)
    ensures GrantInv(p, Exec(p, db, actions))
  {
    hide GrantInv, Onward;
    if actions != [] {
      var before := actions[..|actions| - 1];
      GrantInvReachable(p, db, before);
      GrantInvApply(p, Exec(p, db, before), actions[|actions| - 1]);
    }
  }

  lemma GrantInvBefore(p: Policy, db: Tables, actions: seq<Action>, k: nat)
    requires GrantInv(p, db) && k <= |actions|
    ensures GrantInv(p, Before(p, db, actions, k))
  {
    GrantInvReachable(p, db, actions[..k]);
  }

  lemma OnwardTransitive(a: Tables, b: Tables, c: Tables)
    requires Onward(a, b) && Onward(b, c)
    ensures Onward(a, c)
  {
  }

  lemma {:induction false} OnwardAlways(p: Policy, db: Tables, actions: seq<Action>, i: nat, k: nat)
    requires GrantInv(p, db) && i <= k <= |actions|
    ensures Onward(Before(p, db, actions, i), Before(p, db, actions, k))
    decreases k - i
  {
    hide GrantInv, Onward, Apply, Exec;
    if i == k {
      SameOnward(Before(p, db, actions, i));
    } else {
      OnwardAlways(p, db, actions, i, k - 1);
      GrantInvBefore(p, db, actions, k - 1);
      GrantInvApply(p, Before(p, db, actions, k - 1), actions[k - 1]);
      NextState(p, db, actions, k - 1);
      OnwardTransitive(Before(p, db, actions, i), Before(p, db, actions, k - 1), Before(p, db, actions, k));
    }
  }

  // ---------------------------------------------------------------- budgets of subtrees

  /** The subtree budget: in every reachable state a grant's used_effects is the number of
      charged effects of the runs at or below it, however many descendants were created, and
      never more than its max_effects; each of those effects was allowed by the grant. */
  lemma SubtreeBudget(p: Policy, db: Tables, actions: seq<Action>, g: Uuid)
    requires ValidPolicy(p) && Initial(db) && g in Exec(p, db, actions).grants
    ensures var s := Exec(p, db, actions);
            && s.grants[g].used == |ChargedTo(s, g)| <= s.grants[g].authority.maxEffects <= 100
            && forall e | e in ChargedTo(s, g) ::
                 Allows(s.grants[g].authority, s.effects[e].action, s.effects[e].destination, s.effects[e].project)
  {
    GrantInvInitially(p, db);
    GrantInvReachable(p, db, actions);
    hide Inv, Exec, ReservedOk;
    var s := Exec(p, db, actions);
    assert NodeOk(s.grants, s.grants[g]);
    forall e | e in ChargedTo(s, g)
      ensures Allows(s.grants[g].authority, s.effects[e].action, s.effects[e].destination, s.effects[e].project)
    {
      assert AllowedBy(s, e, g);
    }
  }

  ghost function SumUsed(grants: map<Uuid, GrantRow>, s: set<Uuid>): int
    requires s <= grants.Keys
  {
    if s == {} then 0
    else
      var g :| g in s;
      grants[g].used + SumUsed(grants, s - {g})
  }

  /** Charged effects of runs at or below any grant of the set. */
  function ChargedToAny(db: Tables, s: set<Uuid>): set<EffectId> {
    set e | e in db.effects && db.effects[e].charged && exists g :: g in s && g in LineOf(db, e)
  }

  /** No grant of the set is above another. */
  predicate Incomparable(grants: map<Uuid, GrantRow>, s: set<Uuid>) {
    forall x, y | x in s && y in s && x != y :: x !in Line(grants, y)
  }

  lemma {:induction false} UseAddsUp(db: Tables, s: set<Uuid>)
    requires BudgetOk(db) && s <= db.grants.Keys && Incomparable(db.grants, s)
    ensures SumUsed(db.grants, s) == |ChargedToAny(db, s)|
  {
    if s != {} {
      var g :| g in s && SumUsed(db.grants, s) == db.grants[g].used + SumUsed(db.grants, s - {g});
      assert db.grants[g].used == |ChargedTo(db, g)|;
      ChargedApart(db, s, g);
      hide SumUsed, BudgetOk, ChargedTo, ChargedToAny, Line;
      UseAddsUp(db, s - {g});
    } else {
      assert ChargedToAny(db, s) == {};
    }
  }

  lemma ChargedApart(db: Tables, s: set<Uuid>, g: Uuid)
    requires ForestOk(db.grants) && RunsGranted(db) && g in s && Incomparable(db.grants, s)
    ensures ChargedToAny(db, s) == ChargedTo(db, g) + ChargedToAny(db, s - {g})
    ensures ChargedTo(db, g) !! ChargedToAny(db, s - {g})
  {
    hide ForestOk, Line;
    forall e ensures e in ChargedToAny(db, s) <==> e in ChargedTo(db, g) || e in ChargedToAny(db, s - {g}) {
    }
    forall e | e in ChargedTo(db, g) && e in ChargedToAny(db, s - {g}) ensures false {
      var x :| x in s - {g} && x in LineOf(db, e);
      LineComparable(db.grants, x, g, db.runs[e.run].request.grantId);
    }
  }

  /** However a subtree is cut into separate subtrees, their use adds up to no more than the use
      of the grant at its top; the children of a grant are one such cut. */
  lemma SeparateSubtrees(db: Tables, a: Uuid, s: set<Uuid>)
    requires BudgetOk(db) && a in db.grants && s <= db.grants.Keys
    requires Incomparable(db.grants, s) && forall g | g in s :: a in Line(db.grants, g)
    ensures SumUsed(db.grants, s) <= db.grants[a].used <= db.grants[a].authority.maxEffects
  {
    UseAddsUp(db, s);
    assert NodeOk(db.grants, db.grants[a]);
    forall e | e in ChargedToAny(db, s) ensures e in ChargedTo(db, a) {
      var g :| g in s && g in LineOf(db, e);
      LineTransitive(db.grants, a, g, db.runs[e.run].request.grantId);
    }
    Collections.SubsetSize(ChargedToAny(db, s), ChargedTo(db, a));
  }

  function Children(grants: map<Uuid, GrantRow>, a: Uuid): (s: set<Uuid>)
    ensures s <= grants.Keys
  {
    set g | g in grants && grants[g].parent == Some(a)
  }

  lemma ChildrenAreSeparate(grants: map<Uuid, GrantRow>, a: Uuid)
    requires ForestOk(grants) && a in grants
    ensures Incomparable(grants, Children(grants, a))
    ensures forall g | g in Children(grants, a) :: a in Line(grants, g)
  {
    hide Line;
    forall g | g in Children(grants, a) ensures a in Line(grants, g) {
      LineStep(grants, g);
      LineStep(grants, a);
    }
    forall x, y | x in Children(grants, a) && y in Children(grants, a) && x != y ensures x !in Line(grants, y) {
      SiblingsApart(grants, a, x, y);
    }
  }

  lemma SiblingsApart(grants: map<Uuid, GrantRow>, a: Uuid, x: Uuid, y: Uuid)
    requires ForestOk(grants) && a in grants && x in grants && y in grants && x != y
    requires grants[x].parent == Some(a) && grants[y].parent == Some(a)
    ensures x !in Line(grants, y)
  {
    LineStep(grants, x);
    LineStep(grants, y);
    hide Line, ForestOk;
    if x in Line(grants, a) {
      LineAttenuates(grants, a, x);
    }
  }

  // ---------------------------------------------------------------- chains

  /** In every reachable state the chain of a stored grant can be read: at most five grants, root
      first, each above one more widely authorized; and the leaf expires no later than any. */
  lemma StoredChainsLoad(p: Policy, db: Tables, actions: seq<Action>, g: Uuid)
    requires ValidPolicy(p) && Initial(db) && g in Exec(p, db, actions).grants
    ensures var grants := Exec(p, db, actions).grants;
            var loaded := LoadChain(grants, grants[g].tenant, g);
            && loaded.Ok? && 0 < |loaded.value| <= 5
            && (forall i, j | 0 <= i <= j < |loaded.value| ::
                  var child, above := loaded.value[j].authority, loaded.value[i].authority;
                  && child.actions <= above.actions && child.destinations <= above.destinations
                  && child.projects <= above.projects
                  && child.expiresAtMs <= above.expiresAtMs && child.maxEffects <= above.maxEffects)
            && (forall i | 0 <= i < |loaded.value| ::
                  grants[g].authority.expiresAtMs <= loaded.value[i].authority.expiresAtMs)
            && MinExpiry(loaded.value) == grants[g].authority.expiresAtMs * 1000
  {
    hide *;
    GrantInvInitially(p, db);
    GrantInvReachable(p, db, actions);
    GrantForest(p, Exec(p, db, actions));
    ChainInOrder(Exec(p, db, actions).grants, g);
  }

  lemma GrantForest(p: Policy, s: Tables)
    requires GrantInv(p, s)
    ensures ForestOk(s.grants) && s.clock >= 0
  {
  }

  lemma ChainInOrder(grants: map<Uuid, GrantRow>, g: Uuid)
    requires ForestOk(grants) && g in grants
    ensures var loaded := LoadChain(grants, grants[g].tenant, g);
            && loaded.Ok? && 0 < |loaded.value| <= 5
            && (forall i, j | 0 <= i <= j < |loaded.value| ::
                  var child, above := loaded.value[j].authority, loaded.value[i].authority;
                  && child.actions <= above.actions && child.destinations <= above.destinations
                  && child.projects <= above.projects
                  && child.expiresAtMs <= above.expiresAtMs && child.maxEffects <= above.maxEffects)
            && (forall i | 0 <= i < |loaded.value| ::
                  grants[g].authority.expiresAtMs <= loaded.value[i].authority.expiresAtMs)
            && MinExpiry(loaded.value) == grants[g].authority.expiresAtMs * 1000
  {
    ChainLoads(grants, grants[g].tenant, g);
    ChainShape(grants, g);
    LeafExpiresFirst(grants, g);
    ChainAttenuates(grants, g);
    hide ForestOk, LoadChain, Chain, MinExpiry, Line;
    var chain := Chain(grants, g);
    assert chain[|chain| - 1].authority == grants[g].authority;
  }

  lemma ChainAttenuates(grants: map<Uuid, GrantRow>, g: Uuid)
    requires ForestOk(grants) && g in grants
    ensures var chain := Chain(grants, g);
            forall i, j | 0 <= i <= j < |chain| :: Attenuates(chain[j].authority, chain[i].authority)
  {
    var chain := Chain(grants, g);
    ChainShape(grants, g);
    ChainPlaces(grants, g);
    hide Chain, Attenuates, ValidShape;
    forall k | 0 < k < |chain| ensures Attenuates(chain[k].authority, chain[k - 1].authority) {
      assert NodeOk(grants, grants[chain[k].id]);
    }
    forall i, j | 0 <= i <= j < |chain| ensures Attenuates(chain[j].authority, chain[i].authority) {
      AttenuatesAll(chain, i, j);
    }
  }

  /** The lease a claim computes from the whole chain is the one a heartbeat at the same instant
      computes from the leaf. */
  lemma LeaseFormulasAgree(p: Policy, grants: map<Uuid, GrantRow>, g: Uuid, now: Time)
    requires ForestOk(grants) && g in grants
    ensures LeaseExpiry(p, Chain(grants, g), now) == Min(now + p.leaseMs * 1000, Expiry(grants[g].authority))
  {
    LeafExpiresFirst(grants, g);
  }

  // ---------------------------------------------------------------- leases and revocation

  /** In every reachable state a lease ends no later than any ancestor of the run's grant,
      although a heartbeat reads the leaf alone. */
  lemma LeaseWithinAncestors(p: Policy, db: Tables, actions: seq<Action>, r: Uuid, g: Uuid)
    requires ValidPolicy(p) && Initial(db) && r in Exec(p, db, actions).runs
    requires g in Line(Exec(p, db, actions).grants, Exec(p, db, actions).runs[r].request.grantId)
    ensures var s := Exec(p, db, actions);
            s.runs[r].leaseExpires.Some? ==> s.runs[r].leaseExpires.value <= Expiry(s.grants[g].authority)
  {
    GrantInvInitially(p, db);
    GrantInvReachable(p, db, actions);
    hide Inv, Exec, UseOk, ReservedOk, AllowedOk;
    var s := Exec(p, db, actions);
    assert WithinGrant(s.grants, s.runs[r]);
    LeafExpiresFirst(s.grants, s.runs[r].request.grantId);
  }

  /** Once a grant is revoked, no run at or below it is ever claimed again. */
  lemma RevokedForGood(p: Policy, db: Tables, actions: seq<Action>, i: nat, k: nat, r: Uuid, g: Uuid)
    requires GrantInv(p, db) && i <= k < |actions| && r in Before(p, db, actions, i).runs
    requires g in Line(Before(p, db, actions, i).grants, Before(p, db, actions, i).runs[r].request.grantId)
    requires Before(p, db, actions, i).grants[g].revoked
    ensures !ClaimsRun(ReplyAt(p, db, actions, k), r)
  {
    var s, t := Before(p, db, actions, i), Before(p, db, actions, k);
    GrantInvBefore(p, db, actions, i);
    GrantInvBefore(p, db, actions, k);
    OnwardAlways(p, db, actions, i, k);
    GrantInvAt(p, t, actions[k].now);
    hide *;
    hide GrantInv, Exec, Apply;
    StillRevoked(p, s, t, r, g);
    if ClaimsRun(ReplyAt(p, db, actions, k), r) {
      RevokedBars(p, At(t, actions[k].now), actions[k].op, r, g);
    }
  }

  lemma StillRevoked(p: Policy, s: Tables, t: Tables, r: Uuid, g: Uuid)
    requires GrantInv(p, s) && Onward(s, t)
    requires r in s.runs && g in Line(s.grants, s.runs[r].request.grantId) && s.grants[g].revoked
    ensures r in t.runs && g in Line(t.grants, t.runs[r].request.grantId) && t.grants[g].revoked
  {
    hide Inv, UseOk, ReservedOk, AllowedOk;
    LinesStay(s.grants, t.grants);
    hide ForestOk, Line;
  }

  lemma RevokedBars(p: Policy, db: Tables, op: Op, r: Uuid, g: Uuid)
    requires GrantInv(p, db) && r in db.runs
    requires g in Line(db.grants, db.runs[r].request.grantId) && db.grants[g].revoked
    ensures !ClaimsRun(Perform(p, db, op).1, r)
  {
    hide Perform, BudgetOk, Inv;
    if ClaimsRun(Perform(p, db, op).1, r) {
      ClaimFacts(p, db, op);
      ClaimWithin(p, db, op);
      assert false;
    }
  }

  /** A heartbeat reads the leaf grant alone: it renews exactly when its lease is held and the
      leaf itself is neither revoked nor expired. */
  lemma RenewsExactly(p: Policy, db: Tables, r: Uuid, worker: Text, allowed: seq<Uuid>, epoch: int)
    requires GrantInv(p, db) && WorkerName(worker) && epoch > 0 && Visible(db, r, allowed)
    ensures var g := db.runs[r].request.grantId;
            && g in db.grants
            && (Heartbeat(p, db, r, worker, allowed, epoch).1.Renewed? <==>
                  Holds(db.runs[r], worker, epoch, db.clock) && !db.grants[g].revoked && Expiry(db.grants[g].authority) > db.clock)
  {
    HeartbeatArguments(p, db);
    hide Inv, ForestOk, UseOk, ReservedOk, AllowedOk;
  }

  lemma HeartbeatArguments(p: Policy, db: Tables)
    requires Inv(p, db)
    ensures 1 <= p.leaseMs <= 6000
  {
  }

  predicate AncestorRevoked(grants: map<Uuid, GrantRow>, g: Uuid) {
    exists x | x in grants && x in Line(grants, g) :: x != g && grants[x].revoked
  }

  /** A reader might expect a heartbeat to renew exactly under a held lease and a live line, as a
      claim demands. It does so if and only if the lease is not held, the leaf is dead, or no
      proper ancestor of the leaf is revoked. */
  lemma RenewalAgreesExactly(p: Policy, db: Tables, r: Uuid, worker: Text, allowed: seq<Uuid>, epoch: int)
    requires GrantInv(p, db) && WorkerName(worker) && epoch > 0 && Visible(db, r, allowed)
    ensures var g, held := db.runs[r].request.grantId, Holds(db.runs[r], worker, epoch, db.clock);
            var renewed := Heartbeat(p, db, r, worker, allowed, epoch).1.Renewed?;
            var leafLive := g in db.grants && !db.grants[g].revoked && Expiry(db.grants[g].authority) > db.clock;
            (renewed <==> held && LiveLine(db.grants, g, db.clock)) <==> !(held && leafLive && AncestorRevoked(db.grants, g))
  {
    RenewsExactly(p, db, r, worker, allowed, epoch);
    hide Inv, UseOk, ReservedOk, AllowedOk, LeasesOk, Heartbeat, Holds, LiveLine, AncestorRevoked, ForestOk, Line, Visible;
    LiveLineSplits(db.grants, db.runs[r].request.grantId, db.clock);
  }

  lemma LiveLineSplits(grants: map<Uuid, GrantRow>, g: Uuid, now: Time)
    requires ForestOk(grants) && g in grants
    ensures LiveLine(grants, g, now) <==>
            !grants[g].revoked && Expiry(grants[g].authority) > now && !AncestorRevoked(grants, g)
  {
    LineStep(grants, g);
    hide ForestOk, Line;
  }

  /** So revoking a proper ancestor goes unseen by every heartbeat of the run, although no claim
      succeeds under it any more. */
  lemma HeartbeatMissesAncestors(p: Policy, db: Tables, r: Uuid, x: Uuid, worker: Text, allowed: seq<Uuid>, epoch: int)
    requires GrantInv(p, db) && r in db.runs
    requires x in Line(db.grants, db.runs[r].request.grantId) && x != db.runs[r].request.grantId
    ensures var revoked := RevokeGrant(db, db.runs[r].tenant, x).0;
            && x in revoked.grants && revoked.grants[x].revoked
            && Heartbeat(p, revoked, r, worker, allowed, epoch).1 == Heartbeat(p, db, r, worker, allowed, epoch).1
  {
    hide Inv, UseOk, ReservedOk, AllowedOk;
    LineAttenuates(db.grants, db.runs[r].request.grantId, x);
    RevokeExactly(db, db.runs[r].tenant, x);
    hide ForestOk, RevokeGrant, Line, Heartbeat, LeasesOk;
    if !db.grants[x].revoked {
      HeartbeatReadsLeaf(p, db, db.grants[x := db.grants[x].(revoked := true)], r, worker, allowed, epoch);
    }
  }

  lemma HeartbeatReadsLeaf(p: Policy, db: Tables, grants: map<Uuid, GrantRow>, r: Uuid, worker: Text,
                           allowed: seq<Uuid>, epoch: int)
    requires r in db.runs && db.runs[r].request.grantId in db.grants && db.runs[r].request.grantId in grants
    requires grants[db.runs[r].request.grantId] == db.grants[db.runs[r].request.grantId]
    ensures Heartbeat(p, db.(grants := grants), r, worker, allowed, epoch).1 == Heartbeat(p, db, r, worker, allowed, epoch).1
  {
    hide WorkerName, Holds;
  }

  // ---------------------------------------------------------------- reservations repeat

  /** Once an effect is charged, every later reservation of it is answered Existing and changes
      nothing, whatever has been revoked, has expired or is exhausted by then. */
  lemma ReservedForGood(p: Policy, db: Tables, actions: seq<Action>, i: nat, k: nat, tenant: Uuid, e: EffectId)
    requires GrantInv(p, db) && i <= k < |actions|
    requires e in Before(p, db, actions, i).effects && Before(p, db, actions, i).effects[e].charged
    requires e.run in Before(p, db, actions, i).runs && Before(p, db, actions, i).runs[e.run].tenant == tenant
    requires actions[k].op == Reserving(tenant, e.run, e.ordinal)
    ensures ReplyAt(p, db, actions, k) == Charged(true)
    ensures Before(p, db, actions, k + 1) == At(Before(p, db, actions, k), actions[k].now)
  {
    var t := Before(p, db, actions, k);
    GrantInvBefore(p, db, actions, k);
    OnwardAlways(p, db, actions, i, k);
    GrantInvAt(p, t, actions[k].now);
    NextState(p, db, actions, k);
    hide GrantInv, Exec;
    ReservedStill(p, Before(p, db, actions, i), t, actions[k], tenant, e);
  }

  lemma ReservedStill(p: Policy, s: Tables, t: Tables, a: Action, tenant: Uuid, e: EffectId)
    requires Onward(s, t) && GrantInv(p, At(t, a.now)) && a.op == Reserving(tenant, e.run, e.ordinal)
    requires e in s.effects && s.effects[e].charged && e.run in s.runs && s.runs[e.run].tenant == tenant
    ensures Apply(p, t, a) == (At(t, a.now), Charged(true))
  {
    hide Inv, Extends, BudgetOk, ReserveChain, Chargeable, LeasesOk;
    ReservationExactly(At(t, a.now), tenant, e);
  }

  // ---------------------------------------------------------------- claims

  /** In a reachable state a well-formed claim fails only when the dispatch sequence is used
      up: the chain of the chosen run can always be read. */
  lemma ClaimFailsOnlyAtExhaustion(p: Policy, db: Tables, worker: Text, allowed: seq<Uuid>, slots: int, later: Time)
    requires GrantInv(p, db)
    ensures var reply := Claim(p, db, worker, allowed, slots, later).1;
            reply.Refused? <==> !ClaimArguments(p, worker, allowed, slots)
                                || Corruption.SequenceExhausted(p, db, worker, allowed, slots)
  {
    Corruption.ClaimCorruptOnlyAtExhaustion(p, db, worker, allowed, slots, later);
    Corruption.TotalsInRange(p, db);
    ClaimUnfolds(p, db, worker, allowed, slots, later);
    hide Inv, Claim, ClaimCandidate, Chosen, ClaimArguments, ClaimRun, LoadChain, Corruption.SequenceExhausted;
    if ClaimArguments(p, worker, allowed, slots) && ClaimCandidate(p, db, allowed).Some? {
      CandidateLoads(p, db, worker, allowed, slots, later);
    }
  }

  lemma ClaimUnfolds(p: Policy, db: Tables, worker: Text, allowed: seq<Uuid>, slots: int, later: Time)
    requires 0 <= ActiveTotal(db.tenants) <= 4
    ensures var candidate := ClaimCandidate(p, db, allowed);
            Claim(p, db, worker, allowed, slots, later) ==
            if !ClaimArguments(p, worker, allowed, slots) then (db, Refused(Configuration))
            else if ActiveTotal(db.tenants) >= p.maxActiveGlobal || Count(db.runs, SlotHeldBy(worker)) >= 2
                    || candidate.None? then (db, NoClaim)
            else ClaimRun(p, db, worker, candidate.value.0, candidate.value.1,
                          LoadChain(db.grants, candidate.value.0, db.runs[candidate.value.1].request.grantId), later)
  {
    hide ClaimArguments, ClaimCandidate, ClaimRun, LoadChain;
  }

  lemma CandidateLoads(p: Policy, db: Tables, worker: Text, allowed: seq<Uuid>, slots: int, later: Time)
    requires GrantInv(p, db) && ClaimArguments(p, worker, allowed, slots) && ClaimCandidate(p, db, allowed).Some?
    ensures var (t, r) := ClaimCandidate(p, db, allowed).value;
            var claimed := ClaimRun(p, db, worker, t, r, LoadChain(db.grants, t, db.runs[r].request.grantId), later);
            claimed.1.Refused? ==> claimed.1 == Refused(CorruptScheduler)
  {
    var (t, r) := ClaimCandidate(p, db, allowed).value;
    ClaimCandidateFacts(p, db, allowed);
    Corruption.TotalsInRange(p, db);
    InvArguments(p, db, worker, allowed, slots);
    Lifecycle.InvReady(p, db, r);
    ChainLoads(db.grants, t, db.runs[r].request.grantId);
    hide Inv, ForestOk, UseOk, ReservedOk, AllowedOk, ClaimCandidate, Chosen, ClaimArguments, ClaimRun, LoadChain;
    ClaimRunRefusals(p, db, worker, t, r, Chain(db.grants, db.runs[r].request.grantId), later);
  }

  lemma InvArguments(p: Policy, db: Tables, worker: Text, allowed: seq<Uuid>, slots: int)
    requires Inv(p, db) && ClaimArguments(p, worker, allowed, slots)
    ensures WorkerName(worker) && db.dispatchSeq <= I64_MAX
  {
    hide RowsOk, EffectsOk, QueuesOk, KeysOk, TenantOk;
  }

  lemma ClaimRunRefusals(p: Policy, db: Tables, worker: Text, t: Uuid, r: Uuid, chain: seq<Grant>, later: Time)
    requires ClaimReady(p, db, t, r) && Ready(p, db, r) && db.tenants[t].activeCount >= 0 && db.dispatchSeq <= I64_MAX
    requires WorkerName(worker)
    ensures ClaimRun(p, db, worker, t, r, Ok(chain), later).1.Refused? ==>
              ClaimRun(p, db, worker, t, r, Ok(chain), later).1 == Refused(CorruptScheduler)
  {
    if !LiveChain(chain, db.clock) {
      var row := db.runs[r].(state := Failed, errorCode := Some(GRANT_DENIED_CODE));
      var log := RecordMovesTwice(p, db, r, db.runs[r], row, EventChain.GrantDenied, EventChain.GrantInactive,
                                  EventChain.RunFailed, EventChain.DeniedFailure);
    } else if db.dispatchSeq < I64_MAX {
      var log := LeaseWritten(p, db, worker, t, r, chain, later);
    }
  }
}

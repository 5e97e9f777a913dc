/** The hierarchical effect budget: every effect charges each ancestor of its run's grant once. */
module Budget {
  import opened Bytes
  import opened Domain
  import opened States
  import opened Grants
  import opened Db
  import opened Scheduler
  import opened Execution
  import opened Deltas
  import opened Invariants
  import opened Forest

  // ---------------------------------------------------------------- the invariant

  /** The grant of the effect's run and all its ancestors. */
  function LineOf(db: Tables, e: EffectId): set<Uuid> {
    if e.run in db.runs then Line(db.grants, db.runs[e.run].request.grantId) else {}
  }

  /** The charged effects of runs whose grant lies at or below g. */
  function ChargedTo(db: Tables, g: Uuid): set<EffectId> {
    set e | e in db.effects && db.effects[e].charged && g in LineOf(db, e)
  }

  predicate RunsGranted(db: Tables) {
    forall r | r in db.runs ::
      db.runs[r].request.grantId in db.grants && db.grants[db.runs[r].request.grantId].tenant == db.runs[r].tenant
  }

  predicate EffectsOwned(db: Tables) {
    forall e | e in db.effects :: e.run in db.runs
  }

  predicate UseOk(db: Tables) {
    forall g | g in db.grants :: db.grants[g].used == |ChargedTo(db, g)|
  }

  /** A charged effect's reservation rows are its whole ancestry, and another effect has none. */
  predicate ReservedOk(db: Tables) {
    && (forall x | x in db.reservations :: x.effect in db.effects)
    && forall e | e in db.effects :: ReservedFor(db.reservations, e) == if db.effects[e].charged then LineOf(db, e) else {}
  }

  predicate AllowedBy(db: Tables, e: EffectId, g: Uuid)
    requires e in db.effects
  {
    g in db.grants && Allows(db.grants[g].authority, db.effects[e].action, db.effects[e].destination, db.effects[e].project)
  }

  /** A charged effect is allowed by the grant of its run and by every ancestor. */
  predicate AllowedOk(db: Tables) {
    forall e, g | e in db.effects && db.effects[e].charged && g in LineOf(db, e) :: AllowedBy(db, e, g)
  }

  predicate BudgetOk(db: Tables) {
    && db.clock >= 0 && ForestOk(db.grants) && RunsGranted(db) && EffectsOwned(db)
    && UseOk(db) && ReservedOk(db) && AllowedOk(db)
  }

  // ---------------------------------------------------------------- steps that charge nothing

  /** The same effects are charged, to the same grants. */
  predicate SameCharges(db: Tables, db': Tables) {
    && (forall e | e in db.effects ::
          e in db'.effects && db'.effects[e] == db.effects[e].(state := db'.effects[e].state)
          && LineOf(db', e) == LineOf(db, e))
    && (forall e | e in db'.effects && e !in db.effects :: !db'.effects[e].charged)
  }

  lemma ChargedSame(db: Tables, db': Tables, g: Uuid)
    requires SameCharges(db, db')
    ensures ChargedTo(db', g) == ChargedTo(db, g)
  {
    hide LineOf;
  }

  lemma ReservedSame(db: Tables, db': Tables)
    requires SameCharges(db, db') && db'.reservations == db.reservations && ReservedOk(db)
    ensures ReservedOk(db')
  {
    hide LineOf;
    forall e | e in db'.effects && e !in db.effects ensures ReservedFor(db.reservations, e) == {} {
    }
  }

  lemma AllowedSame(db: Tables, db': Tables)
    requires SameCharges(db, db') && Extends(db.grants, db'.grants) && AllowedOk(db)
    ensures AllowedOk(db')
  {
    hide LineOf, Allows;
    forall e, g | e in db'.effects && db'.effects[e].charged && g in LineOf(db', e) ensures AllowedBy(db', e, g) {
      assert AllowedBy(db, e, g);
    }
  }

  // ---------------------------------------------------------------- steps that only move runs

  predicate RunsMove(db: Tables, db': Tables) {
    && db'.clock >= db.clock
    && db'.grants == db.grants && db'.effects == db.effects && db'.reservations == db.reservations
    && (forall r | r in db.runs ::
          r in db'.runs && db'.runs[r].tenant == db.runs[r].tenant && db'.runs[r].request == db.runs[r].request)
    && (forall r | r in db'.runs && r !in db.runs :: GrantUsable(db, db'.runs[r].tenant, db'.runs[r].request.grantId))
  }

  lemma RunsMoveKeeps(db: Tables, db': Tables)
    requires BudgetOk(db) && RunsMove(db, db')
    ensures BudgetOk(db')
  {
    hide ForestOk, Line, ReservedOk, AllowedOk, ChargedTo;
    assert SameCharges(db, db');
    hide LineOf, SameCharges;
    ReservedSame(db, db');
    AllowedSame(db, db');
    forall g | g in db.grants ensures ChargedTo(db', g) == ChargedTo(db, g) {
      ChargedSame(db, db', g);
    }
  }

  // ---------------------------------------------------------------- steps that only change grants

  predicate GrantsMove(db: Tables, db': Tables) {
    && db'.clock == db.clock
    && db'.runs == db.runs && db'.effects == db.effects && db'.reservations == db.reservations
    && Extends(db.grants, db'.grants) && ForestOk(db'.grants)
    && forall g | g in db'.grants :: db'.grants[g].used == if g in db.grants then db.grants[g].used else 0
  }

  lemma GrantsMoveKeeps(db: Tables, db': Tables)
    requires BudgetOk(db) && GrantsMove(db, db')
    ensures BudgetOk(db')
  {
    GrantsMoveCharges(db, db');
    hide ForestOk, Line, ReservedOk, AllowedOk, UseOk, SameCharges;
    ReservedSame(db, db');
    AllowedSame(db, db');
    GrantsMoveUse(db, db');
  }

  lemma GrantsMoveCharges(db: Tables, db': Tables)
    requires ForestOk(db.grants) && RunsGranted(db) && GrantsMove(db, db')
    ensures SameCharges(db, db')
  {
    LinesStay(db.grants, db'.grants);
    hide ForestOk, Line;
  }

  lemma GrantsMoveUse(db: Tables, db': Tables)
    requires UseOk(db) && GrantsMove(db, db') && SameCharges(db, db')
    ensures UseOk(db')
  {
    hide ForestOk, LineOf, SameCharges, ChargedTo, Extends;
    forall g | g in db'.grants ensures db'.grants[g].used == |ChargedTo(db', g)| {
      ChargedSame(db, db', g);
      if g !in db.grants {
        NothingCharged(db, g);
      }
    }
  }

  lemma NothingCharged(db: Tables, g: Uuid)
    requires g !in db.grants
    ensures ChargedTo(db, g) == {}
  {
    hide Path;
  }

  lemma RevokeMoves(db: Tables, tenant: Uuid, g: Uuid)
    requires ForestOk(db.grants)
    ensures GrantsMove(db, RevokeGrant(db, tenant, g).0)
    ensures var (db', reply) := RevokeGrant(db, tenant, g);
            if g in db.grants && db.grants[g].tenant == tenant
            then reply == GrantRevoked(g) && g in db'.grants && db'.grants[g].revoked
            else reply == Refused(GrantNotFound) && db' == db
  {
    hide RevokeGrant, ForestOk, Extends;
    RevokeExactly(db, tenant, g);
    SelfExtends(db.grants);
    if g in db.grants {
      RevokedForest(db.grants, g);
    }
    SameGrantsMove(db);
  }

  lemma SameGrantsMove(db: Tables)
    requires ForestOk(db.grants)
    ensures GrantsMove(db, db)
  {
    SelfExtends(db.grants);
    hide ForestOk, Extends;
  }

  lemma RevokeExactly(db: Tables, tenant: Uuid, g: Uuid)
    requires ForestOk(db.grants)
    ensures RevokeGrant(db, tenant, g) ==
            if !(g in db.grants && db.grants[g].tenant == tenant) then (db, Refused(GrantNotFound))
            else if db.grants[g].revoked then (db, GrantRevoked(g))
            else (db.(grants := db.grants[g := db.grants[g].(revoked := true)]), GrantRevoked(g))
  {
    ChainLoads(db.grants, tenant, g);
    hide LoadChain, Chain, ForestOk;
  }

  lemma SelfExtends(grants: map<Uuid, GrantRow>)
    ensures Extends(grants, grants)
  {
  }

  lemma RevokedForest(grants: map<Uuid, GrantRow>, g: Uuid)
    requires ForestOk(grants) && g in grants
    ensures var grants' := grants[g := grants[g].(revoked := true)];
            ForestOk(grants') && Extends(grants, grants')
  {
    hide ValidShape, Attenuates;
    var grants' := grants[g := grants[g].(revoked := true)];
    forall x | x in grants' ensures NodeOk(grants', grants'[x]) {
      assert NodeOk(grants, grants[x]);
    }
  }

  /** A grant is created exactly when its authority is valid now, its parent's whole line is live
      and it attenuates that parent; the forest then stays in order. */
  lemma CreateMoves(db: Tables, tenant: Uuid, parent: Option<Uuid>, authority: Authority, id: Uuid)
    requires ForestOk(db.grants) && db.clock >= 0 && id !in db.grants
    ensures GrantsMove(db, CreateGrant(db, tenant, parent, authority, id).0)
    ensures var (db', reply) := CreateGrant(db, tenant, parent, authority, id);
            && (reply.GrantCreated? <==> MayCreate(db, tenant, parent, authority))
            && (reply.GrantCreated? ==>
                  && reply == GrantCreated(id) && id in db'.grants
                  && Line(db'.grants, id) == {id} + (if parent.Some? then Line(db.grants, parent.value) else {}))
            && (!reply.GrantCreated? ==> db' == db && reply != Refused(CorruptGrant))
  {
    var row := NewGrant(db, tenant, parent, authority);
    CreateExactly(db, tenant, parent, authority, id);
    hide CreateGrant, NewGrant, ForestOk, Line, NodeOk;
    if MayCreate(db, tenant, parent, authority) {
      NewNodeOk(db, tenant, parent, authority, id);
      ForestGrows(db.grants, id, row);
      hide MayCreate, Extends;
    }
  }

  lemma CreateExactly(db: Tables, tenant: Uuid, parent: Option<Uuid>, authority: Authority, id: Uuid)
    requires ForestOk(db.grants)
    ensures var (db', reply) := CreateGrant(db, tenant, parent, authority, id);
            if MayCreate(db, tenant, parent, authority)
            then reply == GrantCreated(id) && db' == db.(grants := db.grants[id := NewGrant(db, tenant, parent, authority)])
            else reply.Refused? && reply != Refused(CorruptGrant) && db' == db
  {
    hide LoadChain, ChildFault, ForestOk, Line, Grants.Valid, Attenuates, LiveLine;
    if parent.Some? {
      ChildFaults(db, tenant, parent.value, authority);
      hide MayCreate;
    }
  }

  function NewGrant(db: Tables, tenant: Uuid, parent: Option<Uuid>, authority: Authority): GrantRow {
    var depth := if parent.Some? && parent.value in db.grants then db.grants[parent.value].depth + 1 else 0;
    GrantRow(tenant, parent, depth, authority, 0, false)
  }

  lemma ForestGrows(grants: map<Uuid, GrantRow>, id: Uuid, row: GrantRow)
    requires ForestOk(grants) && id !in grants && NodeOk(grants[id := row], row)
    requires row.parent.Some? ==> row.parent.value in grants
    ensures var grants' := grants[id := row];
            && ForestOk(grants') && Extends(grants, grants')
            && Line(grants', id) == {id} + (if row.parent.Some? then Line(grants, row.parent.value) else {})
  {
    var grants' := grants[id := row];
    GrownNodes(grants, id, row);
    GrownExtends(grants, id, row);
    hide Line, NodeOk, ForestOk, Extends;
    LineStep(grants', id);
    LinesStay(grants, grants');
  }

  lemma GrownExtends(grants: map<Uuid, GrantRow>, id: Uuid, row: GrantRow)
    requires id !in grants
    ensures Extends(grants, grants[id := row])
  {
  }

  lemma GrownNodes(grants: map<Uuid, GrantRow>, id: Uuid, row: GrantRow)
    requires ForestOk(grants) && id !in grants && NodeOk(grants[id := row], row)
    ensures ForestOk(grants[id := row])
  {
    hide ValidShape, Attenuates;
    var grants' := grants[id := row];
    forall x | x in grants ensures NodeOk(grants', grants'[x]) {
      assert NodeOk(grants, grants[x]);
    }
  }

  lemma NewNodeOk(db: Tables, tenant: Uuid, parent: Option<Uuid>, authority: Authority, id: Uuid)
    requires ForestOk(db.grants) && db.clock >= 0 && id !in db.grants && MayCreate(db, tenant, parent, authority)
    ensures var row := NewGrant(db, tenant, parent, authority);
            NodeOk(db.grants[id := row], row) && row.parent == parent && row.used == 0
            && (parent.Some? ==> parent.value in db.grants)
  {
    hide Attenuates, LiveLine, AliasSet;
    if parent.Some? {
      assert NodeOk(db.grants, db.grants[parent.value]);
    }
  }

  predicate MayCreate(db: Tables, tenant: Uuid, parent: Option<Uuid>, authority: Authority) {
    && Grants.Valid(authority, Millis(db.clock))
    && match parent
       case None => tenant in db.tenants
       case Some(p) =>
         && p in db.grants && db.grants[p].tenant == tenant && db.grants[p].depth < 4
         && LiveLine(db.grants, p, db.clock) && Attenuates(authority, db.grants[p].authority)
  }

  lemma ChildFaults(db: Tables, tenant: Uuid, p: Uuid, authority: Authority)
    requires ForestOk(db.grants)
    ensures match LoadChain(db.grants, tenant, p)
            case Err(e) => e == GrantNotFound && !(p in db.grants && db.grants[p].tenant == tenant)
            case Ok(chain) =>
              && p in db.grants && db.grants[p].tenant == tenant && |chain| == db.grants[p].depth + 1
              && (ChildFault(authority, chain, tenant, Millis(db.clock)).None? <==> MayCreate(db, tenant, Some(p), authority))
  {
    ChainLoads(db.grants, tenant, p);
    if p in db.grants && db.grants[p].tenant == tenant {
      var chain := Chain(db.grants, p);
      ChainShape(db.grants, p);
      ChainLiveness(db.grants, p, db.clock);
      hide ForestOk, Chain, LoadChain, LiveLine, LiveChain, ChainIds, Line, Grants.Valid, Attenuates, Fault, ChainFault, Millis;
      if ChainFault(chain, tenant, Millis(db.clock)).None? && Grants.Valid(authority, Millis(db.clock)) && |chain| < 5 {
        ParentSuffices(authority, chain, tenant, Millis(db.clock));
      }
    }
  }

  // ---------------------------------------------------------------- steps that only change effects

  /** A new effect is uncharged; an existing one keeps everything but its state. */
  predicate EffectsMove(db: Tables, db': Tables) {
    && db'.clock == db.clock && db'.runs == db.runs && db'.grants == db.grants && db'.reservations == db.reservations
    && (forall e | e in db.effects :: e in db'.effects && db'.effects[e] == db.effects[e].(state := db'.effects[e].state))
    && (forall e | e in db'.effects && e !in db.effects :: e.run in db.runs && !db'.effects[e].charged)
  }

  lemma EffectsMoveKeeps(db: Tables, db': Tables)
    requires BudgetOk(db) && EffectsMove(db, db')
    ensures BudgetOk(db')
  {
    hide ForestOk, Line, ReservedOk, AllowedOk, ChargedTo;
    assert SameCharges(db, db');
    hide LineOf, SameCharges;
    ReservedSame(db, db');
    AllowedSame(db, db');
    forall g | g in db.grants ensures ChargedTo(db', g) == ChargedTo(db, g) {
      ChargedSame(db, db', g);
    }
  }

  lemma BrokerMoves(p: Policy, db: Tables, op: Op)
    requires op.Preparing? || op.Moving?
    ensures EffectsMove(db, Perform(p, db, op).0)
  {
  }

  // ---------------------------------------------------------------- reserving

  /** One more unit of use for each grant of the set. */
  function Bump(grants: map<Uuid, GrantRow>, ids: set<Uuid>): map<Uuid, GrantRow> {
    map g | g in grants :: if g in ids then grants[g].(used := grants[g].used + 1) else grants[g]
  }

  /** Applying a plan that names each grant once, with its next use, succeeds and adds one to each. */
  lemma {:induction false} ApplyPlanBumps(grants: map<Uuid, GrantRow>, plan: seq<(Uuid, int)>)
    requires forall i | 0 <= i < |plan| :: plan[i].0 in grants && plan[i].1 == grants[plan[i].0].used + 1
    requires forall i, j | 0 <= i < j < |plan| :: plan[i].0 != plan[j].0
    ensures ApplyPlan(grants, plan) == Some(Bump(grants, PlanIds(plan)))
  {
    if plan == [] {
      assert PlanIds(plan) == {} && Bump(grants, {}) == grants;
    } else {
      var (g, next) := plan[0];
      var grants' := grants[g := grants[g].(used := next)];
      assert forall i | 0 <= i < |plan[1..]| :: plan[1..][i] == plan[i + 1];
      ApplyPlanBumps(grants', plan[1..]);
      forall x ensures x in PlanIds(plan) <==> x == g || x in PlanIds(plan[1..]) {
        if x in PlanIds(plan) && x != g {
          var i :| 0 <= i < |plan| && plan[i].0 == x;
          assert plan[1..][i - 1].0 == x;
        }
      }
      assert g !in PlanIds(plan[1..]);
      assert Bump(grants', PlanIds(plan[1..])) == Bump(grants, PlanIds(plan));
    }
  }

  /** The tables after effect e is charged to the grants of a line. */
  function ChargedAlong(db: Tables, e: EffectId, line: set<Uuid>): Tables
    requires e in db.effects
  {
    db.(grants := Bump(db.grants, line),
        reservations := db.reservations + set g | g in line :: Reservation(e, g),
        effects := db.effects[e := db.effects[e].(charged := true)])
  }

  function ChargedTables(db: Tables, e: EffectId): Tables
    requires e in db.effects
  {
    ChargedAlong(db, e, LineOf(db, e))
  }

  /** Every ancestor has a unit left. */
  predicate UnitLeft(grants: map<Uuid, GrantRow>, line: set<Uuid>) {
    forall g | g in line && g in grants :: grants[g].used < grants[g].authority.maxEffects
  }

  predicate ChainAllows(chain: seq<Grant>, effect: Effect) {
    forall i | 0 <= i < |chain| :: Allows(chain[i].authority, effect.action, effect.destination, effect.project)
  }

  predicate ChainHasRoom(chain: seq<Grant>) {
    forall i | 0 <= i < |chain| :: chain[i].used < chain[i].authority.maxEffects
  }

  lemma {:induction false} PlanErrors(chain: seq<Grant>, k: nat, effect: Effect)
    requires k <= |chain| && forall i | 0 <= i < |chain| :: chain[i].authority.maxEffects <= 100
    ensures var plan := PlanFrom(chain, k, effect.action, effect.destination, effect.project);
            && (plan.Err? ==> plan.error == Denied || plan.error == Exhausted)
            && (ChainAllows(chain, effect) && plan.Err? ==> plan.error == Exhausted)
            && (ChainHasRoom(chain) && plan.Err? ==> plan.error == Denied)
            && (ChainAllows(chain, effect) && ChainHasRoom(chain) ==> plan.Ok?)
            && (k == 0 && plan.Ok? ==> ChainAllows(chain, effect) && ChainHasRoom(chain))
    decreases |chain| - k
  {
    hide Allows;
    PlanCharges(chain, k, effect.action, effect.destination, effect.project);
    if k < |chain| {
      PlanErrors(chain, k + 1, effect);
    }
  }

  /** What the forest says about the checks of a plan: the leaf allows what all allow. */
  lemma ChainChecks(grants: map<Uuid, GrantRow>, g: Uuid, effect: Effect)
    requires ForestOk(grants) && g in grants
    ensures var chain := Chain(grants, g);
            && (ChainAllows(chain, effect) <==> Allows(grants[g].authority, effect.action, effect.destination, effect.project))
            && (ChainHasRoom(chain) <==> UnitLeft(grants, Line(grants, g)))
            && (forall i | 0 <= i < |chain| :: chain[i].authority.maxEffects <= 100)
  {
    ChainShape(grants, g);
    var chain := Chain(grants, g);
    hide Chain, Line;
    forall i | 0 <= i < |chain|
      ensures chain[i].authority.maxEffects <= 100
      ensures Attenuates(grants[g].authority, chain[i].authority)
    {
      assert NodeOk(grants, grants[chain[i].id]);
      LineAttenuates(grants, g, chain[i].id);
    }
    hide ForestOk;
    if ChainHasRoom(chain) {
      forall x | x in Line(grants, g) ensures grants[x].used < grants[x].authority.maxEffects {
        assert x in ChainIds(chain);
        var i :| 0 <= i < |chain| && chain[i].id == x;
      }
    }
    if Allows(grants[g].authority, effect.action, effect.destination, effect.project) {
      forall i | 0 <= i < |chain| ensures Allows(chain[i].authority, effect.action, effect.destination, effect.project) {
      }
    }
  }

  lemma PlanApplies(db: Tables, g: Uuid, effect: Effect)
    requires ForestOk(db.grants) && g in db.grants
    ensures var plan := PlanFrom(Chain(db.grants, g), 0, effect.action, effect.destination, effect.project);
            plan.Ok? ==> ApplyPlan(db.grants, plan.value) == Some(Bump(db.grants, Line(db.grants, g)))
  {
    var chain := Chain(db.grants, g);
    ChainShape(db.grants, g);
    assert StoredChain(db.grants, chain);
    hide *;
    PlanCharges(chain, 0, effect.action, effect.destination, effect.project);
    var plan := PlanFrom(chain, 0, effect.action, effect.destination, effect.project);
    if plan.Ok? {
      ChainPlanApplies(db.grants, chain, plan.value);
    }
  }

  /** The chain lists distinct rows of the table. */
  ghost predicate StoredChain(grants: map<Uuid, GrantRow>, chain: seq<Grant>) {
    && (forall i | 0 <= i < |chain| :: chain[i].id in grants && chain[i].used == grants[chain[i].id].used)
    && (forall i, j | 0 <= i < j < |chain| :: chain[i].id != chain[j].id)
  }

  lemma ChainPlanApplies(grants: map<Uuid, GrantRow>, chain: seq<Grant>, plan: seq<(Uuid, int)>)
    requires StoredChain(grants, chain) && ChargesEach(chain, 0, plan)
    ensures ApplyPlan(grants, plan) == Some(Bump(grants, ChainIds(chain)))
  {
    hide ApplyPlan, Bump;
    ApplyPlanBumps(grants, plan);
    forall x ensures x in PlanIds(plan) <==> x in ChainIds(chain) {
      if x in ChainIds(chain) {
        var i :| 0 <= i < |chain| && chain[i].id == x;
        assert plan[i].0 == x;
      }
    }
    assert PlanIds(plan) == ChainIds(chain);
  }

  /** Whether a first charge of an effect goes through. */
  predicate Chargeable(db: Tables, e: EffectId)
    requires e in db.effects && e.run in db.runs
  {
    var g, effect := db.runs[e.run].request.grantId, db.effects[e];
    && effect.state.Prepared? && LiveLine(db.grants, g, db.clock)
    && AllowedBy(db, e, g) && UnitLeft(db.grants, Line(db.grants, g))
  }

  /** Reservation is all or nothing and can be repeated. A charged effect is answered Existing,
      with nothing changed, whatever has been revoked, has expired or is exhausted since. An
      uncharged effect is charged to its whole line at once exactly when it is prepared, the
      line is live, the leaf allows it and every ancestor has a unit left; else nothing changes.
      CorruptGrant means exactly an uncharged effect that has already left its prepared state. */
  lemma ReservationExactly(db: Tables, tenant: Uuid, e: EffectId)
    requires BudgetOk(db) && e.run in db.runs && db.runs[e.run].tenant == tenant && e in db.effects
    ensures var (db', reply) := ReserveChain(db, tenant, e.run, e.ordinal);
            && (db.effects[e].charged ==> reply == Charged(true) && db' == db)
            && (!db.effects[e].charged ==>
                  && (reply == Charged(false) <==> Chargeable(db, e))
                  && db' == (if Chargeable(db, e) then ChargedTables(db, e) else db)
                  && (reply != Charged(false) ==> reply.Refused?)
                  && (reply == Refused(CorruptGrant) <==> !db.effects[e].state.Prepared?))
  {
    var g, effect := db.runs[e.run].request.grantId, db.effects[e];
    ChainLoads(db.grants, tenant, g);
    assert EffectId(e.run, e.ordinal) == e;
    hide BudgetOk, LoadChain, Chain, ReserveEffect, ChargedTables, Chargeable;
    EffectReserved(db, tenant, e);
  }

  lemma EffectReserved(db: Tables, tenant: Uuid, e: EffectId)
    requires BudgetOk(db) && e.run in db.runs && db.runs[e.run].tenant == tenant && e in db.effects
    ensures var g := db.runs[e.run].request.grantId;
            g in db.grants && db.grants[g].tenant == tenant &&
            var (db', reply) := ReserveEffect(db, tenant, e, Chain(db.grants, g));
            && (db.effects[e].charged ==> reply == Charged(true) && db' == db)
            && (!db.effects[e].charged ==>
                  && (reply == Charged(false) <==> Chargeable(db, e))
                  && db' == (if Chargeable(db, e) then ChargedTables(db, e) else db)
                  && (reply != Charged(false) ==> reply.Refused?)
                  && (reply == Refused(CorruptGrant) <==> !db.effects[e].state.Prepared?))
  {
    var g, effect := db.runs[e.run].request.grantId, db.effects[e];
    var chain := Chain(db.grants, g);
    ChainShape(db.grants, g);
    LineStep(db.grants, g);
    assert ReservedFor(db.reservations, e) == if effect.charged then ChainIds(chain) else {};
    if !effect.charged && effect.state.Prepared? {
      PlanExactly(db, tenant, e);
    }
    assert Chargeable(db, e) ==> effect.state.Prepared?;
    hide *;
    ReserveCases(db, tenant, e, chain, Chargeable(db, e));
  }

  lemma ReserveCases(db: Tables, tenant: Uuid, e: EffectId, chain: seq<Grant>, chargeable: bool)
    requires e in db.effects && ChainIds(chain) != {}
    requires ReservedFor(db.reservations, e) == if db.effects[e].charged then ChainIds(chain) else {}
    requires chargeable ==> db.effects[e].state.Prepared?
    requires !db.effects[e].charged && db.effects[e].state.Prepared? ==>
               var effect := db.effects[e];
               var plan := Plan(chain, tenant, Millis(db.clock), effect.action, effect.destination, effect.project);
               && (plan.Ok? <==> chargeable)
               && (plan.Ok? ==> ApplyPlan(db.grants, plan.value) == Some(Bump(db.grants, ChainIds(chain))))
    ensures var (db', reply) := ReserveEffect(db, tenant, e, chain);
            && (db.effects[e].charged ==> reply == Charged(true) && db' == db)
            && (!db.effects[e].charged ==>
                  && (reply == Charged(false) <==> chargeable)
                  && db' == (if chargeable then ChargedAlong(db, e, ChainIds(chain)) else db)
                  && (reply != Charged(false) ==> reply.Refused?)
                  && (reply == Refused(CorruptGrant) <==> !db.effects[e].state.Prepared?))
  {
    hide Plan, Millis, ApplyPlan, Bump, ChainIds, ReservedFor;
  }

  /** A plan is made exactly when the effect may be charged, and applying it charges its line. */
  lemma PlanExactly(db: Tables, tenant: Uuid, e: EffectId)
    requires ForestOk(db.grants) && RunsGranted(db)
    requires e.run in db.runs && db.runs[e.run].tenant == tenant && e in db.effects && db.effects[e].state.Prepared?
    ensures var g, effect := db.runs[e.run].request.grantId, db.effects[e];
            var plan := Plan(Chain(db.grants, g), tenant, Millis(db.clock), effect.action, effect.destination, effect.project);
            && (plan.Ok? <==> Chargeable(db, e))
            && (plan.Ok? ==> ApplyPlan(db.grants, plan.value) == Some(Bump(db.grants, LineOf(db, e))))
  {
    var g, effect := db.runs[e.run].request.grantId, db.effects[e];
    var chain := Chain(db.grants, g);
    ChainLiveness(db.grants, g, db.clock);
    ChainChecks(db.grants, g, effect);
    PlanErrors(chain, 0, effect);
    PlanApplies(db, g, effect);
    hide ForestOk, Chain, ChainAllows, ChainHasRoom, PlanFrom, LiveLine, LiveChain, UnitLeft, Line, ChainFault,
        Millis, ApplyPlan, Bump, Allows;
  }

  lemma ReserveRefusals(db: Tables, tenant: Uuid, e: EffectId)
    requires BudgetOk(db) && !(e.run in db.runs && db.runs[e.run].tenant == tenant && e in db.effects)
    ensures var (db', reply) := ReserveChain(db, tenant, e.run, e.ordinal);
            db' == db && (reply == Refused(RunNotFound) || reply == Refused(EffectNotFound))
  {
    if e.run in db.runs {
      ChainLoads(db.grants, tenant, db.runs[e.run].request.grantId);
    }
    assert EffectId(e.run, e.ordinal) == e;
  }

  lemma BumpExtends(grants: map<Uuid, GrantRow>, line: set<Uuid>)
    requires ForestOk(grants) && UnitLeft(grants, line)
    ensures Extends(grants, Bump(grants, line)) && ForestOk(Bump(grants, line))
  {
    hide ValidShape, Attenuates;
    var grants' := Bump(grants, line);
    forall g | g in grants' ensures NodeOk(grants', grants'[g]) {
      assert NodeOk(grants, grants[g]);
    }
  }

  lemma ChargeKeeps(db: Tables, e: EffectId)
    requires BudgetOk(db) && e in db.effects && e.run in db.runs && !db.effects[e].charged && Chargeable(db, e)
    ensures BudgetOk(ChargedTables(db, e))
  {
    ChargeableLine(db, e);
    BumpExtends(db.grants, LineOf(db, e));
    ChargedLines(db, e);
    hide LineOf, Bump, UnitLeft, Chargeable, AllowedBy, Extends, ForestOk, UseOk, ReservedOk, AllowedOk;
    ChargedCounts(db, e);
    ChargedReserves(db, e);
    ChargedAllowed(db, e);
    ChargedOwners(db, e);
  }

  lemma ChargedOwners(db: Tables, e: EffectId)
    requires RunsGranted(db) && EffectsOwned(db) && e in db.effects
    requires Extends(db.grants, Bump(db.grants, LineOf(db, e)))
    ensures RunsGranted(ChargedTables(db, e)) && EffectsOwned(ChargedTables(db, e))
  {
    hide LineOf, Bump;
  }

  lemma ChargeableLine(db: Tables, e: EffectId)
    requires e in db.effects && e.run in db.runs && Chargeable(db, e)
    ensures UnitLeft(db.grants, LineOf(db, e)) && AllowedBy(db, e, db.runs[e.run].request.grantId)
  {
  }

  lemma ChargedLines(db: Tables, e: EffectId)
    requires ForestOk(db.grants) && e in db.effects && RunsGranted(db)
    requires Extends(db.grants, Bump(db.grants, LineOf(db, e)))
    ensures forall x | x in db.effects :: LineOf(ChargedTables(db, e), x) == LineOf(db, x)
  {
    LinesStay(db.grants, ChargedTables(db, e).grants);
    hide ForestOk, Line;
  }

  lemma ChargedAllowed(db: Tables, e: EffectId)
    requires e in db.effects && e.run in db.runs && ForestOk(db.grants) && AllowedOk(db)
    requires AllowedBy(db, e, db.runs[e.run].request.grantId)
    requires forall x | x in db.effects :: LineOf(ChargedTables(db, e), x) == LineOf(db, x)
    ensures AllowedOk(ChargedTables(db, e))
  {
    var db' := ChargedTables(db, e);
    hide LineOf, Allows, ForestOk;
    forall x, g | x in db'.effects && db'.effects[x].charged && g in LineOf(db', x) ensures AllowedBy(db', x, g) {
      if x == e {
        LeafAllows(db, e, g);
      }
      assert AllowedBy(db, x, g);
    }
  }

  lemma LeafAllows(db: Tables, e: EffectId, g: Uuid)
    requires ForestOk(db.grants) && e in db.effects && e.run in db.runs && g in LineOf(db, e)
    requires AllowedBy(db, e, db.runs[e.run].request.grantId)
    ensures AllowedBy(db, e, g)
  {
    LineAttenuates(db.grants, db.runs[e.run].request.grantId, g);
  }

  /** A charge adds the effect to what is charged to each of its ancestors, and to no one else. */
  lemma ChargedCounts(db: Tables, e: EffectId)
    requires e in db.effects && !db.effects[e].charged && UseOk(db)
    requires forall x | x in db.effects :: LineOf(ChargedTables(db, e), x) == LineOf(db, x)
    ensures UseOk(ChargedTables(db, e))
  {
    var db' := ChargedTables(db, e);
    hide LineOf, ChargedTo;
    forall g | g in db'.grants ensures db'.grants[g].used == |ChargedTo(db', g)| {
      ChargedMore(db, e, g);
    }
  }

  lemma ChargedMore(db: Tables, e: EffectId, g: Uuid)
    requires e in db.effects && !db.effects[e].charged
    requires forall x | x in db.effects :: LineOf(ChargedTables(db, e), x) == LineOf(db, x)
    ensures e !in ChargedTo(db, g)
    ensures ChargedTo(ChargedTables(db, e), g) == ChargedTo(db, g) + if g in LineOf(db, e) then {e} else {}
  {
    hide LineOf, Bump;
  }

  lemma ChargedReserves(db: Tables, e: EffectId)
    requires e in db.effects && !db.effects[e].charged && ReservedOk(db)
    requires forall x | x in db.effects :: LineOf(ChargedTables(db, e), x) == LineOf(db, x)
    ensures ReservedOk(ChargedTables(db, e))
  {
    var db' := ChargedTables(db, e);
    hide LineOf;
    forall x | x in db'.effects
      ensures ReservedFor(db'.reservations, x) == if db'.effects[x].charged then LineOf(db', x) else {}
    {
      assert ReservedFor(db.reservations, x) == if db.effects[x].charged then LineOf(db, x) else {};
      if x == e {
        forall g ensures g in ReservedFor(db'.reservations, x) <==> g in LineOf(db, e) {
          assert Reservation(e, g) in db'.reservations <==> Reservation(e, g) in db.reservations || g in LineOf(db, e);
          assert Reservation(e, g) in db.reservations ==> g in ReservedFor(db.reservations, e);
        }
      } else {
        forall g ensures g in ReservedFor(db'.reservations, x) <==> g in ReservedFor(db.reservations, x) {
        }
      }
    }
  }

  // ---------------------------------------------------------------- every operation

  lemma ReserveKeeps(db: Tables, tenant: Uuid, e: EffectId)
    requires BudgetOk(db)
    ensures BudgetOk(ReserveChain(db, tenant, e.run, e.ordinal).0)
    ensures Onward(db, ReserveChain(db, tenant, e.run, e.ordinal).0)
  {
    SameOnward(db);
    BudgetParts(db);
    hide BudgetOk, ReserveChain, ChargedTables, Chargeable, Onward;
    if e.run in db.runs && db.runs[e.run].tenant == tenant && e in db.effects {
      ReservationExactly(db, tenant, e);
      if !db.effects[e].charged && Chargeable(db, e) {
        ChargeKeeps(db, e);
        ChargeOnward(db, e);
      }
    } else {
      ReserveRefusals(db, tenant, e);
    }
  }

  /** What every step leaves in place: grants only gain revocations and use, runs keep their
      tenant and request, effects keep what they ask for and stay charged. */
  predicate Onward(db: Tables, db': Tables) {
    && Extends(db.grants, db'.grants)
    && (forall r | r in db.runs ::
          r in db'.runs && db'.runs[r].tenant == db.runs[r].tenant && db'.runs[r].request == db.runs[r].request)
    && (forall e | e in db.effects ::
          e in db'.effects && db'.effects[e].action == db.effects[e].action
          && db'.effects[e].destination == db.effects[e].destination
          && db'.effects[e].project == db.effects[e].project && (db.effects[e].charged ==> db'.effects[e].charged))
  }

  lemma SameOnward(db: Tables)
    ensures Onward(db, db)
  {
  }

  lemma ChargeOnward(db: Tables, e: EffectId)
    requires ForestOk(db.grants) && e in db.effects && e.run in db.runs && Chargeable(db, e)
    ensures Onward(db, ChargedTables(db, e))
  {
    hide ForestOk, Extends, LineOf, Bump, Chargeable, UnitLeft, AllowedBy;
    ChargeableLine(db, e);
    BumpExtends(db.grants, LineOf(db, e));
  }

  lemma MovesOnward(db: Tables, db': Tables)
    requires RunsMove(db, db') || GrantsMove(db, db') || EffectsMove(db, db')
    ensures Onward(db, db')
  {
    hide ForestOk, GrantUsable;
  }

  lemma DeltaMovesRuns(p: Policy, db: Tables, db': Tables, d: Delta)
    requires IsDelta(p, db, db', d) && db'.grants == db.grants && db'.effects == db.effects
             && db'.reservations == db.reservations
    ensures RunsMove(db, db')
  {
    if d != Same {
      DeltaRow(p, db, db', d);
      hide IsDelta, Moved;
    }
  }

  /** Every operation keeps the forest in order and every budget exact. */
  lemma BudgetPerform(p: Policy, db: Tables, op: Op, d: Delta)
    requires BudgetOk(db) && IsDelta(p, db, Perform(p, db, op).0, d)
    ensures BudgetOk(Perform(p, db, op).0) && Onward(db, Perform(p, db, op).0)
  {
    SameOnward(db);
    hide BudgetOk, IsDelta, RunsMove, GrantsMove, EffectsMove, Onward;
    var db' := Perform(p, db, op).0;
    BudgetParts(db);
    if TouchesRuns(op) {
      TouchingRunsFrames(p, db, op);
      DeltaMovesRuns(p, db, db', d);
      RunsMoveKeeps(db, db');
      MovesOnward(db, db');
    } else if op.MakeGrant? {
      if op.id !in db.grants {
        CreateMoves(db, op.tenant, op.parent, op.authority, op.id);
        GrantsMoveKeeps(db, db');
        MovesOnward(db, db');
      }
    } else if op.Revoking? {
      RevokeMoves(db, op.tenant, op.grant);
      GrantsMoveKeeps(db, db');
      MovesOnward(db, db');
    } else if op.Reserving? {
      ReserveKeeps(db, op.tenant, EffectId(op.run, op.ordinal));
    } else if op.Preparing? || op.Moving? {
      BrokerMoves(p, db, op);
      EffectsMoveKeeps(db, db');
      MovesOnward(db, db');
    } else {
      DeltaMovesRuns(p, db, db', d);
      RunsMoveKeeps(db, db');
      MovesOnward(db, db');
    }
  }

  lemma BudgetParts(db: Tables)
    requires BudgetOk(db)
    ensures ForestOk(db.grants) && db.clock >= 0
  {
  }
}

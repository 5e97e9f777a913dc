/** Operator bounds and the normalization of submitted grants (control/grants/mod.rs). */
module Operator {
  import opened Bytes
  import opened Collections
  import opened Domain
  import opened Grants
  import opened Db
  import opened Scheduler
  import opened Execution
  import opened Deltas
  import opened Invariants
  import opened Reachable
  import opened Fencing
  import opened Forest
  import opened Budget
  import opened Allowances

  datatype Bounds = Bounds(actions: set<Text>, projects: map<Text, set<Text>>)

  /** The configured adapters name each destination's projects. */
  function FromConfig(adapters: map<Text, seq<Text>>): Bounds {
    Bounds({TICKET_CREATE}, map destination | destination in adapters :: Elements(adapters[destination]))
  }

  predicate Permits(bounds: Bounds, a: Authority) {
    && a.actions <= bounds.actions
    && forall destination | destination in a.destinations ::
         destination in bounds.projects && a.projects <= bounds.projects[destination]
  }

  /** A submitted grant; the expiry is the parsed instant, None when the text is not a time. */
  datatype GrantCreate = GrantCreate(
    actions: seq<Text>, destinations: seq<Text>, projects: seq<Text>, expiresAtMs: Option<int>, maxEffects: int)

  function Submitted(c: GrantCreate, expiresAtMs: int): Authority {
    Authority(Elements(c.actions), Elements(c.destinations), Elements(c.projects), expiresAtMs, c.maxEffects)
  }

  function Normalize(c: GrantCreate, bounds: Bounds): Result<Authority, GrantError> {
    if c.actions == [] || |c.actions| > 16 || c.destinations == [] || |c.destinations| > 16
       || c.projects == [] || |c.projects| > 16 then Err(Invalid)
    else if |Elements(c.actions)| != |c.actions| || |Elements(c.destinations)| != |c.destinations|
         || |Elements(c.projects)| != |c.projects| then Err(Invalid)
    else if c.expiresAtMs.None? || !(I64_MIN <= c.expiresAtMs.value <= I64_MAX) then Err(Invalid)
    else if !ValidShape(Submitted(c, c.expiresAtMs.value)) then Err(Invalid)
    else if !Permits(bounds, Submitted(c, c.expiresAtMs.value)) then Err(Escalation)
    else Ok(Submitted(c, c.expiresAtMs.value))
  }

  /** The one action, distinct valid names, a time, a budget: what a submission must spell out. */
  predicate WellFormed(c: GrantCreate) {
    && c.actions == [TICKET_CREATE]
    && 0 < |c.destinations| <= 16 && Distinct(c.destinations) && (forall x | x in c.destinations :: Alias(x))
    && 0 < |c.projects| <= 16 && Distinct(c.projects) && (forall x | x in c.projects :: Alias(x))
    && c.expiresAtMs.Some? && I64_MIN <= c.expiresAtMs.value <= I64_MAX
    && 1 <= c.maxEffects <= 100
  }

  /** The operator admits every named destination together with every named project. */
  predicate WithinAdapters(adapters: map<Text, seq<Text>>, c: GrantCreate) {
    forall d, x | d in c.destinations && x in c.projects :: d in adapters && x in adapters[d]
  }

  /** Normalization accepts exactly the well-formed submissions within the operator's adapters;
      an ill-formed one is invalid whatever it asks for. */
  lemma NormalizesExactly(c: GrantCreate, adapters: map<Text, seq<Text>>)
    ensures Normalize(c, FromConfig(adapters)) ==
            if !WellFormed(c) then Err(Invalid)
            else if !WithinAdapters(adapters, c) then Err(Escalation)
            else Ok(Submitted(c, c.expiresAtMs.value))
  {
    CountsDistinct(c.actions);
    CountsDistinct(c.destinations);
    CountsDistinct(c.projects);
    if c.expiresAtMs.Some? {
      var a := Submitted(c, c.expiresAtMs.value);
      OneAction(c.actions);
      if WellFormed(c) {
        PermitsAdapters(c, adapters, c.expiresAtMs.value);
      }
    }
  }

  lemma OneAction(actions: seq<Text>)
    ensures Distinct(actions) && Elements(actions) == {TICKET_CREATE} <==> actions == [TICKET_CREATE]
  {
    if Distinct(actions) && Elements(actions) == {TICKET_CREATE} {
      CountsDistinct(actions);
      assert |actions| == 1 && actions[0] in Elements(actions);
    }
  }

  lemma PermitsAdapters(c: GrantCreate, adapters: map<Text, seq<Text>>, expiresAtMs: int)
    requires WellFormed(c)
    ensures Permits(FromConfig(adapters), Submitted(c, expiresAtMs)) <==> WithinAdapters(adapters, c)
  {
    var bounds, a := FromConfig(adapters), Submitted(c, expiresAtMs);
    OneAction(c.actions);
    if WithinAdapters(adapters, c) {
      forall d | d in a.destinations ensures d in bounds.projects && a.projects <= bounds.projects[d] {
        assert c.projects[0] in c.projects;
        assert d in c.destinations && d in adapters;
        forall x | x in a.projects ensures x in bounds.projects[d] {
          assert x in c.projects;
        }
      }
    }
    if Permits(bounds, a) {
      forall d, x | d in c.destinations && x in c.projects ensures d in adapters && x in adapters[d] {
        assert d in a.destinations && x in a.projects;
        assert d in bounds.projects && x in bounds.projects[d];
      }
    }
  }

  // ---------------------------------------------------------------- every stored grant

  /** Every root was submitted and normalized; children need not have been. */
  ghost predicate RootsNormalized(bounds: Bounds, op: Op) {
    op.MakeGrant? && op.parent.None? ==> exists c :: Normalize(c, bounds) == Ok(op.authority)
  }

  predicate AllPermitted(bounds: Bounds, db: Tables) {
    forall g | g in db.grants :: Permits(bounds, db.grants[g].authority)
  }

  /** A child cannot leave the bounds its parent keeps. */
  lemma AttenuationKeepsBounds(bounds: Bounds, a: Authority, parent: Authority)
    requires Attenuates(a, parent) && Permits(bounds, parent)
    ensures Permits(bounds, a)
  {
  }

  lemma OnlyCreateAdds(p: Policy, db: Tables, op: Op)
    requires BudgetOk(db) && !op.MakeGrant?
    ensures Perform(p, db, op).0.grants.Keys == db.grants.Keys
  {
    hide ForestOk, UseOk, ReservedOk, AllowedOk;
    if TouchesRuns(op) {
      TouchingRunsFrames(p, db, op);
      hide Perform;
    } else if op.Revoking? {
      hide ReserveChain, CreateGrant, LoadChain;
    } else if op.Reserving? {
      var e := EffectId(op.run, op.ordinal);
      hide ReserveChain, CreateGrant, RevokeGrant, BudgetOk, Chargeable;
      if e.run in db.runs && db.runs[e.run].tenant == op.tenant && e in db.effects {
        ReservationExactly(db, op.tenant, e);
      } else {
        ReserveRefusals(db, op.tenant, e);
      }
    }
  }

  lemma PermittedPerform(p: Policy, bounds: Bounds, db: Tables, op: Op)
    requires GrantInv(p, db) && AllPermitted(bounds, db) && RootsNormalized(bounds, op)
    ensures AllPermitted(bounds, Perform(p, db, op).0)
  {
    GrantInvPerform(p, db, op);
    if op.MakeGrant? {
      PermittedCreate(p, bounds, db, op);
    } else {
      hide Perform, Inv, UseOk, ReservedOk, AllowedOk, ForestOk, LeasesOk, Permits;
      OnlyCreateAdds(p, db, op);
    }
  }

  lemma PermittedCreate(p: Policy, bounds: Bounds, db: Tables, op: Op)
    requires op.MakeGrant? && ForestOk(db.grants) && AllPermitted(bounds, db) && RootsNormalized(bounds, op)
    ensures AllPermitted(bounds, Perform(p, db, op).0)
  {
    CreateExactly(db, op.tenant, op.parent, op.authority, op.id);
    hide CreateGrant, ForestOk, Permits, MayCreate, RootsNormalized;
    if MayCreate(db, op.tenant, op.parent, op.authority) {
      CreatedPermitted(bounds, db, op);
    }
  }

  lemma CreatedPermitted(bounds: Bounds, db: Tables, op: Op)
    requires op.MakeGrant? && AllPermitted(bounds, db) && RootsNormalized(bounds, op)
    requires MayCreate(db, op.tenant, op.parent, op.authority)
    ensures Permits(bounds, op.authority)
  {
    hide Permits, Attenuates, Normalize;
    if op.parent.Some? {
      AttenuationKeepsBounds(bounds, op.authority, db.grants[op.parent.value].authority);
    } else {
      var c :| Normalize(c, bounds) == Ok(op.authority);
      NormalizedPermitted(c, bounds, op.authority);
    }
  }

  lemma NormalizedPermitted(c: GrantCreate, bounds: Bounds, a: Authority)
    requires Normalize(c, bounds) == Ok(a)
    ensures Permits(bounds, a)
  {
  }

  lemma {:induction false} PermittedAlways(p: Policy, bounds: Bounds, db: Tables, actions: seq<Action>)
    requires GrantInv(p, db) && AllPermitted(bounds, db)
    requires forall k | 0 <= k < |actions| :: RootsNormalized(bounds, actions[k].op)
    ensures AllPermitted(bounds, Exec(p, db, actions))
  {
    hide GrantInv, RootsNormalized, Onward, Permits, Perform;
    if actions != [] {
      var before, last := actions[..|actions| - 1], actions[|actions| - 1];
      PermittedAlways(p, bounds, db, before);
      var s := Exec(p, db, before);
      GrantInvReachable(p, db, before);
      GrantInvAt(p, s, last.now);
      PermittedPerform(p, bounds, At(s, last.now), last.op);
    }
  }

  /** When roots come through normalization, every effect ever charged is a ticket creation for
      a destination and project the operator's adapters list. */
  lemma ChargedWithinOperatorBounds(p: Policy, adapters: map<Text, seq<Text>>, db: Tables, actions: seq<Action>, e: EffectId)
    requires ValidPolicy(p) && Initial(db)
    requires forall k | 0 <= k < |actions| :: RootsNormalized(FromConfig(adapters), actions[k].op)
    requires e in Exec(p, db, actions).effects && Exec(p, db, actions).effects[e].charged
    ensures var effect := Exec(p, db, actions).effects[e];
            && effect.action == TICKET_CREATE
            && effect.destination in adapters && effect.project in adapters[effect.destination]
  {
    GrantInvInitially(p, db);
    GrantInvReachable(p, db, actions);
    var bounds := FromConfig(adapters);
    PermittedAlways(p, bounds, db, actions);
    hide *;
    ChargedPermitted(p, adapters, Exec(p, db, actions), e);
  }

  lemma ChargedPermitted(p: Policy, adapters: map<Text, seq<Text>>, s: Tables, e: EffectId)
    requires GrantInv(p, s) && AllPermitted(FromConfig(adapters), s) && e in s.effects && s.effects[e].charged
    ensures var effect := s.effects[e];
            && effect.action == TICKET_CREATE
            && effect.destination in adapters && effect.project in adapters[effect.destination]
  {
    hide Inv, UseOk, ReservedOk, LeasesOk, Line;
    assert e.run in s.runs;
    var g := s.runs[e.run].request.grantId;
    LineStep(s.grants, g);
    assert AllowedBy(s, e, g);
    hide ForestOk, AllowedOk;
    assert Permits(FromConfig(adapters), s.grants[g].authority);
  }
}

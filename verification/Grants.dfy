/** Grant checks (domain/grants.rs): shape, attenuation, chains and reservation plans. Each
    checking loop is a method proved against a recursive function over the chain. */
module Grants {
  import opened Bytes
  import opened Domain

  datatype Grant = Grant(
    id: Uuid, tenant: Uuid, parent: Option<Uuid>, depth: int, authority: Authority, used: int, revoked: bool)

  datatype GrantError = Invalid | Escalation | Ancestry | Inactive | Exhausted | Denied

  const DAY_MS := 86_400_000

  // ---------------------------------------------------------------- one authority

  predicate AliasSet(s: set<Text>) {
    0 < |s| <= 16 && forall x | x in s :: Alias(x)
  }

  predicate ValidShape(a: Authority) {
    && 1 <= a.maxEffects <= 100
    && a.actions == {TICKET_CREATE}
    && AliasSet(a.destinations) && AliasSet(a.projects)
  }

  /** Authority::validate. An i64 overflow of the subtraction lies outside the accepted range. */
  predicate Valid(a: Authority, nowMs: int) {
    ValidShape(a) && 0 < a.expiresAtMs - nowMs <= DAY_MS
  }

  predicate Attenuates(a: Authority, parent: Authority) {
    && a.actions <= parent.actions
    && a.destinations <= parent.destinations
    && a.projects <= parent.projects
    && a.expiresAtMs <= parent.expiresAtMs
    && a.maxEffects <= parent.maxEffects
  }

  // ---------------------------------------------------------------- chains, root first

  ghost predicate Repeats(chain: seq<Grant>, k: nat)
    requires k < |chain|
  {
    exists i | 0 <= i < k :: chain[i].id == chain[k].id
  }

  ghost predicate Misplaced(chain: seq<Grant>, k: nat, tenant: Uuid)
    requires k < |chain|
  {
    || chain[k].tenant != tenant
    || chain[k].depth != k
    || Repeats(chain, k)
    || chain[k].parent != if k == 0 then None else Some(chain[k - 1].id)
  }

  /** What is wrong with entry k, given that the entries before it are in order. */
  ghost function Fault(chain: seq<Grant>, k: nat, tenant: Uuid, nowMs: int): Option<GrantError>
    requires k < |chain|
  {
    if Misplaced(chain, k, tenant) then Some(Ancestry)
    else if chain[k].revoked || chain[k].authority.expiresAtMs <= nowMs then Some(Inactive)
    else if chain[k].used > chain[k].authority.maxEffects then Some(Invalid)
    else if k > 0 && !Attenuates(chain[k].authority, chain[k - 1].authority) then Some(Escalation)
    else None
  }

  ghost function FaultFrom(chain: seq<Grant>, k: nat, tenant: Uuid, nowMs: int): Option<GrantError>
    requires k <= |chain|
    decreases |chain| - k
  {
    if k == |chain| then None
    else if Fault(chain, k, tenant, nowMs).Some? then Fault(chain, k, tenant, nowMs)
    else FaultFrom(chain, k + 1, tenant, nowMs)
  }

  ghost function ChainFault(chain: seq<Grant>, tenant: Uuid, nowMs: int): Option<GrantError> {
    if chain == [] || |chain| > 5 then Some(Ancestry) else FaultFrom(chain, 0, tenant, nowMs)
  }

  lemma {:induction false} NoFault(chain: seq<Grant>, k: nat, tenant: Uuid, nowMs: int)
    requires k <= |chain|
    ensures FaultFrom(chain, k, tenant, nowMs).None? <==>
            forall i | k <= i < |chain| :: Fault(chain, i, tenant, nowMs).None?
    decreases |chain| - k
  {
    if k < |chain| {
      NoFault(chain, k + 1, tenant, nowMs);
    }
  }

  /** A chain without fault shrinks from the root to the leaf: every grant attenuates every
      grant above it, so the leaf has the least expiry and the least budget. */
  lemma {:induction false} AttenuatesAll(chain: seq<Grant>, i: nat, j: nat)
    requires i <= j < |chain|
    requires forall k | 0 < k < |chain| :: Attenuates(chain[k].authority, chain[k - 1].authority)
    ensures Attenuates(chain[j].authority, chain[i].authority)
    decreases j - i
  {
    if i < j {
      AttenuatesAll(chain, i, j - 1);
    }
  }

  method ValidateChain(chain: seq<Grant>, tenant: Uuid, nowMs: int) returns (r: Option<GrantError>)
    ensures r == ChainFault(chain, tenant, nowMs)
  {
    if |chain| == 0 || |chain| > 5 {
      return Some(Ancestry);
    }
    var seen: set<Uuid> := {};
    for index := 0 to |chain|
      invariant seen == set i | 0 <= i < index :: chain[i].id
      invariant FaultFrom(chain, 0, tenant, nowMs) == FaultFrom(chain, index, tenant, nowMs)
    {
      var grant := chain[index];
      assert Repeats(chain, index) <==> grant.id in seen;
      if grant.tenant != tenant || grant.depth != index || grant.id in seen
         || grant.parent != (if index == 0 then None else Some(chain[index - 1].id)) {
        return Some(Ancestry);
      }
      seen := seen + {grant.id};
      if grant.revoked || grant.authority.expiresAtMs <= nowMs {
        return Some(Inactive);
      }
      if grant.used > grant.authority.maxEffects {
        return Some(Invalid);
      }
      if index > 0 && !Attenuates(grant.authority, chain[index - 1].authority) {
        return Some(Escalation);
      }
    }
    r := None;
  }

  ghost function ChildFault(child: Authority, ancestry: seq<Grant>, tenant: Uuid, nowMs: int): Option<GrantError> {
    if !Valid(child, nowMs) then Some(Invalid)
    else if ChainFault(ancestry, tenant, nowMs).Some? then ChainFault(ancestry, tenant, nowMs)
    else if |ancestry| >= 5 then Some(Ancestry)
    else if exists i | 0 <= i < |ancestry| :: !Attenuates(child, ancestry[i].authority) then Some(Escalation)
    else None
  }

  method ValidateChild(child: Authority, ancestry: seq<Grant>, tenant: Uuid, nowMs: int) returns (r: Option<GrantError>)
    ensures r == ChildFault(child, ancestry, tenant, nowMs)
  {
    if !Valid(child, nowMs) {
      return Some(Invalid);
    }
    var fault := ValidateChain(ancestry, tenant, nowMs);
    if fault.Some? {
      return fault;
    }
    if |ancestry| >= 5 {
      return Some(Ancestry);
    }
    if !(forall i | 0 <= i < |ancestry| :: Attenuates(child, ancestry[i].authority)) {
      return Some(Escalation);
    }
    r := None;
  }

  /** Checking the child against its parent alone already bounds it by every ancestor. */
  lemma ParentSuffices(child: Authority, ancestry: seq<Grant>, tenant: Uuid, nowMs: int)
    requires ChainFault(ancestry, tenant, nowMs).None?
    requires Valid(child, nowMs) && |ancestry| < 5
    ensures ChildFault(child, ancestry, tenant, nowMs).None? <==>
            Attenuates(child, ancestry[|ancestry| - 1].authority)
  {
    NoFault(ancestry, 0, tenant, nowMs);
    var last := |ancestry| - 1;
    forall i | 0 <= i < |ancestry| && Attenuates(child, ancestry[last].authority)
      ensures Attenuates(child, ancestry[i].authority)
    {
      forall k | 0 < k < |ancestry| ensures Attenuates(ancestry[k].authority, ancestry[k - 1].authority) {
        assert Fault(ancestry, k, tenant, nowMs).None?;
      }
      AttenuatesAll(ancestry, i, last);
    }
  }

  // ---------------------------------------------------------------- reservation plans

  predicate Allows(a: Authority, action: Text, destination: Text, project: Text) {
    action in a.actions && destination in a.destinations && project in a.projects
  }

  function Shortfall(g: Grant, action: Text, destination: Text, project: Text): Option<GrantError> {
    if !Allows(g.authority, action, destination, project) then Some(Denied)
    else if g.used >= g.authority.maxEffects || g.used + 1 >= U64 then Some(Exhausted)
    else None
  }

  /** One more unit for every grant of the chain, or the first grant's refusal. */
  ghost function PlanFrom(chain: seq<Grant>, k: nat, action: Text, destination: Text, project: Text)
    : Result<seq<(Uuid, int)>, GrantError>
    requires k <= |chain|
    decreases |chain| - k
  {
    if k == |chain| then Ok([])
    else if Shortfall(chain[k], action, destination, project).Some? then
      Err(Shortfall(chain[k], action, destination, project).value)
    else
      match PlanFrom(chain, k + 1, action, destination, project)
      case Err(e) => Err(e)
      case Ok(rest) => Ok([(chain[k].id, chain[k].used + 1)] + rest)
  }

  ghost function Plan(chain: seq<Grant>, tenant: Uuid, nowMs: int, action: Text, destination: Text, project: Text)
    : Result<seq<(Uuid, int)>, GrantError>
  {
    match ChainFault(chain, tenant, nowMs)
    case Some(e) => Err(e)
    case None => PlanFrom(chain, 0, action, destination, project)
  }

  /** One entry for each grant from the k-th on, naming it with its next use. */
  ghost predicate ChargesEach(chain: seq<Grant>, k: nat, plan: seq<(Uuid, int)>) {
    k + |plan| == |chain| && forall i | 0 <= i < |plan| :: plan[i] == (chain[k + i].id, chain[k + i].used + 1)
  }

  /** A plan exists exactly when no grant refuses, and then charges each grant once. */
  lemma {:induction false} PlanCharges(chain: seq<Grant>, k: nat, action: Text, destination: Text, project: Text)
    requires k <= |chain|
    ensures var r := PlanFrom(chain, k, action, destination, project);
            && (r.Ok? <==> forall i | k <= i < |chain| :: Shortfall(chain[i], action, destination, project).None?)
            && (r.Ok? ==> ChargesEach(chain, k, r.value))
    decreases |chain| - k
  {
    if k < |chain| {
      PlanCharges(chain, k + 1, action, destination, project);
    }
  }

  method ReservationPlan(chain: seq<Grant>, tenant: Uuid, nowMs: int, action: Text, destination: Text, project: Text)
    returns (r: Result<seq<(Uuid, int)>, GrantError>)
    ensures r == Plan(chain, tenant, nowMs, action, destination, project)
  {
    var fault := ValidateChain(chain, tenant, nowMs);
    if fault.Some? {
      return Err(fault.value);
    }
    var plan: seq<(Uuid, int)> := [];
    assert forall rest: seq<(Uuid, int)> :: [] + rest == rest;
    for k := 0 to |chain|
      invariant match PlanFrom(chain, k, action, destination, project)
                case Err(e) => PlanFrom(chain, 0, action, destination, project) == Err(e)
                case Ok(rest) => PlanFrom(chain, 0, action, destination, project) == Ok(plan + rest)
    {
      var grant := chain[k];
      if !Allows(grant.authority, action, destination, project) {
        return Err(Denied);
      }
      if grant.used >= grant.authority.maxEffects {
        return Err(Exhausted);
      }
      if grant.used + 1 >= U64 {
        return Err(Exhausted);
      }
      ghost var before := plan;
      plan := plan + [(grant.id, grant.used + 1)];
      match PlanFrom(chain, k + 1, action, destination, project) {
        case Err(_) =>
        case Ok(rest) => assert before + ([(grant.id, grant.used + 1)] + rest) == plan + rest;
      }
    }
    assert plan + [] == plan;
    r := Ok(plan);
  }
}

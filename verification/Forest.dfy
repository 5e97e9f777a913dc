/** The forest of grants: paths to the root, the chain that load_grant_chain_locked reads, and
    how authority and expiry shrink along it. */
module Forest {
  import opened Bytes
  import opened Collections
  import opened Domain
  import opened Grants
  import opened Db
  import Scheduler

  predicate UnderParent(grants: map<Uuid, GrantRow>, row: GrantRow) {
    match row.parent
    case None => row.depth == 0
    case Some(p) =>
      && p in grants && grants[p].tenant == row.tenant && row.depth == grants[p].depth + 1
      && Attenuates(row.authority, grants[p].authority)
  }

  predicate NodeOk(grants: map<Uuid, GrantRow>, row: GrantRow) {
    && 0 <= row.depth <= 4
    && ValidShape(row.authority) && row.authority.expiresAtMs > I64_MIN
    && 0 <= row.used <= row.authority.maxEffects
    && UnderParent(grants, row)
  }

  /** Every stored grant sits one level below its parent, which it attenuates. */
  predicate ForestOk(grants: map<Uuid, GrantRow>) {
    forall g | g in grants :: NodeOk(grants, grants[g])
  }

  /** From the root down to g. */
  function Path(grants: map<Uuid, GrantRow>, g: Uuid): (ids: seq<Uuid>)
    requires g in grants
    ensures forall i | 0 <= i < |ids| :: ids[i] in grants
  {
    Walk(grants, grants[g].tenant, g, 6)
  }

  /** g and its ancestors. */
  function Line(grants: map<Uuid, GrantRow>, g: Uuid): (ids: set<Uuid>)
    ensures ids <= grants.Keys
  {
    if g in grants then set x | x in Path(grants, g) else {}
  }

  // ---------------------------------------------------------------- paths

  /** The ids lead from a root down to g, one level at a time. */
  predicate LeadsTo(grants: map<Uuid, GrantRow>, ids: seq<Uuid>, g: Uuid) {
    && g in grants && grants[g].depth >= 0 && |ids| == grants[g].depth + 1 && ids[|ids| - 1] == g
    && (forall i | 0 <= i < |ids| :: ids[i] in grants)
    && (forall i | 0 <= i < |ids| :: grants[ids[i]].depth == i)
    && grants[ids[0]].parent.None?
    && (forall i | 0 < i < |ids| :: grants[ids[i]].parent.Some? && grants[ids[i]].parent.value == ids[i - 1])
  }

  lemma {:induction false} WalkFacts(grants: map<Uuid, GrantRow>, g: Uuid, fuel: nat)
    requires ForestOk(grants) && g in grants && grants[g].depth < fuel
    ensures LeadsTo(grants, Walk(grants, grants[g].tenant, g, fuel), g)
    decreases fuel
  {
    hide LeadsTo;
    assert NodeOk(grants, grants[g]);
    match grants[g].parent
    case None =>
      assert Walk(grants, grants[g].tenant, g, fuel) == [g];
      LeadsToRoot(grants, g);
    case Some(above) =>
      WalkFacts(grants, above, fuel - 1);
      LeadsOn(grants, Walk(grants, grants[g].tenant, above, fuel - 1), above, g);
  }

  lemma LeadsToRoot(grants: map<Uuid, GrantRow>, g: Uuid)
    requires g in grants && grants[g].parent.None? && grants[g].depth == 0
    ensures LeadsTo(grants, [g], g)
  {
  }

  lemma LeadsOn(grants: map<Uuid, GrantRow>, ids: seq<Uuid>, above: Uuid, g: Uuid)
    requires LeadsTo(grants, ids, above) && g in grants
    requires grants[g].parent == Some(above) && grants[g].depth == grants[above].depth + 1
    ensures LeadsTo(grants, ids + [g], g)
  {
    var longer := ids + [g];
    assert forall i | 0 <= i < |ids| :: longer[i] == ids[i];
    assert longer[|ids|] == g && longer[|ids| - 1] == above;
    forall i | 0 < i < |longer| ensures grants[longer[i]].parent.Some? && grants[longer[i]].parent.value == longer[i - 1] {
      if i < |ids| {
        assert longer[i] == ids[i] && longer[i - 1] == ids[i - 1];
      }
    }
  }

  lemma {:induction false} WalkFuel(grants: map<Uuid, GrantRow>, g: Uuid, m: nat, n: nat)
    requires ForestOk(grants) && g in grants && grants[g].depth < m && grants[g].depth < n
    ensures Walk(grants, grants[g].tenant, g, m) == Walk(grants, grants[g].tenant, g, n)
    decreases m
  {
    assert NodeOk(grants, grants[g]);
    if grants[g].parent.Some? {
      WalkFuel(grants, grants[g].parent.value, m - 1, n - 1);
    }
  }

  lemma LineStep(grants: map<Uuid, GrantRow>, g: Uuid)
    requires ForestOk(grants) && g in grants
    ensures g in Line(grants, g)
    ensures Line(grants, g) == match grants[g].parent case None => {g} case Some(p) => Line(grants, p) + {g}
    ensures grants[g].parent.Some? ==>
              grants[g].parent.value in grants && grants[grants[g].parent.value].depth < grants[g].depth
  {
    assert NodeOk(grants, grants[g]);
    if grants[g].parent.Some? {
      WalkFuel(grants, grants[g].parent.value, 5, 6);
    }
  }

  /** A grant lies within the authority, expiry and budget of each of its ancestors. */
  lemma {:induction false} LineAttenuates(grants: map<Uuid, GrantRow>, g: Uuid, x: Uuid)
    requires ForestOk(grants) && g in grants && x in Line(grants, g)
    ensures Attenuates(grants[g].authority, grants[x].authority)
    ensures grants[x].tenant == grants[g].tenant
    ensures x == g || grants[x].depth < grants[g].depth
    decreases grants[g].depth
  {
    LineStep(grants, g);
    assert NodeOk(grants, grants[g]);
    if x != g {
      LineAttenuates(grants, grants[g].parent.value, x);
    }
  }

  lemma {:induction false} LineTransitive(grants: map<Uuid, GrantRow>, a: Uuid, x: Uuid, g: Uuid)
    requires ForestOk(grants) && g in grants && x in Line(grants, g) && a in Line(grants, x)
    ensures a in Line(grants, g)
    decreases if g in grants then grants[g].depth else 0
  {
    assert NodeOk(grants, grants[g]);
    LineStep(grants, g);
    if x != g {
      LineTransitive(grants, a, x, grants[g].parent.value);
    }
  }

  /** Two ancestors of one grant are one above the other. */
  lemma {:induction false} LineComparable(grants: map<Uuid, GrantRow>, x: Uuid, y: Uuid, g: Uuid)
    requires ForestOk(grants) && g in grants && x in Line(grants, g) && y in Line(grants, g)
    ensures x in Line(grants, y) || y in Line(grants, x)
    decreases if g in grants then grants[g].depth else 0
  {
    assert NodeOk(grants, grants[g]);
    LineStep(grants, g);
    if x != g && y != g {
      LineComparable(grants, x, y, grants[g].parent.value);
    }
  }

  // ---------------------------------------------------------------- reading a chain

  function Chain(grants: map<Uuid, GrantRow>, g: Uuid): (chain: seq<Grant>)
    requires g in grants
  {
    Rows(grants, Path(grants, g))
  }

  lemma ChainShape(grants: map<Uuid, GrantRow>, g: Uuid)
    requires ForestOk(grants) && g in grants
    ensures var chain := Chain(grants, g);
            && 0 < |chain| <= 5 && |chain| == grants[g].depth + 1
            && Scheduler.ChainIds(chain) == Line(grants, g)
            && chain[|chain| - 1] == ToGrant(g, grants[g])
            && forall i | 0 <= i < |chain| ::
                 chain[i].id in Line(grants, g) && chain[i] == ToGrant(chain[i].id, grants[chain[i].id])
    ensures var chain := Chain(grants, g);
            forall i, j | 0 <= i < j < |chain| :: chain[i].id != chain[j].id
  {
    WalkFacts(grants, g, 6);
    assert NodeOk(grants, grants[g]);
    var ids, chain := Path(grants, g), Chain(grants, g);
    hide Walk, NodeOk, ForestOk;
    forall i, j | 0 <= i < j < |chain| ensures chain[i].id != chain[j].id {
      assert grants[ids[i]].depth == i && grants[ids[j]].depth == j;
    }
    ChainLists(grants, ids);
  }

  lemma ChainLists(grants: map<Uuid, GrantRow>, ids: seq<Uuid>)
    requires forall i | 0 <= i < |ids| :: ids[i] in grants
    ensures Scheduler.ChainIds(Rows(grants, ids)) == set x | x in ids
  {
    var chain := Rows(grants, ids);
    forall x ensures x in Scheduler.ChainIds(chain) <==> x in ids {
      if x in ids {
        var i :| 0 <= i < |ids| && ids[i] == x;
        assert chain[i].id == x;
      }
    }
  }

  /** A chain of the forest has no fault except a grant that is revoked or has expired. */
  lemma ChainHasNoFault(grants: map<Uuid, GrantRow>, g: Uuid, chain: seq<Grant>, nowMs: int, i: nat)
    requires ForestOk(grants) && g in grants && |chain| == |Chain(grants, g)| && i < |chain|
    requires forall k | 0 <= k < |chain| :: chain[k].(revoked := false) == Chain(grants, g)[k].(revoked := false)
    ensures Fault(chain, i, grants[g].tenant, nowMs)
            == if chain[i].revoked || chain[i].authority.expiresAtMs <= nowMs then Some(Inactive) else None
  {
    ChainPlaces(grants, g);
    ChainShape(grants, g);
    hide Path, Line, Chain, ValidShape, Attenuates;
    var stored := Chain(grants, g)[i];
    assert chain[i] == stored.(revoked := chain[i].revoked);
    assert NodeOk(grants, grants[stored.id]);
    assert forall k | 0 <= k < |chain| :: chain[k].id == Chain(grants, g)[k].id;
    assert !Repeats(chain, i);
    if i > 0 {
      assert chain[i - 1] == Chain(grants, g)[i - 1].(revoked := chain[i - 1].revoked);
      assert stored.parent == Some(chain[i - 1].id);
      assert Attenuates(stored.authority, chain[i - 1].authority);
    }
    assert !Misplaced(chain, i, grants[g].tenant);
  }

  lemma ChainPlaces(grants: map<Uuid, GrantRow>, g: Uuid)
    requires ForestOk(grants) && g in grants
    ensures var chain := Chain(grants, g);
            forall i | 0 <= i < |chain| ::
              && chain[i].tenant == grants[g].tenant && chain[i].depth == i
              && chain[i].parent == if i == 0 then None else Some(chain[i - 1].id)
  {
    WalkFacts(grants, g, 6);
    var ids, chain := Path(grants, g), Chain(grants, g);
    hide Walk, ForestOk;
    forall i | 0 <= i < |chain|
      ensures chain[i].tenant == grants[g].tenant && chain[i].depth == i
      ensures chain[i].parent == if i == 0 then None else Some(chain[i - 1].id)
    {
      assert chain[i] == ToGrant(ids[i], grants[ids[i]]);
      if i > 0 {
        assert chain[i - 1].id == ids[i - 1];
      }
    }
  }

  // ---------------------------------------------------------------- the recursive query

  /** A set of rows closed under the step of the recursive query: from a row to its parent's row
      in the same tenant. */
  predicate Closed(grants: map<Uuid, GrantRow>, tenant: Uuid, rows: set<Uuid>) {
    forall x | x in rows && x in grants ::
      grants[x].parent.Some? && grants[x].parent.value in grants && grants[grants[x].parent.value].tenant == tenant ==>
        grants[x].parent.value in rows
  }

  /** The rows the recursive query yields from g: the least closed set with g in it. */
  ghost predicate QueryRows(grants: map<Uuid, GrantRow>, tenant: Uuid, g: Uuid, rows: set<Uuid>) {
    && g in rows && Closed(grants, tenant, rows)
    && forall other: set<Uuid> | g in other && Closed(grants, tenant, other) :: rows <= other
  }

  /** ORDER BY depth, each row once. */
  predicate ByDepth(grants: map<Uuid, GrantRow>, ids: seq<Uuid>) {
    && Distinct(ids) && (forall i | 0 <= i < |ids| :: ids[i] in grants)
    && forall i, j | 0 <= i < j < |ids| :: grants[ids[i]].depth <= grants[ids[j]].depth
  }

  lemma {:induction false} LineLeast(grants: map<Uuid, GrantRow>, g: Uuid, other: set<Uuid>)
    requires ForestOk(grants) && g in grants && g in other && Closed(grants, grants[g].tenant, other)
    ensures Line(grants, g) <= other
    decreases if g in grants then grants[g].depth else 0
  {
    assert NodeOk(grants, grants[g]);
    LineStep(grants, g);
    if grants[g].parent.Some? {
      LineLeast(grants, grants[g].parent.value, other);
    }
  }

  lemma LineIsQuery(grants: map<Uuid, GrantRow>, g: Uuid)
    requires ForestOk(grants) && g in grants
    ensures QueryRows(grants, grants[g].tenant, g, Line(grants, g))
  {
    LineStep(grants, g);
    forall x | x in Line(grants, g) && grants[x].parent.Some? ensures grants[x].parent.value in Line(grants, g) {
      LineStep(grants, x);
      LineStep(grants, grants[x].parent.value);
      LineTransitive(grants, grants[x].parent.value, x, g);
    }
    forall other: set<Uuid> | g in other && Closed(grants, grants[g].tenant, other) ensures Line(grants, g) <= other {
      LineLeast(grants, g, other);
    }
  }

  /** In a forest in order the recursive query has one answer, whatever the database does about
      ties: the path from the root. */
  lemma PathIsQueryAnswer(grants: map<Uuid, GrantRow>, g: Uuid, rows: set<Uuid>, ids: seq<Uuid>)
    requires ForestOk(grants) && g in grants
    requires QueryRows(grants, grants[g].tenant, g, rows) && ByDepth(grants, ids) && Elements(ids) == rows
    ensures ids == Path(grants, g)
  {
    LineIsQuery(grants, g);
    assert rows == Line(grants, g);
    var path := Path(grants, g);
    WalkFacts(grants, g, 6);
    assert Elements(path) == rows;
    hide QueryRows, Line, Path, ForestOk, Closed;
    forall i, j | 0 <= i < j < |path| ensures path[i] != path[j] {
      assert grants[path[i]].depth == i && grants[path[j]].depth == j;
    }
    CountsDistinct(ids);
    CountsDistinct(path);
    SortedPath(grants, ids, path);
  }

  lemma SortedPath(grants: map<Uuid, GrantRow>, ids: seq<Uuid>, path: seq<Uuid>)
    requires ByDepth(grants, ids) && |ids| == |path| && Elements(ids) == Elements(path)
    requires forall i | 0 <= i < |path| :: path[i] in grants && grants[path[i]].depth == i
    ensures ids == path
  {
    var depths := seq(|ids|, i requires 0 <= i < |ids| => grants[ids[i]].depth);
    forall i | 0 <= i < |ids| ensures 0 <= depths[i] < |path| && ids[i] == path[depths[i]] {
      assert ids[i] in Elements(path);
      var k :| 0 <= k < |path| && path[k] == ids[i];
    }
    forall i, j | 0 <= i < j < |ids| ensures depths[i] < depths[j] {
      assert depths[i] <= depths[j] && ids[i] != ids[j];
    }
    forall i | 0 <= i < |ids| ensures ids[i] == path[i] {
      RisesByOne(depths, i);
    }
  }

  lemma {:induction false} RisesByOne(d: seq<int>, i: nat)
    requires i < |d| && forall k | 0 <= k < |d| :: 0 <= d[k] < |d|
    requires forall j, k | 0 <= j < k < |d| :: d[j] < d[k]
    ensures d[i] == i
  {
    AtLeast(d, i);
    AtMost(d, i);
  }

  lemma {:induction false} AtLeast(d: seq<int>, i: nat)
    requires i < |d| && 0 <= d[0] && forall j, k | 0 <= j < k < |d| :: d[j] < d[k]
    ensures d[i] >= i
  {
    if i > 0 {
      AtLeast(d, i - 1);
    }
  }

  lemma {:induction false} AtMost(d: seq<int>, i: nat)
    requires i < |d| && d[|d| - 1] < |d| && forall j, k | 0 <= j < k < |d| :: d[j] < d[k]
    ensures d[i] <= i
    decreases |d| - i
  {
    if i < |d| - 1 {
      AtMost(d, i + 1);
    }
  }

  /** Reading the chain of a stored grant never fails and never reports corruption. */
  lemma ChainLoads(grants: map<Uuid, GrantRow>, tenant: Uuid, g: Uuid)
    requires ForestOk(grants)
    ensures LoadChain(grants, tenant, g) ==
            if g in grants && grants[g].tenant == tenant then Ok(Chain(grants, g)) else Err(GrantNotFound)
  {
    if g in grants && grants[g].tenant == tenant {
      ChainShape(grants, g);
      var plain := Unrevoked(Chain(grants, g));
      forall i | 0 <= i < |plain| ensures Fault(plain, i, tenant, I64_MIN).None? {
        ChainHasNoFault(grants, g, plain, I64_MIN, i);
        assert plain[i].id in grants && NodeOk(grants, grants[plain[i].id]);
      }
      NoFault(plain, 0, tenant, I64_MIN);
    }
  }

  /** No ancestor of g is revoked, and g has not expired. */
  predicate LiveLine(grants: map<Uuid, GrantRow>, g: Uuid, now: Time) {
    && g in grants && Expiry(grants[g].authority) > now
    && forall x | x in Line(grants, g) :: !grants[x].revoked
  }

  lemma LiveChainIsLine(grants: map<Uuid, GrantRow>, g: Uuid, now: Time)
    requires ForestOk(grants) && g in grants
    ensures LiveChain(Chain(grants, g), now) <==> LiveLine(grants, g, now)
  {
    var chain := Chain(grants, g);
    ChainShape(grants, g);
    LeafExpiresFirst(grants, g);
    hide Line, Chain, ForestOk, Expiry;
    if LiveLine(grants, g, now) {
      forall i | 0 <= i < |chain| ensures LiveGrant(chain[i], now) {
        assert chain[i].id in Line(grants, g);
      }
    }
    if LiveChain(chain, now) {
      assert LiveGrant(chain[|chain| - 1], now);
      forall x | x in Line(grants, g) ensures !grants[x].revoked {
        assert x in Scheduler.ChainIds(chain);
        var i :| 0 <= i < |chain| && chain[i].id == x;
        assert LiveGrant(chain[i], now);
      }
    }
  }

  /** The liveness tests of the two readers of a chain agree, and only the leaf's expiry matters. */
  lemma ChainLiveness(grants: map<Uuid, GrantRow>, g: Uuid, now: Time)
    requires ForestOk(grants) && g in grants
    ensures LiveChain(Chain(grants, g), now) <==> LiveLine(grants, g, now)
    ensures ChainFault(Chain(grants, g), grants[g].tenant, Millis(now))
            == if LiveLine(grants, g, now) then None else Some(Inactive)
  {
    var chain := Chain(grants, g);
    LiveChainIsLine(grants, g, now);
    ChainShape(grants, g);
    hide Line, Chain, LiveLine, Fault, ForestOk, Millis, Scheduler.ChainIds;
    forall i | 0 <= i < |chain|
      ensures Fault(chain, i, grants[g].tenant, Millis(now)) == if LiveGrant(chain[i], now) then None else Some(Inactive)
    {
      ChainHasNoFault(grants, g, chain, Millis(now), i);
      LivenessTestsAgree(chain[i].authority.expiresAtMs, now);
    }
    OnlyInactive(chain, 0, grants[g].tenant, now);
  }

  lemma {:induction false} OnlyInactive(chain: seq<Grant>, k: nat, tenant: Uuid, now: Time)
    requires k <= |chain|
    requires forall i | 0 <= i < |chain| ::
               Fault(chain, i, tenant, Millis(now)) == if LiveGrant(chain[i], now) then None else Some(Inactive)
    ensures FaultFrom(chain, k, tenant, Millis(now))
            == if forall i | k <= i < |chain| :: LiveGrant(chain[i], now) then None else Some(Inactive)
    decreases |chain| - k
  {
    hide Fault, LiveGrant, Millis;
    if k < |chain| {
      OnlyInactive(chain, k + 1, tenant, now);
    }
  }

  /** The claim bounds a lease by the least expiry of the chain, the heartbeat by the expiry of
      the leaf; along a path of the forest these are the same instant, and no ancestor's expiry
      is earlier. */
  lemma LeafExpiresFirst(grants: map<Uuid, GrantRow>, g: Uuid)
    requires ForestOk(grants) && g in grants
    ensures Chain(grants, g) != [] && MinExpiry(Chain(grants, g)) == Expiry(grants[g].authority)
    ensures forall x | x in Line(grants, g) :: Expiry(grants[g].authority) <= Expiry(grants[x].authority)
  {
    ChainShape(grants, g);
    forall x | x in Line(grants, g) ensures Expiry(grants[g].authority) <= Expiry(grants[x].authority) {
      LineAttenuates(grants, g, x);
    }
  }

  // ---------------------------------------------------------------- what leaves paths alone

  /** Grants may be added; a stored grant keeps its tenant, its place and its authority. */
  predicate Extends(grants: map<Uuid, GrantRow>, grants': map<Uuid, GrantRow>) {
    forall g | g in grants ::
      && g in grants'
      && grants'[g].tenant == grants[g].tenant && grants'[g].parent == grants[g].parent
      && grants'[g].depth == grants[g].depth && grants'[g].authority == grants[g].authority
      && (grants[g].revoked ==> grants'[g].revoked)
  }

  lemma {:induction false} WalkStays(grants: map<Uuid, GrantRow>, grants': map<Uuid, GrantRow>, g: Uuid, fuel: nat)
    requires ForestOk(grants) && Extends(grants, grants') && g in grants
    ensures Walk(grants', grants[g].tenant, g, fuel) == Walk(grants, grants[g].tenant, g, fuel)
    decreases fuel
  {
    assert NodeOk(grants, grants[g]);
    if fuel > 0 && grants[g].parent.Some? {
      WalkStays(grants, grants', grants[g].parent.value, fuel - 1);
    }
  }

  lemma LinesStay(grants: map<Uuid, GrantRow>, grants': map<Uuid, GrantRow>)
    requires ForestOk(grants) && Extends(grants, grants')
    ensures forall g | g in grants :: Line(grants', g) == Line(grants, g)
  {
    forall g | g in grants ensures Line(grants', g) == Line(grants, g) {
      WalkStays(grants, grants', g, 6);
    }
  }
}

/** The law of grants, field by field: what a child may hold, when one is created, and what an
    effect must find along its line. */
module Shrinking {
  import opened Bytes
  import opened Domain
  import opened States
  import opened Grants
  import opened Db
  import opened Scheduler
  import opened Execution
  import opened Reachable
  import opened Fencing
  import opened Forest
  import opened Budget
  import opened Allowances
  import opened Terms

  // ---------------------------------------------------------------- down the tree

  /** In every reachable state a grant holds no action, destination or project that an ancestor
      lacks, expires no later and has no larger budget. */
  lemma AuthorityShrinks(p: Policy, db: Tables, actions: seq<Action>, g: Uuid, x: Uuid)
    requires ValidPolicy(p) && Initial(db)
    requires var grants := Exec(p, db, actions).grants; g in grants && x in Line(grants, g)
    ensures var grants := Exec(p, db, actions).grants;
            var child, above := grants[g].authority, grants[x].authority;
            && (forall a | a in child.actions :: a in above.actions)
            && (forall d | d in child.destinations :: d in above.destinations)
            && (forall j | j in child.projects :: j in above.projects)
            && child.expiresAtMs <= above.expiresAtMs
            && child.maxEffects <= above.maxEffects
            && grants[g].tenant == grants[x].tenant
  {
    GrantInvInitially(p, db);
    GrantInvReachable(p, db, actions);
    hide Inv, Exec, UseOk, ReservedOk, AllowedOk, LeasesOk;
    var grants := Exec(p, db, actions).grants;
    LineAttenuates(grants, g, x);
    hide ForestOk, Line;
  }

  /** The authority stays within what the parent's holds. */
  predicate Narrower(child: Authority, above: Authority) {
    && (forall a | a in child.actions :: a in above.actions)
    && (forall d | d in child.destinations :: d in above.destinations)
    && (forall j | j in child.projects :: j in above.projects)
    && child.expiresAtMs <= above.expiresAtMs
    && child.maxEffects <= above.maxEffects
  }

  /** The one action, one to sixteen well-named destinations and projects, a budget of one to a
      hundred, and an end within a day. */
  predicate Proper(a: Authority, nowMs: int) {
    && (forall x | x in a.actions :: x == Ascii("ticket.create")) && Ascii("ticket.create") in a.actions
    && 1 <= |a.destinations| <= 16 && (forall x | x in a.destinations :: Identifier(x))
    && 1 <= |a.projects| <= 16 && (forall x | x in a.projects :: Identifier(x))
    && 1 <= a.maxEffects <= 100
    && nowMs < a.expiresAtMs <= nowMs + 24 * 60 * 60 * 1000
  }

  lemma AliasIsIdentifier(x: Text)
    ensures Alias(x) <==> Identifier(x)
  {
  }

  lemma ProperIsValid(a: Authority, nowMs: int)
    ensures Grants.Valid(a, nowMs) <==> Proper(a, nowMs)
  {
    forall x ensures Alias(x) <==> Identifier(x) {
      AliasIsIdentifier(x);
    }
    hide Alias, Identifier, Ascii;
    assert a.actions == {TICKET_CREATE} <==>
           (forall x | x in a.actions :: x == TICKET_CREATE) && TICKET_CREATE in a.actions;
  }

  lemma NarrowerIsAttenuation(a: Authority, b: Authority)
    ensures Narrower(a, b) <==> Attenuates(a, b)
  {
  }

  /** No grant of the line is revoked or has expired. */
  predicate AllLive(s: Tables, g: Uuid) {
    forall x | x in s.grants && x in Line(s.grants, g) ::
      !s.grants[x].revoked && s.grants[x].authority.expiresAtMs * 1000 > s.clock
  }

  lemma AllLiveIsLive(s: Tables, g: Uuid)
    requires ForestOk(s.grants) && g in s.grants
    ensures AllLive(s, g) <==> LiveLine(s.grants, g, s.clock)
  {
    LineStep(s.grants, g);
    LeafExpiresFirst(s.grants, g);
    hide ForestOk, Line, Chain;
  }

  /** A child is created exactly when its authority is proper, its parent is a stored grant of the
      tenant at depth three or less whose whole line is live, and it stays within the parent in
      every field. If only the last fails the refusal is an escalation, and nothing is stored. */
  lemma ChildCreatedExactly(p: Policy, s: Tables, tenant: Uuid, above: Uuid, a: Authority, id: Uuid)
    requires GrantInv(p, s) && id !in s.grants && above in s.grants && s.grants[above].tenant == tenant
    ensures var (s', reply) := CreateGrant(s, tenant, Some(above), a, id);
            var sound := Proper(a, s.clock / 1000) && s.grants[above].depth <= 3 && AllLive(s, above);
            && (reply == GrantCreated(id) <==> sound && Narrower(a, s.grants[above].authority))
            && (reply == Refused(GrantValidation(Escalation)) <==> sound && !Narrower(a, s.grants[above].authority))
            && (reply != GrantCreated(id) ==> s' == s && reply.Refused?)
            && (reply == GrantCreated(id) ==>
                  s' == s.(grants := s.grants[id := GrantRow(tenant, Some(above), s.grants[above].depth + 1, a, 0, false)]))
  {
    hide GrantInv, ForestOk, Proper, Narrower, AllLive, LiveLine, Attenuates, Grants.Valid, ChildFault, Chain, CreateGrant;
    ProperIsValid(a, s.clock / 1000);
    NarrowerIsAttenuation(a, s.grants[above].authority);
    GrantForest(p, s);
    AllLiveIsLive(s, above);
    CreateExactly(s, tenant, Some(above), a, id);
    EscalationReply(s, tenant, above, a, id);
    EscalationExactly(s, tenant, above, a);
  }

  lemma EscalationReply(s: Tables, tenant: Uuid, above: Uuid, a: Authority, id: Uuid)
    requires ForestOk(s.grants) && above in s.grants && s.grants[above].tenant == tenant
    ensures CreateGrant(s, tenant, Some(above), a, id).1 == Refused(GrantValidation(Escalation)) <==>
            ChildFault(a, Chain(s.grants, above), tenant, Millis(s.clock)) == Some(Escalation)
  {
    ChainLoads(s.grants, tenant, above);
    hide ForestOk, LoadChain, Chain, ChildFault, Millis;
  }

  lemma EscalationExactly(s: Tables, tenant: Uuid, above: Uuid, a: Authority)
    requires ForestOk(s.grants) && above in s.grants && s.grants[above].tenant == tenant
    ensures ChildFault(a, Chain(s.grants, above), tenant, Millis(s.clock)) == Some(Escalation) <==>
            && Grants.Valid(a, Millis(s.clock)) && s.grants[above].depth <= 3
            && LiveLine(s.grants, above, s.clock) && !Attenuates(a, s.grants[above].authority)
  {
    var chain := Chain(s.grants, above);
    ChainShape(s.grants, above);
    ChainLiveness(s.grants, above, s.clock);
    assert s.grants[above].depth <= 4 by {
      assert NodeOk(s.grants, s.grants[above]);
    }
    hide ForestOk, Chain, LoadChain, LiveLine, LiveChain, ChainIds, Line, Grants.Valid, Attenuates, Fault, ChainFault, Millis;
    if ChainFault(chain, tenant, Millis(s.clock)).None? && Grants.Valid(a, Millis(s.clock)) && |chain| < 5 {
      ParentSuffices(a, chain, tenant, Millis(s.clock));
    }
  }

  /** A root is created exactly when the tenant exists and the authority is proper. */
  lemma RootCreatedExactly(s: Tables, tenant: Uuid, a: Authority, id: Uuid)
    requires id !in s.grants
    ensures var (s', reply) := CreateGrant(s, tenant, None, a, id);
            && (reply == GrantCreated(id) <==> tenant in s.tenants && Proper(a, s.clock / 1000))
            && (reply != GrantCreated(id) ==> s' == s && reply.Refused?)
            && (reply == GrantCreated(id) ==> s' == s.(grants := s.grants[id := GrantRow(tenant, None, 0, a, 0, false)]))
  {
    ProperIsValid(a, s.clock / 1000);
    hide Proper, Grants.Valid;
  }

  // ---------------------------------------------------------------- claims

  lemma ClaimAlongLine(p: Policy, s: Tables, op: Op)
    requires GrantInv(p, s) && Perform(p, s, op).1.Claimed?
    ensures op.Claiming?
    ensures var (s', reply) := Perform(p, s, op);
            var lease := reply.lease;
            && lease.run in s.runs && lease.run in s'.runs && s.runs[lease.run].tenant == lease.tenant
            && s.runs[lease.run].request.grantId in s.grants
            && s'.runs[lease.run].leaseEpoch == lease.epoch == s.runs[lease.run].leaseEpoch + 1
            && s'.runs[lease.run].leaseOwner == Some(op.worker) && s'.runs[lease.run].leaseExpires == Some(lease.expires)
            && lease.request == s.runs[lease.run].request
            && AllLive(s, lease.request.grantId)
            && lease.expires == Min(s'.clock + p.leaseMs * 1000, s.grants[lease.request.grantId].authority.expiresAtMs * 1000)
  {
    hide Inv, Perform, UseOk, ReservedOk, AllowedOk, LeasesOk, AllLive, ForestOk, LiveLine, LoadChain, LiveChain, Chain;
    ClaimFacts(p, s, op);
    ClaimBound(p, s, op);
    var lease := Perform(p, s, op).1.lease;
    var g := s.runs[lease.run].request.grantId;
    CandidateTenant(p, s, op.allowed, lease.tenant, lease.run);
    ChainLoads(s.grants, lease.tenant, g);
    LiveChainIsLine(s.grants, g, s.clock);
    AllLiveIsLive(s, g);
    LeaseFormulasAgree(p, s.grants, g, Perform(p, s, op).0.clock);
    hide LeaseExpiry;
  }

  lemma CandidateTenant(p: Policy, s: Tables, allowed: seq<Uuid>, t: Uuid, r: Uuid)
    requires Chosen(p, s, allowed, t, r)
    ensures r in s.runs && s.runs[r].tenant == t
  {
  }

  /** In every execution a claim's reply is what is stored: the next epoch, the worker, the run's own
      request, and an end at the lease time or at the end of the grant, whichever is first. Every
      grant of the line is live at that moment and lasts at least as long as the lease. */
  lemma ClaimTerms(p: Policy, db: Tables, actions: seq<Action>, k: nat, x: Uuid)
    requires GrantInv(p, db) && k < |actions| && ReplyAt(p, db, actions, k).Claimed?
    ensures actions[k].op.Claiming?
    ensures var s, s', lease := Seen(p, db, actions, k), Before(p, db, actions, k + 1), ReplyAt(p, db, actions, k).lease;
            && lease.run in s.runs && lease.run in s'.runs && s.runs[lease.run].tenant == lease.tenant
            && s'.runs[lease.run].leaseEpoch == lease.epoch == s.runs[lease.run].leaseEpoch + 1
            && s'.runs[lease.run].leaseOwner == Some(actions[k].op.worker)
            && s'.runs[lease.run].leaseExpires == Some(lease.expires)
            && lease.request == s.runs[lease.run].request && lease.request.grantId in s.grants
            && var leafEnd := s.grants[lease.request.grantId].authority.expiresAtMs * 1000;
               && lease.expires <= s'.clock + p.leaseMs * 1000 && lease.expires <= leafEnd
               && (lease.expires == s'.clock + p.leaseMs * 1000 || lease.expires == leafEnd)
               && (x in s.grants && x in Line(s.grants, lease.request.grantId) ==>
                     && !s.grants[x].revoked && s.grants[x].authority.expiresAtMs * 1000 > s.clock
                     && lease.expires <= s.grants[x].authority.expiresAtMs * 1000)
  {
    GrantInvBefore(p, db, actions, k);
    GrantInvAt(p, Before(p, db, actions, k), actions[k].now);
    NextState(p, db, actions, k);
    var s := Seen(p, db, actions, k);
    hide Perform, Exec, GrantInv, Onward;
    ClaimAlongLine(p, s, actions[k].op);
    var lease := ReplyAt(p, db, actions, k).lease;
    GrantForest(p, s);
    if x in s.grants && x in Line(s.grants, lease.request.grantId) {
      LineLasts(s, lease.request.grantId, x);
    }
    hide Line;
  }

  lemma LineLasts(s: Tables, g: Uuid, x: Uuid)
    requires ForestOk(s.grants) && g in s.grants && x in Line(s.grants, g)
    ensures s.grants[g].authority.expiresAtMs <= s.grants[x].authority.expiresAtMs
  {
    LineAttenuates(s.grants, g, x);
  }

  // ---------------------------------------------------------------- charges

  /** In every reachable state an effect is charged by a reservation exactly when it is prepared, no
      grant of its line is revoked, expired or used up, and every grant of the line names its
      action, destination and project; then each of them is used once more. */
  lemma ChargedExactly(p: Policy, s: Tables, tenant: Uuid, e: EffectId)
    requires GrantInv(p, s) && e.run in s.runs && s.runs[e.run].tenant == tenant && e in s.effects && !s.effects[e].charged
    ensures var (s', reply) := ReserveChain(s, tenant, e.run, e.ordinal);
            var line, effect := Line(s.grants, s.runs[e.run].request.grantId), s.effects[e];
            && (reply == Charged(false) <==>
                  && effect.state.Prepared? && AllLive(s, s.runs[e.run].request.grantId)
                  && forall x | x in s.grants && x in line ::
                       && s.grants[x].used < s.grants[x].authority.maxEffects
                       && effect.action in s.grants[x].authority.actions
                       && effect.destination in s.grants[x].authority.destinations
                       && effect.project in s.grants[x].authority.projects)
            && (reply == Charged(false) ==>
                  && (forall x | x in s.grants ::
                        x in s'.grants && s'.grants[x].used == s.grants[x].used + (if x in line then 1 else 0))
                  && e in s'.effects && s'.effects[e] == effect.(charged := true))
            && (reply != Charged(false) ==> s' == s && reply.Refused?)
  {
    ChargeParts(p, s, e);
    ReservationExactly(s, tenant, e);
    AllLiveIsLive(s, s.runs[e.run].request.grantId);
    ChargeableFields(s, e);
    ChargeUses(s, e);
    hide GrantInv, BudgetOk, ForestOk, Line, AllLive, LiveLine, Chargeable, ReserveChain, ChargedTables;
  }

  lemma ChargeParts(p: Policy, s: Tables, e: EffectId)
    requires GrantInv(p, s) && e.run in s.runs
    ensures BudgetOk(s) && ForestOk(s.grants) && s.runs[e.run].request.grantId in s.grants
  {
    hide Inv;
  }

  lemma ChargeableFields(s: Tables, e: EffectId)
    requires ForestOk(s.grants) && e.run in s.runs && e in s.effects && s.runs[e.run].request.grantId in s.grants
    ensures var g, effect := s.runs[e.run].request.grantId, s.effects[e];
            Chargeable(s, e) <==>
            && effect.state.Prepared? && LiveLine(s.grants, g, s.clock)
            && forall x | x in s.grants && x in Line(s.grants, g) ::
                 && s.grants[x].used < s.grants[x].authority.maxEffects
                 && effect.action in s.grants[x].authority.actions
                 && effect.destination in s.grants[x].authority.destinations
                 && effect.project in s.grants[x].authority.projects
  {
    var g := s.runs[e.run].request.grantId;
    LineStep(s.grants, g);
    hide LiveLine;
    forall x | x in s.grants && x in Line(s.grants, g)
      ensures Attenuates(s.grants[g].authority, s.grants[x].authority)
    {
      LineAttenuates(s.grants, g, x);
    }
    hide ForestOk, Line;
  }

  lemma ChargeUses(s: Tables, e: EffectId)
    requires e in s.effects && e.run in s.runs
    ensures var s', line := ChargedTables(s, e), Line(s.grants, s.runs[e.run].request.grantId);
            && (forall x | x in s.grants ::
                  x in s'.grants && s'.grants[x].used == s.grants[x].used + (if x in line then 1 else 0))
            && e in s'.effects && s'.effects[e] == s.effects[e].(charged := true)
  {
    hide Line;
  }

  /** In every reachable state a charged effect names an action, a destination and a project that
      each grant of its line holds. */
  lemma ChargedWithinLine(p: Policy, db: Tables, actions: seq<Action>, e: EffectId, x: Uuid)
    requires ValidPolicy(p) && Initial(db)
    requires var s := Exec(p, db, actions);
             && e in s.effects && s.effects[e].charged && e.run in s.runs
             && x in s.grants && x in Line(s.grants, s.runs[e.run].request.grantId)
    ensures var s := Exec(p, db, actions);
            && s.effects[e].action in s.grants[x].authority.actions
            && s.effects[e].destination in s.grants[x].authority.destinations
            && s.effects[e].project in s.grants[x].authority.projects
  {
    GrantInvInitially(p, db);
    GrantInvReachable(p, db, actions);
    hide Inv, Exec, UseOk, ReservedOk, ForestOk, LeasesOk, Line;
    assert AllowedBy(Exec(p, db, actions), e, x);
  }
}

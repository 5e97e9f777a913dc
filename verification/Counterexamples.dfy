/** Two expectations that fail, each shown by a whole execution from a provisioned database. When
    they hold is said exactly by Corruption.FinishCorruptExactly and
    Allowances.RenewalAgreesExactly. */
module Counterexamples {
  import opened Bytes
  import opened Domain
  import opened Hash
  import opened States
  import opened Grants
  import opened Db
  import opened Scheduler
  import opened Execution
  import opened Rows
  import opened Deltas
  import opened Invariants
  import opened Reachable
  import opened Fencing
  import opened Forest
  import opened Budget
  import opened Allowances
  import opened Outcomes
  import Lifecycle
  import Corruption
  import Fairness
  import EventChain

  // ---------------------------------------------------------------- the setting

  const TENANT: Uuid := 1
  const ROOT: Uuid := 2
  const CHILD: Uuid := 3
  const RUN: Uuid := 4
  const WORKER: Text := [119]
  const KEY: Text := [107]
  const DIGEST: seq<byte> := EventChain.ZERO_HASH
  const ALLOWED := [TENANT]

  function Provisioned(): Tables {
    Tables(0, map[TENANT := Tenant(10, 1, 0, 0)], {}, map[], map[], map[], map[], {}, 0, None)
  }

  function Ticket(): Authority {
    Authority({TICKET_CREATE}, {[100]}, {[112]}, 1000, 1)
  }

  function Asking(grant: Uuid): NormalizedRun {
    NormalizedRun(DIGEST, grant, [], Limits(1, 1, 1, 1))
  }

  function Now(op: Op): Action {
    Action(0, op)
  }

  /** Module, root grant, and a run admitted under it. */
  function Admitting(): seq<Action> {
    [Now(Uploading(TENANT, DIGEST)), Now(MakeGrant(TENANT, None, Ticket(), ROOT)),
     Now(Admission(TENANT, KEY, Asking(ROOT), RUN))]
  }

  /** The run has never been claimed, and a worker finishes it. */
  function StaleFinish(): seq<Action> {
    Admitting() + [Now(Finishing(RUN, WORKER, ALLOWED, 1, None, None))]
  }

  /** A run under a child grant is claimed, the root is revoked, the worker sends a heartbeat. */
  function LateRevocation(): seq<Action> {
    [Now(Uploading(TENANT, DIGEST)), Now(MakeGrant(TENANT, None, Ticket(), ROOT)),
     Now(MakeGrant(TENANT, Some(ROOT), Ticket(), CHILD)), Now(Admission(TENANT, KEY, Asking(CHILD), RUN)),
     Now(Claiming(WORKER, ALLOWED, 1, 0)), Now(Revoking(TENANT, ROOT)), Now(Beating(RUN, WORKER, ALLOWED, 1))]
  }

  // ---------------------------------------------------------------- the states on the way

  function WithModule(): Tables {
    Provisioned().(modules := {(TENANT, DIGEST)})
  }

  function RootRow(): GrantRow {
    GrantRow(TENANT, None, 0, Ticket(), 0, false)
  }

  function ChildRow(): GrantRow {
    GrantRow(TENANT, Some(ROOT), 1, Ticket(), 0, false)
  }

  function WithRoot(): Tables {
    WithModule().(grants := map[ROOT := RootRow()])
  }

  function WithChild(): Tables {
    WithModule().(grants := map[ROOT := RootRow(), CHILD := ChildRow()])
  }

  lemma ProvisionedInitial(p: Policy)
    requires ValidPolicy(p)
    ensures Initial(Provisioned()) && GrantInv(p, Provisioned())
  {
    GrantInvInitially(p, Provisioned());
  }

  lemma TicketValid()
    ensures Grants.Valid(Ticket(), Millis(0)) && ValidShape(Ticket()) && Attenuates(Ticket(), Ticket())
  {
    assert Alias([100]) && Alias([112]);
  }

  lemma TwoGrantsOk()
    ensures ForestOk(WithRoot().grants) && ForestOk(WithChild().grants)
    ensures Line(WithChild().grants, CHILD) == {ROOT, CHILD}
    ensures LiveLine(WithChild().grants, CHILD, 0) && WithChild().grants[CHILD].tenant == TENANT
  {
    TicketValid();
    hide Attenuates, ValidShape;
    LineStep(WithChild().grants, CHILD);
    LineStep(WithChild().grants, ROOT);
  }

  lemma ModuleUploaded(p: Policy)
    ensures Apply(p, Provisioned(), Now(Uploading(TENANT, DIGEST))).0 == WithModule()
  {
  }

  lemma RootMade(p: Policy)
    ensures Apply(p, WithModule(), Now(MakeGrant(TENANT, None, Ticket(), ROOT))).0 == WithRoot()
  {
    TicketValid();
    CreateExactly(WithModule(), TENANT, None, Ticket(), ROOT);
    hide CreateGrant, Grants.Valid;
  }

  lemma ChildMade(p: Policy)
    ensures Apply(p, WithRoot(), Now(MakeGrant(TENANT, Some(ROOT), Ticket(), CHILD))).0 == WithChild()
  {
    TicketValid();
    TwoGrantsOk();
    RootLives();
    CreateExactly(WithRoot(), TENANT, Some(ROOT), Ticket(), CHILD);
    hide CreateGrant, Grants.Valid, Attenuates, ForestOk, LiveLine;
  }

  lemma RootLives()
    ensures LiveLine(WithRoot().grants, ROOT, 0)
  {
  }

  // ---------------------------------------------------------------- admission

  /** Nothing has happened yet but the making of grants. */
  predicate Waiting(db: Tables) {
    db == WithModule().(grants := db.grants)
  }

  function AdmittedRow(p: Policy, grant: Uuid, log: seq<EventChain.Event>): Run {
    Stamp(NewRun(TENANT, KEY, Asking(grant), p.runHash(Asking(grant)), 0), log)
  }

  function AdmittedTables(p: Policy, db: Tables, grant: Uuid, log: seq<EventChain.Event>): Tables {
    db.(runs := map[RUN := AdmittedRow(p, grant, log)], events := map[RUN := log])
  }

  lemma RunAdmitted(p: Policy, db: Tables, grant: Uuid) returns (log: seq<EventChain.Event>)
    requires GrantInv(p, db) && Waiting(db) && GrantUsable(db, TENANT, grant)
    ensures Apply(p, db, Now(Admission(TENANT, KEY, Asking(grant), RUN))).0 == AdmittedTables(p, db, grant, log)
  {
    InvPolicy(p, db);
    QueueEmpty(p, db);
    hide GrantInv, Inv, Admit, QueueFull;
    log := AdmitsExactly(p, db, TENANT, KEY, Asking(grant), RUN);
  }

  lemma QueueEmpty(p: Policy, db: Tables)
    requires ValidPolicy(p) && Waiting(db)
    ensures TENANT in db.tenants && !QueueFull(p, db, TENANT) && AdmitArguments(p, KEY) && FindKey(db, TENANT, KEY).None?
  {
    forall q ensures Count(db.runs, q) == 0 {
      assert Select(db.runs, q) == {};
    }
  }

  lemma InvPolicy(p: Policy, db: Tables)
    requires GrantInv(p, db)
    ensures Inv(p, db) && ValidPolicy(p)
  {
  }

  /** Carrying out one more action of a list. */
  lemma Onto(p: Policy, actions: seq<Action>, k: nat, s: Tables)
    requires ValidPolicy(p) && k < |actions| && Before(p, Provisioned(), actions, k) == s
    ensures Before(p, Provisioned(), actions, k + 1) == Apply(p, s, actions[k]).0
    ensures ReplyAt(p, Provisioned(), actions, k) == Apply(p, s, actions[k]).1
    ensures GrantInv(p, Apply(p, s, actions[k]).0)
  {
    ProvisionedInitial(p);
    NextState(p, Provisioned(), actions, k);
    GrantInvBefore(p, Provisioned(), actions, k + 1);
  }

  lemma Opening(p: Policy, actions: seq<Action>)
    requires ValidPolicy(p) && |actions| >= 2
    requires actions[0] == Now(Uploading(TENANT, DIGEST)) && actions[1] == Now(MakeGrant(TENANT, None, Ticket(), ROOT))
    ensures Before(p, Provisioned(), actions, 2) == WithRoot() && GrantInv(p, WithRoot())
  {
    hide GrantInv, Apply, Provisioned, WithModule, WithRoot, Ticket;
    assert actions[..0] == [];
    ExecNone(p, Provisioned());
    ModuleUploaded(p);
    Onto(p, actions, 0, Provisioned());
    RootMade(p);
    Onto(p, actions, 1, WithModule());
  }

  // ---------------------------------------------------------------- a stale finish

  lemma FinishTold(p: Policy, s: Tables, log: seq<EventChain.Event>)
    requires Inv(p, s) && s == AdmittedTables(p, WithRoot(), ROOT, log)
    ensures Apply(p, s, Now(Finishing(RUN, WORKER, ALLOWED, 1, None, None))).1 == Refused(CorruptScheduler)
  {
    hide Inv, Finish;
    FinishWithoutSlot(p, s, log);
  }

  lemma FinishWithoutSlot(p: Policy, s: Tables, log: seq<EventChain.Event>)
    requires Inv(p, s) && s == AdmittedTables(p, WithRoot(), ROOT, log)
    ensures Finish(p, s, RUN, WORKER, ALLOWED, 1, None, None).1 == Refused(CorruptScheduler)
  {
    NoSlotHeld(p, s, log);
    hide *;
    Corruption.FinishCorruptExactly(p, s, RUN, WORKER, ALLOWED, 1, None, None);
  }

  lemma NoSlotHeld(p: Policy, s: Tables, log: seq<EventChain.Event>)
    requires s == AdmittedTables(p, WithRoot(), ROOT, log)
    ensures s.reaping.None? && FinishArguments(WORKER, 1, None, None) && Visible(s, RUN, ALLOWED)
    ensures RUN in s.runs && Lifecycle.HeldSlots(s.runs, s.runs[RUN].tenant) == {}
  {
  }

  lemma RootUsable()
    ensures Waiting(WithRoot()) && GrantUsable(WithRoot(), TENANT, ROOT)
    ensures Waiting(WithChild()) && GrantUsable(WithChild(), TENANT, CHILD)
  {
  }

  /** A finish under an epoch that was never issued is not told of a lease conflict but that the
      scheduler is corrupt: no slot of the tenant is held. */
  lemma StaleFinishToldCorrupt(p: Policy)
    requires ValidPolicy(p)
    ensures Initial(Provisioned())
    ensures ReplyAt(p, Provisioned(), StaleFinish(), 3) == Refused(CorruptScheduler)
  {
    var actions := StaleFinish();
    assert actions[0] == Now(Uploading(TENANT, DIGEST)) && actions[1] == Now(MakeGrant(TENANT, None, Ticket(), ROOT));
    assert actions[2] == Now(Admission(TENANT, KEY, Asking(ROOT), RUN));
    assert actions[3] == Now(Finishing(RUN, WORKER, ALLOWED, 1, None, None));
    hide *;
    ProvisionedInitial(p);
    Opening(p, actions);
    RootUsable();
    var log := RunAdmitted(p, WithRoot(), ROOT);
    Onto(p, actions, 2, WithRoot());
    InvPolicy(p, AdmittedTables(p, WithRoot(), ROOT, log));
    FinishTold(p, AdmittedTables(p, WithRoot(), ROOT, log), log);
    Onto(p, actions, 3, AdmittedTables(p, WithRoot(), ROOT, log));
  }

  // ---------------------------------------------------------------- a heartbeat after a revocation

  /** The run under the child grant, leased for the first time. */
  predicate LeasedUnderChild(p: Policy, s: Tables) {
    && s.clock == 0 && s.reaping.None? && s.grants == WithChild().grants && RUN in s.runs
    && var run := s.runs[RUN];
       && run.tenant == TENANT && run.request == Asking(CHILD) && run.state.Leased? && run.held
       && run.leaseOwner == Some(WORKER) && run.leaseEpoch == 1
       && run.leaseExpires == Some(Min(p.leaseMs * 1000, 1_000_000))
  }

  lemma ClaimQuery(p: Policy, s: Tables, log: seq<EventChain.Event>)
    requires ValidPolicy(p) && s == AdmittedTables(p, WithChild(), CHILD, log)
    ensures ClaimCandidate(p, s, ALLOWED) == Some((TENANT, RUN))
    ensures ActiveTotal(s.tenants) == 0 && Count(s.runs, SlotHeldBy(WORKER)) == 0
    ensures ClaimArguments(p, WORKER, ALLOWED, 1)
  {
    NoneActive(s.tenants);
    assert Select(s.runs, SlotHeldBy(WORKER)) == {};
    assert Claimable(s.runs[RUN], p.maxAttempts);
    assert Eligible(p, s, ALLOWED, TENANT);
    Fairness.CandidateExists(p, s, ALLOWED);
  }

  lemma AdmittedFacts(p: Policy, s: Tables, log: seq<EventChain.Event>)
    requires s == AdmittedTables(p, WithChild(), CHILD, log)
    ensures s.clock == 0 && s.reaping.None? && s.dispatchSeq < I64_MAX && s.grants == WithChild().grants && RUN in s.runs
    ensures s.runs[RUN].tenant == TENANT && s.runs[RUN].request == Asking(CHILD) && s.runs[RUN].leaseEpoch == 0
    ensures CHILD in s.grants && Expiry(s.grants[CHILD].authority) == 1_000_000 && Asking(CHILD).grantId == CHILD
  {
  }

  lemma ClaimNow(p: Policy, s: Tables)
    requires s.clock == 0 && s.reaping.None?
    ensures Apply(p, s, Now(Claiming(WORKER, ALLOWED, 1, 0))) == Claim(p, s, WORKER, ALLOWED, 1, 0)
    ensures Claim(p, s, WORKER, ALLOWED, 1, 0).0.reaping.None? && Claim(p, s, WORKER, ALLOWED, 1, 0).0.grants == s.grants
  {
    hide Claim;
  }

  lemma ClaimedUnderChild(p: Policy, s: Tables, log: seq<EventChain.Event>)
    requires GrantInv(p, s) && s == AdmittedTables(p, WithChild(), CHILD, log)
    ensures LeasedUnderChild(p, Apply(p, s, Now(Claiming(WORKER, ALLOWED, 1, 0))).0)
  {
    hide *;
    InvPolicy(p, s);
    Room(p);
    ClaimQuery(p, s, log);
    AdmittedFacts(p, s, log);
    ClaimNow(p, s);
    TwoGrantsOk();
    ClaimsExactly(p, s, WORKER, ALLOWED, 1, 0);
    LeaseIs(p, s, Claim(p, s, WORKER, ALLOWED, 1, 0).0);
  }

  lemma Room(p: Policy)
    requires ValidPolicy(p)
    ensures p.maxActiveGlobal > 0
  {
  }

  lemma LeaseIs(p: Policy, s: Tables, s': Tables)
    requires RUN in s.runs && RUN in s'.runs && Leases(p, s, s', WORKER, RUN, 0)
    requires s.clock == 0 && s'.grants == s.grants == WithChild().grants && s'.reaping.None?
    requires s.runs[RUN].tenant == TENANT && s.runs[RUN].request == Asking(CHILD) && s.runs[RUN].leaseEpoch == 0
    ensures LeasedUnderChild(p, s')
  {
  }

  function Revoked(s: Tables): Tables
    requires ROOT in s.grants
  {
    s.(grants := s.grants[ROOT := s.grants[ROOT].(revoked := true)])
  }

  lemma RootRevoked(p: Policy, s: Tables)
    requires LeasedUnderChild(p, s)
    ensures ROOT in s.grants && Apply(p, s, Now(Revoking(TENANT, ROOT))).0 == Revoked(s)
  {
    TwoGrantsOk();
    hide ForestOk;
    RevokeExactly(s, TENANT, ROOT);
    hide RevokeGrant;
  }

  lemma HeldAfter(p: Policy, s: Tables)
    requires ValidPolicy(p) && LeasedUnderChild(p, s) && ROOT in s.grants
    ensures var s' := Revoked(s);
            && s'.clock == 0 && RUN in s'.runs && CHILD in s'.grants && s'.runs[RUN].request.grantId == CHILD
            && WorkerName(WORKER) && Visible(s', RUN, ALLOWED) && Holds(s'.runs[RUN], WORKER, 1, 0)
            && !s'.grants[CHILD].revoked && Expiry(s'.grants[CHILD].authority) > 0
            && s'.grants[ROOT].revoked
  {
  }

  lemma BeatNow(p: Policy, s: Tables)
    requires s.clock == 0
    ensures Apply(p, s, Now(Beating(RUN, WORKER, ALLOWED, 1))) == Heartbeat(p, s, RUN, WORKER, ALLOWED, 1)
  {
    hide Heartbeat;
  }

  lemma StillRenewed(p: Policy, s: Tables)
    requires LeasedUnderChild(p, s) && ROOT in s.grants && GrantInv(p, Revoked(s))
    ensures Apply(p, Revoked(s), Now(Beating(RUN, WORKER, ALLOWED, 1))).1.Renewed?
  {
    hide *;
    InvPolicy(p, Revoked(s));
    HeldAfter(p, s);
    BeatNow(p, Revoked(s));
    RenewsExactly(p, Revoked(s), RUN, WORKER, ALLOWED, 1);
  }

  /** What the heartbeat overlooks. */
  predicate RootGone(s: Tables) {
    && RUN in s.runs && s.runs[RUN].request.grantId == CHILD && CHILD in s.grants && ROOT in s.grants
    && ROOT in Line(s.grants, CHILD) && s.grants[ROOT].revoked && !LiveLine(s.grants, CHILD, s.clock)
  }

  lemma RootIsGone(p: Policy, s: Tables)
    requires ValidPolicy(p) && LeasedUnderChild(p, s) && ROOT in s.grants
    ensures RootGone(Revoked(s))
  {
    HeldAfter(p, s);
    RevokedLine(p, s);
    hide Line, LiveLine, LeasedUnderChild;
  }

  lemma RevokedLine(p: Policy, s: Tables)
    requires LeasedUnderChild(p, s) && ROOT in s.grants
    ensures ROOT in Line(Revoked(s).grants, CHILD) && !LiveLine(Revoked(s).grants, CHILD, 0)
  {
    TwoGrantsOk();
    hide Line;
    RevokedForest(WithChild().grants, ROOT);
    LinesStay(WithChild().grants, Revoked(s).grants);
    hide ForestOk;
  }

  lemma LateSteps()
    ensures var actions := LateRevocation();
            && |actions| == 7
            && actions[0] == Now(Uploading(TENANT, DIGEST)) && actions[1] == Now(MakeGrant(TENANT, None, Ticket(), ROOT))
            && actions[2] == Now(MakeGrant(TENANT, Some(ROOT), Ticket(), CHILD))
            && actions[3] == Now(Admission(TENANT, KEY, Asking(CHILD), RUN))
            && actions[4] == Now(Claiming(WORKER, ALLOWED, 1, 0)) && actions[5] == Now(Revoking(TENANT, ROOT))
            && actions[6] == Now(Beating(RUN, WORKER, ALLOWED, 1))
  {
  }

  lemma LeasedAt(p: Policy) returns (s: Tables)
    requires ValidPolicy(p) && |LateRevocation()| == 7
    ensures Before(p, Provisioned(), LateRevocation(), 5) == s && LeasedUnderChild(p, s)
  {
    hide *;
    var actions := LateRevocation();
    LateSteps();
    Opening(p, actions);
    ChildMade(p);
    Onto(p, actions, 2, WithRoot());
    RootUsable();
    var log := RunAdmitted(p, WithChild(), CHILD);
    Onto(p, actions, 3, WithChild());
    var admitted := AdmittedTables(p, WithChild(), CHILD, log);
    ClaimedUnderChild(p, admitted, log);
    Onto(p, actions, 4, admitted);
    s := Apply(p, admitted, actions[4]).0;
  }

  lemma RevokedAt(p: Policy) returns (s: Tables)
    requires ValidPolicy(p) && |LateRevocation()| == 7
    ensures LeasedUnderChild(p, s) && ROOT in s.grants && GrantInv(p, Revoked(s))
    ensures Before(p, Provisioned(), LateRevocation(), 6) == Revoked(s)
  {
    hide *;
    LateSteps();
    s := LeasedAt(p);
    RootRevoked(p, s);
    Onto(p, LateRevocation(), 5, s);
  }

  /** A heartbeat is answered although the root above its run's grant has been revoked; no claim
      under that root would succeed. */
  lemma RevocationMissed(p: Policy)
    requires ValidPolicy(p)
    ensures Initial(Provisioned()) && |LateRevocation()| == 7
    ensures RootGone(Before(p, Provisioned(), LateRevocation(), 6))
    ensures ReplyAt(p, Provisioned(), LateRevocation(), 6).Renewed?
  {
    hide *;
    LateSteps();
    ProvisionedInitial(p);
    var s := RevokedAt(p);
    RootIsGone(p, s);
    StillRenewed(p, s);
    Onto(p, LateRevocation(), 6, Revoked(s));
  }
}

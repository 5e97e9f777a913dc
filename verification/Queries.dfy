/** The candidate queries pick one row, and other facts the store's methods rely on. */
module Queries {
  import opened Bytes
  import opened Domain
  import opened Hash
  import opened EventChain
  import opened States
  import opened Grants
  import opened Db
  import opened Scheduler
  import Sweeping

  lemma KeyIsFound(db: Tables, tenant: Uuid, key: Text, id: Uuid)
    requires UniqueKeys(db) && HasKey(db, tenant, key, id)
    ensures FindKey(db, tenant, key) == Some(id)
  {
  }

  lemma Overwrites(link: Link, db: Tables, run: Uuid, row: Run, kind: Kind, payload: Payload)
    ensures Record(link, db.(runs := db.runs[run := row]), run, row, kind, payload) == Record(link, db, run, row, kind, payload)
  {
    if Fits(kind, payload) {
      var row' := row.(nextSeq := row.nextSeq + 1,
                       lastHash := link(Entry(row.tenant, run, if row.nextSeq < 0 then 0 else row.nextSeq, row.lastHash, kind, payload)));
      assert db.runs[run := row][run := row'] == db.runs[run := row'];
    }
  }

  /** The claim query orders tenants and runs totally: its row is the only one. */
  lemma ChosenIsCandidate(p: Policy, db: Tables, allowed: seq<Uuid>, t: Uuid, r: Uuid)
    requires t in db.tenants && r in db.runs && Chosen(p, db, allowed, t, r)
    ensures ClaimCandidate(p, db, allowed) == Some((t, r))
  {
  }

  lemma PromotedIsCandidate(p: Policy, db: Tables, r: Uuid)
    requires r in db.runs && NextPromoted(p, db, r)
    ensures PromotionCandidate(p, db) == Some(r)
  {
  }

  lemma NothingPromoted(p: Policy, db: Tables)
    requires forall r | r in db.runs :: !NextPromoted(p, db, r)
    ensures PromotionCandidate(p, db).None?
  {
  }

  lemma ExpiredIsCandidate(db: Tables, r: Uuid)
    requires r in db.runs && FirstExpired(db, r)
    ensures ExpiryCandidate(db) == Some(r)
  {
  }

  lemma SelectedOpens(p: Policy, db: Tables)
    requires db.reaping.None?
    ensures ReapSelect(p, db).1.Selected? ==> ReapSelect(p, db).0.reaping.Some?
  {
  }

  /** A reap that reaps nothing leaves the tables as they were. */
  lemma SweepGoesOn(p: Policy, db: Tables)
    requires db.reaping.None?
    ensures Scheduler.ReapOne(p, db).0.reaping.None?
    ensures !Scheduler.ReapOne(p, db).1.Reaped? ==> Scheduler.ReapOne(p, db).0 == db
  {
  }

  lemma LoadedNonempty(grants: map<Uuid, GrantRow>, tenant: Uuid, leaf: Uuid)
    ensures LoadChain(grants, tenant, leaf).Ok? ==> LoadChain(grants, tenant, leaf).value != []
  {
  }

  ghost function Reserved(e: EffectId, plan: seq<(Uuid, int)>, k: nat): set<Reservation>
    requires k <= |plan|
  {
    set i | 0 <= i < k :: Reservation(e, plan[i].0)
  }

  lemma ReservedAll(e: EffectId, plan: seq<(Uuid, int)>)
    ensures Reserved(e, plan, |plan|) == set g | g in PlanIds(plan) :: Reservation(e, g)
  {
    forall i | 0 <= i < |plan| ensures plan[i].0 in PlanIds(plan) {
    }
  }

  /** A plan names exactly the grants of its chain. */
  lemma PlanNames(chain: seq<Grant>, tenant: Uuid, nowMs: int, action: Text, destination: Text, project: Text)
    ensures var plan := Plan(chain, tenant, nowMs, action, destination, project);
            plan.Ok? ==> PlanIds(plan.value) == ChainIds(chain)
  {
    PlanCharges(chain, 0, action, destination, project);
    var plan := Plan(chain, tenant, nowMs, action, destination, project);
    if plan.Ok? {
      assert ChargesEach(chain, 0, plan.value);
      forall i | 0 <= i < |chain| ensures plan.value[i].0 == chain[i].id {
      }
    }
  }
}

/** The hashing routines as the program runs them: a hasher is fed piece by piece, with
    loops over limits, strings and set elements. Each is proved to hash the preimage whose
    unique parsing Hash.dfy proves. */
module Hasher {
  import opened Bytes
  import opened Collections
  import opened Domain
  import opened Hash

  /** A SHA-256 object: what matters of its state is the bytes fed so far. The ghost fields
      record which tag and which fields those bytes spell. */
  class Digester {
    var fed: seq<byte>
    ghost const purpose: Purpose
    ghost var fields: seq<Field>

    ghost predicate Valid()
      reads this
    {
      fed == Preimage(purpose, fields)
    }

    /** Sha256::new followed by the update with the tag. */
    constructor (d: Purpose)
      ensures Valid() && purpose == d && fields == []
    {
      purpose := d;
      fields := [];
      fed := Tag(d);
      new;
      assert Encode([]) == [];
    }

    method Update(bytes: seq<byte>)
      requires Valid()
      modifies this
      ensures Valid() && fields == old(fields) + [Fixed(bytes)]
    {
      PreimageNext(purpose, fields, Fixed(bytes));
      fed := fed + bytes;
      fields := fields + [Fixed(bytes)];
    }

    method Frame(bytes: seq<byte>)
      requires Valid()
      modifies this
      ensures Valid() && fields == old(fields) + [Framed(bytes)]
    {
      PreimageNext(purpose, fields, Framed(bytes));
      Regroup(fed, BigEndian(|bytes|, 8), bytes);
      fed := fed + BigEndian(|bytes|, 8);
      fed := fed + bytes;
      fields := fields + [Framed(bytes)];
    }

    method Finalize(sha: Sha) returns (digest: seq<byte>)
      requires Valid()
      ensures digest == sha(Preimage(purpose, fields))
    {
      digest := sha(fed);
    }
  }

  lemma PreimageNext(d: Purpose, fs: seq<Field>, f: Field)
    ensures Preimage(d, fs + [f]) == Preimage(d, fs) + EncodeField(f)
  {
    EncodeAppend(fs, [f]);
    assert Encode([f]) == EncodeField(f) + Encode([]);
    Regroup(Tag(d), Encode(fs), EncodeField(f));
  }

  method HashRun(sha: Sha, r: NormalizedRun) returns (digest: seq<byte>)
    requires LimitsFit(r.limits)
    ensures digest == sha(Preimage(RunHash, RunFields(r)))
  {
    ghost var fields := RunFields(r);
    var hash := new Digester(RunHash);
    hash.Update(r.moduleDigest);
    hash.Update(BigEndian(r.grantId, 16));
    hash.Frame(r.input);
    var values := [r.limits.fuel, r.limits.memoryBytes, r.limits.wallMs, r.limits.maxEffects];
    for k := 0 to 4
      invariant hash.Valid() && hash.purpose == RunHash
      invariant hash.fields == fields[..3 + k]
    {
      hash.Update(BigEndian(values[k], 8));
    }
    assert hash.fields == fields;
    digest := hash.Finalize(sha);
  }

  method HashEffect(sha: Sha, e: EffectRequest) returns (digest: seq<byte>)
    ensures digest == sha(Preimage(EffectHash, EffectFields(e)))
  {
    ghost var fields := EffectFields(e);
    var hash := new Digester(EffectHash);
    var values := [e.action, e.destination, e.project, e.title, e.body];
    for k := 0 to 5
      invariant hash.Valid() && hash.purpose == EffectHash
      invariant hash.fields == fields[..k]
    {
      hash.Frame(values[k]);
    }
    assert hash.fields == fields;
    digest := hash.Finalize(sha);
  }

  method HashEvent(sha: Sha, tenant: Uuid, run: Uuid, number: int, previous: seq<byte>, kind: Text, payload: Text)
    returns (digest: seq<byte>)
    requires 0 <= number
    ensures digest == sha(Preimage(EventHash, EventFields(tenant, run, number, previous, kind, payload)))
  {
    var hash := new Digester(EventHash);
    hash.Update(BigEndian(tenant, 16));
    hash.Update(BigEndian(run, 16));
    hash.Update(BigEndian(number, 8));
    hash.Update(previous);
    hash.Frame(kind);
    hash.Frame(payload);
    assert hash.fields == EventFields(tenant, run, number, previous, kind, payload);
    digest := hash.Finalize(sha);
  }

  method HashProvider(sha: Sha, tenant: Uuid, run: Uuid, ordinal: int) returns (digest: seq<byte>)
    requires 0 <= ordinal
    ensures digest == sha(Preimage(ProviderHash, ProviderFields(tenant, run, ordinal)))
  {
    var hash := new Digester(ProviderHash);
    hash.Update(BigEndian(tenant, 16));
    hash.Update(BigEndian(run, 16));
    hash.Update(BigEndian(ordinal, 8));
    assert hash.fields == ProviderFields(tenant, run, ordinal);
    digest := hash.Finalize(sha);
  }

  method HashRevocation(sha: Sha, grant: Uuid, reason: Text) returns (digest: seq<byte>)
    ensures digest == sha(Preimage(RevocationHash, RevocationFields(grant, reason)))
  {
    var hash := new Digester(RevocationHash);
    hash.Update(BigEndian(grant, 16));
    hash.Frame(reason);
    assert hash.fields == RevocationFields(grant, reason);
    digest := hash.Finalize(sha);
  }

  /** A checkpoint is not hashed: the bytes themselves are returned. */
  method Checkpoint(tenant: Uuid, run: Uuid, number: int, terminal: seq<byte>) returns (bytes: seq<byte>)
    requires 0 <= number
    ensures bytes == Preimage(CheckpointBytes, CheckpointFields(tenant, run, number, terminal))
  {
    var buffer := new Digester(CheckpointBytes);
    buffer.Update(BigEndian(tenant, 16));
    buffer.Update(BigEndian(run, 16));
    buffer.Update(BigEndian(number, 8));
    buffer.Update(terminal);
    assert buffer.fields == CheckpointFields(tenant, run, number, terminal);
    bytes := buffer.fed;
  }

  function AuthorityOf(actions: seq<Text>, destinations: seq<Text>, projects: seq<Text>,
                       expiresAtMs: int, maxEffects: int): Authority {
    Authority((set x | x in actions), (set x | x in destinations), (set x | x in projects), expiresAtMs, maxEffects)
  }

  /** The sets arrive as their increasing listings, the order in which a BTreeSet iterates. */
  method HashGrant(sha: Sha, parent: Option<Uuid>, actions: seq<Text>, destinations: seq<Text>, projects: seq<Text>,
                   expiresAtMs: int, maxEffects: int) returns (digest: seq<byte>)
    requires Increasing(actions) && Increasing(destinations) && Increasing(projects)
    requires AuthorityFits(AuthorityOf(actions, destinations, projects, expiresAtMs, maxEffects))
    ensures digest == sha(Preimage(GrantHash,
                          GrantFields(parent, AuthorityOf(actions, destinations, projects, expiresAtMs, maxEffects))))
  {
    hide Encode, BigEndian, ListFields, Preimage, Sorted, Tag, Increasing;
    ghost var a := AuthorityOf(actions, destinations, projects, expiresAtMs, maxEffects);
    var hash := new Digester(GrantHash);
    match parent {
      case Some(p) =>
        hash.Update([1]);
        hash.Update(BigEndian(p, 16));
      case None =>
        hash.Update([0]);
    }
    var sets := [actions, destinations, projects];
    for s := 0 to 3
      invariant hash.Valid() && hash.purpose == GrantHash
      invariant hash.fields == ParentFields(parent) + Listed(sets, s)
    {
      ListedNext(parent, sets, s);
      FeedList(hash, sets[s]);
    }
    hash.Update(BigEndian(if expiresAtMs < 0 then expiresAtMs + U64 else expiresAtMs, 8));
    hash.Update(BigEndian(maxEffects, 8));
    ListedFields(sets, parent, a);
    digest := hash.Finalize(sha);
  }

  lemma ListedNext(parent: Option<Uuid>, sets: seq<seq<Text>>, k: nat)
    requires k < |sets| == 3
    ensures (ParentFields(parent) + Listed(sets, k)) + ListFields(sets[k]) == ParentFields(parent) + Listed(sets, k + 1)
  {
  }

  method FeedList(hash: Digester, list: seq<Text>)
    requires hash.Valid()
    modifies hash
    ensures hash.Valid() && hash.fields == old(hash.fields) + ListFields(list)
  {
    ghost var before, fields := hash.fields, ListFields(list);
    hash.Update(BigEndian(|list|, 8));
    for k := 0 to |list|
      invariant hash.Valid()
      invariant hash.fields == before + fields[..k + 1]
    {
      Grow(before, fields, k + 1);
      hash.Frame(list[k]);
    }
    assert fields[..|list| + 1] == fields;
  }

  lemma ListedFields(sets: seq<seq<Text>>, parent: Option<Uuid>, a: Authority)
    requires |sets| == 3 && Increasing(sets[0]) && Increasing(sets[1]) && Increasing(sets[2])
    requires AuthorityFits(a) && a == AuthorityOf(sets[0], sets[1], sets[2], a.expiresAtMs, a.maxEffects)
    ensures ParentFields(parent) + Listed(sets, 3) + [I64Field(a.expiresAtMs)] + [U64Field(a.maxEffects)]
            == GrantFields(parent, a)
  {
    hide BigEndian, Increasing, Sorted, ListFields;
    IncreasingIsUnique(sets[0], Sorted(a.actions));
    IncreasingIsUnique(sets[1], Sorted(a.destinations));
    IncreasingIsUnique(sets[2], Sorted(a.projects));
  }

  ghost function Listed(sets: seq<seq<Text>>, n: nat): seq<Field>
    requires n <= |sets| == 3
  {
    if n == 0 then []
    else if n == 1 then ListFields(sets[0])
    else if n == 2 then ListFields(sets[0]) + ListFields(sets[1])
    else ListFields(sets[0]) + ListFields(sets[1]) + ListFields(sets[2])
  }
}

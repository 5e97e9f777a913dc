/** Hash preimages (domain/hash.rs): what is fed to SHA-256, and why it can be read back
    in only one way. SHA-256 itself (FIPS 180-4) is a parameter `sha` about which nothing
    is assumed. */
module Hash {
  import opened Bytes
  import opened Collections
  import opened Domain

  /** A 32-byte digest. */
  type Digest = b: seq<byte> | |b| == 32
    witness [0, 0, 0, 0, 0, 0, 0, 0, 0, 0, 0, 0, 0, 0, 0, 0, 0, 0, 0, 0, 0, 0, 0, 0, 0, 0, 0, 0, 0, 0, 0, 0]

  type Sha = seq<byte> -> Digest

  datatype Field = Fixed(bytes: seq<byte>) | Framed(bytes: seq<byte>)

  datatype Purpose = RunHash | EffectHash | ProviderHash | EventHash | CheckpointBytes | GrantHash | RevocationHash

  function Tag(d: Purpose): (t: Text)
    ensures |t| >= 18
  {
    match d
    case RunHash => Ascii("effectlatch/run/v1\0")
    case EffectHash => Ascii("effectlatch/effect/v1\0")
    case ProviderHash => Ascii("effectlatch/provider/v1\0")
    case EventHash => Ascii("effectlatch/event/v1\0")
    case CheckpointBytes => Ascii("effectlatch/checkpoint/v1\0")
    case GrantHash => Ascii("effectlatch/grant/v1\0")
    case RevocationHash => Ascii("effectlatch/grant-revocation/v1\0")
  }

  function EncodeField(f: Field): seq<byte> {
    match f
    case Fixed(b) => b
    case Framed(b) => BigEndian(|b|, 8) + b
  }

  function Encode(fields: seq<Field>): seq<byte> {
    if fields == [] then [] else EncodeField(fields[0]) + Encode(fields[1..])
  }

  function Preimage(d: Purpose, fields: seq<Field>): seq<byte> {
    Tag(d) + Encode(fields)
  }

  function U64Field(n: int): Field
    requires 0 <= n
  {
    Fixed(BigEndian(n, 8))
  }

  function UuidField(u: Uuid): Field {
    Fixed(BigEndian(u, 16))
  }

  /** Two's complement of an i64. */
  function I64Field(n: int): Field
    requires I64_MIN <= n <= I64_MAX
  {
    Fixed(BigEndian(if n < 0 then n + U64 else n, 8))
  }

  // ---------------------------------------------------------------- the seven preimages

  predicate LimitsFit(l: Limits) {
    0 <= l.fuel < U64 && 0 <= l.memoryBytes < U64 && 0 <= l.wallMs < U64 && 0 <= l.maxEffects < U64
  }

  predicate RunFits(r: NormalizedRun) {
    |r.moduleDigest| == HASH_BYTES && |r.input| < U64 && LimitsFit(r.limits)
  }

  function RunFields(r: NormalizedRun): seq<Field>
    requires LimitsFit(r.limits)
  {
    [Fixed(r.moduleDigest), UuidField(r.grantId), Framed(r.input),
     U64Field(r.limits.fuel), U64Field(r.limits.memoryBytes), U64Field(r.limits.wallMs), U64Field(r.limits.maxEffects)]
  }

  predicate EffectFits(e: EffectRequest) {
    |e.action| < U64 && |e.destination| < U64 && |e.project| < U64 && |e.title| < U64 && |e.body| < U64
  }

  function EffectFields(e: EffectRequest): seq<Field> {
    [Framed(e.action), Framed(e.destination), Framed(e.project), Framed(e.title), Framed(e.body)]
  }

  function ProviderFields(tenant: Uuid, run: Uuid, ordinal: int): seq<Field>
    requires 0 <= ordinal
  {
    [UuidField(tenant), UuidField(run), U64Field(ordinal)]
  }

  function EventFields(tenant: Uuid, run: Uuid, number: int, previous: seq<byte>, kind: Text, payload: Text): seq<Field>
    requires 0 <= number
  {
    [UuidField(tenant), UuidField(run), U64Field(number), Fixed(previous), Framed(kind), Framed(payload)]
  }

  function CheckpointFields(tenant: Uuid, run: Uuid, number: int, terminal: seq<byte>): seq<Field>
    requires 0 <= number
  {
    [UuidField(tenant), UuidField(run), U64Field(number), Fixed(terminal)]
  }

  function ListFields(list: seq<Text>): (fields: seq<Field>)
    ensures |fields| == 1 + |list|
  {
    [U64Field(|list|)] + seq(|list|, i requires 0 <= i < |list| => Framed(list[i]))
  }

  function ParentFields(parent: Option<Uuid>): seq<Field> {
    match parent
    case Some(p) => [Fixed([1]), UuidField(p)]
    case None => [Fixed([0])]
  }

  predicate AuthorityFits(a: Authority) {
    && |a.actions| < U64 && |a.destinations| < U64 && |a.projects| < U64
    && (forall x | x in a.actions + a.destinations + a.projects :: |x| < U64)
    && I64_MIN <= a.expiresAtMs <= I64_MAX && 0 <= a.maxEffects < U64
  }

  ghost function GrantFields(parent: Option<Uuid>, a: Authority): seq<Field>
    requires AuthorityFits(a)
  {
    ParentFields(parent) + (ListFields(Sorted(a.actions)) + (ListFields(Sorted(a.destinations))
    + (ListFields(Sorted(a.projects)) + NumberFields(a))))
  }

  function RevocationFields(grant: Uuid, reason: Text): seq<Field> {
    [UuidField(grant), Framed(reason)]
  }

  // ---------------------------------------------------------------- unique parsing

  ghost predicate SameShape(fs: seq<Field>, gs: seq<Field>) {
    && |fs| == |gs|
    && forall i | 0 <= i < |fs| ::
         match fs[i]
         case Fixed(b) => gs[i].Fixed? && |gs[i].bytes| == |b|
         case Framed(b) => gs[i].Framed? && |b| < U64 && |gs[i].bytes| < U64
  }

  lemma FieldSplit(f: Field, g: Field, x: seq<byte>, y: seq<byte>)
    requires SameShape([f], [g])
    requires EncodeField(f) + x == EncodeField(g) + y
    ensures f == g && x == y
  {
    assert [f][0] == f && [g][0] == g;
    if f.Framed? {
      var a, b := EncodeField(f) + x, EncodeField(g) + y;
      assert a[..8] == BigEndian(|f.bytes|, 8) && b[..8] == BigEndian(|g.bytes|, 8);
      Widths();
      BigEndianInjective(|f.bytes|, |g.bytes|, 8);
      assert a[8..8 + |f.bytes|] == f.bytes && b[8..8 + |g.bytes|] == g.bytes;
      assert a[8 + |f.bytes|..] == x && b[8 + |g.bytes|..] == y;
    } else {
      var a, b := f.bytes + x, g.bytes + y;
      assert a[..|f.bytes|] == f.bytes && b[..|g.bytes|] == g.bytes;
      assert a[|f.bytes|..] == x && b[|g.bytes|..] == y;
    }
  }

  lemma EncodeFirst(fs: seq<Field>)
    requires fs != []
    ensures Encode(fs) == EncodeField(fs[0]) + Encode(fs[1..])
  {
  }

  lemma FirstSplit(fs: seq<Field>, gs: seq<Field>, x: seq<byte>, y: seq<byte>)
    requires SameShape(fs, gs) && fs != [] && Encode(fs) + x == Encode(gs) + y
    ensures fs[0] == gs[0] && Encode(fs[1..]) + x == Encode(gs[1..]) + y && SameShape(fs[1..], gs[1..])
  {
    EncodeFirst(fs);
    EncodeFirst(gs);
    hide EncodeField, Encode;
    Regroup(EncodeField(fs[0]), Encode(fs[1..]), x);
    Regroup(EncodeField(gs[0]), Encode(gs[1..]), y);
    FieldSplit(fs[0], gs[0], Encode(fs[1..]) + x, Encode(gs[1..]) + y);
  }

  /** Field lists of one shape are recovered, with everything that follows them. */
  lemma {:induction false} ParsesOneWay(fs: seq<Field>, gs: seq<Field>, x: seq<byte>, y: seq<byte>)
    requires SameShape(fs, gs)
    requires Encode(fs) + x == Encode(gs) + y
    ensures fs == gs && x == y
  {
    if fs == [] {
      assert Encode(fs) + x == x && Encode(gs) + y == y;
    } else {
      FirstSplit(fs, gs, x, y);
      hide Encode;
      ParsesOneWay(fs[1..], gs[1..], x, y);
      assert fs == [fs[0]] + fs[1..] && gs == [gs[0]] + gs[1..];
    }
  }

  lemma {:induction false} EncodeAppend(fs: seq<Field>, gs: seq<Field>)
    ensures Encode(fs + gs) == Encode(fs) + Encode(gs)
  {
    if fs == [] {
      assert fs + gs == gs;
    } else {
      assert (fs + gs)[1..] == fs[1..] + gs;
      EncodeAppend(fs[1..], gs);
    }
  }

  /** Three bytes of a tag name its purpose: those at 12, 13 and 17. */
  function Marks(d: Purpose): string {
    match d
    case RunHash => "ru1"
    case EffectHash => "eft"
    case ProviderHash => "prd"
    case EventHash => "ev/"
    case CheckpointBytes => "chp"
    case GrantHash => "gr/"
    case RevocationHash => "gr-"
  }

  lemma TagMarks(d: Purpose)
    ensures Tag(d)[12] == Marks(d)[0] as int
    ensures Tag(d)[13] == Marks(d)[1] as int
    ensures Tag(d)[17] == Marks(d)[2] as int
  {
  }

  lemma MarksDiffer(d: Purpose, e: Purpose)
    requires forall i | 0 <= i < 3 :: Marks(d)[i] == Marks(e)[i]
    ensures d == e
  {
    assert Marks(d)[0] == Marks(e)[0] && Marks(d)[1] == Marks(e)[1] && Marks(d)[2] == Marks(e)[2];
  }

  /** Preimages of different kinds never coincide: three tag bytes tell the kinds apart. */
  lemma DomainsSeparate(d: Purpose, e: Purpose, fs: seq<Field>, gs: seq<Field>)
    requires Preimage(d, fs) == Preimage(e, gs)
    ensures d == e && Encode(fs) == Encode(gs)
  {
    var a, b := Preimage(d, fs), Preimage(e, gs);
    assert a[12] == Tag(d)[12] && b[12] == Tag(e)[12];
    assert a[13] == Tag(d)[13] && b[13] == Tag(e)[13];
    assert a[17] == Tag(d)[17] && b[17] == Tag(e)[17];
    TagMarks(d);
    TagMarks(e);
    MarksDiffer(d, e);
    assert a[|Tag(d)|..] == Encode(fs) && b[|Tag(e)|..] == Encode(gs);
  }

  lemma SamePreimage(d: Purpose, e: Purpose, fs: seq<Field>, gs: seq<Field>)
    requires Preimage(d, fs) == Preimage(e, gs)
    requires d == e ==> SameShape(fs, gs)
    ensures d == e && fs == gs
  {
    DomainsSeparate(d, e, fs, gs);
    assert Encode(fs) + [] == Encode(fs) && Encode(gs) + [] == Encode(gs);
    ParsesOneWay(fs, gs, [], []);
  }

  lemma NumberField(m: int, n: int)
    requires 0 <= m < U64 && 0 <= n < U64 && U64Field(m) == U64Field(n)
    ensures m == n
  {
    Widths();
    BigEndianInjective(m, n, 8);
  }

  lemma IdField(u: Uuid, v: Uuid)
    requires UuidField(u) == UuidField(v)
    ensures u == v
  {
    Widths();
    BigEndianInjective(u, v, 16);
  }

  lemma SignedField(m: int, n: int)
    requires I64_MIN <= m <= I64_MAX && I64_MIN <= n <= I64_MAX && I64Field(m) == I64Field(n)
    ensures m == n
  {
    Widths();
    BigEndianInjective(if m < 0 then m + U64 else m, if n < 0 then n + U64 else n, 8);
  }

  lemma RunPreimageInjective(a: NormalizedRun, b: NormalizedRun)
    requires RunFits(a) && RunFits(b)
    requires Preimage(RunHash, RunFields(a)) == Preimage(RunHash, RunFields(b))
    ensures a == b
  {
    var fs, gs := RunFields(a), RunFields(b);
    SamePreimage(RunHash, RunHash, fs, gs);
    assert fs[0] == gs[0] && fs[2] == gs[2];
    IdField(a.grantId, b.grantId) by { assert fs[1] == gs[1]; }
    NumberField(a.limits.fuel, b.limits.fuel) by { assert fs[3] == gs[3]; }
    NumberField(a.limits.memoryBytes, b.limits.memoryBytes) by { assert fs[4] == gs[4]; }
    NumberField(a.limits.wallMs, b.limits.wallMs) by { assert fs[5] == gs[5]; }
    NumberField(a.limits.maxEffects, b.limits.maxEffects) by { assert fs[6] == gs[6]; }
  }

  /** The effect preimage identifies the action, destination and arguments; the ordinal is
      not hashed. */
  lemma EffectPreimageInjective(a: EffectRequest, b: EffectRequest)
    requires EffectFits(a) && EffectFits(b)
    ensures Preimage(EffectHash, EffectFields(a)) == Preimage(EffectHash, EffectFields(b)) <==> a.(ordinal := b.ordinal) == b
  {
    var fs, gs := EffectFields(a), EffectFields(b);
    if Preimage(EffectHash, fs) == Preimage(EffectHash, gs) {
      SamePreimage(EffectHash, EffectHash, fs, gs);
      assert fs[0] == gs[0] && fs[1] == gs[1] && fs[2] == gs[2] && fs[3] == gs[3] && fs[4] == gs[4];
    }
  }

  lemma ProviderPreimageInjective(t: Uuid, r: Uuid, n: int, t': Uuid, r': Uuid, n': int)
    requires 0 <= n < U64 && 0 <= n' < U64
    requires Preimage(ProviderHash, ProviderFields(t, r, n)) == Preimage(ProviderHash, ProviderFields(t', r', n'))
    ensures t == t' && r == r' && n == n'
  {
    var fs, gs := ProviderFields(t, r, n), ProviderFields(t', r', n');
    SamePreimage(ProviderHash, ProviderHash, fs, gs);
    assert fs[0] == gs[0] && fs[1] == gs[1] && fs[2] == gs[2];
    IdField(t, t');
    IdField(r, r');
    NumberField(n, n');
  }

  predicate EventFits(number: int, previous: seq<byte>, kind: Text, payload: Text) {
    0 <= number < U64 && |previous| == HASH_BYTES && |kind| < U64 && |payload| < U64
  }

  lemma EventPreimageInjective(t: Uuid, r: Uuid, n: int, p: seq<byte>, k: Text, b: Text,
                               t': Uuid, r': Uuid, n': int, p': seq<byte>, k': Text, b': Text)
    requires EventFits(n, p, k, b) && EventFits(n', p', k', b')
    requires Preimage(EventHash, EventFields(t, r, n, p, k, b)) == Preimage(EventHash, EventFields(t', r', n', p', k', b'))
    ensures t == t' && r == r' && n == n' && p == p' && k == k' && b == b'
  {
    var fs, gs := EventFields(t, r, n, p, k, b), EventFields(t', r', n', p', k', b');
    SamePreimage(EventHash, EventHash, fs, gs);
    assert fs[0] == gs[0] && fs[1] == gs[1] && fs[2] == gs[2] && fs[3] == gs[3] && fs[4] == gs[4] && fs[5] == gs[5];
    IdField(t, t');
    IdField(r, r');
    NumberField(n, n');
  }

  lemma CheckpointInjective(t: Uuid, r: Uuid, n: int, p: seq<byte>, t': Uuid, r': Uuid, n': int, p': seq<byte>)
    requires 0 <= n < U64 && 0 <= n' < U64 && |p| == |p'| == HASH_BYTES
    requires Preimage(CheckpointBytes, CheckpointFields(t, r, n, p)) == Preimage(CheckpointBytes, CheckpointFields(t', r', n', p'))
    ensures t == t' && r == r' && n == n' && p == p'
  {
    var fs, gs := CheckpointFields(t, r, n, p), CheckpointFields(t', r', n', p');
    SamePreimage(CheckpointBytes, CheckpointBytes, fs, gs);
    assert fs[0] == gs[0] && fs[1] == gs[1] && fs[2] == gs[2] && fs[3] == gs[3];
    IdField(t, t');
    IdField(r, r');
    NumberField(n, n');
  }

  lemma RevocationPreimageInjective(g: Uuid, reason: Text, g': Uuid, reason': Text)
    requires |reason| < U64 && |reason'| < U64
    requires Preimage(RevocationHash, RevocationFields(g, reason)) == Preimage(RevocationHash, RevocationFields(g', reason'))
    ensures g == g' && reason == reason'
  {
    var fs, gs := RevocationFields(g, reason), RevocationFields(g', reason');
    SamePreimage(RevocationHash, RevocationHash, fs, gs);
    assert fs[0] == gs[0] && fs[1] == gs[1];
    IdField(g, g');
  }

  // ---------------------------------------------------------------- counted lists and grants

  ghost predicate Short(list: seq<Text>) {
    |list| < U64 && forall i | 0 <= i < |list| :: |list[i]| < U64
  }

  lemma CountSplit(l: seq<Text>, m: seq<Text>, x: seq<byte>, y: seq<byte>)
    requires Short(l) && Short(m)
    requires Encode(ListFields(l)) + x == Encode(ListFields(m)) + y
    ensures |l| == |m|
  {
    var a, b := Encode(ListFields(l)) + x, Encode(ListFields(m)) + y;
    assert a[..8] == BigEndian(|l|, 8) && b[..8] == BigEndian(|m|, 8);
    Widths();
    BigEndianInjective(|l|, |m|, 8);
  }

  lemma ListSplit(l: seq<Text>, m: seq<Text>, x: seq<byte>, y: seq<byte>)
    requires Short(l) && Short(m)
    requires Encode(ListFields(l)) + x == Encode(ListFields(m)) + y
    ensures l == m && x == y
  {
    var fs, gs := ListFields(l), ListFields(m);
    CountSplit(l, m, x, y);
    ParsesOneWay(fs, gs, x, y);
    forall i | 0 <= i < |l| ensures l[i] == m[i] {
      assert fs[i + 1] == Framed(l[i]) && gs[i + 1] == Framed(m[i]);
    }
  }

  lemma ParentSplit(p: Option<Uuid>, q: Option<Uuid>, x: seq<byte>, y: seq<byte>)
    requires Encode(ParentFields(p)) + x == Encode(ParentFields(q)) + y
    ensures p == q && x == y
  {
    var fs, gs := ParentFields(p), ParentFields(q);
    assert (Encode(fs) + x)[0] == fs[0].bytes[0];
    assert (Encode(gs) + y)[0] == gs[0].bytes[0];
    ParsesOneWay(fs, gs, x, y);
    if p.Some? {
      IdField(p.value, q.value) by { assert fs[1] == gs[1]; }
    }
  }

  lemma SortedShort(s: set<Text>)
    requires |s| < U64 && forall x | x in s :: |x| < U64
    ensures Short(Sorted(s))
  {
    forall i | 0 <= i < |Sorted(s)| ensures |Sorted(s)[i]| < U64 {
      assert Sorted(s)[i] in s;
    }
  }

  lemma SortedDetermines(s: set<Text>, t: set<Text>)
    requires Sorted(s) == Sorted(t)
    ensures s == t
  {
    forall x ensures x in s <==> x in t {
      assert x in s <==> x in Sorted(s);
      assert x in t <==> x in Sorted(t);
    }
  }

  lemma SetSplit(s: set<Text>, t: set<Text>, x: seq<byte>, y: seq<byte>)
    requires |s| < U64 && |t| < U64 && forall z | z in s + t :: |z| < U64
    requires Encode(ListFields(Sorted(s))) + x == Encode(ListFields(Sorted(t))) + y
    ensures s == t && x == y
  {
    SortedShort(s);
    SortedShort(t);
    ListSplit(Sorted(s), Sorted(t), x, y);
    SortedDetermines(s, t);
  }

  lemma NumbersSplit(a: Authority, b: Authority)
    requires AuthorityFits(a) && AuthorityFits(b)
    requires Encode(NumberFields(a)) == Encode(NumberFields(b))
    ensures a.expiresAtMs == b.expiresAtMs && a.maxEffects == b.maxEffects
  {
    var u, v := NumberFields(a), NumberFields(b);
    assert Encode(u) + [] == Encode(u) && Encode(v) + [] == Encode(v);
    ParsesOneWay(u, v, [], []);
    SignedField(a.expiresAtMs, b.expiresAtMs) by { assert u[0] == v[0]; }
    NumberField(a.maxEffects, b.maxEffects) by { assert u[1] == v[1]; }
  }

  /** A grant's preimage determines its parent and its whole authority. */
  lemma GrantPreimageInjective(p: Option<Uuid>, a: Authority, q: Option<Uuid>, b: Authority)
    requires AuthorityFits(a) && AuthorityFits(b)
    requires Preimage(GrantHash, GrantFields(p, a)) == Preimage(GrantHash, GrantFields(q, b))
    ensures p == q && a == b
  {
    DomainsSeparate(GrantHash, GrantHash, GrantFields(p, a), GrantFields(q, b));
    GrantEncoding(p, a);
    GrantEncoding(q, b);
    var pa, pb := ProjectsOn(a), ProjectsOn(b);
    var da, db := Encode(ListFields(Sorted(a.destinations))) + pa, Encode(ListFields(Sorted(b.destinations))) + pb;
    var aa, ab := Encode(ListFields(Sorted(a.actions))) + da, Encode(ListFields(Sorted(b.actions))) + db;
    ParentSplit(p, q, aa, ab);
    SetSplit(a.actions, b.actions, da, db);
    SetSplit(a.destinations, b.destinations, pa, pb);
    SetSplit(a.projects, b.projects, Encode(NumberFields(a)), Encode(NumberFields(b)));
    NumbersSplit(a, b);
  }

  function NumberFields(a: Authority): seq<Field>
    requires AuthorityFits(a)
  {
    [I64Field(a.expiresAtMs), U64Field(a.maxEffects)]
  }

  ghost function ProjectsOn(a: Authority): seq<byte>
    requires AuthorityFits(a)
  {
    Encode(ListFields(Sorted(a.projects))) + Encode(NumberFields(a))
  }

  lemma GrantEncoding(p: Option<Uuid>, a: Authority)
    requires AuthorityFits(a)
    ensures Encode(GrantFields(p, a)) ==
            Encode(ParentFields(p)) + (Encode(ListFields(Sorted(a.actions)))
            + (Encode(ListFields(Sorted(a.destinations))) + ProjectsOn(a)))
  {
    var u := NumberFields(a);
    var projects, destinations, actions :=
      ListFields(Sorted(a.projects)), ListFields(Sorted(a.destinations)), ListFields(Sorted(a.actions));
    EncodeAppend(projects, u);
    EncodeAppend(destinations, projects + u);
    EncodeAppend(actions, destinations + (projects + u));
    EncodeAppend(ParentFields(p), actions + (destinations + (projects + u)));
  }

  /** A BTreeSet is hashed as a set: its increasing listing is unique. */
  lemma {:induction false} IncreasingIsUnique(l: seq<Text>, m: seq<Text>)
    requires Increasing(l) && Increasing(m)
    requires forall x :: x in l <==> x in m
    ensures l == m
  {
    assert |l| == 0 || l[0] in m;
    if m != [] {
      assert m[0] in l;
      if l[0] != m[0] {
        var i :| 0 <= i < |m| && m[i] == l[0];
        var j :| 0 <= j < |l| && l[j] == m[0];
        TextLessTransitive(l[0], m[0], l[0]);
        TextLessTotal(l[0], l[0]);
        assert false;
      }
      forall x ensures x in l[1..] <==> x in m[1..] {
        TextLessTotal(l[0], l[0]);
        assert x in l <==> x == l[0] || x in l[1..];
        assert x in m <==> x == m[0] || x in m[1..];
        assert l[0] !in l[1..] && m[0] !in m[1..];
      }
      IncreasingIsUnique(l[1..], m[1..]);
      assert l == [l[0]] + l[1..] && m == [m[0]] + m[1..];
    }
  }
}

/** The bytes the preimages consist of, spelled out, and the orders and digits they use. */
module Layouts {
  import opened Bytes
  import opened Domain
  import opened Hash
  import opened EventChain
  import opened States

  // ---------------------------------------------------------------- integers, digits, order

  /** Big-endian: the first byte counts most. */
  lemma {:induction false} BigEndianPlaces(n: nat, width: nat, i: nat)
    requires i < width
    ensures BigEndian(n, width)[i] == (n / Pow256(width - 1 - i)) % 256
  {
    if i < width - 1 {
      BigEndianPlaces(n / 256, width - 1, i);
      DivideTwice(n, Pow256(width - 2 - i));
    }
  }

  lemma DivideTwice(n: nat, d: nat)
    requires d > 0
    ensures (n / 256) / d == n / (256 * d)
  {
    var q, r := n / 256, n % 256;
    var a, b := q / d, q % d;
    assert n == 256 * (d * a + b) + r;
    assert n == (256 * d) * a + (256 * b + r) by {
      assert 256 * (d * a + b) == 256 * (d * a) + 256 * b;
      assert 256 * (d * a) == (256 * d) * a;
    }
    QuotientIs(n, 256 * d, a, 256 * b + r);
  }

  lemma AtLeastOnce(d: int, k: int)
    requires d > 0 && k >= 1
    ensures d * k >= d
  {
  }

  lemma Distributes(d: int, a: int, b: int)
    ensures d * (a - b) == d * a - d * b
  {
  }

  lemma QuotientIs(n: int, d: int, a: int, rest: int)
    requires d > 0 && n == d * a + rest && 0 <= rest < d
    ensures n / d == a
  {
    QuotientUnique(d, a, rest, n / d, n % d);
  }

  lemma QuotientUnique(d: int, a: int, rest: int, q: int, r: int)
    requires d > 0 && d * a + rest == d * q + r && 0 <= rest < d && 0 <= r < d
    ensures a == q
  {
    if q < a {
      Distributes(d, a, q);
      AtLeastOnce(d, a - q);
    } else if q > a {
      Distributes(d, q, a);
      AtLeastOnce(d, q - a);
    }
  }

  /** A length prefix of four bytes. */
  lemma FourBytes(n: nat)
    requires n < 0x1_0000_0000
    ensures BigEndian(n, 4) == [n / 0x100_0000, n / 0x1_0000 % 256, n / 256 % 256, n % 256]
  {
    assert BigEndian(n, 4) == BigEndian(n / 256, 3) + [n % 256];
    assert BigEndian(n / 256, 3) == BigEndian(n / 256 / 256, 2) + [n / 256 % 256];
    assert BigEndian(n / 256 / 256, 2) == BigEndian(n / 256 / 256 / 256, 1) + [n / 256 / 256 % 256];
    assert BigEndian(n / 256 / 256 / 256, 1) == [n / 256 / 256 / 256 % 256];
  }

  /** The hexadecimal digits, in order. */
  lemma HexDigits(n: int)
    requires 0 <= n < 16
    ensures Digit(n) == "0123456789abcdef"[n] as int
  {
  }

  /** Text is ordered like its bytes: at the first difference, or the shorter first. */
  lemma {:induction false} BytesOrder(a: Text, b: Text)
    ensures TextLess(a, b) <==>
            exists k: nat | k <= |a| && k < |b| :: a[..k] == b[..k] && (k == |a| || a[k] < b[k])
  {
    if a != [] && b != [] && a[0] == b[0] {
      BytesOrder(a[1..], b[1..]);
      if k: nat :| k <= |a[1..]| && k < |b[1..]| && a[1..][..k] == b[1..][..k] && (k == |a[1..]| || a[1..][k] < b[1..][k]) {
        assert a[..k + 1] == [a[0]] + a[1..][..k] && b[..k + 1] == [b[0]] + b[1..][..k];
        assert a[..k + 1] == b[..k + 1] && (k + 1 == |a| || a[k + 1] < b[k + 1]);
      }
      if k: nat :| k <= |a| && k < |b| && a[..k] == b[..k] && (k == |a| || a[k] < b[k]) {
        assert k > 0;
        assert a[1..][..k - 1] == a[..k][1..] && b[1..][..k - 1] == b[..k][1..];
        assert a[1..][..k - 1] == b[1..][..k - 1] && (k - 1 == |a[1..]| || a[1..][k - 1] < b[1..][k - 1]);
      }
    } else if b != [] {
      if a == [] || a[0] < b[0] {
        assert a[..0] == b[..0] && (0 == |a| || a[0] < b[0]);
      } else {
        forall k: nat | 0 < k <= |a| && k < |b| ensures a[..k] != b[..k] {
          assert a[..k][0] == a[0] && b[..k][0] == b[0];
        }
      }
    }
  }

  // ---------------------------------------------------------------- preimages

  function Prefixed(bytes: seq<byte>): seq<byte> {
    BigEndian(|bytes|, 8) + bytes
  }

  /** The parts one after another. */
  function Joined(parts: seq<seq<byte>>): seq<byte> {
    if parts == [] then [] else parts[0] + Joined(parts[1..])
  }

  predicate Spelled(fields: seq<Field>, parts: seq<seq<byte>>) {
    && |fields| == |parts|
    && forall i | 0 <= i < |fields| ::
         parts[i] == match fields[i] case Fixed(b) => b case Framed(b) => Prefixed(b)
  }

  lemma {:induction false} FieldsJoin(fields: seq<Field>, parts: seq<seq<byte>>)
    requires Spelled(fields, parts)
    ensures Encode(fields) == Joined(parts)
  {
    if fields != [] {
      FieldsJoin(fields[1..], parts[1..]);
    }
  }

  lemma TagJoins(d: Purpose, fields: seq<Field>, parts: seq<seq<byte>>)
    requires Spelled(fields, parts)
    ensures Preimage(d, fields) == Joined([Tag(d)] + parts)
  {
    FieldsJoin(fields, parts);
    assert ([Tag(d)] + parts)[1..] == parts;
  }

  lemma RunLayout(r: NormalizedRun)
    requires LimitsFit(r.limits)
    ensures Preimage(RunHash, RunFields(r)) ==
            Joined([Ascii("effectlatch/run/v1\0")] +
                   [r.moduleDigest, BigEndian(r.grantId, 16), Prefixed(r.input), BigEndian(r.limits.fuel, 8),
                    BigEndian(r.limits.memoryBytes, 8), BigEndian(r.limits.wallMs, 8), BigEndian(r.limits.maxEffects, 8)])
  {
    TagJoins(RunHash, RunFields(r),
             [r.moduleDigest, BigEndian(r.grantId, 16), Prefixed(r.input), BigEndian(r.limits.fuel, 8),
              BigEndian(r.limits.memoryBytes, 8), BigEndian(r.limits.wallMs, 8), BigEndian(r.limits.maxEffects, 8)]);
  }

  lemma EffectLayout(e: EffectRequest)
    ensures Preimage(EffectHash, EffectFields(e)) ==
            Joined([Ascii("effectlatch/effect/v1\0")] +
                   [Prefixed(e.action), Prefixed(e.destination), Prefixed(e.project), Prefixed(e.title), Prefixed(e.body)])
  {
    TagJoins(EffectHash, EffectFields(e),
             [Prefixed(e.action), Prefixed(e.destination), Prefixed(e.project), Prefixed(e.title), Prefixed(e.body)]);
  }

  lemma ProviderLayout(tenant: Uuid, run: Uuid, ordinal: int)
    requires 0 <= ordinal
    ensures Preimage(ProviderHash, ProviderFields(tenant, run, ordinal)) ==
            Joined([Ascii("effectlatch/provider/v1\0")] +
                   [BigEndian(tenant, 16), BigEndian(run, 16), BigEndian(ordinal, 8)])
  {
    TagJoins(ProviderHash, ProviderFields(tenant, run, ordinal),
             [BigEndian(tenant, 16), BigEndian(run, 16), BigEndian(ordinal, 8)]);
  }

  lemma EventLayout(tenant: Uuid, run: Uuid, number: int, previous: seq<byte>, kind: Text, payload: Text)
    requires 0 <= number
    ensures Preimage(EventHash, EventFields(tenant, run, number, previous, kind, payload)) ==
            Joined([Ascii("effectlatch/event/v1\0")] +
                   [BigEndian(tenant, 16), BigEndian(run, 16), BigEndian(number, 8), previous, Prefixed(kind), Prefixed(payload)])
  {
    TagJoins(EventHash, EventFields(tenant, run, number, previous, kind, payload),
             [BigEndian(tenant, 16), BigEndian(run, 16), BigEndian(number, 8), previous, Prefixed(kind), Prefixed(payload)]);
  }

  lemma CheckpointLayout(tenant: Uuid, run: Uuid, number: int, terminal: seq<byte>)
    requires 0 <= number
    ensures Preimage(CheckpointBytes, CheckpointFields(tenant, run, number, terminal)) ==
            Joined([Ascii("effectlatch/checkpoint/v1\0")] +
                   [BigEndian(tenant, 16), BigEndian(run, 16), BigEndian(number, 8), terminal])
  {
    TagJoins(CheckpointBytes, CheckpointFields(tenant, run, number, terminal),
             [BigEndian(tenant, 16), BigEndian(run, 16), BigEndian(number, 8), terminal]);
  }

  lemma RevocationLayout(grant: Uuid, reason: Text)
    ensures Preimage(RevocationHash, RevocationFields(grant, reason)) ==
            Joined([Ascii("effectlatch/grant-revocation/v1\0")] + [BigEndian(grant, 16), Prefixed(reason)])
  {
    TagJoins(RevocationHash, RevocationFields(grant, reason), [BigEndian(grant, 16), Prefixed(reason)]);
  }

  /** A list as it is hashed: how many elements, then each with its length. */
  function Counted(list: seq<Text>): (parts: seq<seq<byte>>) {
    [BigEndian(|list|, 8)] + seq(|list|, i requires 0 <= i < |list| => Prefixed(list[i]))
  }

  lemma ListSpelled(list: seq<Text>)
    ensures Spelled(ListFields(list), Counted(list))
  {
  }

  lemma SpelledOn(fs: seq<Field>, ps: seq<seq<byte>>, gs: seq<Field>, qs: seq<seq<byte>>)
    requires Spelled(fs, ps) && Spelled(gs, qs)
    ensures Spelled(fs + gs, ps + qs)
  {
  }

  function ParentParts(parent: Option<Uuid>): seq<seq<byte>> {
    match parent
    case Some(p) => [[1], BigEndian(p, 16)]
    case None => [[0]]
  }

  /** The expiry in two's complement and the budget. */
  function NumberParts(a: Authority): seq<seq<byte>>
    requires AuthorityFits(a)
  {
    [BigEndian(if a.expiresAtMs < 0 then a.expiresAtMs + 0x1_0000_0000_0000_0000 else a.expiresAtMs, 8),
     BigEndian(a.maxEffects, 8)]
  }

  /** Whether and which parent, the three sets as counted lists in byte order, two numbers. */
  ghost function GrantParts(parent: Option<Uuid>, a: Authority): seq<seq<byte>>
    requires AuthorityFits(a)
  {
    ParentParts(parent) + (Counted(Sorted(a.actions)) + (Counted(Sorted(a.destinations))
    + (Counted(Sorted(a.projects)) + NumberParts(a))))
  }

  lemma SetsSpelled(l: seq<Text>, m: seq<Text>, n: seq<Text>, fs: seq<Field>, ps: seq<seq<byte>>)
    requires Spelled(fs, ps)
    ensures Spelled(ListFields(l) + (ListFields(m) + (ListFields(n) + fs)), Counted(l) + (Counted(m) + (Counted(n) + ps)))
  {
    hide Spelled, Counted, ListFields;
    ListSpelled(l);
    ListSpelled(m);
    ListSpelled(n);
    SpelledOn(ListFields(n), Counted(n), fs, ps);
    SpelledOn(ListFields(m), Counted(m), ListFields(n) + fs, Counted(n) + ps);
    SpelledOn(ListFields(l), Counted(l), ListFields(m) + (ListFields(n) + fs), Counted(m) + (Counted(n) + ps));
  }

  lemma EndsSpelled(parent: Option<Uuid>, a: Authority)
    requires AuthorityFits(a)
    ensures Spelled(ParentFields(parent), ParentParts(parent)) && Spelled(NumberFields(a), NumberParts(a))
  {
  }

  lemma GrantSpelled(parent: Option<Uuid>, a: Authority)
    requires AuthorityFits(a)
    ensures Spelled(GrantFields(parent, a), GrantParts(parent, a))
  {
    EndsSpelled(parent, a);
    var l, m, n := Sorted(a.actions), Sorted(a.destinations), Sorted(a.projects);
    hide Spelled, Counted, ListFields, Sorted, NumberParts, NumberFields, ParentFields, ParentParts;
    SetsSpelled(l, m, n, NumberFields(a), NumberParts(a));
    SpelledOn(ParentFields(parent), ParentParts(parent),
              ListFields(l) + (ListFields(m) + (ListFields(n) + NumberFields(a))),
              Counted(l) + (Counted(m) + (Counted(n) + NumberParts(a))));
  }

  lemma GrantTag()
    ensures Tag(GrantHash) == Ascii("effectlatch/grant/v1\0")
  {
  }

  lemma GrantLayout(parent: Option<Uuid>, a: Authority)
    requires AuthorityFits(a)
    ensures Preimage(GrantHash, GrantFields(parent, a)) == Joined([Ascii("effectlatch/grant/v1\0")] + GrantParts(parent, a))
  {
    hide *;
    GrantTag();
    GrantSpelled(parent, a);
    TagJoins(GrantHash, GrantFields(parent, a), GrantParts(parent, a));
  }
}

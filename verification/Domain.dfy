/** Request values and their validity checks (domain/types.rs, domain/lib.rs). */
module Domain {
  import opened Bytes
  import Collections

  const PAYLOAD_BYTES := 65536
  const MAX_EFFECTS := 8
  const REQUEST_BYTES := 16384
  const HASH_BYTES := 32

  datatype Limits = Limits(fuel: int, memoryBytes: int, wallMs: int, maxEffects: int)

  datatype NormalizedRun = NormalizedRun(moduleDigest: seq<byte>, grantId: Uuid, input: seq<byte>, limits: Limits)

  datatype EffectRequest = EffectRequest(
    ordinal: int, action: Text, destination: Text, project: Text, title: Text, body: Text)

  /** A BTreeSet<String> is a set; it is iterated in byte order. */
  datatype Authority = Authority(
    actions: set<Text>, destinations: set<Text>, projects: set<Text>, expiresAtMs: int, maxEffects: int)

  predicate Alphanumeric(b: byte) {
    48 <= b <= 57 || 65 <= b <= 90 || 97 <= b <= 122
  }

  predicate Alias(value: Text) {
    0 < |value| <= 64 && forall i | 0 <= i < |value| :: Alphanumeric(value[i]) || value[i] == 95 || value[i] == 45
  }

  const TICKET_CREATE: Text := Ascii("ticket.create")

  /** EffectRequest::validate; the title's character count is supplied with the decoded value. */
  predicate ValidRequest(r: EffectRequest, titleChars: nat) {
    && 0 <= r.ordinal < MAX_EFFECTS
    && r.action == TICKET_CREATE
    && Alias(r.destination) && Alias(r.project)
    && 0 < |r.title| <= 800 && titleChars <= 200
    && |r.body| <= 8192
  }

  // ---------------------------------------------------------------- byte order on text

  predicate TextLess(a: Text, b: Text) {
    if b == [] then false
    else if a == [] then true
    else if a[0] != b[0] then a[0] < b[0]
    else TextLess(a[1..], b[1..])
  }

  lemma {:induction false} TextLessTotal(a: Text, b: Text)
    ensures !TextLess(a, a)
    ensures a == b || TextLess(a, b) || TextLess(b, a)
  {
    if a != [] {
      TextLessTotal(a[1..], if b == [] then [] else b[1..]);
      if b != [] && a[0] == b[0] {
        assert a == [a[0]] + a[1..] && b == [b[0]] + b[1..];
      }
    }
  }

  lemma {:induction false} TextLessTransitive(a: Text, b: Text, c: Text)
    requires TextLess(a, b) && TextLess(b, c)
    ensures TextLess(a, c)
  {
    if a != [] && a[0] == b[0] && b[0] == c[0] {
      TextLessTransitive(a[1..], b[1..], c[1..]);
    }
  }

  lemma TextOrder(s: set<Text>)
    ensures Collections.StrictTotal(TextLess, s)
  {
    forall a, b | a in s && b in s ensures !TextLess(a, a) && (a == b || TextLess(a, b) || TextLess(b, a)) {
      TextLessTotal(a, b);
    }
    forall a, b, c | a in s && b in s && c in s && TextLess(a, b) && TextLess(b, c) ensures TextLess(a, c) {
      TextLessTransitive(a, b, c);
    }
  }

  ghost predicate Increasing(list: seq<Text>) {
    forall i, j | 0 <= i < j < |list| :: TextLess(list[i], list[j])
  }

  /** The elements of a BTreeSet in iteration order. */
  ghost function Sorted(s: set<Text>): (list: seq<Text>)
    ensures |list| == |s|
    ensures forall x :: x in list <==> x in s
    ensures Increasing(list)
  {
    if s == {} then []
    else
      assert exists m :: Collections.IsLeast(TextLess, s, m) by {
        TextOrder(s);
        var m := Collections.LeastExists(TextLess, s);
      }
      var m :| Collections.IsLeast(TextLess, s, m);
      [m] + Sorted(s - {m})
  }
}

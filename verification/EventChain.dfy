/** The hash-chained event log of a run (run_events and append_event). */
module EventChain {
  import opened Bytes
  import opened Hash
  import opened States

  datatype Kind =
    | RunAdmitted | LeaseClaimed | RunnerStarted | LeaseExpired | RunRequeued | RunRetryWait
    | RunNeedsReconciliation | RunCancelled | RunFailed | RunSucceeded | GrantDenied
    | Other(name: Text)

  /** Payloads the store writes; `Raw` stands for any bytes a tampered row might hold. */
  datatype Payload =
    | StateIs(state: RunState) | ClaimedBy(epoch: nat, worker: Text) | GrantInactive | DeniedFailure | LeaseRanOut
    | Raw(text: Text)

  /** What is hashed of one event. */
  datatype Entry = Entry(tenant: Uuid, run: Uuid, number: nat, prev: Digest, kind: Kind, payload: Payload)

  /** One row of run_events. */
  datatype Event = Event(number: nat, kind: Kind, payload: Payload, prev: Digest, hash: Digest)

  /** The event hash as the store uses it; HashedBy says it is SHA-256 of the entry's preimage. */
  type Link = Entry -> Digest

  const ZERO_HASH: Digest := BigEndian(0, 32)
  const KIND_BYTES := 128
  const PAYLOAD_LIMIT := 16384

  // ---------------------------------------------------------------- the log

  function EntryOf(tenant: Uuid, run: Uuid, e: Event): Entry {
    Entry(tenant, run, e.number, e.prev, e.kind, e.payload)
  }

  /** last_event_hash: the hash of the newest event, 32 zero bytes for an empty log. */
  function Head(log: seq<Event>): Digest {
    if log == [] then ZERO_HASH else log[|log| - 1].hash
  }

  /** Every event carries its position, its predecessor's hash and its own hash. */
  predicate Linked(link: Link, tenant: Uuid, run: Uuid, log: seq<Event>) {
    if log == [] then true
    else Linked(link, tenant, run, log[..|log| - 1]) && LinksTo(link, tenant, run, log[..|log| - 1], log[|log| - 1])
  }

  predicate LinksTo(link: Link, tenant: Uuid, run: Uuid, before: seq<Event>, e: Event) {
    && e.number == |before| + 1
    && e.prev == Head(before)
    && Fits(e.kind, e.payload)
    && e.hash == link(EntryOf(tenant, run, e))
  }

  // ---------------------------------------------------------------- stored text

  function KindName(k: Kind): Text {
    match k
    case RunAdmitted => Ascii("run.admitted")
    case LeaseClaimed => Ascii("lease.claimed")
    case RunnerStarted => Ascii("runner.started")
    case LeaseExpired => Ascii("lease.expired")
    case RunRequeued => Ascii("run.requeued")
    case RunRetryWait => Ascii("run.retry_wait")
    case RunNeedsReconciliation => Ascii("run.needs_reconciliation")
    case RunCancelled => Ascii("run.cancelled")
    case RunFailed => Ascii("run.failed")
    case RunSucceeded => Ascii("run.succeeded")
    case GrantDenied => Ascii("grant.denied")
    case Other(name) => name
  }

  function StateName(s: RunState): Text {
    match s
    case Queued => Ascii("queued")
    case RetryWait => Ascii("retry_wait")
    case Leased => Ascii("leased")
    case Running => Ascii("running")
    case Succeeded => Ascii("succeeded")
    case Failed => Ascii("failed")
    case Cancelled => Ascii("cancelled")
    case NeedsReconciliation => Ascii("needs_reconciliation")
  }

  function Decimal(n: nat): Text {
    if n < 10 then [48 + n] else Decimal(n / 10) + [48 + n % 10]
  }

  /** The JSON text of a payload. */
  function PayloadText(p: Payload): Text {
    match p
    case StateIs(s) => Ascii("{\"state\":\"") + StateName(s) + Ascii("\"}")
    case ClaimedBy(epoch, worker) => Ascii("{\"epoch\":") + Decimal(epoch) + Ascii(",\"worker_id\":\"") + worker + Ascii("\"}")
    case GrantInactive => Ascii("{\"reason\":\"inactive\"}")
    case DeniedFailure => Ascii("{\"state\":\"failed\",\"error_code\":\"GRANT_DENIED\"}")
    case LeaseRanOut => Ascii("{\"expired\":true}")
    case Raw(text) => text
  }

  function NameSize(k: Kind): nat {
    match k
    case RunAdmitted => 12
    case LeaseClaimed => 13
    case RunnerStarted => 14
    case LeaseExpired => 13
    case RunRequeued => 12
    case RunRetryWait => 14
    case RunNeedsReconciliation => 24
    case RunCancelled => 13
    case RunFailed => 10
    case RunSucceeded => 13
    case GrantDenied => 12
    case Other(name) => |name|
  }

  function Digits(n: nat): nat {
    if n < 10 then 1 else Digits(n / 10) + 1
  }

  function PayloadSize(p: Payload): nat {
    match p
    case StateIs(Queued) => 18
    case StateIs(RetryWait) => 22
    case StateIs(Leased) => 18
    case StateIs(Running) => 19
    case StateIs(Succeeded) => 21
    case StateIs(Failed) => 18
    case StateIs(Cancelled) => 21
    case StateIs(NeedsReconciliation) => 32
    case ClaimedBy(epoch, worker) => 25 + Digits(epoch) + |worker|
    case GrantInactive => 21
    case DeniedFailure => 46
    case LeaseRanOut => 16
    case Raw(text) => |text|
  }

  /** append_event's check on its arguments. */
  predicate Fits(k: Kind, p: Payload) {
    0 < NameSize(k) <= KIND_BYTES && PayloadSize(p) <= PAYLOAD_LIMIT
  }

  lemma NameSizes(k: Kind)
    ensures NameSize(k) == |KindName(k)|
  {
  }

  lemma {:induction false} DecimalDigits(n: nat)
    ensures Digits(n) == |Decimal(n)|
  {
    if n >= 10 {
      DecimalDigits(n / 10);
    }
  }

  lemma PayloadSizes(p: Payload)
    ensures PayloadSize(p) == |PayloadText(p)|
  {
    if p.ClaimedBy? {
      DecimalDigits(p.epoch);
    }
  }

  // ---------------------------------------------------------------- tamper evidence

  function EntryPreimage(e: Entry): seq<byte> {
    Preimage(EventHash, EventFields(e.tenant, e.run, e.number, e.prev, KindName(e.kind), PayloadText(e.payload)))
  }

  /** hash::event: the link is SHA-256 of the entry's preimage. */
  ghost predicate HashedBy(link: Link, sha: Sha) {
    forall e: Entry :: link(e) == sha(EntryPreimage(e))
  }

  /** Rows are compared as stored: by the text of their kind and payload. */
  ghost predicate SameRow(a: Event, b: Event) {
    a.number == b.number && KindName(a.kind) == KindName(b.kind) && PayloadText(a.payload) == PayloadText(b.payload)
    && a.prev == b.prev && a.hash == b.hash
  }

  ghost predicate SameRows(l: seq<Event>, m: seq<Event>) {
    |l| == |m| && forall i | 0 <= i < |l| :: SameRow(l[i], m[i])
  }

  /** Different preimages, one from each log, with one SHA-256 value. */
  ghost predicate Collision(sha: Sha, tenant: Uuid, run: Uuid, l: seq<Event>, m: seq<Event>, i: nat, j: nat) {
    && i < |l| && j < |m|
    && EntryPreimage(EntryOf(tenant, run, l[i])) != EntryPreimage(EntryOf(tenant, run, m[j]))
    && sha(EntryPreimage(EntryOf(tenant, run, l[i]))) == sha(EntryPreimage(EntryOf(tenant, run, m[j])))
  }

  lemma SameEntry(a: Entry, b: Entry)
    requires a.number < U64 && b.number < U64 && Fits(a.kind, a.payload) && Fits(b.kind, b.payload)
    requires EntryPreimage(a) == EntryPreimage(b)
    ensures a.number == b.number && a.prev == b.prev
    ensures KindName(a.kind) == KindName(b.kind) && PayloadText(a.payload) == PayloadText(b.payload)
  {
    NameSizes(a.kind);
    NameSizes(b.kind);
    PayloadSizes(a.payload);
    PayloadSizes(b.payload);
    EventPreimageInjective(a.tenant, a.run, a.number, a.prev, KindName(a.kind), PayloadText(a.payload),
                           b.tenant, b.run, b.number, b.prev, KindName(b.kind), PayloadText(b.payload));
  }

  /** Tamper evidence. Two nonempty logs of one run with the same head hold the same rows, or
      the lemma points at a row of each whose preimages collide under SHA-256. */
  lemma {:induction false} EqualHeadsEqualLogs(sha: Sha, link: Link, tenant: Uuid, run: Uuid, l: seq<Event>, m: seq<Event>)
    returns (i: nat, j: nat)
    requires HashedBy(link, sha)
    requires Linked(link, tenant, run, l) && Linked(link, tenant, run, m)
    requires 0 < |l| < U64 && 0 < |m| < U64
    requires Head(l) == Head(m)
    ensures SameRows(l, m) || Collision(sha, tenant, run, l, m, i, j)
  {
    hide EntryPreimage, KindName, PayloadText, NameSize, PayloadSize;
    i, j := |l| - 1, |m| - 1;
    var a, b := EntryOf(tenant, run, l[i]), EntryOf(tenant, run, m[j]);
    assert link(a) == sha(EntryPreimage(a)) && link(b) == sha(EntryPreimage(b));
    if EntryPreimage(a) == EntryPreimage(b) {
      SameEntry(a, b);
      assert SameRow(l[i], m[j]);
      var before, other := l[..i], m[..j];
      if i > 0 {
        i, j := EqualHeadsEqualLogs(sha, link, tenant, run, before, other);
        if SameRows(before, other) {
          SameRowsExtend(l, m);
        }
      }
    }
  }

  lemma SameRowsExtend(l: seq<Event>, m: seq<Event>)
    requires |l| == |m| > 0
    requires SameRows(l[..|l| - 1], m[..|m| - 1]) && SameRow(l[|l| - 1], m[|m| - 1])
    ensures SameRows(l, m)
  {
    forall i | 0 <= i < |l| ensures SameRow(l[i], m[i]) {
      if i < |l| - 1 {
        assert l[..|l| - 1][i] == l[i] && m[..|m| - 1][i] == m[i];
      }
    }
  }

  /** Dropping events from the end of a log changes its head, unless SHA-256 collides. */
  lemma TruncationShows(sha: Sha, link: Link, tenant: Uuid, run: Uuid, log: seq<Event>, keep: nat) returns (i: nat, j: nat)
    requires HashedBy(link, sha)
    requires Linked(link, tenant, run, log) && 0 < keep < |log| < U64
    ensures Head(log[..keep]) == Head(log) ==> Collision(sha, tenant, run, log[..keep], log, i, j)
  {
    PrefixLinked(link, tenant, run, log, keep);
    i, j := 0, 0;
    if Head(log[..keep]) == Head(log) {
      i, j := EqualHeadsEqualLogs(sha, link, tenant, run, log[..keep], log);
    }
  }

  lemma {:induction false} PrefixLinked(link: Link, tenant: Uuid, run: Uuid, log: seq<Event>, keep: nat)
    requires Linked(link, tenant, run, log) && keep <= |log|
    ensures Linked(link, tenant, run, log[..keep])
    decreases |log|
  {
    if keep == |log| {
      assert log[..keep] == log;
    } else {
      PrefixLinked(link, tenant, run, log[..|log| - 1], keep);
      assert log[..|log| - 1][..keep] == log[..keep];
    }
  }
}

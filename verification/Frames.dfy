/** Length-prefixed frames on a pipe (read_frame_bytes and write_frame of runtime/ipc.rs).
    Frame bodies are byte strings; JSON is not part of this model. */
module Frames {
  import opened Bytes

  const START_FRAME_BYTES := 4 * 1024 * 1024
  const MESSAGE_FRAME_BYTES := 128 * 1024

  datatype FrameError = Truncated | FrameSize

  /** A body that write_frame accepts under the given maximum. */
  predicate Sendable(body: seq<byte>, maximum: nat) {
    0 < |body| <= maximum && |body| < U32
  }

  function Encoded(body: seq<byte>): seq<byte> {
    BigEndian(|body|, 4) + body
  }

  function EncodedAll(bodies: seq<seq<byte>>): seq<byte> {
    if bodies == [] then [] else Encoded(bodies[0]) + EncodedAll(bodies[1..])
  }

  /** One frame off the front of a stream: its body and what remains. */
  function ReadFrame(stream: seq<byte>, maximum: nat): (r: Result<(seq<byte>, seq<byte>), FrameError>)
    ensures r.Ok? ==> 0 < |r.value.0| <= maximum && |r.value.1| < |stream|
  {
    if |stream| < 4 then Err(Truncated)
    else
      var length := FromBigEndian(stream[..4]);
      if length == 0 || length > maximum then Err(FrameSize)
      else if |stream| < 4 + length then Err(Truncated)
      else Ok((stream[4..4 + length], stream[4 + length..]))
  }

  /** Read until the first error: the bodies delivered and the error that ended it. */
  function ReadAll(stream: seq<byte>, maximum: nat): (seq<seq<byte>>, FrameError)
    decreases |stream|
  {
    match ReadFrame(stream, maximum)
    case Err(e) => ([], e)
    case Ok((body, rest)) =>
      var (bodies, e) := ReadAll(rest, maximum);
      ([body] + bodies, e)
  }

  lemma ReadsBack(body: seq<byte>, rest: seq<byte>, maximum: nat)
    requires Sendable(body, maximum)
    ensures ReadFrame(Encoded(body) + rest, maximum) == Ok((body, rest))
  {
    var stream := Encoded(body) + rest;
    Widths();
    assert stream[..4] == BigEndian(|body|, 4);
    FromBigEndianInverts(|body|, 4);
    assert stream[4..4 + |body|] == body && stream[4 + |body|..] == rest;
  }

  lemma CutFrame(body: seq<byte>, cut: nat, maximum: nat)
    requires Sendable(body, maximum) && cut < |Encoded(body)|
    ensures ReadFrame(Encoded(body)[..cut], maximum) == Err(Truncated)
  {
    if cut >= 4 {
      Widths();
      assert Encoded(body)[..cut][..4] == BigEndian(|body|, 4);
      FromBigEndianInverts(|body|, 4);
    }
  }

  /** However a stream of written frames is cut, the reader delivers exactly the frames that
      arrived whole, in order and unaltered, and then reports truncation. */
  lemma {:induction false} CutStream(bodies: seq<seq<byte>>, cut: nat, maximum: nat) returns (k: nat)
    requires forall i | 0 <= i < |bodies| :: Sendable(bodies[i], maximum)
    requires cut <= |EncodedAll(bodies)|
    ensures k <= |bodies|
    ensures ReadAll(EncodedAll(bodies)[..cut], maximum) == (bodies[..k], Truncated)
    ensures |EncodedAll(bodies[..k])| <= cut
    ensures k < |bodies| ==> cut < |EncodedAll(bodies[..k + 1])|
    ensures cut == |EncodedAll(bodies)| ==> k == |bodies|
  {
    if bodies == [] {
      k := 0;
    } else {
      var first, others := bodies[0], bodies[1..];
      EncodedFirst(first, others);
      assert [first] + others == bodies;
      if cut < |Encoded(first)| {
        k := 0;
        CutFirst(first, others, cut, maximum);
      } else {
        hide EncodedAll, Encoded, ReadAll, ReadFrame, Sendable;
        var n := CutStream(others, cut - |Encoded(first)|, maximum);
        CutLater(first, others, cut, n, maximum);
        k := n + 1;
      }
    }
  }

  /** What the lemma says of k frames of a stream cut at `cut`. */
  predicate Delivers(bodies: seq<seq<byte>>, cut: nat, maximum: nat, k: nat) {
    && k <= |bodies| && cut <= |EncodedAll(bodies)|
    && ReadAll(EncodedAll(bodies)[..cut], maximum) == (bodies[..k], Truncated)
    && |EncodedAll(bodies[..k])| <= cut
    && (k < |bodies| ==> cut < |EncodedAll(bodies[..k + 1])|)
    && (cut == |EncodedAll(bodies)| ==> k == |bodies|)
  }

  lemma CutFirst(first: seq<byte>, others: seq<seq<byte>>, cut: nat, maximum: nat)
    requires Sendable(first, maximum) && cut < |Encoded(first)|
    ensures Delivers([first] + others, cut, maximum, 0)
  {
    var bodies := [first] + others;
    EncodedFirst(first, others);
    EncodedFirst(first, []);
    assert bodies[..1] == [first] + [];
    assert EncodedAll(bodies)[..cut] == Encoded(first)[..cut];
    CutFrame(first, cut, maximum);
    hide Encoded, ReadFrame;
  }

  lemma CutLater(first: seq<byte>, others: seq<seq<byte>>, cut: nat, n: nat, maximum: nat)
    requires Sendable(first, maximum) && cut >= |Encoded(first)|
    requires Delivers(others, cut - |Encoded(first)|, maximum, n)
    ensures Delivers([first] + others, cut, maximum, n + 1)
  {
    hide EncodedAll, Encoded, ReadAll, ReadFrame, Sendable;
    var bodies, left := [first] + others, cut - |Encoded(first)|;
    EncodedFirst(first, others);
    assert bodies[..n + 1] == [first] + others[..n];
    EncodedFirst(first, others[..n]);
    assert EncodedAll(bodies)[..cut] == Encoded(first) + EncodedAll(others)[..left];
    ReadsFirst(first, EncodedAll(others)[..left], maximum);
    if n + 1 < |bodies| {
      assert bodies[..n + 2] == [first] + others[..n + 1];
      EncodedFirst(first, others[..n + 1]);
    }
  }

  lemma EncodedFirst(body: seq<byte>, bodies: seq<seq<byte>>)
    ensures EncodedAll([body] + bodies) == Encoded(body) + EncodedAll(bodies)
  {
  }

  lemma ReadsFirst(body: seq<byte>, rest: seq<byte>, maximum: nat)
    requires Sendable(body, maximum)
    ensures ReadAll(Encoded(body) + rest, maximum) == ([body] + ReadAll(rest, maximum).0, ReadAll(rest, maximum).1)
  {
    ReadsBack(body, rest, maximum);
  }

  /** The sending side of a pipe. */
  class Writer {
    var sent: seq<byte>

    constructor ()
      ensures sent == []
    {
      sent := [];
    }

    method WriteFrame(body: seq<byte>, maximum: nat) returns (r: Result<(), FrameError>)
      modifies this
      ensures r.Ok? <==> Sendable(body, maximum)
      ensures r.Err? ==> r.error == FrameSize
      ensures sent == if r.Ok? then old(sent) + Encoded(body) else old(sent)
    {
      if |body| == 0 || |body| > maximum || |body| >= U32 {
        return Err(FrameSize);
      }
      sent := sent + BigEndian(|body|, 4);
      sent := sent + body;
      assert sent == old(sent) + Encoded(body);
      r := Ok(());
    }
  }

  /** The receiving side: bytes that will arrive before the pipe closes, and a position. */
  class Reader {
    const stream: seq<byte>
    var position: nat

    ghost predicate Valid()
      reads this
    {
      position <= |stream|
    }

    constructor (bytes: seq<byte>)
      ensures Valid() && stream == bytes && position == 0
    {
      stream := bytes;
      position := 0;
    }

    method ReadExact(count: nat) returns (r: Option<seq<byte>>)
      requires Valid()
      modifies this
      ensures Valid()
      ensures r.Some? <==> old(position) + count <= |stream|
      ensures r.Some? ==> position == old(position) + count && r.value == stream[old(position)..position]
    {
      if |stream| - position < count {
        position := |stream|;
        return None;
      }
      position := position + count;
      r := Some(stream[position - count..position]);
    }

    method ReadFrameBytes(maximum: nat) returns (r: Result<seq<byte>, FrameError>)
      requires Valid()
      modifies this
      ensures Valid()
      ensures match ReadFrame(old(stream[position..]), maximum)
              case Ok((body, rest)) => r == Ok(body) && stream[position..] == rest
              case Err(e) => r == Err(e)
    {
      ghost var ahead := stream[position..];
      var header := ReadExact(4);
      if header.None? {
        return Err(Truncated);
      }
      assert header.value == ahead[..4];
      var length := FromBigEndian(header.value);
      if length == 0 || length > maximum {
        return Err(FrameSize);
      }
      var body := ReadExact(length);
      if body.None? {
        return Err(Truncated);
      }
      assert body.value == ahead[4..4 + length] && stream[position..] == ahead[4 + length..];
      r := Ok(body.value);
    }
  }
}

/** The messages between supervisor and runner, already decoded, and the supervisor's view of
    their order (runtime/ipc.rs). */
module Ipc {
  import opened Bytes
  import opened Domain
  import opened Abi

  const MAX_MESSAGES := 128

  datatype ChildFrame =
    | EffectFrame(id: int, request: EffectRequest)
    | LogFrame(message: Text)
    | FinishFrame(output: Option<seq<byte>>, code: Option<Text>)

  datatype Verdict = Committed(reply: Reply) | Failed(number: int)

  datatype Response = Response(id: int, verdict: Verdict)

  /** EffectResponseFrame::check. */
  predicate ValidResponse(r: Response) {
    r.verdict.Failed? ==> -7 <= r.verdict.number <= -3
  }

  predicate FailureName(code: Text) {
    0 < |code| <= 64 && forall i | 0 <= i < |code| :: 65 <= code[i] <= 90 || code[i] == 95
  }

  /** What read_child lets through. */
  predicate Acceptable(chars: Text -> nat, frame: ChildFrame) {
    match frame
    case EffectFrame(_, request) => ValidRequest(request, chars(request.title))
    case LogFrame(message) => |message| <= 16384
    case FinishFrame(output, code) =>
      && !(output.Some? && code.Some?)
      && (output.Some? ==> |output.value| <= PAYLOAD_BYTES)
      && (code.Some? ==> FailureName(code.value))
  }

  /** The bytes of all messages. */
  function Total(logs: seq<Text>): nat {
    if logs == [] then 0 else Total(logs[..|logs| - 1]) + |logs[|logs| - 1]|
  }

  // ---------------------------------------------------------------- the order of messages

  datatype Order = Order(nextId: int, pending: Option<int>, finished: bool, logBytes: int, logCap: int, messages: int)

  function Start(logCap: int): Order {
    Order(1, None, false, 0, logCap, 0)
  }

  function Remaining(q: Order): int {
    if q.logBytes >= q.logCap then 0 else q.logCap - q.logBytes
  }

  /** The order after a frame from the child, None when the frame is out of sequence. */
  function Observed(q: Order, frame: ChildFrame): Option<Order> {
    var q' := q.(messages := if q.messages + 1 >= U32 then q.messages else q.messages + 1);
    if q'.finished || q'.messages > MAX_MESSAGES || q'.pending.Some? then None
    else
      match frame
      case EffectFrame(id, _) =>
        if id == q'.nextId && q'.nextId + 1 < U64 then Some(q'.(pending := Some(id), nextId := q'.nextId + 1)) else None
      case LogFrame(message) =>
        if |message| <= Remaining(q') then Some(q'.(logBytes := q'.logBytes + |message|)) else None
      case FinishFrame(_, _) => Some(q'.(finished := true))
  }

  datatype ProtocolError = Message | Sequence

  function Responded(q: Order, response: Response): Result<Order, ProtocolError> {
    if !ValidResponse(response) then Err(Message)
    else if q.pending != Some(response.id) then Err(Sequence)
    else Ok(q.(pending := None))
  }

  /** ParentSequence: one child's message order, updated in place. After an error the child is
      killed and the object is not used again. */
  class ParentSequence {
    var nextId: int
    var pending: Option<int>
    var finished: bool
    var logBytes: int
    const logCap: int
    var messages: int

    function View(): Order
      reads this
    {
      Order(nextId, pending, finished, logBytes, logCap, messages)
    }

    constructor (cap: int)
      ensures View() == Start(cap)
    {
      nextId, pending, finished, logBytes, logCap, messages := 1, None, false, 0, cap, 0;
    }

    method Observe(frame: ChildFrame) returns (accepted: bool)
      modifies this
      ensures accepted <==> Observed(old(View()), frame).Some?
      ensures accepted ==> View() == Observed(old(View()), frame).value
    {
      if messages + 1 < U32 {
        messages := messages + 1;
      }
      if finished || messages > MAX_MESSAGES {
        return false;
      }
      match frame
      case EffectFrame(id, _) =>
        if pending.Some? || id != nextId {
          return false;
        }
        pending := Some(id);
        if nextId + 1 >= U64 {
          return false;
        }
        nextId := nextId + 1;
        accepted := true;
      case LogFrame(message) =>
        if pending.Some? || |message| > Remaining(View()) {
          return false;
        }
        logBytes := logBytes + |message|;
        accepted := true;
      case FinishFrame(_, _) =>
        if pending.Some? {
          return false;
        }
        finished := true;
        accepted := true;
    }

    method Respond(response: Response) returns (r: Result<(), ProtocolError>)
      modifies this
      ensures match Responded(old(View()), response)
              case Ok(q) => r == Ok(()) && View() == q
              case Err(e) => r == Err(e) && View() == old(View())
    {
      if !ValidResponse(response) {
        return Err(Message);
      }
      if pending != Some(response.id) {
        return Err(Sequence);
      }
      pending := None;
      r := Ok(());
    }
  }
}

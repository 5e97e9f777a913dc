/** The host calls of a sandboxed guest (runtime/abi.rs). The guest itself is any sequence of
    calls with any memory; parsing of requests and UTF-8 decoding are parameters. */
module Abi {
  import opened Bytes
  import opened Domain

  const MAX_HOST_CALLS := 64
  const LOG_BYTES := 16384

  datatype Code = InvalidMemory | Size | Policy | Unresolved | ReplayDivergence | InvalidState | Unavailable

  function Number(c: Code): (n: int)
    ensures -7 <= n <= -1
  {
    match c
    case InvalidMemory => -1
    case Size => -2
    case Policy => -3
    case Unresolved => -4
    case ReplayDivergence => -5
    case InvalidState => -6
    case Unavailable => -7
  }

  /** Why the broker did not commit an effect. */
  datatype Failure = DeniedByPolicy | LeftUnresolved | Diverged | NotAvailable
  {
    function Code(): Code {
      match this
      case DeniedByPolicy => Policy
      case LeftUnresolved => Unresolved
      case Diverged => ReplayDivergence
      case NotAvailable => Unavailable
    }
  }

  /** A committed reply; `text` is its JSON. */
  datatype Reply = Reply(ordinal: int, project: Text, ticket: Text, text: seq<byte>)

  datatype Caps = Caps(hostCalls: int, logBytes: int)

  /** AbiCaps::validate. */
  predicate ValidCaps(c: Caps) {
    1 <= c.hostCalls <= MAX_HOST_CALLS && 1 <= c.logBytes <= LOG_BYTES
  }

  /** What one execution starts from. */
  datatype Setup = Setup(
    input: seq<byte>, caps: Caps, maxEffects: int,
    parse: seq<byte> -> Option<EffectRequest>, chars: Text -> nat, utf8: seq<byte> -> bool)

  /** EffectRequest::parse validates what it returns; execute_abi checks input and caps. */
  ghost predicate ValidSetup(x: Setup) {
    && |x.input| <= PAYLOAD_BYTES && ValidCaps(x.caps) && 0 <= x.maxEffects <= MAX_EFFECTS
    && forall bytes :: x.parse(bytes).Some? ==> ValidRequest(x.parse(bytes).value, x.chars(x.parse(bytes).value.title))
  }

  datatype State = State(
    output: Option<seq<byte>>, logs: seq<Text>, logBytes: int, calls: int, nextOrdinal: int, sticky: Option<Code>)

  const Fresh := State(None, [], 0, 0, 0, None)

  /** The guest's memory, None when it exports none. */
  type Memory = Option<seq<byte>>

  predicate I32(n: int) {
    -0x8000_0000 <= n < 0x8000_0000
  }

  /** `ptr as u32`. */
  function Unsigned(ptr: int): int {
    if ptr < 0 then ptr + U32 else ptr
  }

  /** Where `len` bytes from `ptr` lie. */
  function Range(memory: Memory, ptr: int, len: int): (r: Result<int, Code>)
    requires I32(ptr)
    ensures r.Ok? ==> memory.Some? && 0 <= r.value && 0 <= len && r.value + len <= |memory.value|
  {
    if len < 0 then Err(Size)
    else if memory.None? || Unsigned(ptr) + len > |memory.value| then Err(InvalidMemory)
    else Ok(Unsigned(ptr))
  }

  function Poke(memory: seq<byte>, start: int, bytes: seq<byte>): (m: seq<byte>)
    requires 0 <= start && start + |bytes| <= |memory|
    ensures |m| == |memory|
  {
    memory[..start] + bytes + memory[start + |bytes|..]
  }

  // ---------------------------------------------------------------- the calls as functions

  /** The first failure sticks. */
  function Fail(s: State, code: Code): State {
    if s.sticky.Some? then s else s.(sticky := Some(code))
  }

  function Counted(s: State): State {
    s.(calls := if s.calls + 1 >= U32 then s.calls else s.calls + 1)
  }

  /** budget: every call counts; none goes through after a failure, after the output, or beyond
      the cap. */
  function Budget(x: Setup, s: State): (State, Option<Code>) {
    var s' := Counted(s);
    if s'.sticky.Some? then (s', s'.sticky)
    else if s'.output.Some? || s'.calls > x.caps.hostCalls then (Fail(s', InvalidState), Some(InvalidState))
    else (s', None)
  }

  function Refuse(s: State, code: Code): (State, int) {
    (Fail(s, code), Number(code))
  }

  datatype Call =
    | InputLen
    | InputRead(ptr: int, capacity: int)
    | OutputWrite(ptr: int, len: int)
    | Log(ptr: int, len: int)

  predicate Arguments(call: Call) {
    match call
    case InputLen => true
    case InputRead(ptr, capacity) => I32(ptr) && I32(capacity)
    case OutputWrite(ptr, len) => I32(ptr) && I32(len)
    case Log(ptr, len) => I32(ptr) && I32(len)
  }

  /** The state after a call within budget, and what the guest is told. */
  function Answer(x: Setup, s: State, call: Call, memory: Memory): (State, int)
    requires Arguments(call)
  {
    match call
    case InputLen => (s, |x.input|)
    case InputRead(ptr, capacity) =>
      if capacity < |x.input| then Refuse(s, Size)
      else if Range(memory, ptr, capacity).Err? then Refuse(s, Range(memory, ptr, capacity).error)
      else (s, |x.input|)
    case OutputWrite(ptr, len) =>
      if len < 0 || len > PAYLOAD_BYTES then Refuse(s, Size)
      else if Range(memory, ptr, len).Err? then Refuse(s, Range(memory, ptr, len).error)
      else
        var start := Range(memory, ptr, len).value;
        (s.(output := Some(memory.value[start..start + len])), len)
    case Log(ptr, len) =>
      if len < 0 || len > Room(x, s) then Refuse(s, Size)
      else if Range(memory, ptr, len).Err? then Refuse(s, Range(memory, ptr, len).error)
      else
        var start := Range(memory, ptr, len).value;
        var message := memory.value[start..start + len];
        if !x.utf8(message) then Refuse(s, Policy)
        else (s.(logBytes := s.logBytes + len, logs := s.logs + [message]), len)
  }

  function Room(x: Setup, s: State): int {
    if s.logBytes >= x.caps.logBytes then 0 else x.caps.logBytes - s.logBytes
  }

  function HostCall(x: Setup, s: State, call: Call, memory: Memory): (State, int)
    requires Arguments(call)
  {
    match Budget(x, s)
    case (s', Some(code)) => (s', Number(code))
    case (s', None) => Answer(x, s', call, memory)
  }

  /** An effect_call: where the request is and where the reply is to go. */
  datatype EffectCall = EffectCall(reqPtr: int, reqLen: int, respPtr: int, respCap: int)

  predicate EffectArguments(c: EffectCall) {
    I32(c.reqPtr) && I32(c.reqLen) && I32(c.respPtr) && I32(c.respCap)
  }

  /** effect_call up to its dispatch: the request to send, or what the guest is told instead. */
  function Begin(x: Setup, s: State, c: EffectCall, memory: Memory): (State, Result<EffectRequest, int>)
    requires EffectArguments(c)
  {
    match Budget(x, s)
    case (s', Some(code)) => (s', Err(Number(code)))
    case (s', None) =>
      if c.reqLen <= 0 || c.reqLen > REQUEST_BYTES || c.respCap < PAYLOAD_BYTES then Turned(s', Size)
      else if Range(memory, c.respPtr, c.respCap).Err? then Turned(s', Range(memory, c.respPtr, c.respCap).error)
      else if Range(memory, c.reqPtr, c.reqLen).Err? then Turned(s', Range(memory, c.reqPtr, c.reqLen).error)
      else
        var start := Range(memory, c.reqPtr, c.reqLen).value;
        var parsed := x.parse(memory.value[start..start + c.reqLen]);
        if parsed.None? then Turned(s', Policy)
        else if parsed.value.ordinal > s'.nextOrdinal || parsed.value.ordinal >= x.maxEffects then Turned(s', Policy)
        else (s', Ok(parsed.value))
  }

  function Turned(s: State, code: Code): (State, Result<EffectRequest, int>) {
    (Fail(s, code), Err(Number(code)))
  }

  datatype Returned = Value(n: int) | Trap

  /** valid_reply. */
  predicate Answers(reply: Reply, request: EffectRequest) {
    reply.ordinal == request.ordinal && reply.project == request.project && reply.ticket != []
  }

  /** effect_call after its dispatch. */
  function End(x: Setup, s: State, c: EffectCall, memory: Memory, request: EffectRequest, answer: Result<Reply, Failure>)
    : (State, Returned)
    requires EffectArguments(c)
  {
    match answer
    case Err(failure) => (Fail(s, failure.Code()), if failure.LeftUnresolved? then Trap else Value(Number(failure.Code())))
    case Ok(reply) =>
      if |reply.text| > PAYLOAD_BYTES || |reply.text| > c.respCap || !Answers(reply, request)
         || Range(memory, c.respPtr, c.respCap).Err? then (Fail(s, Unresolved), Trap)
      else (if request.ordinal == s.nextOrdinal then s.(nextOrdinal := s.nextOrdinal + 1) else s, Value(|reply.text|))
  }

  // ---------------------------------------------------------------- what the calls mean

  /** The guest may still call: nothing has failed, there is no output, a call is left. */
  predicate MayCall(x: Setup, s: State) {
    s.sticky.None? && s.output.None? && s.calls < x.caps.hostCalls
  }

  lemma BudgetExactly(x: Setup, s: State)
    requires 1 <= x.caps.hostCalls <= 64
    ensures var (s', refusal) := Budget(x, s);
            && (refusal.None? <==> s.sticky.None? && s.output.None? && s.calls < x.caps.hostCalls)
            && (refusal.None? ==> s' == s.(calls := s.calls + 1))
            && (refusal.Some? ==> s'.sticky == (if s.sticky.Some? then s.sticky else Some(InvalidState))
                                  && refusal == s'.sticky && s' == s.(calls := s'.calls, sticky := s'.sticky))
  {
  }

  /** The bytes lie in the guest's memory, its addresses read as unsigned. */
  predicate Inside(memory: Memory, ptr: int, len: int) {
    memory.Some? && 0 <= len && (if ptr < 0 then ptr + 0x1_0000_0000 else ptr) + len <= |memory.value|
  }

  /** Byte i of the guest's buffer. */
  function ByteAt(memory: seq<byte>, ptr: int, i: int): int {
    var at := (if ptr < 0 then ptr + 0x1_0000_0000 else ptr) + i;
    if 0 <= at < |memory| then memory[at] else 0
  }

  /** An output is taken exactly when the guest may call and names at most 65536 bytes of its
      memory; it is then those bytes. Anything else fails the execution and leaves no output. */
  lemma OutputExactly(x: Setup, s: State, memory: Memory, ptr: int, len: int)
    requires I32(ptr) && I32(len) && 1 <= x.caps.hostCalls <= 64
    ensures var (s', n) := HostCall(x, s, OutputWrite(ptr, len), memory);
            && (n >= 0 <==> MayCall(x, s) && 0 <= len <= 65536 && Inside(memory, ptr, len))
            && (n >= 0 ==>
                  && n == len && s'.output.Some? && |s'.output.value| == n
                  && (forall i | 0 <= i < n :: s'.output.value[i] == ByteAt(memory.value, ptr, i))
                  && s' == s.(calls := s.calls + 1, output := s'.output))
            && (n < 0 ==> s'.sticky.Some? && s'.output == s.output)
  {
    BudgetExactly(x, s);
  }

  /** A log is taken exactly when the guest may call, its bytes fit into what the log cap leaves
      and into the memory, and are UTF-8; it is then those bytes, after the earlier logs. */
  lemma LogExactly(x: Setup, s: State, memory: Memory, ptr: int, len: int)
    requires I32(ptr) && I32(len) && 1 <= x.caps.hostCalls <= 64 && s.logBytes <= x.caps.logBytes
    ensures var (s', n) := HostCall(x, s, Log(ptr, len), memory);
            var start := if ptr < 0 then ptr + 0x1_0000_0000 else ptr;
            && (n >= 0 <==>
                  && MayCall(x, s) && 0 <= len && s.logBytes + len <= x.caps.logBytes && Inside(memory, ptr, len)
                  && x.utf8(memory.value[start..start + len]))
            && (n >= 0 ==>
                  && n == len && |s'.logs| == |s.logs| + 1 && s'.logs[..|s.logs|] == s.logs && |s'.logs[|s.logs|]| == n
                  && (forall i | 0 <= i < n :: s'.logs[|s.logs|][i] == ByteAt(memory.value, ptr, i))
                  && s' == s.(calls := s.calls + 1, logs := s'.logs, logBytes := s.logBytes + n))
            && (n < 0 ==> s'.sticky.Some? && s'.logs == s.logs)
  {
    BudgetExactly(x, s);
  }

  /** The guest learns the length of its input, and reads it into any buffer large enough. */
  lemma InputExactly(x: Setup, s: State, memory: Memory, ptr: int, capacity: int)
    requires I32(ptr) && I32(capacity) && 1 <= x.caps.hostCalls <= 64
    ensures var (s', n) := HostCall(x, s, InputRead(ptr, capacity), memory);
            && (n >= 0 <==> MayCall(x, s) && |x.input| <= capacity && Inside(memory, ptr, capacity))
            && (n >= 0 ==> n == |x.input| && s' == s.(calls := s.calls + 1))
            && (n < 0 ==> s'.sticky.Some?)
    ensures var (s', n) := HostCall(x, s, InputLen, memory);
            (n >= 0 <==> MayCall(x, s)) && (n >= 0 ==> n == |x.input| && s' == s.(calls := s.calls + 1))
  {
    BudgetExactly(x, s);
  }

  /** A request goes out exactly when the guest may call, both its buffers lie in its memory and
      have their sizes, and the bytes it names parse to a request for a known or the next ordinal. */
  lemma RequestExactly(x: Setup, s: State, c: EffectCall, memory: Memory)
    requires EffectArguments(c) && 1 <= x.caps.hostCalls <= 64
    ensures var (s', begun) := Begin(x, s, c, memory);
            var start := if c.reqPtr < 0 then c.reqPtr + 0x1_0000_0000 else c.reqPtr;
            && (begun.Ok? <==>
                  && MayCall(x, s) && 0 < c.reqLen <= 16384 && 65536 <= c.respCap
                  && Inside(memory, c.respPtr, c.respCap) && Inside(memory, c.reqPtr, c.reqLen)
                  && var parsed := x.parse(memory.value[start..start + c.reqLen]);
                     parsed.Some? && parsed.value.ordinal <= s.nextOrdinal && parsed.value.ordinal < x.maxEffects)
            && (begun.Ok? ==>
                  x.parse(memory.value[start..start + c.reqLen]) == Some(begun.value) && s' == s.(calls := s.calls + 1))
            && (begun.Err? ==> begun.error < 0 && s'.sticky.Some?)
  {
    BudgetExactly(x, s);
  }

  /** A reply reaches the guest exactly when it answers the request, in ordinal, project and with a
      ticket, and fits; only then does the next ordinal open. Any other answer fails the execution. */
  lemma ReplyExactly(x: Setup, s: State, c: EffectCall, memory: Memory, request: EffectRequest, answer: Result<Reply, Failure>)
    requires EffectArguments(c)
    ensures var (s', returned) := End(x, s, c, memory, request, answer);
            var taken := returned.Value? && returned.n >= 0;
            && (taken <==>
                  && answer.Ok? && answer.value.ordinal == request.ordinal && answer.value.project == request.project
                  && |answer.value.ticket| > 0 && |answer.value.text| <= 65536 && |answer.value.text| <= c.respCap
                  && Inside(memory, c.respPtr, c.respCap))
            && (taken ==>
                  returned.n == |answer.value.text|
                  && s' == s.(nextOrdinal := if request.ordinal == s.nextOrdinal then s.nextOrdinal + 1 else s.nextOrdinal))
            && (!taken ==> s'.sticky.Some? && s' == s.(sticky := s'.sticky))
            && (returned.Trap? <==> answer == Err(LeftUnresolved) || (answer.Ok? && !taken))
  {
  }

  /** Writing changes exactly the bytes from `start` on. */
  lemma PokeBytes(memory: seq<byte>, start: int, bytes: seq<byte>, i: int)
    requires 0 <= start && start + |bytes| <= |memory| && 0 <= i < |memory|
    ensures Poke(memory, start, bytes)[i] == if start <= i < start + |bytes| then bytes[i - start] else memory[i]
  {
  }

  /** The first failure stays, whatever is called afterwards, and so does an output. */
  lemma FirstFailureStays(x: Setup, s: State, call: Call, c: EffectCall, memory: Memory)
    requires Arguments(call) && EffectArguments(c)
    ensures s.sticky.Some? ==>
              HostCall(x, s, call, memory).0.sticky == s.sticky && Begin(x, s, c, memory).0.sticky == s.sticky
    ensures s.output.Some? ==>
              HostCall(x, s, call, memory).0.output == s.output && Begin(x, s, c, memory).0.output == s.output
  {
  }

  // ---------------------------------------------------------------- the host state

  /** The state behind the guest's imports, updated in place by each host call. */
  class Host {
    const setup: Setup
    var output: Option<seq<byte>>
    var logs: seq<Text>
    var logBytes: int
    var calls: int
    var nextOrdinal: int
    var sticky: Option<Code>

    function View(): State
      reads this
    {
      State(output, logs, logBytes, calls, nextOrdinal, sticky)
    }

    constructor (x: Setup)
      ensures setup == x && View() == Fresh
    {
      setup := x;
      output, logs, logBytes, calls, nextOrdinal, sticky := None, [], 0, 0, 0, None;
    }

    method FailWith(code: Code) returns (n: int)
      modifies this
      ensures View() == Fail(old(View()), code) && n == Number(code)
    {
      if sticky.None? {
        sticky := Some(code);
      }
      n := Number(code);
    }

    method Spend() returns (refusal: Option<Code>)
      modifies this
      ensures (View(), refusal) == Budget(setup, old(View()))
    {
      if calls + 1 < U32 {
        calls := calls + 1;
      }
      if sticky.Some? {
        return sticky;
      }
      if output.Some? {
        var n := FailWith(InvalidState);
        return Some(InvalidState);
      }
      if calls > setup.caps.hostCalls {
        var n := FailWith(InvalidState);
        return Some(InvalidState);
      }
      refusal := None;
    }

    method InputLength() returns (n: int)
      modifies this
      ensures (View(), n) == HostCall(setup, old(View()), InputLen, None)
    {
      var refusal := Spend();
      if refusal.Some? {
        return Number(refusal.value);
      }
      n := |setup.input|;
    }

    /** The input is copied to the front of the destination; the rest of the memory stays. */
    method ReadInput(memory: Memory, ptr: int, capacity: int) returns (n: int, after: Memory)
      requires Arguments(Call.InputRead(ptr, capacity))
      modifies this
      ensures (View(), n) == HostCall(setup, old(View()), InputRead(ptr, capacity), memory)
      ensures after == if n < 0 then memory else Some(Poke(memory.value, Range(memory, ptr, capacity).value, setup.input))
      ensures n >= 0 ==>
                && n == |setup.input| && Inside(memory, ptr, capacity) && |after.value| == |memory.value|
                && forall i | 0 <= i < n :: setup.input[i] == ByteAt(after.value, ptr, i)
    {
      after := memory;
      var refusal := Spend();
      if refusal.Some? {
        return Number(refusal.value), memory;
      }
      if capacity < 0 || capacity < |setup.input| {
        n := FailWith(Size);
        return;
      }
      var place := Range(memory, ptr, capacity);
      if place.Err? {
        n := FailWith(place.error);
        return;
      }
      after := Some(Poke(memory.value, place.value, setup.input));
      n := |setup.input|;
    }

    method WriteOutput(memory: Memory, ptr: int, len: int) returns (n: int)
      requires Arguments(Call.OutputWrite(ptr, len))
      modifies this
      ensures (View(), n) == HostCall(setup, old(View()), OutputWrite(ptr, len), memory)
      ensures n >= 0 ==>
                && n == len && output.Some? && |output.value| == n && Inside(memory, ptr, len)
                && forall i | 0 <= i < n :: output.value[i] == ByteAt(memory.value, ptr, i)
    {
      var refusal := Spend();
      if refusal.Some? {
        return Number(refusal.value);
      }
      if len < 0 || len > PAYLOAD_BYTES {
        n := FailWith(Size);
        return;
      }
      var place := Range(memory, ptr, len);
      if place.Err? {
        n := FailWith(place.error);
        return;
      }
      output := Some(memory.value[place.value..place.value + len]);
      n := len;
    }

    method WriteLog(memory: Memory, ptr: int, len: int) returns (n: int)
      requires Arguments(Call.Log(ptr, len))
      modifies this
      ensures (View(), n) == HostCall(setup, old(View()), Log(ptr, len), memory)
      ensures n >= 0 ==>
                && n == len && |logs| == old(|logs|) + 1 && logs[..old(|logs|)] == old(logs) && |logs[old(|logs|)]| == n
                && Inside(memory, ptr, len)
                && forall i | 0 <= i < n :: logs[old(|logs|)][i] == ByteAt(memory.value, ptr, i)
    {
      var refusal := Spend();
      if refusal.Some? {
        return Number(refusal.value);
      }
      if len < 0 || len > Room(setup, View()) {
        n := FailWith(Size);
        return;
      }
      var place := Range(memory, ptr, len);
      if place.Err? {
        n := FailWith(place.error);
        return;
      }
      var message := memory.value[place.value..place.value + len];
      if !setup.utf8(message) {
        n := FailWith(Policy);
        return;
      }
      logBytes := logBytes + len;
      logs := logs + [message];
      n := len;
    }

    method BeginEffect(memory: Memory, c: EffectCall) returns (r: Result<EffectRequest, int>)
      requires EffectArguments(c)
      modifies this
      ensures (View(), r) == Begin(setup, old(View()), c, memory)
    {
      var n: int;
      var refusal := Spend();
      if refusal.Some? {
        return Err(Number(refusal.value));
      }
      if c.reqLen <= 0 || c.reqLen > REQUEST_BYTES || c.respCap < PAYLOAD_BYTES {
        n := FailWith(Size);
        return Err(n);
      }
      var destination := Range(memory, c.respPtr, c.respCap);
      if destination.Err? {
        n := FailWith(destination.error);
        return Err(n);
      }
      var source := Range(memory, c.reqPtr, c.reqLen);
      if source.Err? {
        n := FailWith(source.error);
        return Err(n);
      }
      var parsed := setup.parse(memory.value[source.value..source.value + c.reqLen]);
      if parsed.None? {
        n := FailWith(Policy);
        return Err(n);
      }
      if parsed.value.ordinal > nextOrdinal || parsed.value.ordinal >= setup.maxEffects {
        n := FailWith(Policy);
        return Err(n);
      }
      r := Ok(parsed.value);
    }

    method EndEffect(memory: Memory, c: EffectCall, request: EffectRequest, answer: Result<Reply, Failure>)
      returns (r: Returned, after: Memory)
      requires EffectArguments(c)
      modifies this
      ensures (View(), r) == End(setup, old(View()), c, memory, request, answer)
      ensures after == if r.Trap? || answer.Err? then memory
                       else Some(Poke(memory.value, Range(memory, c.respPtr, c.respCap).value, answer.value.text))
      ensures r.Value? && r.n >= 0 ==>
                && answer.Ok? && r.n == |answer.value.text| && after.Some? && |after.value| == |memory.value|
                && forall i | 0 <= i < r.n :: answer.value.text[i] == ByteAt(after.value, c.respPtr, i)
    {
      after := memory;
      var n: int;
      match answer
      case Err(failure) =>
        n := FailWith(failure.Code());
        if failure.LeftUnresolved? {
          n := FailWith(Unresolved);
          return Trap, memory;
        }
        return Value(n), memory;
      case Ok(reply) =>
        if |reply.text| > PAYLOAD_BYTES || |reply.text| > c.respCap || !Answers(reply, request) {
          n := FailWith(Unresolved);
          return Trap, memory;
        }
        var place := Range(memory, c.respPtr, c.respCap);
        if place.Err? {
          n := FailWith(Unresolved);
          return Trap, memory;
        }
        after := Some(Poke(memory.value, place.value, reply.text));
        if request.ordinal == nextOrdinal {
          nextOrdinal := nextOrdinal + 1;
        }
        r := Value(|reply.text|);
    }
  }
}

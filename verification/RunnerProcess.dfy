/** The runner process: host calls of the guest, the dispatcher that turns an effect call into
    a request and a response, and the order in which frames are written
    (runtime/bin/effectlatch-runner.rs and execute_abi). */
module RunnerProcess {
  import opened Bytes
  import opened Collections
  import opened Domain
  import opened Abi
  import opened Ipc

  /** How the engine's execution of the guest ended. */
  datatype Engine = Returns(code: int) | Crashes

  datatype Phase =
    | Computing
    | Awaiting(id: int, request: EffectRequest, call: EffectCall, memory: Memory)
    | Ended(engine: Engine)

  /** `asked` and `heard` record the requests sent and the answers received. */
  datatype Runner = Runner(
    state: State, nextId: int, phase: Phase, asked: seq<EffectRequest>, heard: seq<Result<Reply, Failure>>)

  const NotStarted := Runner(Fresh, 1, Computing, [], [])

  /** abi_error_code of a violation. */
  function ViolationName(c: Code): Text {
    match c
    case InvalidMemory => Ascii("INVALID_MEMORY")
    case Size => Ascii("SIZE")
    case Policy => Ascii("POLICY")
    case Unresolved => Ascii("UNRESOLVED")
    case ReplayDivergence => Ascii("REPLAY_DIVERGED")
    case InvalidState => Ascii("INVALID_STATE")
    case Unavailable => Ascii("UNAVAILABLE")
  }

  const RUNTIME_FAILURE := Ascii("RUNTIME_FAILURE")

  function LogFrames(logs: seq<Text>): (frames: seq<ChildFrame>)
    ensures |frames| == |logs|
  {
    seq(|logs|, i requires 0 <= i < |logs| => LogFrame(logs[i]))
  }

  /** execute_abi's result as frames: a violation outranks the engine's own result. */
  function LastFrames(s: State, engine: Engine): seq<ChildFrame> {
    if s.sticky.Some? then [FinishFrame(None, Some(ViolationName(s.sticky.value)))]
    else if engine.Crashes? then [FinishFrame(None, Some(RUNTIME_FAILURE))]
    else LogFrames(s.logs) + [FinishFrame(s.output, None)]
  }

  /** The dispatcher's reading of a response. */
  function Understood(id: int, response: Response): Result<Reply, Failure> {
    if response.id != id then Err(NotAvailable)
    else
      match response.verdict
      case Committed(reply) => Ok(reply)
      case Failed(number) =>
        Err(if number == -3 then DeniedByPolicy else if number == -4 then LeftUnresolved
            else if number == -5 then Diverged else NotAvailable)
  }

  // ---------------------------------------------------------------- steps

  function EndWith(r: Runner, s: State, engine: Engine): (Runner, seq<ChildFrame>) {
    (r.(state := s, phase := Ended(engine)), LastFrames(s, engine))
  }

  function CallStep(x: Setup, r: Runner, call: Call, memory: Memory): Runner
    requires Arguments(call)
  {
    if r.phase.Computing? then r.(state := HostCall(x, r.state, call, memory).0) else r
  }

  /** An effect call: refused on the spot, or sent as a request. */
  function EffectStep(x: Setup, r: Runner, c: EffectCall, memory: Memory): (Runner, seq<ChildFrame>)
    requires EffectArguments(c)
  {
    if !r.phase.Computing? then (r, [])
    else
      match Begin(x, r.state, c, memory)
      case (s, Err(_)) => (r.(state := s), [])
      case (s, Ok(request)) =>
        if r.nextId + 1 >= U64 then
          (r.(state := End(x, s, c, memory, request, Err(NotAvailable)).0), [])
        else
          (r.(state := s, nextId := r.nextId + 1, phase := Awaiting(r.nextId, request, c, memory),
              asked := r.asked + [request]),
           [EffectFrame(r.nextId, request)])
  }

  /** The awaited response arrives; a trap ends the execution. */
  function HearStep(x: Setup, r: Runner, response: Response): (Runner, seq<ChildFrame>) {
    match r.phase
    case Awaiting(id, request, c, memory) =>
      if !EffectArguments(c) then (r, [])
      else
        var answer := Understood(id, response);
        var (s, returned) := End(x, r.state, c, memory, request, answer);
        var r' := r.(phase := Computing, heard := r.heard + [answer]);
        if returned.Trap? then EndWith(r', s, Crashes) else (r'.(state := s), [])
    case _ => (r, [])
  }

  function EndStep(x: Setup, r: Runner, engine: Engine): (Runner, seq<ChildFrame>) {
    if r.phase.Computing? then EndWith(r, r.state, engine) else (r, [])
  }

  /** What drives the runner: its guest, the responses that arrive, and the end of the guest. */
  datatype Input =
    | Made(call: Call, memory: Memory)
    | MadeEffect(effect: EffectCall, memory: Memory)
    | Arrived(response: Response)
    | Over(engine: Engine)

  predicate ValidInput(input: Input) {
    match input
    case Made(call, _) => Arguments(call)
    case MadeEffect(c, _) => EffectArguments(c)
    case _ => true
  }

  /** The runner after an input, and the frames it writes. */
  function Take(x: Setup, r: Runner, input: Input): (Runner, seq<ChildFrame>)
    requires ValidInput(input)
  {
    match input
    case Made(call, memory) => (CallStep(x, r, call, memory), [])
    case MadeEffect(c, memory) => EffectStep(x, r, c, memory)
    case Arrived(response) => HearStep(x, r, response)
    case Over(engine) => EndStep(x, r, engine)
  }

  /** A whole run: the runner at its end and every frame written, in order. */
  function Played(x: Setup, inputs: seq<Input>): (Runner, seq<ChildFrame>)
    requires forall k | 0 <= k < |inputs| :: ValidInput(inputs[k])
  {
    if inputs == [] then (NotStarted, [])
    else
      var (r, written) := Played(x, inputs[..|inputs| - 1]);
      var (r', frames) := Take(x, r, inputs[|inputs| - 1]);
      (r', written + frames)
  }

  // ---------------------------------------------------------------- what an honest runner keeps

  /** Frames other than the last are paid for by host calls, and logs by their cap. */
  predicate Bounded(x: Setup, r: Runner) {
    && 0 <= r.state.calls < U32
    && |r.asked| + |r.state.logs| <= Min(r.state.calls, x.caps.hostCalls)
    && (r.state.sticky.None? ==> r.state.calls <= x.caps.hostCalls)
    && r.state.logBytes == Total(r.state.logs) <= x.caps.logBytes
    && (r.state.output.Some? ==> |r.state.output.value| <= PAYLOAD_BYTES)
  }

  /** One answer for every request, except for the one that is awaited. */
  predicate Paired(r: Runner) {
    && r.nextId == |r.asked| + 1
    && match r.phase
       case Awaiting(id, request, c, _) =>
         && |r.asked| == |r.heard| + 1 && id == |r.asked| && request == r.asked[|r.asked| - 1]
         && r.state.sticky.None? && r.state.output.None? && EffectArguments(c)
       case Computing => |r.asked| == |r.heard|
       case Ended(_) => |r.asked| == |r.heard|
  }

  predicate AskedValid(x: Setup, r: Runner) {
    forall i | 0 <= i < |r.asked| :: ValidRequest(r.asked[i], x.chars(r.asked[i].title)) && r.asked[i].ordinal < x.maxEffects
  }

  /** Until something fails, every answer commits its request, and the committed ordinals are an
      initial segment ending before nextOrdinal. */
  predicate Committing(x: Setup, r: Runner) {
    && 0 <= r.state.nextOrdinal <= x.maxEffects
    && (r.state.sticky.None? ==>
          && (forall i | 0 <= i < |r.heard| && i < |r.asked| ::
                r.heard[i].Ok? && Answers(r.heard[i].value, r.asked[i]) && r.asked[i].ordinal < r.state.nextOrdinal)
          && (forall o | 0 <= o < r.state.nextOrdinal :: AskedFor(r, o))
          && (r.phase.Awaiting? ==> r.phase.request.ordinal <= r.state.nextOrdinal))
  }

  predicate AskedFor(r: Runner, o: int) {
    exists i | 0 <= i < |r.heard| && i < |r.asked| :: r.asked[i].ordinal == o
  }

  ghost predicate Honest(x: Setup, r: Runner) {
    Bounded(x, r) && Paired(r) && AskedValid(x, r) && Committing(x, r)
  }

  /** What a host call other than an effect call may change. */
  lemma CallEffects(x: Setup, s: State, call: Call, memory: Memory)
    requires Arguments(call) && s.logBytes <= x.caps.logBytes
    ensures var s' := HostCall(x, s, call, memory).0;
            && s'.calls == Counted(s).calls && s'.nextOrdinal == s.nextOrdinal
            && (s'.sticky.None? ==> s.sticky.None? && s'.calls <= x.caps.hostCalls)
            && (s'.output == s.output || (s'.output.Some? && |s'.output.value| <= PAYLOAD_BYTES))
            && ((s'.logs == s.logs && s'.logBytes == s.logBytes) ||
                (exists m :: && s'.logs == s.logs + [m] && s'.logBytes == s.logBytes + |m| <= x.caps.logBytes && s'.sticky.None?))
  {
    var s' := HostCall(x, s, call, memory).0;
    if s'.logs != s.logs {
      var m := s'.logs[|s'.logs| - 1];
      assert s'.logs == s.logs + [m];
    }
  }

  lemma HonestCall(x: Setup, r: Runner, call: Call, memory: Memory)
    requires ValidSetup(x) && Honest(x, r) && Arguments(call)
    ensures Honest(x, CallStep(x, r, call, memory))
  {
    if r.phase.Computing? {
      var r' := CallStep(x, r, call, memory);
      CallEffects(x, r.state, call, memory);
      hide HostCall, ValidSetup;
      if r'.state.logs != r.state.logs {
        assert r'.state.logs[..|r'.state.logs| - 1] == r.state.logs;
      }
      forall o | 0 <= o < r'.state.nextOrdinal && r'.state.sticky.None? ensures AskedFor(r', o) {
        assert AskedFor(r, o);
      }
    }
  }

  lemma EffectEffects(x: Setup, s: State, c: EffectCall, memory: Memory)
    requires EffectArguments(c)
    ensures var (s', begun) := Begin(x, s, c, memory);
            && s'.calls == Counted(s).calls && s'.nextOrdinal == s.nextOrdinal && s'.output == s.output
            && s'.logs == s.logs && s'.logBytes == s.logBytes
            && (s'.sticky.None? ==> s.sticky.None? && s'.calls <= x.caps.hostCalls)
            && (begun.Ok? <==> s'.sticky.None?)
            && (begun.Ok? ==>
                  && s.output.None? && begun.value.ordinal <= s.nextOrdinal && begun.value.ordinal < x.maxEffects
                  && exists bytes :: x.parse(bytes) == Some(begun.value))
  {
  }

  lemma HonestEffect(x: Setup, r: Runner, c: EffectCall, memory: Memory)
    requires ValidSetup(x) && Honest(x, r) && EffectArguments(c)
    ensures Honest(x, EffectStep(x, r, c, memory).0)
  {
    var r' := EffectStep(x, r, c, memory).0;
    if r.phase.Computing? {
      EffectEffects(x, r.state, c, memory);
      hide Begin;
      forall o | 0 <= o < r'.state.nextOrdinal && r'.state.sticky.None? ensures AskedFor(r', o) {
        assert AskedFor(r, o);
        var i :| 0 <= i < |r.heard| && i < |r.asked| && r.asked[i].ordinal == o;
        assert r'.asked[i] == r.asked[i];
      }
    }
  }

  lemma HonestHear(x: Setup, r: Runner, response: Response)
    requires ValidSetup(x) && Honest(x, r)
    ensures Honest(x, HearStep(x, r, response).0)
  {
    var r' := HearStep(x, r, response).0;
    if r.phase.Awaiting? {
      var last := |r.asked| - 1;
      assert r'.heard[last] == Understood(r.phase.id, response);
      forall o | 0 <= o < r'.state.nextOrdinal && r'.state.sticky.None? ensures AskedFor(r', o) {
        if o < r.state.nextOrdinal {
          assert AskedFor(r, o);
          var i :| 0 <= i < |r.heard| && i < |r.asked| && r.asked[i].ordinal == o;
          assert r'.asked[i].ordinal == o;
        } else {
          assert r'.asked[last].ordinal == o;
        }
      }
    }
  }

  lemma HonestEnd(x: Setup, r: Runner, engine: Engine)
    requires Honest(x, r)
    ensures Honest(x, EndStep(x, r, engine).0)
  {
    var r' := EndStep(x, r, engine).0;
    forall o | 0 <= o < r'.state.nextOrdinal && r'.state.sticky.None? ensures AskedFor(r', o) {
      assert AskedFor(r, o);
    }
  }

  /** Nothing is dispatched after the output was written or after a call failed. */
  lemma DispatchComesFirst(x: Setup, r: Runner, c: EffectCall, memory: Memory)
    requires EffectArguments(c)
    ensures var (r', frames) := EffectStep(x, r, c, memory);
            && (frames != [] <==> r'.asked != r.asked)
            && (r.state.output.Some? || r.state.sticky.Some? ==> r'.asked == r.asked && frames == [])
  {
  }

  // ---------------------------------------------------------------- the process itself

  /** IpcDispatcher: sends one request and waits for one response. `arriving` is what the
      supervisor will send before it closes the pipe. */
  class Dispatcher {
    var nextId: int
    var events: seq<ChildFrame>
    var arriving: seq<Response>

    constructor (responses: seq<Response>)
      ensures nextId == 1 && events == [] && arriving == responses
    {
      nextId, events, arriving := 1, [], responses;
    }

    /** The first half of dispatch: number the request and write it. */
    method Send(request: EffectRequest) returns (id: Option<int>)
      modifies this
      ensures arriving == old(arriving)
      ensures id == if old(nextId) + 1 >= U64 then None else Some(old(nextId))
      ensures nextId == (if id.Some? then old(nextId) + 1 else old(nextId))
      ensures events == (if id.Some? then old(events) + [EffectFrame(old(nextId), request)] else old(events))
    {
      if nextId + 1 >= U64 {
        return None;
      }
      id := Some(nextId);
      nextId := nextId + 1;
      events := events + [EffectFrame(id.value, request)];
    }

    /** The second half: what a response says to the request that awaits it. */
    method Receive(id: int, response: Response) returns (r: Result<Reply, Failure>)
      ensures r == Understood(id, response)
    {
      if response.id != id {
        return Err(NotAvailable);
      }
      match response.verdict
      case Committed(reply) =>
        r := Ok(reply);
      case Failed(number) =>
        if number == -3 {
          r := Err(DeniedByPolicy);
        } else if number == -4 {
          r := Err(LeftUnresolved);
        } else if number == -5 {
          r := Err(Diverged);
        } else {
          r := Err(NotAvailable);
        }
    }

    method Dispatch(request: EffectRequest) returns (r: Result<Reply, Failure>)
      modifies this
      ensures if old(nextId) + 1 >= U64 then
                r == Err(NotAvailable) && nextId == old(nextId) && events == old(events) && arriving == old(arriving)
              else
                && nextId == old(nextId) + 1 && events == old(events) + [EffectFrame(old(nextId), request)]
                && if old(arriving) == [] then r == Err(NotAvailable) && arriving == []
                   else r == Understood(old(nextId), old(arriving)[0]) && arriving == old(arriving)[1..]
    {
      var id := Send(request);
      if id.None? || |arriving| == 0 {
        return Err(NotAvailable);
      }
      var response := arriving[0];
      arriving := arriving[1..];
      r := Receive(id.value, response);
    }

    /** effect_call from the guest's call to its return. */
    method EffectCall(host: Host, memory: Memory, c: Abi.EffectCall) returns (returned: Returned, after: Memory)
      requires EffectArguments(c)
      modifies this, host
      ensures match Begin(host.setup, old(host.View()), c, memory)
              case (s, Err(n)) =>
                returned == Value(n) && host.View() == s && events == old(events) && nextId == old(nextId) && after == memory
              case (s, Ok(request)) =>
                var answer := if old(nextId) + 1 >= U64 || old(arriving) == [] then Err(NotAvailable)
                              else Understood(old(nextId), old(arriving)[0]);
                && (host.View(), returned) == End(host.setup, s, c, memory, request, answer)
                && events == (if old(nextId) + 1 >= U64 then old(events) else old(events) + [EffectFrame(old(nextId), request)])
    {
      var begun := host.BeginEffect(memory, c);
      if begun.Err? {
        return Value(begun.error), memory;
      }
      var answer := Dispatch(begun.value);
      returned, after := host.EndEffect(memory, c, begun.value, answer);
    }

    /** The end of the event loop: logs in order, then the finish frame. */
    method WriteLast(host: Host, engine: Engine)
      modifies this
      ensures events == old(events) + LastFrames(host.View(), engine)
      ensures nextId == old(nextId) && arriving == old(arriving)
    {
      ghost var before := events;
      if host.sticky.Some? {
        events := events + [FinishFrame(None, Some(ViolationName(host.sticky.value)))];
        return;
      }
      if engine.Crashes? {
        events := events + [FinishFrame(None, Some(RUNTIME_FAILURE))];
        return;
      }
      ghost var frames := LogFrames(host.logs);
      for k := 0 to |host.logs|
        invariant events == before + frames[..k]
        invariant nextId == old(nextId) && arriving == old(arriving)
      {
        Grow(before, frames, k);
        events := events + [LogFrame(host.logs[k])];
      }
      assert frames[..|host.logs|] == frames;
      Regroup(before, frames, [FinishFrame(host.output, None)]);
      events := events + [FinishFrame(host.output, None)];
    }
  }

  /** The runner's objects together. Only the histories are ghost. */
  class Process {
    const setup: Setup
    const host: Host
    const dispatcher: Dispatcher
    var phase: Phase
    ghost var asked: seq<EffectRequest>
    ghost var heard: seq<Result<Reply, Failure>>

    ghost predicate Valid()
      reads this
    {
      host.setup == setup
    }

    ghost function View(): Runner
      reads this, host, dispatcher
    {
      Runner(host.View(), dispatcher.nextId, phase, asked, heard)
    }

    constructor (x: Setup)
      ensures Valid() && setup == x && View() == NotStarted && dispatcher.events == []
      ensures fresh(host) && fresh(dispatcher)
    {
      setup := x;
      host := new Host(x);
      dispatcher := new Dispatcher([]);
      phase, asked, heard := Computing, [], [];
    }

    method Finish(engine: Engine)
      requires Valid()
      modifies this, dispatcher
      ensures Valid()
      ensures (View(), dispatcher.events)
              == (old(View()).(phase := Ended(engine)), old(dispatcher.events) + LastFrames(old(host.View()), engine))
    {
      dispatcher.WriteLast(host, engine);
      phase := Ended(engine);
    }

    method Call(call: Call, memory: Memory)
      requires Valid() && Arguments(call)
      modifies host
      ensures Valid()
      ensures host.View() == HostCall(setup, old(host.View()), call, memory).0
    {
      var n: int;
      match call
      case InputLen =>
        n := host.InputLength();
      case InputRead(ptr, capacity) =>
        var after: Memory;
        n, after := host.ReadInput(memory, ptr, capacity);
      case OutputWrite(ptr, len) =>
        n := host.WriteOutput(memory, ptr, len);
      case Log(ptr, len) =>
        n := host.WriteLog(memory, ptr, len);
    }

    method CallEffect(c: EffectCall, memory: Memory)
      requires Valid() && EffectArguments(c) && phase.Computing?
      modifies this, host, dispatcher
      ensures Valid()
      ensures (View(), dispatcher.events)
              == (EffectStep(setup, old(View()), c, memory).0,
                  old(dispatcher.events) + EffectStep(setup, old(View()), c, memory).1)
    {
      assert dispatcher.events + [] == dispatcher.events;
      var begun := host.BeginEffect(memory, c);
      if begun.Ok? {
        var id := dispatcher.Send(begun.value);
        if id.Some? {
          phase := Awaiting(id.value, begun.value, c, memory);
          asked := asked + [begun.value];
        } else {
          var returned, after := host.EndEffect(memory, c, begun.value, Err(NotAvailable));
        }
      }
    }

    method Hear(response: Response)
      requires Valid() && phase.Awaiting? && EffectArguments(phase.call)
      modifies this, host, dispatcher
      ensures Valid()
      ensures (View(), dispatcher.events)
              == (HearStep(setup, old(View()), response).0,
                  old(dispatcher.events) + HearStep(setup, old(View()), response).1)
    {
      assert dispatcher.events + [] == dispatcher.events;
      var answer := dispatcher.Receive(phase.id, response);
      var returned, after := host.EndEffect(phase.memory, phase.call, phase.request, answer);
      phase := Computing;
      heard := heard + [answer];
      if returned.Trap? {
        Finish(Crashes);
      }
    }

    /** Any input, where the runner is ready for it. */
    method Carry(input: Input)
      requires Valid() && ValidInput(input)
      modifies this, host, dispatcher
      ensures Valid()
      ensures (View(), dispatcher.events)
              == (Take(setup, old(View()), input).0, old(dispatcher.events) + Take(setup, old(View()), input).1)
    {
      hide LastFrames, Begin, End, HostCall;
      assert dispatcher.events + [] == dispatcher.events;
      match input
      case Made(call, memory) =>
        if phase.Computing? {
          Call(call, memory);
        }
      case MadeEffect(c, memory) =>
        if phase.Computing? {
          CallEffect(c, memory);
        }
      case Arrived(response) =>
        if phase.Awaiting? && EffectArguments(phase.call) {
          Hear(response);
        }
      case Over(engine) =>
        if phase.Computing? {
          Finish(engine);
        }
    }

    /** A whole run of the objects. */
    method Run(inputs: seq<Input>)
      requires Valid() && View() == NotStarted && dispatcher.events == []
      requires forall k | 0 <= k < |inputs| :: ValidInput(inputs[k])
      modifies this, host, dispatcher
      ensures Valid()
      ensures (View(), dispatcher.events) == Played(setup, inputs)
    {
      hide Take;
      for k := 0 to |inputs|
        invariant Valid()
        invariant (View(), dispatcher.events) == Played(setup, inputs[..k])
      {
        assert inputs[..k + 1][..k] == inputs[..k];
        Carry(inputs[k]);
      }
      assert inputs[..|inputs|] == inputs;
    }
  }
}

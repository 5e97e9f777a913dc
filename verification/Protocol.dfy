/** Runner, supervisor and broker together: every interleaving of host calls, frames, broker
    answers and passes of the supervisor's loop, over the two pipes between the processes. */
module Protocol {
  import opened Bytes
  import opened Domain
  import opened Abi
  import opened Ipc
  import opened Supervision
  import opened RunnerProcess

  /** `written` records every frame the runner ever wrote; `toParent` is the part not yet read. */
  datatype World = World(
    runner: Runner, written: seq<ChildFrame>, toParent: seq<ChildFrame>, toChild: seq<Response>, watch: Watch)

  datatype Event =
    | Calls(call: Call, memory: Memory)
    | CallsEffect(effect: EffectCall, memory: Memory)
    | Hears
    | Ends(engine: Engine)
    // `takes` says that the pass takes the next frame off the pipe
    | Passes(pass: Pass, takes: bool)

  predicate ValidEvent(e: Event) {
    match e
    case Calls(call, _) => Arguments(call)
    case CallsEffect(c, _) => EffectArguments(c)
    case Passes(pass, _) => Environmental(pass)
    case _ => true
  }

  /** The next frame on the pipe, decoded and checked by read_child. */
  function NextReading(x: Setup, toParent: seq<ChildFrame>): Reading {
    if toParent == [] then Quiet else if Acceptable(x.chars, toParent[0]) then Got(toParent[0]) else Refused
  }

  function ActualPass(x: Setup, w: World, pass: Pass, takes: bool): Pass {
    pass.(reading := if takes then NextReading(x, w.toParent)
                      else if pass.reading.Got? || pass.reading.Refused? then Quiet else pass.reading)
  }

  function Next(x: Setup, w: World, e: Event): World
    requires ValidEvent(e)
  {
    match e
    case Calls(call, memory) => w.(runner := CallStep(x, w.runner, call, memory))
    case CallsEffect(c, memory) =>
      var (r, frames) := EffectStep(x, w.runner, c, memory);
      w.(runner := r, written := w.written + frames, toParent := w.toParent + frames)
    case Hears =>
      if w.toChild == [] || !w.runner.phase.Awaiting? then w
      else
        var (r, frames) := HearStep(x, w.runner, w.toChild[0]);
        w.(runner := r, written := w.written + frames, toParent := w.toParent + frames, toChild := w.toChild[1..])
    case Ends(engine) =>
      var (r, frames) := EndStep(x, w.runner, engine);
      w.(runner := r, written := w.written + frames, toParent := w.toParent + frames)
    case Passes(pass, takes) =>
      var watch := Iterate(w.watch, ActualPass(x, w, pass, takes));
      w.(watch := watch, toParent := if takes && w.toParent != [] then w.toParent[1..] else w.toParent,
         toChild := w.toChild + NewlySent(w.watch, watch))
  }

  function NewlySent(before: Watch, after: Watch): seq<Response> {
    if |before.sent| <= |after.sent| then after.sent[|before.sent|..] else []
  }

  /** Runner and supervisor are given the same caps. */
  function Opening(x: Setup): World {
    World(NotStarted, [], [], [], Begun(x.caps.logBytes))
  }

  function Reached(x: Setup, events: seq<Event>): World
    requires forall k | 0 <= k < |events| :: ValidEvent(events[k])
  {
    if events == [] then Opening(x)
    else Next(x, Reached(x, events[..|events| - 1]), events[|events| - 1])
  }

  // ---------------------------------------------------------------- the two sides in lockstep

  /** The broker's answer as a verdict on the wire, and as the guest's side understands it. */
  predicate Relayable(a: Answer) {
    a.Ok? || a.error.EffectFailed?
  }

  function VerdictOf(a: Answer): Verdict
    requires Relayable(a)
  {
    match a
    case Ok(reply) => Committed(reply)
    case Err(EffectFailed(f)) => Failed(DispatchNumber(f))
  }

  function Relay(a: Answer): Result<Reply, Failure>
    requires Relayable(a)
  {
    match a
    case Ok(reply) => Ok(reply)
    case Err(EffectFailed(f)) => Err(f)
  }

  /** Failures survive the trip as numbers. */
  lemma RelaysIntact(id: int, a: Answer)
    requires Relayable(a)
    ensures Understood(id, Response(id, VerdictOf(a))) == Relay(a)
    ensures ValidResponse(Response(id, VerdictOf(a)))
  {
  }

  predicate Relayed(w: World) {
    && (forall i | 0 <= i < |w.watch.answers| :: Relayable(w.watch.answers[i]))
    && (forall i | 0 <= i < |w.watch.answers| && i < |w.runner.heard| :: w.runner.heard[i] == Relay(w.watch.answers[i]))
  }

  predicate AtRest(x: Setup, w: World) {
    var n := |w.runner.asked|;
    && w.toParent == [] && w.toChild == [] && w.watch.outstanding.None? && w.watch.logs == []
    && w.watch.order == Order(n + 1, None, false, 0, x.caps.logBytes, n)
    && w.watch.dispatched == w.runner.asked && |w.watch.answers| == n
  }

  /** The request is on its way to the supervisor. */
  predicate InTransit(x: Setup, w: World, request: EffectRequest) {
    var n := |w.runner.asked|;
    && n > 0 && w.toParent == [EffectFrame(n, request)] && w.toChild == [] && w.watch.outstanding.None? && w.watch.logs == []
    && w.watch.order == Order(n, None, false, 0, x.caps.logBytes, n - 1)
    && w.watch.dispatched == w.runner.asked[..n - 1] && |w.watch.answers| == n - 1
  }

  /** The broker is working on it. */
  predicate Dispatched(x: Setup, w: World, request: EffectRequest) {
    var n := |w.runner.asked|;
    && w.toParent == [] && w.toChild == [] && w.watch.outstanding == Some((n, request)) && w.watch.logs == []
    && w.watch.order == Order(n + 1, Some(n), false, 0, x.caps.logBytes, n)
    && w.watch.dispatched == w.runner.asked && |w.watch.answers| == n - 1
  }

  /** The response is on its way back. */
  predicate Answered(x: Setup, w: World) {
    var n := |w.runner.asked|;
    && w.toParent == [] && w.watch.outstanding.None? && w.watch.logs == []
    && w.watch.order == Order(n + 1, None, false, 0, x.caps.logBytes, n)
    && w.watch.dispatched == w.runner.asked && |w.watch.answers| == n && n > 0
    && Relayable(w.watch.answers[n - 1]) && w.toChild == [Response(n, VerdictOf(w.watch.answers[n - 1]))]
  }

  /** The last frames are on their way; k of them, all logs, have been taken. */
  predicate Concluding(x: Setup, w: World, frames: seq<ChildFrame>) {
    var n, k := |w.runner.asked|, |frames| - |w.toParent|;
    && 0 <= k < |frames| && w.toParent == frames[k..] && w.toChild == [] && w.watch.outstanding.None?
    && k <= |w.runner.state.logs| && w.watch.logs == w.runner.state.logs[..k]
    && w.watch.order == Order(n + 1, None, false, Total(w.runner.state.logs[..k]), x.caps.logBytes, n + k)
    && w.watch.dispatched == w.runner.asked && |w.watch.answers| == n
  }

  predicate Phased(x: Setup, w: World) {
    match w.runner.phase
    case Computing => AtRest(x, w)
    case Awaiting(_, request, _, _) => InTransit(x, w, request) || Dispatched(x, w, request) || Answered(x, w)
    case Ended(engine) => Concluding(x, w, LastFrames(w.runner.state, engine))
  }

  /** What a successful outcome says about the runner. */
  predicate Completed(w: World, output: Option<seq<byte>>, logs: seq<Text>) {
    && w.runner.phase.Ended? && w.runner.phase.engine.Returns? && w.runner.state.sticky.None?
    && output == w.runner.state.output && logs == w.runner.state.logs
    && w.watch.dispatched == w.runner.asked && |w.watch.answers| == |w.runner.asked|
    && Relayed(w)
  }

  ghost predicate InLockstep(x: Setup, w: World) {
    && Honest(x, w.runner)
    && match w.watch.outcome
       case Running => InStep(w.watch) && Relayed(w) && Phased(x, w)
       case Success(output, logs) => Completed(w, output, logs)
       case Stopped(stop) => Harmless(stop)
  }

  /** The supervisor stopped for a reason other than the order or form of a message. */
  predicate Harmless(stop: Stop) {
    !stop.OutOfSequence? && stop != BadMessage && stop != BadFrame
  }

  // ---------------------------------------------------------------- frames of an honest runner

  lemma {:induction false} TotalPrefix(logs: seq<Text>, k: nat)
    requires k <= |logs|
    ensures Total(logs[..k]) <= Total(logs)
    decreases |logs|
  {
    if k == |logs| {
      assert logs[..k] == logs;
    } else {
      TotalPrefix(logs[..|logs| - 1], k);
      assert logs[..|logs| - 1][..k] == logs[..k];
    }
  }

  lemma TotalNext(logs: seq<Text>, k: nat)
    requires k < |logs|
    ensures Total(logs[..k]) + |logs[k]| == Total(logs[..k + 1]) <= Total(logs)
  {
    assert logs[..k + 1][..k] == logs[..k];
    TotalPrefix(logs, k + 1);
  }

  predicate Capitals(s: string) {
    0 < |s| <= 64 && forall i | 0 <= i < |s| :: 'A' <= s[i] <= 'Z' || s[i] == '_'
  }

  lemma CapitalsName(s: string)
    requires Capitals(s)
    ensures FailureName(Ascii(s))
  {
  }

  lemma NamesAcceptable(c: Code)
    ensures FailureName(ViolationName(c)) && FailureName(RUNTIME_FAILURE)
  {
    hide FailureName;
    CapitalsName("RUNTIME_FAILURE");
    match c
    case InvalidMemory => CapitalsName("INVALID_MEMORY");
    case Size => CapitalsName("SIZE");
    case Policy => CapitalsName("POLICY");
    case Unresolved => CapitalsName("UNRESOLVED");
    case ReplayDivergence => CapitalsName("REPLAY_DIVERGED");
    case InvalidState => CapitalsName("INVALID_STATE");
    case Unavailable => CapitalsName("UNAVAILABLE");
  }

  /** Frame k of the last frames: a log of the runner, or the finish at the end. */
  ghost predicate LastFrame(x: Setup, r: Runner, engine: Engine, k: nat) {
    var frames := LastFrames(r.state, engine);
    && k < |frames| && Acceptable(x.chars, frames[k]) && k <= |r.state.logs|
    && if k < |frames| - 1 then k < |r.state.logs| && frames[k] == LogFrame(r.state.logs[k])
       else frames[k].FinishFrame? && (frames[k].code.None? ==>
              r.state.sticky.None? && engine.Returns? && k == |r.state.logs| && frames[k].output == r.state.output)
  }

  lemma LastFrameAt(x: Setup, r: Runner, engine: Engine, k: nat)
    requires ValidSetup(x) && Bounded(x, r) && k < |LastFrames(r.state, engine)|
    ensures LastFrame(x, r, engine, k)
  {
    var logs := r.state.logs;
    if k < |logs| {
      TotalNext(logs, k);
    }
    if r.state.sticky.Some? {
      NamesAcceptable(r.state.sticky.value);
    }
    NamesAcceptable(Size);
    hide FailureName, ViolationName, RUNTIME_FAILURE, Total;
  }

  // ---------------------------------------------------------------- the runner's steps

  lemma RunnerIdles(x: Setup, w: World, e: Event)
    requires ValidSetup(x) && ValidEvent(e) && !e.Passes? && InLockstep(x, w) && !w.watch.outcome.Running?
    ensures InLockstep(x, Next(x, w, e))
  {
    hide Honest;
    match e
    case Calls(call, memory) => HonestCall(x, w.runner, call, memory);
    case CallsEffect(c, memory) => HonestEffect(x, w.runner, c, memory);
    case Hears =>
      if w.toChild != [] {
        HonestHear(x, w.runner, w.toChild[0]);
      }
    case Ends(engine) => HonestEnd(x, w.runner, engine);
  }

  lemma CallsInLockstep(x: Setup, w: World, e: Event)
    requires ValidSetup(x) && ValidEvent(e) && e.Calls? && InLockstep(x, w) && w.watch.outcome.Running?
    ensures InLockstep(x, Next(x, w, e))
  {
    hide Honest, HostCall, InStep;
    HonestCall(x, w.runner, e.call, e.memory);
  }

  lemma EffectInLockstep(x: Setup, w: World, e: Event)
    requires ValidSetup(x) && ValidEvent(e) && e.CallsEffect? && InLockstep(x, w) && w.watch.outcome.Running?
    ensures InLockstep(x, Next(x, w, e))
  {
    HonestEffect(x, w.runner, e.effect, e.memory);
    EffectSteps(x, w.runner, e.effect, e.memory);
    IdsSmall(x, w.runner);
    hide Honest, EffectStep, InStep, LastFrames;
    var (r, frames) := EffectStep(x, w.runner, e.effect, e.memory);
    if w.runner.phase.Computing? && frames != [] {
      RequestSent(x, w, r);
      hide Phased;
    } else {
      assert w.toParent + [] == w.toParent && w.written + [] == w.written;
    }
  }

  lemma RequestSent(x: Setup, w: World, r: Runner)
    requires w.runner.phase.Computing? && Phased(x, w) && Relayed(w) && w.runner.nextId == |w.runner.asked| + 1
    requires r.phase.Awaiting? && r.asked == w.runner.asked + [r.phase.request] && r.heard == w.runner.heard
    ensures var frames := [EffectFrame(w.runner.nextId, r.phase.request)];
            var w' := w.(runner := r, written := w.written + frames, toParent := w.toParent + frames);
            Phased(x, w') && Relayed(w')
  {
    var frames := [EffectFrame(w.runner.nextId, r.phase.request)];
    assert r.asked[..|r.asked| - 1] == w.runner.asked;
    assert InTransit(x, w.(runner := r, written := w.written + frames, toParent := w.toParent + frames), r.phase.request);
  }

  lemma IdsSmall(x: Setup, r: Runner)
    requires ValidSetup(x) && Honest(x, r)
    ensures r.nextId == |r.asked| + 1 <= 65 && |r.asked| + |r.state.logs| <= 64
  {
  }

  lemma EffectSteps(x: Setup, r: Runner, c: EffectCall, memory: Memory)
    requires EffectArguments(c)
    ensures var (r', frames) := EffectStep(x, r, c, memory);
            && r'.heard == r.heard
            && (!r.phase.Computing? ==> r' == r && frames == [])
            && (r.phase.Computing? && r.nextId + 1 < U64 ==>
                  if frames == [] then r'.phase == r.phase && r'.asked == r.asked
                  else (
                    && r'.phase.Awaiting? && r'.asked == r.asked + [r'.phase.request]
                    && frames == [EffectFrame(r.nextId, r'.phase.request)]))
  {
  }

  lemma HearsInLockstep(x: Setup, w: World)
    requires ValidSetup(x) && InLockstep(x, w) && w.watch.outcome.Running?
    ensures InLockstep(x, Next(x, w, Hears))
  {
    if w.toChild != [] && w.runner.phase.Awaiting? {
      HonestHear(x, w.runner, w.toChild[0]);
      HearSteps(x, w.runner, w.toChild[0]);
      PairedAwaiting(x, w.runner);
      hide Honest, HearStep, LastFrames, InStep, Understood;
      var (r, frames) := HearStep(x, w.runner, w.toChild[0]);
      assert Answered(x, w);
      AnswerHeard(x, w, r, frames);
      hide Phased, Relayed;
    }
  }

  lemma AnswerHeard(x: Setup, w: World, r: Runner, frames: seq<ChildFrame>)
    requires Answered(x, w) && Relayed(w) && |w.runner.heard| == |w.runner.asked| - 1
    requires r.asked == w.runner.asked && r.heard == w.runner.heard + [Understood(|w.runner.asked|, w.toChild[0])]
    requires || (r.phase.Computing? && frames == [])
             || (r.phase == Ended(Crashes) && frames == LastFrames(r.state, Crashes) && |frames| > 0)
    ensures var w' := w.(runner := r, written := w.written + frames, toParent := w.toParent + frames,
                         toChild := w.toChild[1..]);
            Phased(x, w') && Relayed(w')
  {
    var n := |w.runner.asked|;
    RelaysIntact(n, w.watch.answers[n - 1]);
    hide LastFrames, Understood;
    assert [] + frames == frames && r.state.logs[..0] == [];
  }

  lemma PairedAwaiting(x: Setup, r: Runner)
    requires Honest(x, r) && r.phase.Awaiting?
    ensures r.phase.id == |r.asked| && |r.heard| == |r.asked| - 1 && EffectArguments(r.phase.call)
  {
  }

  lemma HearSteps(x: Setup, r: Runner, response: Response)
    requires r.phase.Awaiting? && EffectArguments(r.phase.call)
    ensures var (r', frames) := HearStep(x, r, response);
            && r'.asked == r.asked && r'.heard == r.heard + [Understood(r.phase.id, response)]
            && (|| (r'.phase.Computing? && frames == [])
                || (r'.phase == Ended(Crashes) && frames == LastFrames(r'.state, Crashes) && |frames| > 0))
  {
  }

  lemma EndsInLockstep(x: Setup, w: World, e: Event)
    requires ValidSetup(x) && e.Ends? && InLockstep(x, w) && w.watch.outcome.Running?
    ensures InLockstep(x, Next(x, w, e))
  {
    HonestEnd(x, w.runner, e.engine);
    hide Honest, InStep, LastFrames;
    if w.runner.phase.Computing? {
      LastNonempty(w.runner.state, e.engine);
      ConcludingStarts(x, w, e.engine);
      hide Phased;
    } else {
      assert w.toParent + [] == w.toParent && w.written + [] == w.written;
    }
  }

  lemma LastNonempty(s: State, engine: Engine)
    ensures |LastFrames(s, engine)| > 0
  {
  }

  lemma ConcludingStarts(x: Setup, w: World, engine: Engine)
    requires w.runner.phase.Computing? && Phased(x, w) && |LastFrames(w.runner.state, engine)| > 0
    ensures var (r, frames) := EndStep(x, w.runner, engine);
            var w' := w.(runner := r, written := w.written + frames, toParent := w.toParent + frames);
            Phased(x, w') && (Relayed(w) ==> Relayed(w'))
  {
    var frames := LastFrames(w.runner.state, engine);
    hide LastFrames;
    assert [] + frames == frames && w.runner.state.logs[..0] == [] && frames[0..] == frames;
  }

  // ---------------------------------------------------------------- the supervisor's steps

  lemma DeliversInLockstep(x: Setup, w: World, pass: Pass)
    requires ValidSetup(x) && InLockstep(x, w) && w.watch.outcome.Running? && Environmental(pass)
    ensures var watch := Deliver(w.watch, pass.mail, pass.written);
            InLockstep(x, w.(watch := watch, toChild := w.toChild + NewlySent(w.watch, watch)))
  {
    DeliverInStep(w.watch, pass);
    var watch := Deliver(w.watch, pass.mail, pass.written);
    var w' := w.(watch := watch, toChild := w.toChild + NewlySent(w.watch, watch));
    if watch == w.watch || w.watch.outstanding.None? {
      assert w.toChild + [] == w.toChild;
    } else if watch.outcome.Running? {
      OutstandingAwaited(x, w);
      DeliveredAnswer(w.watch, pass.mail, pass.written);
      hide Honest, InStep, LastFrames, Deliver;
      AnswerSent(x, w, pass.mail.answer, watch);
      hide Phased, Relayed;
    } else {
      DeliverStops(w.watch, pass.mail, pass.written);
      hide InLockstep, Deliver;
      StopsInLockstep(x, w, w');
    }
  }

  lemma DeliverStops(w: Watch, mail: Mail, written: Option<Stop>)
    requires w.outcome.Running? && InStep(w)
    requires written.Some? ==> Harmless(written.value)
    ensures var w' := Deliver(w, mail, written);
            !w'.outcome.Success? && (w'.outcome.Stopped? ==> Harmless(w'.outcome.stop))
  {
  }

  lemma AnswerSent(x: Setup, w: World, answer: Answer, watch: Watch)
    requires w.runner.phase.Awaiting? && Dispatched(x, w, w.runner.phase.request) && Relayed(w) && Relayable(answer)
    requires |w.runner.heard| == |w.runner.asked| - 1
    requires watch == w.watch.(dispatchPending := false, outstanding := None, order := w.watch.order.(pending := None),
                               answers := w.watch.answers + [answer],
                               sent := w.watch.sent + [Response(|w.runner.asked|, VerdictOf(answer))])
    ensures var w' := w.(watch := watch, toChild := w.toChild + NewlySent(w.watch, watch));
            Phased(x, w') && Relayed(w')
  {
    assert Answered(x, w.(watch := watch, toChild := w.toChild + NewlySent(w.watch, watch)));
  }

  lemma OutstandingAwaited(x: Setup, w: World)
    requires InLockstep(x, w) && w.watch.outcome.Running? && w.watch.outstanding.Some?
    ensures w.runner.phase.Awaiting? && Dispatched(x, w, w.runner.phase.request)
    ensures |w.runner.heard| == |w.runner.asked| - 1
  {
  }

  /** A delivery that lets the loop go on sends exactly the broker's answer. */
  lemma DeliveredAnswer(w: Watch, mail: Mail, written: Option<Stop>)
    requires w.dispatchPending && w.outstanding.Some? && w.order.pending == Some(w.outstanding.value.0)
    requires Deliver(w, mail, written).outcome.Running? && Deliver(w, mail, written) != w && w.outcome.Running?
    ensures mail.Arrived? && Relayable(mail.answer)
    ensures Deliver(w, mail, written) ==
            w.(dispatchPending := false, outstanding := None, order := w.order.(pending := None),
               answers := w.answers + [mail.answer],
               sent := w.sent + [Response(w.outstanding.value.0, VerdictOf(mail.answer))])
  {
  }

  lemma ReceivesInLockstep(x: Setup, w: World, pass: Pass, takes: bool)
    requires ValidSetup(x) && InLockstep(x, w) && w.watch.outcome.Running?
    ensures var watch := Receive(w.watch, ActualPass(x, w, pass, takes).reading, pass.exit);
            InLockstep(x, w.(watch := watch, toParent := if takes && w.toParent != [] then w.toParent[1..] else w.toParent))
  {
    hide InLockstep, Receive, InStep;
    if takes && w.toParent != [] {
      ReceivesFrame(x, w, pass.exit);
    } else {
      ReceivesNoFrame(x, w, ActualPass(x, w, pass, takes).reading, pass.exit);
    }
  }

  lemma ReceivesNoFrame(x: Setup, w: World, reading: Reading, exit: Exit)
    requires InLockstep(x, w) && w.watch.outcome.Running? && (reading.Quiet? || reading.Closed? || reading.Broken?)
    ensures InLockstep(x, w.(watch := Receive(w.watch, reading, exit)))
  {
    hide InLockstep;
    if !reading.Quiet? {
      StopsInLockstep(x, w, w.(watch := Receive(w.watch, reading, exit)));
    }
  }

  lemma ReceivesFrame(x: Setup, w: World, exit: Exit)
    requires ValidSetup(x) && InLockstep(x, w) && w.watch.outcome.Running? && w.toParent != []
    ensures InLockstep(x, w.(watch := Receive(w.watch, NextReading(x, w.toParent), exit), toParent := w.toParent[1..]))
  {
    LoopInStep(x, w, NextReading(x, w.toParent), exit);
    hide InLockstep, Receive, InStep;
    if w.runner.phase.Ended? {
      ReceivesLast(x, w, exit);
    } else {
      ReceivesRequest(x, w, exit);
    }
  }

  lemma LoopInStep(x: Setup, w: World, reading: Reading, exit: Exit)
    requires InLockstep(x, w) && w.watch.outcome.Running?
    ensures InStep(Receive(w.watch, reading, exit))
  {
    hide Honest, Relayed, Phased, Receive;
    ReceiveInStep(w.watch, Pass(Current, false, Empty, None, reading, exit));
  }

  lemma ReceivesRequest(x: Setup, w: World, exit: Exit)
    requires ValidSetup(x) && InLockstep(x, w) && w.watch.outcome.Running? && w.toParent != [] && !w.runner.phase.Ended?
    requires InStep(Receive(w.watch, NextReading(x, w.toParent), exit))
    ensures InLockstep(x, w.(watch := Receive(w.watch, NextReading(x, w.toParent), exit), toParent := w.toParent[1..]))
  {
    IdsSmall(x, w.runner);
    RequestAcceptable(x, w);
    PairedAwaiting(x, w.runner);
    hide Honest, LastFrames;
    var request := w.runner.phase.request;
    assert InTransit(x, w, request);
    var n := |w.runner.asked|;
    assert w.runner.asked[..n - 1] + [request] == w.runner.asked;
    assert Dispatched(x, w.(watch := Receive(w.watch, NextReading(x, w.toParent), exit), toParent := w.toParent[1..]), request);
  }

  lemma RequestAcceptable(x: Setup, w: World)
    requires ValidSetup(x) && InLockstep(x, w) && w.watch.outcome.Running? && w.toParent != [] && !w.runner.phase.Ended?
    ensures w.runner.phase.Awaiting? && Acceptable(x.chars, w.toParent[0])
    ensures w.runner.asked != [] && w.runner.phase.request == w.runner.asked[|w.runner.asked| - 1]
  {
    var last := |w.runner.asked| - 1;
    assert ValidRequest(w.runner.asked[last], x.chars(w.runner.asked[last].title));
  }

  lemma ReceivesLast(x: Setup, w: World, exit: Exit)
    requires ValidSetup(x) && InLockstep(x, w) && w.watch.outcome.Running? && w.toParent != [] && w.runner.phase.Ended?
    requires InStep(Receive(w.watch, NextReading(x, w.toParent), exit))
    ensures InLockstep(x, w.(watch := Receive(w.watch, NextReading(x, w.toParent), exit), toParent := w.toParent[1..]))
  {
    var engine := w.runner.phase.engine;
    var frames := LastFrames(w.runner.state, engine);
    var k := |frames| - |w.toParent|;
    IdsSmall(x, w.runner);
    LastFrameAt(x, w.runner, engine, k);
    assert w.toParent[0] == frames[k];
    if k < |frames| - 1 {
      hide LastFrames, Honest, Receive, Phased, Relayed, Acceptable, InStep;
      ReceivesLog(x, w, frames, k);
    } else {
      ReceivesFinish(x, w, k, exit);
    }
  }

  lemma ReceivesFinish(x: Setup, w: World, k: nat, exit: Exit)
    requires ValidSetup(x) && InLockstep(x, w) && w.watch.outcome.Running? && w.runner.phase.Ended?
    requires k == |LastFrames(w.runner.state, w.runner.phase.engine)| - |w.toParent| && |w.toParent| == 1
    requires LastFrame(x, w.runner, w.runner.phase.engine, k)
             && w.toParent[0] == LastFrames(w.runner.state, w.runner.phase.engine)[k]
    ensures InLockstep(x, w.(watch := Receive(w.watch, NextReading(x, w.toParent), exit), toParent := w.toParent[1..]))
  {
    IdsSmall(x, w.runner);
    HeldLogs(x, w.runner);
    hide Honest, LastFrames, Acceptable, Total;
  }

  lemma HeldLogs(x: Setup, r: Runner)
    requires Honest(x, r)
    ensures r.state.logs[..|r.state.logs|] == r.state.logs
  {
  }

  lemma ReceivesLog(x: Setup, w: World, frames: seq<ChildFrame>, k: nat)
    requires ValidSetup(x) && InLockstep(x, w) && w.watch.outcome.Running? && w.runner.phase.Ended?
    requires frames == LastFrames(w.runner.state, w.runner.phase.engine) && k == |frames| - |w.toParent| < |frames| - 1
    requires k < |w.runner.state.logs| && frames[k] == LogFrame(w.runner.state.logs[k]) && Acceptable(x.chars, frames[k])
    ensures InLockstep(x, w.(watch := Receive(w.watch, NextReading(x, w.toParent), StillThere), toParent := w.toParent[1..]))
    ensures forall exit ::
              Receive(w.watch, NextReading(x, w.toParent), exit) == Receive(w.watch, NextReading(x, w.toParent), StillThere)
  {
    var logs := w.runner.state.logs;
    IdsSmall(x, w.runner);
    LogsCapped(x, w.runner);
    TotalNext(logs, k);
    hide Honest, LastFrames, Total;
    assert w.toParent[0] == frames[k];
    assert logs[..k + 1] == logs[..k] + [logs[k]];
    assert w.toParent[1..] == frames[k + 1..];
  }

  lemma LogsCapped(x: Setup, r: Runner)
    requires Honest(x, r)
    ensures Total(r.state.logs) <= x.caps.logBytes
  {
  }

  lemma PassesInLockstep(x: Setup, w: World, e: Event)
    requires ValidSetup(x) && ValidEvent(e) && e.Passes? && InLockstep(x, w)
    ensures InLockstep(x, Next(x, w, e))
  {
    var pass := ActualPass(x, w, e.pass, e.takes);
    if w.watch.outcome.Running? && pass.lease.Current? && !pass.late {
      DeliversInLockstep(x, w, pass);
      var watch := Deliver(w.watch, pass.mail, pass.written);
      var w' := w.(watch := watch, toChild := w.toChild + NewlySent(w.watch, watch));
      hide InLockstep, Deliver, Receive, NewlySent;
      if watch.outcome.Running? {
        ReceivesInLockstep(x, w', e.pass, e.takes);
        ReceivingSendsNothing(watch, pass);
        SentAlike(w.watch, watch, Receive(watch, pass.reading, pass.exit));
      } else {
        StopsInLockstep(x, w', Next(x, w, e));
      }
    } else {
      EarlyStop(w.watch, pass);
      hide InLockstep, Iterate, NewlySent;
      StopsInLockstep(x, w, Next(x, w, e));
    }
  }

  lemma EarlyStop(w: Watch, pass: Pass)
    requires !w.outcome.Running? || !pass.lease.Current? || pass.late
    ensures var w' := Iterate(w, pass);
            && !w'.outcome.Running?
            && (w' == w || (w'.outcome.Stopped? && Harmless(w'.outcome.stop)))
  {
  }

  lemma SentAlike(before: Watch, a: Watch, b: Watch)
    requires a.sent == b.sent
    ensures NewlySent(before, a) == NewlySent(before, b)
  {
  }

  /** Once the loop has ended, or ends for a reason of the surroundings, nothing can be rejected. */
  lemma StopsInLockstep(x: Setup, w: World, w': World)
    requires InLockstep(x, w) && w'.runner == w.runner && !w'.watch.outcome.Running?
    requires w'.watch == w.watch || (w'.watch.outcome.Stopped? && Harmless(w'.watch.outcome.stop))
    ensures InLockstep(x, w')
  {
    hide Honest;
  }

  lemma ReceivingSendsNothing(w: Watch, pass: Pass)
    ensures Receive(w, pass.reading, pass.exit).sent == w.sent
  {
  }

  // ---------------------------------------------------------------- main results

  lemma StepInLockstep(x: Setup, w: World, e: Event)
    requires ValidSetup(x) && ValidEvent(e) && InLockstep(x, w)
    ensures InLockstep(x, Next(x, w, e))
  {
    hide InLockstep, Next;
    if e.Passes? {
      PassesInLockstep(x, w, e);
    } else if !w.watch.outcome.Running? {
      RunnerIdles(x, w, e);
    } else {
      match e
      case Calls(_, _) => CallsInLockstep(x, w, e);
      case CallsEffect(_, _) => EffectInLockstep(x, w, e);
      case Hears => HearsInLockstep(x, w);
      case Ends(_) => EndsInLockstep(x, w, e);
    }
  }

  lemma {:induction false} AlwaysInLockstep(x: Setup, events: seq<Event>)
    requires ValidSetup(x) && forall k | 0 <= k < |events| :: ValidEvent(events[k])
    ensures InLockstep(x, Reached(x, events))
  {
    if events != [] {
      hide InLockstep, Next;
      AlwaysInLockstep(x, events[..|events| - 1]);
      StepInLockstep(x, Reached(x, events[..|events| - 1]), events[|events| - 1]);
    }
  }

  // ---------------------------------------------------------------- the frames written

  /** The frames of the runner's end, once it has ended. */
  function FinalFrames(r: Runner): seq<ChildFrame> {
    if r.phase.Ended? then LastFrames(r.state, r.phase.engine) else []
  }

  /** One frame for every request and then the final ones, all of them acceptable; what the
      supervisor has not read is the rest of them. */
  ghost predicate WellWritten(x: Setup, w: World) {
    && |w.written| == |w.runner.asked| + |FinalFrames(w.runner)|
    && (forall i | 0 <= i < |w.written| :: Acceptable(x.chars, w.written[i]))
    && Unread(w.written, w.toParent)
  }

  predicate Unread(written: seq<ChildFrame>, rest: seq<ChildFrame>) {
    |rest| <= |written| && rest == written[|written| - |rest|..]
  }

  lemma StillUnread(written: seq<ChildFrame>, rest: seq<ChildFrame>, frames: seq<ChildFrame>)
    requires Unread(written, rest)
    ensures Unread(written + frames, rest + frames)
    ensures rest != [] ==> Unread(written, rest[1..])
  {
  }

  /** What any input makes of an honest runner and its frames. */
  lemma TakeWrites(x: Setup, r: Runner, input: Input)
    requires ValidSetup(x) && Honest(x, r) && ValidInput(input)
    ensures var (r', frames) := Take(x, r, input);
            && Honest(x, r')
            && |r'.asked| + |FinalFrames(r')| == |r.asked| + |FinalFrames(r)| + |frames|
            && (forall i | 0 <= i < |frames| :: Acceptable(x.chars, frames[i]))
  {
    match input
    case Made(call, memory) =>
      HonestCall(x, r, call, memory);
    case MadeEffect(c, memory) =>
      HonestEffect(x, r, c, memory);
      EffectSteps(x, r, c, memory);
      RequestFrame(x, r, c, memory);
      IdsSmall(x, r);
      hide Honest, EffectStep, LastFrames, Acceptable;
    case Arrived(response) =>
      HonestHear(x, r, response);
      LastAcceptable(x, HearStep(x, r, response).0);
      if r.phase.Awaiting? {
        PairedAwaiting(x, r);
        HearSteps(x, r, response);
        hide Honest, HearStep, LastFrames, Acceptable;
      }
    case Over(engine) =>
      HonestEnd(x, r, engine);
      LastAcceptable(x, EndStep(x, r, engine).0);
      hide Honest, LastFrames, Acceptable;
  }

  lemma RequestFrame(x: Setup, r: Runner, c: EffectCall, memory: Memory)
    requires ValidSetup(x) && EffectArguments(c)
    ensures var frames := EffectStep(x, r, c, memory).1;
            forall i | 0 <= i < |frames| :: Acceptable(x.chars, frames[i])
  {
    EffectEffects(x, r.state, c, memory);
    hide Begin;
  }

  lemma LastAcceptable(x: Setup, r: Runner)
    requires ValidSetup(x) && Honest(x, r)
    ensures var frames := FinalFrames(r);
            |frames| <= |r.state.logs| + 1 && forall i | 0 <= i < |frames| :: Acceptable(x.chars, frames[i])
  {
    if r.phase.Ended? {
      forall i | 0 <= i < |LastFrames(r.state, r.phase.engine)|
        ensures Acceptable(x.chars, LastFrames(r.state, r.phase.engine)[i])
      {
        LastFrameAt(x, r, r.phase.engine, i);
      }
    }
  }

  /** What the runner makes of an event, if it is for the runner. */
  function InputOf(w: World, e: Event): seq<Input> {
    match e
    case Calls(call, memory) => [Made(call, memory)]
    case CallsEffect(c, memory) => [MadeEffect(c, memory)]
    case Hears => if w.toChild == [] || !w.runner.phase.Awaiting? then [] else [Input.Arrived(w.toChild[0])]
    case Ends(engine) => [Over(engine)]
    case Passes(_, _) => []
  }

  lemma RunnerTakes(x: Setup, w: World, e: Event)
    requires ValidEvent(e)
    ensures forall i | 0 <= i < |InputOf(w, e)| :: ValidInput(InputOf(w, e)[i])
    ensures var w' := Next(x, w, e);
            if InputOf(w, e) == [] then
              w'.runner == w.runner && w'.written == w.written
              && (w'.toParent == w.toParent || (w.toParent != [] && w'.toParent == w.toParent[1..]))
            else
              var (r, frames) := Take(x, w.runner, InputOf(w, e)[0]);
              w'.runner == r && w'.written == w.written + frames && w'.toParent == w.toParent + frames
  {
    hide HostCall, EffectStep, HearStep, EndStep, Iterate;
    assert w.written + [] == w.written && w.toParent + [] == w.toParent;
  }

  lemma StepWrites(x: Setup, w: World, e: Event)
    requires ValidSetup(x) && ValidEvent(e) && Honest(x, w.runner) && WellWritten(x, w)
    ensures Honest(x, Next(x, w, e).runner) && WellWritten(x, Next(x, w, e))
  {
    RunnerTakes(x, w, e);
    hide Next, Honest, Take, Acceptable, FinalFrames, WellWritten;
    if InputOf(w, e) != [] {
      TakeWrites(x, w.runner, InputOf(w, e)[0]);
      WritesOn(x, w, Next(x, w, e), Take(x, w.runner, InputOf(w, e)[0]).1);
    } else {
      ReadsOn(x, w, Next(x, w, e));
    }
  }

  lemma WritesOn(x: Setup, w: World, w': World, frames: seq<ChildFrame>)
    requires WellWritten(x, w) && w'.written == w.written + frames && w'.toParent == w.toParent + frames
    requires |w'.runner.asked| + |FinalFrames(w'.runner)| == |w.runner.asked| + |FinalFrames(w.runner)| + |frames|
    requires forall i | 0 <= i < |frames| :: Acceptable(x.chars, frames[i])
    ensures WellWritten(x, w')
  {
    hide Acceptable, FinalFrames, Unread;
    StillUnread(w.written, w.toParent, frames);
  }

  lemma ReadsOn(x: Setup, w: World, w': World)
    requires WellWritten(x, w) && w'.runner == w.runner && w'.written == w.written
    requires w'.toParent == w.toParent || (w.toParent != [] && w'.toParent == w.toParent[1..])
    ensures WellWritten(x, w')
  {
    hide Acceptable, FinalFrames, Unread;
    StillUnread(w.written, w.toParent, []);
  }

  /** In every reachable world, however the supervisor's loop stands: at most 65 frames have been
      written, read_child accepts each of them, and the pipe holds those not yet read. */
  lemma {:induction false} HonestFrames(x: Setup, events: seq<Event>)
    requires ValidSetup(x) && forall k | 0 <= k < |events| :: ValidEvent(events[k])
    ensures Honest(x, Reached(x, events).runner) && WellWritten(x, Reached(x, events))
    ensures |Reached(x, events).written| <= 65
  {
    if events != [] {
      HonestFrames(x, events[..|events| - 1]);
      StepWrites(x, Reached(x, events[..|events| - 1]), events[|events| - 1]);
    }
    IdsSmall(x, Reached(x, events).runner);
    LastAcceptable(x, Reached(x, events).runner);
    hide Honest, Next, FinalFrames, Acceptable;
  }

  /** The runner's inputs among the events, with the responses that reached it. */
  function Inputs(x: Setup, events: seq<Event>): seq<Input>
    requires forall k | 0 <= k < |events| :: ValidEvent(events[k])
  {
    if events == [] then []
    else
      var before := events[..|events| - 1];
      Inputs(x, before) + InputOf(Reached(x, before), events[|events| - 1])
  }

  /** The runner's side of every reachable world is a run of the runner's objects: its state is
      where its inputs lead, and what it has written is what they write. */
  lemma {:induction false} RunnerPlays(x: Setup, events: seq<Event>)
    requires forall k | 0 <= k < |events| :: ValidEvent(events[k])
    ensures forall k | 0 <= k < |Inputs(x, events)| :: ValidInput(Inputs(x, events)[k])
    ensures Played(x, Inputs(x, events)) == (Reached(x, events).runner, Reached(x, events).written)
  {
    if events != [] {
      var before, last := events[..|events| - 1], events[|events| - 1];
      RunnerPlays(x, before);
      var w := Reached(x, before);
      RunnerTakes(x, w, last);
      hide Take, Next;
      var inputs := Inputs(x, events);
      if InputOf(w, last) == [] {
        assert inputs == Inputs(x, before);
      } else {
        assert inputs[..|inputs| - 1] == Inputs(x, before);
      }
    }
  }

  /** An honest runner is never rejected: in no interleaving does the supervisor find a frame out
      of sequence or one that read_child refuses, a second dispatch or a malformed response; and
      the runner writes at most 65 frames. */
  lemma HonestNeverRejected(x: Setup, events: seq<Event>)
    requires ValidSetup(x) && forall k | 0 <= k < |events| :: ValidEvent(events[k])
    ensures var outcome := Reached(x, events).watch.outcome;
            outcome.Stopped? ==> Harmless(outcome.stop)
    ensures Reached(x, events).watch.outcome.Running? ==> Reached(x, events).watch.order.messages <= 65
    ensures |Reached(x, events).written| <= 65
    ensures forall i | 0 <= i < |Reached(x, events).written| :: Acceptable(x.chars, Reached(x, events).written[i])
  {
    AlwaysInLockstep(x, events);
    HonestFrames(x, events);
    var w := Reached(x, events);
    IdsSmall(x, w.runner);
    hide Reached, Honest, InStep, Acceptable;
    if w.watch.outcome.Running? && w.runner.phase.Ended? {
      hide LastFrames;
    }
  }

  predicate OrdinalDispatched(w: World, o: int) {
    exists i | 0 <= i < |w.watch.dispatched| :: w.watch.dispatched[i].ordinal == o
  }

  /** What success means: the broker committed every effect it was asked for, with matching
      ordinal and project; their ordinals are exactly 0 to k-1 for a k within max_effects; and
      output and logs are the guest's. */
  lemma SuccessMeans(x: Setup, events: seq<Event>) returns (k: int)
    requires ValidSetup(x) && forall i | 0 <= i < |events| :: ValidEvent(events[i])
    requires Reached(x, events).watch.outcome.Success?
    ensures 0 <= k <= x.maxEffects
    ensures var w := Reached(x, events);
            && |w.watch.answers| == |w.watch.dispatched|
            && (forall i | 0 <= i < |w.watch.dispatched| ::
                  && w.watch.answers[i].Ok?
                  && w.watch.answers[i].value.ordinal == w.watch.dispatched[i].ordinal
                  && w.watch.answers[i].value.project == w.watch.dispatched[i].project
                  && |w.watch.answers[i].value.ticket| > 0)
            && (forall i | 0 <= i < |w.watch.dispatched| :: 0 <= w.watch.dispatched[i].ordinal < k)
            && (forall o | 0 <= o < k :: OrdinalDispatched(w, o))
            && w.watch.outcome == Success(w.runner.state.output, w.runner.state.logs)
  {
    AlwaysInLockstep(x, events);
    hide Reached;
    var w := Reached(x, events);
    k := w.runner.state.nextOrdinal;
    forall i | 0 <= i < |w.watch.dispatched|
      ensures w.watch.answers[i].Ok?
      ensures w.watch.answers[i].value.ordinal == w.watch.dispatched[i].ordinal
      ensures w.watch.answers[i].value.project == w.watch.dispatched[i].project
      ensures |w.watch.answers[i].value.ticket| > 0
      ensures 0 <= w.watch.dispatched[i].ordinal < k
    {
      assert ValidRequest(w.runner.asked[i], x.chars(w.runner.asked[i].title));
      assert w.runner.heard[i] == Relay(w.watch.answers[i]);
    }
    forall o | 0 <= o < k ensures OrdinalDispatched(w, o) {
      assert AskedFor(w.runner, o);
    }
  }

  // ---------------------------------------------------------------- where the output comes from

  /** The event is a call that writes these bytes of the guest's memory as its output. */
  predicate WritesOutput(e: Event, output: seq<byte>) {
    && e.Calls? && e.call.OutputWrite? && e.call.len == |output|
    && e.memory.Some? && Inside(e.memory, e.call.ptr, e.call.len)
    && forall i | 0 <= i < |output| :: output[i] == ByteAt(e.memory.value, e.call.ptr, i)
  }

  lemma OutputStep(x: Setup, w: World, e: Event)
    requires ValidSetup(x) && ValidEvent(e)
    ensures var output := Next(x, w, e).runner.state.output;
            output == w.runner.state.output || (output.Some? && WritesOutput(e, output.value))
  {
    hide Iterate;
    match e
    case Calls(call, memory) =>
      OutputCall(x, w.runner.state, call, memory);
      hide HostCall;
    case CallsEffect(c, memory) =>
      EffectEffects(x, w.runner.state, c, memory);
      hide Begin;
    case _ =>
  }

  lemma OutputCall(x: Setup, s: State, call: Call, memory: Memory)
    requires ValidSetup(x) && Arguments(call)
    ensures var output := HostCall(x, s, call, memory).0.output;
            output == s.output || (output.Some? && WritesOutput(Calls(call, memory), output.value))
  {
    if call.OutputWrite? {
      OutputExactly(x, s, memory, call.ptr, call.len);
      hide HostCall;
    }
  }

  /** In every reachable world the guest's output is what one of its calls named: that many bytes
      of its memory at that call, from the address it gave. */
  lemma {:induction false} OutputWasWritten(x: Setup, events: seq<Event>) returns (k: nat)
    requires ValidSetup(x) && forall k | 0 <= k < |events| :: ValidEvent(events[k])
    requires Reached(x, events).runner.state.output.Some?
    ensures k < |events| && events[k].Calls? && events[k].call.OutputWrite? && events[k].memory.Some?
    ensures var output, e := Reached(x, events).runner.state.output.value, events[k];
            && |output| == e.call.len && Inside(e.memory, e.call.ptr, e.call.len)
            && forall i | 0 <= i < |output| :: output[i] == ByteAt(e.memory.value, e.call.ptr, i)
  {
    var before := events[..|events| - 1];
    OutputStep(x, Reached(x, before), events[|events| - 1]);
    if Reached(x, events).runner.state.output == Reached(x, before).runner.state.output {
      k := OutputWasWritten(x, before);
    } else {
      k := |events| - 1;
    }
    hide Next;
  }

  // ---------------------------------------------------------------- nothing after the end

  /** The output is written or a call has failed. */
  predicate CallsOver(s: State) {
    s.output.Some? || s.sticky.Some?
  }

  lemma SettledStep(x: Setup, w: World, e: Event)
    requires ValidEvent(e) && CallsOver(w.runner.state)
    ensures CallsOver(Next(x, w, e).runner.state) && Next(x, w, e).runner.asked == w.runner.asked
  {
    hide Iterate;
    if e.CallsEffect? {
      DispatchComesFirst(x, w.runner, e.effect, e.memory);
    }
  }

  /** Once the guest has written its output, or any call has failed, it never asks the broker for
      anything again. */
  lemma {:induction false} NothingAskedAfter(x: Setup, events: seq<Event>, i: nat)
    requires i <= |events| && forall k | 0 <= k < |events| :: ValidEvent(events[k])
    requires CallsOver(Reached(x, events[..i]).runner.state)
    ensures CallsOver(Reached(x, events).runner.state)
    ensures Reached(x, events).runner.asked == Reached(x, events[..i]).runner.asked
    decreases |events|
  {
    hide Next;
    if i == |events| {
      assert events[..i] == events;
    } else {
      var before := events[..|events| - 1];
      assert before[..i] == events[..i];
      NothingAskedAfter(x, before, i);
      SettledStep(x, Reached(x, before), events[|events| - 1]);
    }
  }
}

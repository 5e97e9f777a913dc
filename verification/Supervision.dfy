/** The supervisor's main loop (Supervisor::run in runtime/supervisor.rs). What a pass of the
    loop finds (lease, clock, broker, pipe, process) is its input, so any child is covered. */
module Supervision {
  import opened Bytes
  import opened Domain
  import opened Abi
  import opened Ipc

  datatype LeaseState = Current | CancelRequested | Lost

  datatype BrokerError = BrokerCancelled | BrokerLeaseLost | EffectFailed(failure: Failure)

  type Answer = Result<Reply, BrokerError>

  /** What the broker's channel holds: nothing yet, nothing ever, or the answer. */
  datatype Mail = Empty | Disconnected | Arrived(answer: Answer)

  /** What the child's pipe yields within the poll interval: nothing, its end, a fault of the pipe,
      a frame that read_child refuses for its form, or a frame. */
  datatype Reading = Quiet | Closed | Broken | Refused | Got(frame: ChildFrame)

  /** How the bounded wait for the child ends. */
  datatype Exit = Exited(success: bool) | StillThere | NotCleaned

  datatype Rejecter = WhenObserving | WhenResponding | WhileDispatching

  datatype Stop =
    | LeaseLost | Cancelled | Deadline | BrokerResponse | OutOfSequence(rejecter: Rejecter) | BadMessage | BadFrame | Unreadable
    | WriteFailed | RunnerFailure(code: Text) | ChildExit | NoExit

  datatype Outcome = Running | Success(output: Option<seq<byte>>, logs: seq<Text>) | Stopped(stop: Stop)

  /** One pass: `written` is the fault of sending a response, if it fails. */
  datatype Pass = Pass(lease: LeaseState, late: bool, mail: Mail, written: Option<Stop>, reading: Reading, exit: Exit)

  /** A fault of the surroundings, not of the message order. */
  predicate Environmental(p: Pass) {
    p.written.Some? ==>
      var stop := p.written.value;
      stop == LeaseLost || stop == Cancelled || stop == Deadline || stop == WriteFailed
  }

  /** The loop's variables; `outstanding` is the broker call in progress, and the last three
      record what was dispatched, answered and sent. */
  datatype Watch = Watch(
    order: Order, dispatchPending: bool, outstanding: Option<(int, EffectRequest)>, logs: seq<Text>, outcome: Outcome,
    dispatched: seq<EffectRequest>, answers: seq<Answer>, sent: seq<Response>)

  function Begun(logCap: int): Watch {
    Watch(Start(logCap), false, None, [], Running, [], [], [])
  }

  /** dispatch_code. */
  function DispatchNumber(f: Failure): int {
    match f
    case DeniedByPolicy => -3
    case LeftUnresolved => -4
    case Diverged => -5
    case NotAvailable => -7
  }

  function Halt(w: Watch, stop: Stop): Watch {
    w.(outcome := Stopped(stop))
  }

  function SendVerdict(w: Watch, id: int, verdict: Verdict, written: Option<Stop>): Watch {
    match Responded(w.order, Response(id, verdict))
    case Err(Message) => Halt(w, BadMessage)
    case Err(Sequence) => Halt(w, OutOfSequence(WhenResponding))
    case Ok(q) =>
      if written.Some? then Halt(w.(order := q), written.value)
      else w.(order := q, sent := w.sent + [Response(id, verdict)])
  }

  /** Hand the broker's answer to the child. */
  function Deliver(w: Watch, mail: Mail, written: Option<Stop>): Watch {
    if !w.dispatchPending || w.outstanding.None? || mail.Empty? then w
    else if mail.Disconnected? then Halt(w, BrokerResponse)
    else
      var (id, request) := w.outstanding.value;
      var w' := w.(dispatchPending := false, outstanding := None, answers := w.answers + [mail.answer]);
      match mail.answer
      case Ok(reply) =>
        if Answers(reply, request) then SendVerdict(w', id, Committed(reply), written) else Halt(w', BrokerResponse)
      case Err(BrokerCancelled) => Halt(w', Cancelled)
      case Err(BrokerLeaseLost) => Halt(w', LeaseLost)
      case Err(EffectFailed(failure)) => SendVerdict(w', id, Failed(DispatchNumber(failure)), written)
  }

  function Conclude(w: Watch, output: Option<seq<byte>>, code: Option<Text>, exit: Exit): Watch {
    if exit.StillThere? then Halt(w, NoExit)
    else if exit.Exited? && !exit.success then Halt(w, ChildExit)
    else if code.Some? then Halt(w, RunnerFailure(code.value))
    else if exit.NotCleaned? then Halt(w, NoExit)
    else w.(outcome := Success(output, w.logs))
  }

  /** Take a frame from the child. */
  function Receive(w: Watch, reading: Reading, exit: Exit): Watch {
    match reading
    case Quiet => w
    case Closed => Halt(w, if exit.StillThere? then NoExit else ChildExit)
    case Broken => Halt(w, Unreadable)
    case Refused => Halt(w, BadFrame)
    case Got(frame) =>
      if Observed(w.order, frame).None? then Halt(w, OutOfSequence(WhenObserving))
      else
        var w' := w.(order := Observed(w.order, frame).value);
        match frame
        case EffectFrame(id, request) =>
          if w.dispatchPending then Halt(w', OutOfSequence(WhileDispatching))
          else w'.(dispatchPending := true, outstanding := Some((id, request)), dispatched := w.dispatched + [request])
        case LogFrame(message) => w'.(logs := w.logs + [message])
        case FinishFrame(output, code) =>
          if w.dispatchPending then Halt(w', OutOfSequence(WhileDispatching)) else Conclude(w', output, code, exit)
  }

  function Iterate(w: Watch, p: Pass): Watch {
    if !w.outcome.Running? then w
    else if p.lease.CancelRequested? then Halt(w, Cancelled)
    else if p.lease.Lost? then Halt(w, LeaseLost)
    else if p.late then Halt(w, Deadline)
    else
      var w' := Deliver(w, p.mail, p.written);
      if w'.outcome.Running? then Receive(w', p.reading, p.exit) else w'
  }

  function Watched(logCap: int, passes: seq<Pass>): Watch {
    if passes == [] then Begun(logCap)
    else Iterate(Watched(logCap, passes[..|passes| - 1]), passes[|passes| - 1])
  }

  // ---------------------------------------------------------------- any child

  /** At the head of the loop a dispatch is pending exactly when the message order awaits a
      response, and then to the request the broker holds. */
  predicate InStep(w: Watch) {
    w.outcome.Running? ==>
      && (w.dispatchPending <==> w.order.pending.Some?)
      && (w.dispatchPending <==> w.outstanding.Some?)
      && (w.outstanding.Some? ==> w.order.pending == Some(w.outstanding.value.0))
  }

  /** Only a child's frame can be out of sequence, and only at the observer. */
  predicate OnlyObserverRejects(outcome: Outcome) {
    outcome.Stopped? ==>
      outcome.stop != BadMessage && (outcome.stop.OutOfSequence? ==> outcome.stop.rejecter.WhenObserving?)
  }

  lemma DeliverInStep(w: Watch, p: Pass)
    requires w.outcome.Running? && InStep(w) && Environmental(p)
    ensures var w' := Deliver(w, p.mail, p.written); InStep(w') && OnlyObserverRejects(w'.outcome)
  {
  }

  lemma ReceiveInStep(w: Watch, p: Pass)
    requires w.outcome.Running? && InStep(w)
    ensures var w' := Receive(w, p.reading, p.exit); InStep(w') && OnlyObserverRejects(w'.outcome)
  {
  }

  lemma IterateInStep(w: Watch, p: Pass)
    requires InStep(w) && OnlyObserverRejects(w.outcome) && Environmental(p)
    ensures InStep(Iterate(w, p)) && OnlyObserverRejects(Iterate(w, p).outcome)
  {
    hide Deliver, Receive;
    if w.outcome.Running? {
      DeliverInStep(w, p);
      var w' := Deliver(w, p.mail, p.written);
      if w'.outcome.Running? {
        ReceiveInStep(w', p);
      }
    }
  }

  /** Whatever the child sends, the two rejections of a second dispatch are unreachable, and the
      supervisor's own responses are never out of sequence or malformed. */
  lemma {:induction false} AnyChildInStep(logCap: int, passes: seq<Pass>)
    requires forall k | 0 <= k < |passes| :: Environmental(passes[k])
    ensures InStep(Watched(logCap, passes)) && OnlyObserverRejects(Watched(logCap, passes).outcome)
  {
    if passes != [] {
      AnyChildInStep(logCap, passes[..|passes| - 1]);
      IterateInStep(Watched(logCap, passes[..|passes| - 1]), passes[|passes| - 1]);
    }
  }

  /** Response i answers request i and, if it commits it, agrees with it. */
  predicate ResponseFits(response: Response, request: EffectRequest, i: int) {
    && response.id == i + 1
    && match response.verdict
       case Committed(reply) => reply.ordinal == request.ordinal && reply.project == request.project && |reply.ticket| > 0
       case Failed(number) => number == -3 || number == -4 || number == -5 || number == -7
  }

  /** What the loop has sent and taken so far, whatever the child is. */
  predicate Accounted(logCap: int, w: Watch) {
    && |w.sent| <= |w.dispatched| && Total(w.logs) <= logCap && |w.dispatched| + |w.logs| <= 128
    && (forall i | 0 <= i < |w.sent| :: ResponseFits(w.sent[i], w.dispatched[i], i))
    && (w.outcome.Running? ==>
          && !w.order.finished && w.order.logCap == logCap && w.order.logBytes == Total(w.logs)
          && w.order.messages == |w.dispatched| + |w.logs| && w.order.nextId == |w.dispatched| + 1
          && |w.dispatched| == |w.sent| + (if w.outstanding.Some? then 1 else 0)
          && (w.outstanding.Some? ==> w.outstanding.value == (|w.dispatched|, w.dispatched[|w.dispatched| - 1])))
  }

  lemma DeliverAccounted(logCap: int, w: Watch, p: Pass)
    requires w.outcome.Running? && InStep(w) && Accounted(logCap, w)
    ensures Accounted(logCap, Deliver(w, p.mail, p.written))
  {
    hide Total;
    if p.mail.Arrived? && w.dispatchPending && w.outstanding.Some? {
      var (id, request) := w.outstanding.value;
      var w' := w.(dispatchPending := false, outstanding := None, answers := w.answers + [p.mail.answer]);
      var answer := p.mail.answer;
      if answer.Ok? && Answers(answer.value, request) {
        SendAccounted(logCap, w, w', id, request, Committed(answer.value), p.written);
      } else if answer.Err? && answer.error.EffectFailed? {
        SendAccounted(logCap, w, w', id, request, Failed(DispatchNumber(answer.error.failure)), p.written);
      }
    }
    hide SendVerdict, ResponseFits, Answers, DispatchNumber;
  }

  lemma SendAccounted(logCap: int, w: Watch, w': Watch, id: int, request: EffectRequest, verdict: Verdict,
                      written: Option<Stop>)
    requires Accounted(logCap, w) && w.outcome.Running? && InStep(w) && w.outstanding == Some((id, request))
    requires w' == w.(dispatchPending := false, outstanding := None, answers := w'.answers)
    requires ResponseFits(Response(id, verdict), request, id - 1)
    ensures Accounted(logCap, SendVerdict(w', id, verdict, written))
  {
    hide Total, ResponseFits;
  }

  lemma TotalSnoc(logs: seq<Text>, message: Text)
    ensures Total(logs + [message]) == Total(logs) + |message|
  {
    assert (logs + [message])[..|logs|] == logs;
  }

  lemma ReceiveAccounted(logCap: int, w: Watch, p: Pass)
    requires w.outcome.Running? && InStep(w) && Accounted(logCap, w)
    ensures Accounted(logCap, Receive(w, p.reading, p.exit))
  {
    hide ResponseFits;
    if p.reading.Got? && p.reading.frame.LogFrame? {
      TotalSnoc(w.logs, p.reading.frame.message);
    }
    hide Total;
  }

  lemma IterateAccounted(logCap: int, w: Watch, p: Pass)
    requires InStep(w) && OnlyObserverRejects(w.outcome) && Environmental(p) && Accounted(logCap, w)
    ensures Accounted(logCap, Iterate(w, p))
  {
    hide Deliver, Receive, ResponseFits, Total;
    if w.outcome.Running? {
      DeliverInStep(w, p);
      DeliverAccounted(logCap, w, p);
      var w' := Deliver(w, p.mail, p.written);
      if w'.outcome.Running? {
        ReceiveAccounted(logCap, w', p);
      }
    }
  }

  /** For any child: response i goes to request i, and one that commits it has the request's ordinal
      and project and a ticket; at most 128 requests and logs are taken, and no more log bytes than
      the cap. */
  lemma {:induction false} AnyChildAccounted(logCap: int, passes: seq<Pass>)
    requires 0 <= logCap && forall k | 0 <= k < |passes| :: Environmental(passes[k])
    ensures var w := Watched(logCap, passes);
            && |w.sent| <= |w.dispatched| && Total(w.logs) <= logCap && |w.dispatched| + |w.logs| <= 128
            && (forall i | 0 <= i < |w.sent| ::
                  && w.sent[i].id == i + 1
                  && (w.sent[i].verdict.Committed? ==>
                        var reply, request := w.sent[i].verdict.reply, w.dispatched[i];
                        reply.ordinal == request.ordinal && reply.project == request.project && |reply.ticket| > 0))
    ensures Accounted(logCap, Watched(logCap, passes))
  {
    if passes != [] {
      var before := passes[..|passes| - 1];
      AnyChildAccounted(logCap, before);
      AnyChildInStep(logCap, before);
      IterateAccounted(logCap, Watched(logCap, before), passes[|passes| - 1]);
    }
    AccountedFits(logCap, Watched(logCap, passes));
    hide Accounted, Iterate, InStep;
  }

  lemma AccountedFits(logCap: int, w: Watch)
    requires Accounted(logCap, w)
    ensures |w.sent| <= |w.dispatched| && Total(w.logs) <= logCap && |w.dispatched| + |w.logs| <= 128
    ensures forall i | 0 <= i < |w.sent| ::
              && w.sent[i].id == i + 1
              && (w.sent[i].verdict.Committed? ==>
                    var reply, request := w.sent[i].verdict.reply, w.dispatched[i];
                    reply.ordinal == request.ordinal && reply.project == request.project && |reply.ticket| > 0)
  {
    hide Total;
    forall i | 0 <= i < |w.sent| ensures ResponseFits(w.sent[i], w.dispatched[i], i) {
    }
  }

  /** The frame comes when no request awaits its response and fewer than 128 requests and logs were
      taken; a request carries the next number and a log fits in the bytes left. */
  predicate MayCome(logCap: int, w: Watch, frame: ChildFrame) {
    && |w.sent| == |w.dispatched| && |w.dispatched| + |w.logs| < 128
    && match frame
       case EffectFrame(id, _) => id == |w.dispatched| + 1
       case LogFrame(message) => Total(w.logs) + |message| <= logCap
       case FinishFrame(_, _) => true
  }

  /** For any child, a frame stops the loop as out of sequence exactly when it may not come; a
      request that comes is dispatched and a log kept, and the loop goes on. */
  lemma TakenExactly(logCap: int, passes: seq<Pass>, p: Pass, frame: ChildFrame)
    requires 0 <= logCap && forall k | 0 <= k < |passes| :: Environmental(passes[k])
    requires Watched(logCap, passes).outcome.Running?
    requires p.lease.Current? && !p.late && p.mail.Empty? && p.reading == Got(frame)
    ensures var w := Watched(logCap, passes);
            var w' := Iterate(w, p);
            && (w'.outcome.Stopped? && w'.outcome.stop.OutOfSequence? <==> !MayCome(logCap, w, frame))
            && w'.dispatched ==
               w.dispatched + (if MayCome(logCap, w, frame) && frame.EffectFrame? then [frame.request] else [])
            && w'.logs == w.logs + (if MayCome(logCap, w, frame) && frame.LogFrame? then [frame.message] else [])
            && (MayCome(logCap, w, frame) && !frame.FinishFrame? ==> w'.outcome.Running?)
  {
    AnyChildInStep(logCap, passes);
    AnyChildAccounted(logCap, passes);
    hide Total, ResponseFits, Watched;
  }

  // ---------------------------------------------------------------- how the loop ends

  /** A pass that finds the lease lost, a cancellation or the deadline ends the loop at once: it
      sends, dispatches and takes nothing more. */
  lemma StopsAtOnce(w: Watch, p: Pass)
    requires w.outcome.Running? && (p.lease != Current || p.late)
    ensures var w' := Iterate(w, p);
            && w'.outcome.Stopped? && w'.sent == w.sent && w'.dispatched == w.dispatched && w'.logs == w.logs
            && (p.lease == CancelRequested ==> w'.outcome.stop == Cancelled)
            && (p.lease == Lost ==> w'.outcome.stop == LeaseLost)
            && (p.lease == Current ==> w'.outcome.stop == Deadline)
  {
  }

  /** The pass took a finish frame without a failure from a child that then exited cleanly. */
  predicate CleanFinish(p: Pass, output: Option<seq<byte>>) {
    && p.reading == Got(FinishFrame(output, None)) && p.exit == Exited(true) && p.lease == Current && !p.late
  }

  lemma SuccessIterate(w: Watch, p: Pass)
    requires InStep(w) && w.outcome.Running? && Iterate(w, p).outcome.Success?
    ensures CleanFinish(p, Iterate(w, p).outcome.output) && Iterate(w, p).outcome.logs == w.logs
    ensures Iterate(w, p).order.pending.None?
  {
    hide Answers, ValidResponse;
  }

  /** Success needs a clean end: some pass took a finish frame naming this very output and no
      failure, while the lease was current and in time, and the child exited with success. */
  lemma {:induction false} SuccessIsClean(logCap: int, passes: seq<Pass>) returns (k: nat)
    requires forall k | 0 <= k < |passes| :: Environmental(passes[k])
    requires Watched(logCap, passes).outcome.Success?
    ensures k < |passes| && Watched(logCap, passes[..k]).outcome.Running?
    ensures var outcome := Watched(logCap, passes).outcome;
            && passes[k].reading == Got(FinishFrame(outcome.output, None)) && passes[k].exit == Exited(true)
            && passes[k].lease == Current && !passes[k].late
            && outcome.logs == Watched(logCap, passes[..k]).logs
  {
    var before, last := passes[..|passes| - 1], passes[|passes| - 1];
    if Watched(logCap, before).outcome.Running? {
      k := |passes| - 1;
      AnyChildInStep(logCap, before);
      SuccessIterate(Watched(logCap, before), last);
    } else {
      k := SuccessIsClean(logCap, before);
      assert before[..k] == passes[..k];
    }
    hide Iterate, InStep;
  }

  // ---------------------------------------------------------------- the loop itself

  /** The outcome and the records agree, and while the loop runs so does everything else; the
      message order is not looked at again once the loop has ended. */
  predicate SameLoop(v: Watch, w: Watch) {
    && v.outcome == w.outcome && v.sent == w.sent && v.dispatched == w.dispatched
    && (w.outcome.Running? ==> v == w)
  }

  /** The local variables of the main loop and the two halves of its body. */
  class Loop {
    const sequence: ParentSequence
    var dispatchPending: bool
    var outstanding: Option<(int, EffectRequest)>
    var logs: seq<Text>
    var outcome: Outcome
    var dispatched: seq<EffectRequest>
    var sent: seq<Response>
    ghost var answers: seq<Answer>

    ghost function View(): Watch
      reads this, sequence
    {
      Watch(sequence.View(), dispatchPending, outstanding, logs, outcome, dispatched, answers, sent)
    }

    constructor (logCap: int)
      ensures View() == Begun(logCap) && fresh(sequence)
    {
      sequence := new ParentSequence(logCap);
      dispatchPending, outstanding, logs, outcome, dispatched, sent, answers := false, None, [], Running, [], [], [];
    }

    method Stop(stop: Stop)
      modifies this`outcome
      ensures outcome == Stopped(stop)
    {
      outcome := Stopped(stop);
    }

    method DeliverMail(mail: Mail, written: Option<Stop>)
      requires outcome.Running? && InStep(View())
      modifies this, sequence
      ensures SameLoop(View(), Deliver(old(View()), mail, written))
    {
      if !dispatchPending || mail.Empty? {
        return;
      }
      if mail.Disconnected? {
        Stop(BrokerResponse);
        return;
      }
      var (id, request) := outstanding.value;
      dispatchPending, outstanding := false, None;
      answers := answers + [mail.answer];
      var verdict: Verdict;
      match mail.answer {
        case Ok(reply) =>
          if !Answers(reply, request) {
            Stop(BrokerResponse);
            return;
          }
          verdict := Committed(reply);
        case Err(BrokerCancelled) =>
          Stop(Cancelled);
          return;
        case Err(BrokerLeaseLost) =>
          Stop(LeaseLost);
          return;
        case Err(EffectFailed(failure)) =>
          verdict := Failed(DispatchNumber(failure));
      }
      var responded := sequence.Respond(Response(id, verdict));
      assert responded.Ok?;
      if written.Some? {
        Stop(written.value);
        return;
      }
      sent := sent + [Response(id, verdict)];
    }

    /** The rejections while a dispatch is pending are where this asserts false. */
    method ReceiveFrame(reading: Reading, exit: Exit)
      requires outcome.Running? && InStep(View())
      modifies this, sequence
      ensures SameLoop(View(), Receive(old(View()), reading, exit))
    {
      match reading
      case Quiet =>
      case Closed =>
        Stop(if exit.StillThere? then NoExit else ChildExit);
      case Broken =>
        Stop(Unreadable);
      case Refused =>
        Stop(BadFrame);
      case Got(frame) =>
        var accepted := sequence.Observe(frame);
        if !accepted {
          Stop(OutOfSequence(WhenObserving));
          return;
        }
        match frame
        case EffectFrame(id, request) =>
          if dispatchPending {
            assert false;
          }
          dispatchPending, outstanding := true, Some((id, request));
          dispatched := dispatched + [request];
        case LogFrame(message) =>
          logs := logs + [message];
        case FinishFrame(output, code) =>
          if dispatchPending {
            assert false;
          }
          if exit.StillThere? {
            Stop(NoExit);
          } else if exit.Exited? && !exit.success {
            Stop(ChildExit);
          } else if code.Some? {
            Stop(RunnerFailure(code.value));
          } else if exit.NotCleaned? {
            Stop(NoExit);
          } else {
            outcome := Success(output, logs);
          }
    }

    /** One pass of the loop. */
    method Pass(p: Pass)
      requires outcome.Running? && InStep(View()) && Environmental(p)
      modifies this, sequence
      ensures SameLoop(View(), Iterate(old(View()), p)) && InStep(View())
    {
      IterateInStep(View(), p);
      hide Deliver, Receive;
      if p.lease.CancelRequested? {
        Stop(Cancelled);
      } else if p.lease.Lost? {
        Stop(LeaseLost);
      } else if p.late {
        Stop(Deadline);
      } else {
        DeliverInStep(View(), p);
        DeliverMail(p.mail, p.written);
        if outcome.Running? {
          ReceiveFrame(p.reading, p.exit);
        }
      }
    }
  }

  /** The main loop: passes until one of them ends it. */
  method Supervise(logCap: int, passes: seq<Pass>)
    returns (outcome: Outcome, sent: seq<Response>, dispatched: seq<EffectRequest>)
    requires forall k | 0 <= k < |passes| :: Environmental(passes[k])
    ensures var w := Watched(logCap, passes);
            outcome == w.outcome && sent == w.sent && dispatched == w.dispatched
  {
    var loop := new Loop(logCap);
    hide Iterate, InStep;
    InStepAtFirst(logCap);
    for k := 0 to |passes|
      invariant loop.outcome.Running? && InStep(loop.View())
      invariant loop.View() == Watched(logCap, passes[..k])
    {
      assert passes[..k + 1][..k] == passes[..k];
      loop.Pass(passes[k]);
      if !loop.outcome.Running? {
        StaysStopped(logCap, passes, k + 1);
        return loop.outcome, loop.sent, loop.dispatched;
      }
    }
    assert passes[..|passes|] == passes;
    return loop.outcome, loop.sent, loop.dispatched;
  }

  lemma InStepAtFirst(logCap: int)
    ensures InStep(Begun(logCap))
  {
  }

  /** Once the loop has ended its result stands. */
  lemma {:induction false} StaysStopped(logCap: int, passes: seq<Pass>, k: nat)
    requires k <= |passes| && !Watched(logCap, passes[..k]).outcome.Running?
    ensures Watched(logCap, passes) == Watched(logCap, passes[..k])
    decreases |passes| - k
  {
    if k == |passes| {
      assert passes[..k] == passes;
    } else {
      assert passes[..k + 1][..k] == passes[..k];
      StaysStopped(logCap, passes, k + 1);
    }
  }
}

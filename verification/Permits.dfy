/** Cleanup permits (ReapPermit, RunnerChild and the reaper thread of runtime/supervisor.rs):
    every runner reserves one of eight permits before its process starts, and the permit
    follows the process until it has been waited for. */
module Permits {
  import opened Collections

  const CAPACITY := 8

  datatype RunnerChild = RunnerChild(child: bool, armed: bool, permit: bool)

  /** `live` is the atomic counter. Runners are named by numbers; a job in hand has been built by
      kill_tree and not yet been sent. A fault is a panic or an abort. */
  datatype Pool = Pool(
    live: int, spawning: set<nat>, runners: map<nat, RunnerChild>, inHand: set<nat>, queue: seq<nat>, active: set<nat>,
    fault: bool)

  const Idle := Pool(0, {}, map[], {}, [], {}, false)

  /** One atomic step of some thread. */
  datatype Step =
    | Reserve(id: nat)
    | SpawnFails(id: nat)
    | Spawns(id: nat)
    | Disarms(id: nat)
    | KillTree(id: nat, exited: bool)
    | TrySend(id: nat)
    | Drops(id: nat)
    | Takes
    | Reaps(id: nat)

  predicate Unused(p: Pool, id: nat) {
    id !in p.spawning && id !in p.runners && id !in p.inHand && id !in p.queue && id !in p.active
  }

  /** A step that is not possible where it is tried changes nothing. */
  function After(p: Pool, step: Step): Pool {
    match step
    case Reserve(id) =>
      if !Unused(p, id) || p.live >= CAPACITY then p else p.(live := p.live + 1, spawning := p.spawning + {id})
    case SpawnFails(id) =>
      if id !in p.spawning then p else p.(live := p.live - 1, spawning := p.spawning - {id})
    case Spawns(id) =>
      if id !in p.spawning then p
      else p.(spawning := p.spawning - {id}, runners := p.runners[id := RunnerChild(true, true, true)])
    case Disarms(id) =>
      if id !in p.runners then p else p.(runners := p.runners[id := p.runners[id].(armed := false)])
    case KillTree(id, exited) =>
      if id !in p.runners || !p.runners[id].child then p
      else if exited then p.(runners := p.runners[id := p.runners[id].(child := false)])
      else if !p.runners[id].permit then p.(fault := true)
      else p.(runners := p.runners[id := p.runners[id].(child := false, permit := false)], inHand := p.inHand + {id})
    case TrySend(id) =>
      if id !in p.inHand then p
      else if |p.queue| >= CAPACITY then p.(fault := true)
      else p.(inHand := p.inHand - {id}, queue := p.queue + [id])
    case Drops(id) =>
      if id !in p.runners || (p.runners[id].armed && p.runners[id].child) then p
      else p.(live := if p.runners[id].permit then p.live - 1 else p.live, runners := p.runners - {id})
    case Takes =>
      if p.queue == [] || |p.active| >= CAPACITY then p
      else p.(queue := p.queue[1..], active := p.active + {p.queue[0]})
    case Reaps(id) =>
      if id !in p.active then p else p.(live := p.live - 1, active := p.active - {id})
  }

  // ---------------------------------------------------------------- the invariant

  /** Runners that still hold their permit. */
  function Holders(runners: map<nat, RunnerChild>): set<nat> {
    set id | id in runners && runners[id].permit
  }

  /** The one place where a permit may be, runner by runner. */
  predicate OnePlace(p: Pool, id: nat) {
    && (id in p.spawning ==> id !in p.runners && id !in p.inHand && id !in p.queue && id !in p.active)
    && (id in Holders(p.runners) ==> id !in p.inHand && id !in p.queue && id !in p.active)
    && (id in p.inHand ==> id !in p.queue && id !in p.active)
    && (id in p.queue ==> id !in p.active)
    && (id in p.runners && p.runners[id].child ==> p.runners[id].permit)
  }

  /** Everyone with a permit. */
  function Permitted(p: Pool): set<nat> {
    p.spawning + Holders(p.runners) + p.inHand + Elements(p.queue) + p.active
  }

  /** The counter is the number of permits that starting and live runners, jobs in hand, queued
      and active jobs hold between them, at most eight; each permit is in one place, and a
      runner that still has its child has its permit. */
  ghost predicate Conserved(p: Pool) {
    && p.live == |Permitted(p)| <= CAPACITY
    && (forall id: nat :: OnePlace(p, id))
    && Distinct(p.queue)
  }

  /** Who has a permit after a step. */
  function PermittedAfter(p: Pool, step: Step): set<nat> {
    match step
    case Reserve(id) => if !Unused(p, id) || p.live >= CAPACITY then Permitted(p) else Permitted(p) + {id}
    case SpawnFails(id) => if id in p.spawning then Permitted(p) - {id} else Permitted(p)
    case Drops(id) =>
      if id in p.runners && !(p.runners[id].armed && p.runners[id].child) && p.runners[id].permit then Permitted(p) - {id}
      else Permitted(p)
    case Reaps(id) => if id in p.active then Permitted(p) - {id} else Permitted(p)
    case _ => Permitted(p)
  }

  lemma PermitsMove(p: Pool, step: Step)
    requires (forall id: nat :: OnePlace(p, id)) && !After(p, step).fault
    ensures Permitted(After(p, step)) == PermittedAfter(p, step)
  {
    var p' := After(p, step);
    forall x: nat ensures x in Permitted(p') <==> x in PermittedAfter(p, step) {
      assert OnePlace(p, x);
      QueueMoves(p, step, x);
    }
  }

  lemma QueueMoves(p: Pool, step: Step, x: nat)
    ensures x in After(p, step).queue ==> x in p.queue || step == TrySend(x)
    ensures x in p.queue ==> x in After(p, step).queue || (step.Takes? && p.queue != [] && x == p.queue[0])
    ensures step == TrySend(x) && x in p.inHand && |p.queue| < CAPACITY ==> x in After(p, step).queue
  {
    if step.Takes? && p.queue != [] {
      assert p.queue == [p.queue[0]] + p.queue[1..];
    }
  }

  lemma PlacesKept(p: Pool, step: Step, x: nat)
    requires OnePlace(p, x) && Distinct(p.queue) && !After(p, step).fault
    ensures OnePlace(After(p, step), x)
  {
    QueueMoves(p, step, x);
  }

  lemma QueueStaysDistinct(p: Pool, step: Step)
    requires (forall id: nat :: OnePlace(p, id)) && Distinct(p.queue)
    ensures Distinct(After(p, step).queue)
  {
    if step.TrySend? {
      assert OnePlace(p, step.id);
    }
  }

  /** No fault: the queue has room for a job in hand, and a runner with its child has its permit. */
  lemma NeverFaults(p: Pool, step: Step)
    requires Conserved(p) && !p.fault
    ensures !After(p, step).fault
  {
    match step
    case KillTree(id, _) => assert OnePlace(p, id);
    case TrySend(id) =>
      if id in p.inHand {
        RoomInQueue(p, id);
      }
    case _ =>
  }

  lemma RoomInQueue(p: Pool, id: nat)
    requires Conserved(p) && id in p.inHand
    ensures |p.queue| < CAPACITY
  {
    CountsDistinct(p.queue);
    assert OnePlace(p, id);
    SubsetSize(Elements(p.queue), Permitted(p) - {id});
  }

  lemma StepConserves(p: Pool, step: Step)
    requires Conserved(p) && !p.fault
    ensures Conserved(After(p, step)) && !After(p, step).fault
  {
    NeverFaults(p, step);
    PermitsMove(p, step);
    QueueStaysDistinct(p, step);
    forall x: nat ensures OnePlace(After(p, step), x) {
      PlacesKept(p, step, x);
    }
    CounterFollows(p, step);
    hide OnePlace, Permitted, PermittedAfter, After, Distinct;
  }

  /** The counter moves with the permits. */
  lemma CounterFollows(p: Pool, step: Step)
    requires p.live == |Permitted(p)| <= CAPACITY
    ensures After(p, step).live == |PermittedAfter(p, step)| <= CAPACITY
  {
    var all := Permitted(p);
    assert step.Reserve? && Unused(p, step.id) ==> step.id !in all;
    assert step.SpawnFails? && step.id in p.spawning ==> step.id in all;
    assert step.Drops? && step.id in p.runners && p.runners[step.id].permit ==> step.id in all;
    assert step.Reaps? && step.id in p.active ==> step.id in all;
    hide Permitted, Unused;
    CardinalityByOne(all, if step.Takes? then 0 else step.id);
  }

  lemma CardinalityByOne(all: set<nat>, id: nat)
    ensures |all + {id}| == if id in all then |all| else |all| + 1
    ensures |all - {id}| == if id in all then |all| - 1 else |all|
  {
    if id in all {
      assert all + {id} == all;
    } else {
      assert all - {id} == all;
    }
  }

  /** The permits add up place by place. */
  lemma PermitsAddUp(p: Pool)
    requires Conserved(p)
    ensures p.live == |p.spawning| + |Holders(p.runners)| + |p.inHand| + |p.queue| + |p.active|
  {
    CountsDistinct(p.queue);
    PlacesApart(p);
    FiveSets(p.spawning, Holders(p.runners), p.inHand, Elements(p.queue), p.active);
    hide Holders, Elements;
  }

  lemma PlacesApart(p: Pool)
    requires forall id: nat :: OnePlace(p, id)
    ensures p.spawning !! Holders(p.runners) !! p.inHand !! Elements(p.queue) !! p.active
  {
    forall id: nat
      ensures !(id in p.spawning && (id in Holders(p.runners) || id in p.inHand || id in Elements(p.queue) || id in p.active))
      ensures !(id in Holders(p.runners) && (id in p.inHand || id in Elements(p.queue) || id in p.active))
      ensures !(id in p.inHand && (id in Elements(p.queue) || id in p.active))
      ensures !(id in Elements(p.queue) && id in p.active)
    {
      assert OnePlace(p, id);
    }
  }

  lemma FiveSets(a: set<nat>, b: set<nat>, c: set<nat>, d: set<nat>, e: set<nat>)
    requires a !! b !! c !! d !! e
    ensures |a + b + c + d + e| == |a| + |b| + |c| + |d| + |e|
  {
    Disjoint(a, b);
    Disjoint(a + b, c);
    Disjoint(a + b + c, d);
    Disjoint(a + b + c + d, e);
  }

  /** Reaping any of the active jobs, each with its permit. */
  lemma ReapedConserves(p: Pool, gone: set<nat>)
    requires Conserved(p) && gone <= p.active
    ensures Conserved(p.(live := p.live - |gone|, active := p.active - gone))
  {
    var p' := p.(live := p.live - |gone|, active := p.active - gone);
    forall x: nat ensures OnePlace(p', x) && (x in Permitted(p') <==> x in Permitted(p) - gone) {
      assert OnePlace(p, x);
    }
    assert Permitted(p') == Permitted(p) - gone;
    assert |Permitted(p) - gone| == |Permitted(p)| - |gone|;
  }

  function AfterAll(steps: seq<Step>): Pool {
    if steps == [] then Idle else After(AfterAll(steps[..|steps| - 1]), steps[|steps| - 1])
  }

  /** In every interleaving permits are conserved and neither the abort of a full queue nor the
      panic of a missing permit is reached. */
  lemma {:induction false} PermitsConserved(steps: seq<Step>)
    ensures Conserved(AfterAll(steps)) && !AfterAll(steps).fault
  {
    if steps == [] {
      assert Holders(map[]) == {};
    } else {
      PermitsConserved(steps[..|steps| - 1]);
      StepConserves(AfterAll(steps[..|steps| - 1]), steps[|steps| - 1]);
    }
  }

  /** In every reachable state the counter is the sum over all places, the queue has room for
      every job in hand, and the reaper for every job it might take. */
  lemma PermitsInPlace(steps: seq<Step>)
    ensures var p := AfterAll(steps);
            && p.live == |p.spawning| + |Holders(p.runners)| + |p.inHand| + |p.queue| + |p.active| <= CAPACITY
            && (p.inHand != {} ==> |p.queue| < CAPACITY)
            && (p.queue != [] ==> |p.active| < CAPACITY)
            && (forall id | id in p.runners && p.runners[id].child :: p.runners[id].permit)
  {
    PermitsConserved(steps);
    hide AfterAll;
    var p := AfterAll(steps);
    PermitsAddUp(p);
    hide Permitted, Holders;
    assert p.inHand != {} ==> |p.inHand| > 0;
    forall id | id in p.runners && p.runners[id].child ensures p.runners[id].permit {
      assert OnePlace(p, id);
    }
  }

  lemma CounterCounts(p: Pool)
    requires Conserved(p)
    ensures p.live == |Permitted(p)| <= CAPACITY
  {
  }

  /** A reservation is refused exactly when eight permits are out. */
  lemma RefusedOnlyWhenFull(p: Pool, id: nat)
    requires Conserved(p) && Unused(p, id)
    ensures After(p, Reserve(id)) == p <==> |Permitted(p)| == CAPACITY
  {
    CounterCounts(p);
    hide Conserved, Permitted;
    if p.live < CAPACITY {
      assert After(p, Reserve(id)).live != p.live;
    }
  }

  // ---------------------------------------------------------------- the objects themselves

  /** The counter, the channel and the reaper's list, updated in place step by step. */
  class Cleanup {
    var live: int
    var spawning: set<nat>
    var runners: map<nat, RunnerChild>
    var inHand: set<nat>
    var queue: seq<nat>
    var active: set<nat>

    function View(): Pool
      reads this
    {
      Pool(live, spawning, runners, inHand, queue, active, false)
    }

    constructor ()
      ensures View() == Idle
    {
      live, spawning, runners, inHand, queue, active := 0, {}, map[], {}, [], {};
    }

    /** ReapPermit::reserve: refused exactly when eight permits are out. */
    method ReservePermit(id: nat) returns (reserved: bool)
      requires Conserved(View()) && Unused(View(), id)
      modifies this
      ensures View() == After(old(View()), Reserve(id)) && Conserved(View())
      ensures reserved <==> |Permitted(old(View()))| < CAPACITY
    {
      hide Conserved, Permitted;
      StepConserves(View(), Reserve(id));
      CounterCounts(View());
      if live >= CAPACITY {
        return false;
      }
      live := live + 1;
      spawning := spawning + {id};
      reserved := true;
    }

    /** The process could not be started: the permit is dropped. */
    method SpawnFailed(id: nat)
      requires Conserved(View()) && id in spawning
      modifies this
      ensures View() == After(old(View()), SpawnFails(id)) && Conserved(View())
      ensures live == old(live) - 1 && id !in spawning
    {
      hide Conserved;
      StepConserves(View(), SpawnFails(id));
      spawning := spawning - {id};
      live := live - 1;
    }

    /** RunnerChild::spawn: an armed runner with its child and its permit. */
    method Spawned(id: nat)
      requires Conserved(View()) && id in spawning
      modifies this
      ensures View() == After(old(View()), Spawns(id)) && Conserved(View())
      ensures id in runners && runners[id] == RunnerChild(true, true, true) && live == old(live)
    {
      hide Conserved;
      StepConserves(View(), Spawns(id));
      spawning := spawning - {id};
      runners := runners[id := RunnerChild(true, true, true)];
    }

    /** RunnerChild::disarm. */
    method Disarm(id: nat)
      requires Conserved(View()) && id in runners
      modifies this
      ensures View() == After(old(View()), Disarms(id)) && Conserved(View())
    {
      hide Conserved;
      StepConserves(View(), Disarms(id));
      runners := runners[id := runners[id].(armed := false)];
    }

    /** RunnerChild::kill_tree up to the send: the permit leaves the runner with its child. */
    method TakeChild(id: nat, exited: bool)
      requires Conserved(View()) && id in runners
      modifies this
      ensures View() == After(old(View()), KillTree(id, exited)) && Conserved(View())
      ensures !runners[id].child
    {
      hide Conserved;
      StepConserves(View(), KillTree(id, exited));
      if runners[id].child {
        if !exited && !runners[id].permit {
          assert false;
        }
        runners := runners[id := runners[id].(child := false)];
        if !exited {
          runners := runners[id := runners[id].(permit := false)];
          inHand := inHand + {id};
        }
      }
    }

    /** Dropping a runner: an armed one is killed first, and what is left of it gives up the
        permit if it still has it. */
    method DropRunner(id: nat, exited: bool)
      requires Conserved(View()) && id in runners
      modifies this
      ensures var killed := if old(runners[id]).armed then After(old(View()), KillTree(id, exited)) else old(View());
              View() == After(killed, Drops(id))
      ensures Conserved(View()) && id !in runners
    {
      hide Conserved;
      if runners[id].armed {
        TakeChild(id, exited);
      }
      Release(id);
    }

    /** The end of drop: the permit that is left goes with the runner. */
    method Release(id: nat)
      requires Conserved(View()) && id in runners && (runners[id].armed ==> !runners[id].child)
      modifies this
      ensures View() == After(old(View()), Drops(id)) && Conserved(View()) && id !in runners
    {
      hide Conserved;
      StepConserves(View(), Drops(id));
      if runners[id].permit {
        live := live - 1;
      }
      runners := runners - {id};
    }

    /** queue_reap: the send always succeeds. */
    method QueueReap(id: nat)
      requires Conserved(View()) && id in inHand
      modifies this
      ensures View() == After(old(View()), TrySend(id)) && Conserved(View())
      ensures queue == old(queue) + [id]
    {
      hide Conserved;
      StepConserves(View(), TrySend(id));
      if |queue| >= CAPACITY {
        assert false;
      }
      inHand := inHand - {id};
      queue := queue + [id];
    }

    /** The reaper takes a job off its channel if it has room. */
    method TakeJob()
      requires Conserved(View())
      modifies this
      ensures View() == After(old(View()), Takes) && Conserved(View())
    {
      hide Conserved;
      StepConserves(View(), Takes);
      if |active| < CAPACITY && queue != [] {
        active, queue := active + {queue[0]}, queue[1..];
      }
    }

    /** Then it keeps the jobs whose process is still there; the others give up their permits. */
    method RetainRunning(exited: set<nat>)
      requires Conserved(View())
      modifies this
      ensures Conserved(View())
      ensures View() == old(View()).(live := old(live) - |old(active) * exited|, active := old(active) - exited)
    {
      hide Conserved, Remaining;
      ghost var p := View();
      var left := active * exited;
      ghost var gone := left;
      NoneGone(p.active, gone);
      while left != {}
        invariant left <= gone
        invariant View() == p.(live := p.live - |gone| + |left|, active := Remaining(p.active, gone, left))
        decreases |left|
      {
        var id :| id in left;
        OneLess(p.active, gone, left, id);
        active := active - {id};
        live := live - 1;
        left := left - {id};
      }
      NoneLeft(p.active, exited);
      ReapedConserves(p, gone);
    }

    /** Any step of any thread, where it is possible. */
    method Carry(step: Step)
      requires Conserved(View())
      modifies this
      ensures View() == After(old(View()), step) && Conserved(View())
    {
      hide Conserved;
      match step
      case Reserve(id) =>
        if Unused(View(), id) {
          var reserved := ReservePermit(id);
        }
      case SpawnFails(id) =>
        if id in spawning {
          SpawnFailed(id);
        }
      case Spawns(id) =>
        if id in spawning {
          Spawned(id);
        }
      case Disarms(id) =>
        if id in runners {
          Disarm(id);
        }
      case KillTree(id, exited) =>
        if id in runners {
          TakeChild(id, exited);
        }
      case TrySend(id) =>
        if id in inHand {
          QueueReap(id);
        }
      case Drops(id) =>
        if id in runners && !(runners[id].armed && runners[id].child) {
          DropRunner(id, true);
        }
      case Takes =>
        TakeJob();
      case Reaps(id) =>
        if id in active {
          assert active * {id} == {id};
          RetainRunning({id});
        }
    }

    /** Any interleaving of the threads, from the start. */
    method Run(steps: seq<Step>)
      requires View() == Idle
      modifies this
      ensures View() == AfterAll(steps) && Conserved(View())
    {
      PermitsConserved([]);
      hide Conserved, After;
      for k := 0 to |steps|
        invariant View() == AfterAll(steps[..k]) && Conserved(View())
      {
        assert steps[..k + 1][..k] == steps[..k];
        Carry(steps[k]);
      }
      assert steps[..|steps|] == steps;
    }
  }

  /** The active jobs when `left` of the `gone` are still to be dropped. */
  function Remaining(active: set<nat>, gone: set<nat>, left: set<nat>): set<nat> {
    active - (gone - left)
  }

  lemma NoneGone(active: set<nat>, gone: set<nat>)
    ensures Remaining(active, gone, gone) == active
  {
  }

  lemma NoneLeft(active: set<nat>, exited: set<nat>)
    ensures Remaining(active, active * exited, {}) == active - exited
    ensures active - (active * exited) == active - exited
  {
  }

  lemma OneLess(active: set<nat>, gone: set<nat>, left: set<nat>, id: nat)
    requires id in left && left <= gone
    ensures Remaining(active, gone, left) - {id} == Remaining(active, gone, left - {id})
    ensures |left - {id}| == |left| - 1
  {
  }
}

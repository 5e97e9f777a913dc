/** What a worker is told about its lease, and who may act on it, in the fields of the stored row. */
module Terms {
  import opened Bytes
  import opened Domain
  import opened States
  import opened Grants
  import opened Db
  import opened Scheduler
  import opened Execution
  import opened Reachable
  import opened Fencing
  import opened Allowances
  import Budget
  import Outcomes
  import Deltas

  /** The tables an action of an execution works on. */
  ghost function Seen(p: Policy, db: Tables, actions: seq<Action>, k: nat): Tables
    requires k < |actions|
  {
    At(Before(p, db, actions, k), actions[k].now)
  }

  // ---------------------------------------------------------------- renewals

  lemma HeartbeatTerms(p: Policy, db: Tables, r: Uuid, worker: Text, allowed: seq<Uuid>, epoch: int)
    requires Heartbeat(p, db, r, worker, allowed, epoch).1.Renewed?
    ensures r in db.runs && db.runs[r].request.grantId in db.grants
    ensures var (db', reply) := Heartbeat(p, db, r, worker, allowed, epoch);
            var leafMs := db.grants[db.runs[r].request.grantId].authority.expiresAtMs;
            && db' == db.(runs := db.runs[r := db.runs[r].(leaseExpires := Some(reply.expires))])
            && reply.cancelRequested == db.runs[r].cancel
            && reply.expires <= db.clock + p.leaseMs * 1000 && reply.expires <= leafMs * 1000
            && (reply.expires == db.clock + p.leaseMs * 1000 || reply.expires == leafMs * 1000)
  {
  }

  lemma RenewedBeats(p: Policy, db: Tables, op: Op)
    requires Perform(p, db, op).1.Renewed?
    ensures op.Beating? && Perform(p, db, op) == Heartbeat(p, db, op.run, op.worker, op.allowed, op.epoch)
  {
    hide Admit, Claim, Heartbeat, MarkStarted, Finish, ReapSelect, ReapCommit;
    hide CreateGrant, RevokeGrant, ReserveChain, Prepare, MoveEffect;
  }

  /** A renewal runs to the end of the lease time or of the leaf grant, whichever is first; the
      worker is told that instant and the run's cancellation flag, and nothing else is written. */
  lemma RenewalTerms(p: Policy, db: Tables, actions: seq<Action>, k: nat)
    requires k < |actions| && ReplyAt(p, db, actions, k).Renewed?
    ensures actions[k].op.Beating?
    ensures var r, s := actions[k].op.run, Seen(p, db, actions, k);
            r in s.runs && s.runs[r].request.grantId in s.grants
    ensures var r, s, reply := actions[k].op.run, Seen(p, db, actions, k), ReplyAt(p, db, actions, k);
            var leafMs := s.grants[s.runs[r].request.grantId].authority.expiresAtMs;
            && Before(p, db, actions, k + 1) == s.(runs := s.runs[r := s.runs[r].(leaseExpires := Some(reply.expires))])
            && reply.cancelRequested == s.runs[r].cancel
            && reply.expires <= s.clock + p.leaseMs * 1000 && reply.expires <= leafMs * 1000
            && (reply.expires == s.clock + p.leaseMs * 1000 || reply.expires == leafMs * 1000)
  {
    var s, op := Seen(p, db, actions, k), actions[k].op;
    NextState(p, db, actions, k);
    hide Perform, Exec, Heartbeat;
    RenewedBeats(p, s, op);
    HeartbeatTerms(p, s, op.run, op.worker, op.allowed, op.epoch);
  }

  /** In every reachable state a lease ends within one lease time from now. */
  lemma LeaseWithinTerm(p: Policy, db: Tables, actions: seq<Action>, r: Uuid)
    requires ValidPolicy(p) && Initial(db) && r in Exec(p, db, actions).runs
    ensures var s := Exec(p, db, actions);
            s.runs[r].leaseExpires.Some? ==> s.runs[r].leaseExpires.value <= s.clock + p.leaseMs * 1000
  {
    GrantInvInitially(p, db);
    GrantInvReachable(p, db, actions);
    hide Inv, Exec, Budget.BudgetOk;
    var s := Exec(p, db, actions);
    assert Deltas.WithinTerm(p, s.clock, s.runs[r]);
  }

  // ---------------------------------------------------------------- who may act

  /** The run is leased to this worker under this epoch, until some later instant. */
  predicate LeasedTo(run: Run, worker: Text, epoch: int, now: Time) {
    && run.held && (run.state.Leased? || run.state.Running?)
    && run.leaseOwner == Some(worker) && run.leaseEpoch == epoch
    && run.leaseExpires.Some? && run.leaseExpires.value > now
  }

  lemma RepliesToWorkers(p: Policy, db: Tables, op: Op)
    requires var reply := Perform(p, db, op).1; reply.Renewed? || reply.Started? || reply.Finished?
    ensures (op.Beating? || op.Starting? || op.Finishing?) && op.run in db.runs
    ensures db.runs[op.run].tenant in op.allowed && LeasedTo(db.runs[op.run], op.worker, op.epoch, db.clock)
    ensures op.Finishing? ==>
              && db.runs[op.run].state.Running?
              && forall e | e in db.effects && e.run == op.run ::
                   db.effects[e].state.Committed? || db.effects[e].state.DefinitelyFailed?
  {
    hide Admit, Claim, ReapSelect, ReapCommit, CreateGrant, RevokeGrant, ReserveChain, Prepare, MoveEffect, Record, GrantUsable;
  }

  /** Only the holder acts: a heartbeat, start or finish is answered only if the run's tenant is on
      the worker's list and the row says that it is leased to that worker, under that epoch, until a
      later instant; a finish moreover only if the run is running and each of its effects has been
      committed or has definitely failed. */
  lemma OnlyTheHolder(p: Policy, db: Tables, actions: seq<Action>, k: nat)
    requires k < |actions|
    requires var reply := ReplyAt(p, db, actions, k); reply.Renewed? || reply.Started? || reply.Finished?
    ensures var op := actions[k].op; op.Beating? || op.Starting? || op.Finishing?
    ensures var op, s := actions[k].op, Seen(p, db, actions, k);
            && op.run in s.runs && s.runs[op.run].tenant in op.allowed
            && s.runs[op.run].held && (s.runs[op.run].state.Leased? || s.runs[op.run].state.Running?)
            && s.runs[op.run].leaseOwner == Some(op.worker) && s.runs[op.run].leaseEpoch == op.epoch
            && s.runs[op.run].leaseExpires.Some? && s.runs[op.run].leaseExpires.value > s.clock
            && (op.Finishing? ==>
                  && s.runs[op.run].state.Running?
                  && forall e | e in s.effects && e.run == op.run ::
                       s.effects[e].state.Committed? || s.effects[e].state.DefinitelyFailed?)
  {
    hide Perform, Exec;
    RepliesToWorkers(p, Seen(p, db, actions, k), actions[k].op);
  }

  /** The effect is settled one way or the other. */
  predicate AllSettled(s: Tables, r: Uuid) {
    forall e | e in s.effects && e.run == r :: s.effects[e].state.Committed? || s.effects[e].state.DefinitelyFailed?
  }

  /** In a reachable state well-formed calls on a visible run are answered exactly to the holder: a
      start always, a heartbeat while the leaf grant is neither revoked nor expired, a finish when
      the run is running and its effects are settled. */
  lemma ServedExactly(p: Policy, s: Tables, r: Uuid, worker: Text, allowed: seq<Uuid>, epoch: int,
                      output: Option<seq<byte>>, code: Option<Text>)
    requires GrantInv(p, s) && s.reaping.None? && r in s.runs && s.runs[r].tenant in allowed
    requires Identifier(worker) && epoch > 0 && (output.Some? ==> |output.value| <= 65536)
    requires (code.Some? ==> CapitalWord(code.value)) && (output.None? || code.None?)
    ensures MarkStarted(p, s, r, worker, allowed, epoch).1.Started? <==> LeasedTo(s.runs[r], worker, epoch, s.clock)
    ensures s.runs[r].request.grantId in s.grants
    ensures var leaf := s.grants[s.runs[r].request.grantId];
            Heartbeat(p, s, r, worker, allowed, epoch).1.Renewed? <==>
              LeasedTo(s.runs[r], worker, epoch, s.clock) && !leaf.revoked && leaf.authority.expiresAtMs * 1000 > s.clock
    ensures Finish(p, s, r, worker, allowed, epoch, output, code).1.Finished? <==>
              LeasedTo(s.runs[r], worker, epoch, s.clock) && s.runs[r].state.Running? && AllSettled(s, r)
  {
    ArgumentWords(worker, [], code);
    HolderFields(s.runs[r], worker, epoch, s.clock);
    SettledFields(s, r);
    assert FinishArguments(worker, epoch, output, code);
    hide GrantInv, FinishArguments, WorkerName, Identifier, CapitalWord, LeasedTo, Holds, AllSettled, Unsettled, ErrorCode;
    hide Heartbeat, MarkStarted, Finish;
    Outcomes.InvOf(p, s);
    RenewsExactly(p, s, r, worker, allowed, epoch);
    Outcomes.StartsExactly(p, s, r, worker, allowed, epoch);
    Outcomes.FinishesExactly(p, s, r, worker, allowed, epoch, output, code);
  }

  lemma HolderFields(run: Run, worker: Text, epoch: int, now: Time)
    ensures Holds(run, worker, epoch, now) <==> LeasedTo(run, worker, epoch, now)
  {
  }

  lemma SettledFields(s: Tables, r: Uuid)
    ensures !Unsettled(s.effects, r) <==> AllSettled(s, r)
  {
  }

  // ---------------------------------------------------------------- malformed arguments

  /** One to 64 letters, digits, hyphens or underscores. */
  predicate Identifier(name: Text) {
    && 1 <= |name| <= 64
    && forall i | 0 <= i < |name| ::
         || 'a' as int <= name[i] <= 'z' as int || 'A' as int <= name[i] <= 'Z' as int
         || '0' as int <= name[i] <= '9' as int || name[i] == '-' as int || name[i] == '_' as int
  }

  /** One to 128 graphic ASCII characters. */
  predicate Graphic(key: Text) {
    1 <= |key| <= 128 && forall i | 0 <= i < |key| :: '!' as int <= key[i] <= '~' as int
  }

  /** One to 64 capitals and underscores. */
  predicate CapitalWord(code: Text) {
    && 1 <= |code| <= 64
    && forall i | 0 <= i < |code| :: 'A' as int <= code[i] <= 'Z' as int || code[i] == '_' as int
  }

  /** Malformed arguments are refused before anything is looked at, and well-formed ones never for
      their form. */
  lemma ArgumentsExactly(p: Policy, db: Tables, r: Uuid, worker: Text, allowed: seq<Uuid>, slots: int, epoch: int, later: Time,
                         tenant: Uuid, key: Text, request: NormalizedRun, output: Option<seq<byte>>, code: Option<Text>)
    requires ValidPolicy(p)
    ensures !(Identifier(worker) && 1 <= |allowed| <= 1024 && 1 <= slots <= 2) <==> !ClaimArguments(p, worker, allowed, slots)
    ensures !ClaimArguments(p, worker, allowed, slots) ==>
              Claim(p, db, worker, allowed, slots, later) == (db, Refused(Configuration))
    ensures !(Identifier(worker) && epoch > 0) ==>
              && Heartbeat(p, db, r, worker, allowed, epoch) == (db, Refused(Configuration))
              && MarkStarted(p, db, r, worker, allowed, epoch) == (db, Refused(Configuration))
    ensures Identifier(worker) && epoch > 0 ==> Heartbeat(p, db, r, worker, allowed, epoch).1 != Refused(Configuration)
    ensures !Graphic(key) ==> Admit(p, db, tenant, key, request, r) == (db, Refused(Configuration))
    ensures AdmitArguments(p, key) <==> Graphic(key)
    ensures FinishArguments(worker, epoch, output, code) <==>
              && Identifier(worker) && epoch > 0 && (output.Some? ==> |output.value| <= 65536)
              && (code.Some? ==> CapitalWord(code.value)) && (output.None? || code.None?)
    ensures !FinishArguments(worker, epoch, output, code) ==>
              Finish(p, db, r, worker, allowed, epoch, output, code) == (db, Refused(Configuration))
  {
    ArgumentWords(worker, key, code);
    hide WorkerName, Identifier, KeyText, Graphic, ErrorCode, CapitalWord;
    hide FindKey, ClaimCandidate, Record, GrantUsable, QueueFull;
  }

  lemma ArgumentWords(worker: Text, key: Text, code: Option<Text>)
    ensures WorkerName(worker) <==> Identifier(worker)
    ensures KeyText(key) <==> Graphic(key)
    ensures code.Some? ==> (ErrorCode(code.value) <==> CapitalWord(code.value))
  {
  }

  /** A worker whose list does not name the run's tenant learns nothing and changes nothing. */
  lemma ForeignWorkers(p: Policy, db: Tables, r: Uuid, worker: Text, allowed: seq<Uuid>, epoch: int,
                       output: Option<seq<byte>>, code: Option<Text>)
    requires r in db.runs ==> db.runs[r].tenant !in allowed
    ensures var beat := Heartbeat(p, db, r, worker, allowed, epoch);
            beat.0 == db && (beat.1 == Refused(RunNotFound) || beat.1 == Refused(Configuration))
    ensures var start := MarkStarted(p, db, r, worker, allowed, epoch);
            start.0 == db && (start.1 == Refused(RunNotFound) || start.1 == Refused(Configuration))
    ensures var finish := Finish(p, db, r, worker, allowed, epoch, output, code);
            finish.0 == db && (finish.1 == Refused(RunNotFound) || finish.1 == Refused(Configuration))
  {
    hide WorkerName, FinishArguments, Holds, Record, Unsettled;
  }
}

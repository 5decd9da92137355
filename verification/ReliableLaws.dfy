/**
 When an instance that is stored as completed or rejected is compensated all the same: exactly when the run's own finish
 got a reply other than success.  That cannot happen when the finish of the instance is reported reliably: no attempt
 outlives its call, and the run is told that its finish failed only if it did not commit.
 */
module ReliableLaws {
  import opened Model
  import opened Runtime
  import opened RuntimeLaws
  import opened Histories
  import opened Protocol
  import opened ProtocolProofs
  import opened ProtocolLaws
  import S = Service
  import T = Tables

  // ---------- the exact condition ----------

  /** The run's own finish got a reply other than success. */
  ghost predicate FinishRefused(o: Origin, history: seq<Reply>) {
    exists k: nat, call: Call {:trigger Asked(o, history, k, call)} ::
      k < |history| && Asked(o, history, k, call) && call.Finish? && call.cause.None? && history[k] != Done
  }

  ghost predicate AskedCompensation(o: Origin, history: seq<Reply>) {
    exists k: nat, node: Node {:trigger Asked(o, history, k, Compensate(node))} ::
      Asked(o, history, k, Compensate(node))
  }

  /** The run compensates, reports its failure, or has raised an error. */
  predicate IsUndoing(machine: Machine) {
    match machine.stage
    case Asking(_, place) => place.Compensating? || place.Reporting?
    case Ended(outcome) => outcome.Raised?
  }

  lemma {:induction false} UndoIsUndoing(m: Memory, left: seq<Node>, e: RunError)
    ensures IsUndoing(Undo(m, left, e))
    ensures Compensable(left) != [] ==> Undo(m, left, e).stage.call.Compensate?
  {
    if left != [] {
      UndoIsUndoing(m, left[..|left| - 1], e);
      assert Compensable(left[..|left| - 1]) + [] == Compensable(left[..|left| - 1]);
    }
  }

  /** The one reply that matters: after its own finish a run returns, or turns to its compensations. */
  lemma FinishReplyDecides(plan: Plan, machine: Machine, reply: Reply)
    requires Sound(machine) && machine.stage.Asking? && machine.stage.call.Finish? && machine.stage.call.cause.None?
    ensures var after := Resume(plan, machine, reply);
            && after.memory.completed == machine.memory.completed
            && (if reply == Done then
               after.stage == Ended(Returned(machine.stage.call.status, machine.stage.call.result)) else
                  && IsUndoing(after)
                  && (Compensable(machine.memory.completed) != [] ==>
                     after.stage.Asking? && after.stage.call.Compensate?))
  {
    var m := machine.memory.(log := machine.memory.log + [Exchange(machine.stage.call, reply)]);
    UndoIsUndoing(m, m.completed, FinishFailed);
  }

  lemma UndoingStays(plan: Plan, machine: Machine, reply: Reply)
    requires IsUndoing(machine)
    ensures IsUndoing(Resume(plan, machine, reply))
            && Resume(plan, machine, reply).memory.completed == machine.memory.completed
  {
    if machine.stage.Asking? && machine.stage.place.Compensating? {
      var m := machine.memory.(log := machine.memory.log + [Exchange(machine.stage.call, reply)]);
      UndoIsUndoing(m, machine.stage.place.left, machine.stage.place.error);
    }
  }

  /** After its own finish at `p`, the run is where the reply has sent it. */
  lemma {:induction false} AfterFinish(o: Origin, history: seq<Reply>, p: nat, q: nat, call: Call)
    requires p < q <= |history| && Asked(o, history, p, call) && call.Finish? && call.cause.None?
    ensures Moment(o, history, q).memory.completed == Moment(o, history, p).memory.completed
    ensures if history[p] == Done then Moment(o, history, q).stage == Ended(Returned(call.status, call.result))
            else IsUndoing(Moment(o, history, q))
    decreases q
  {
    assert history[..q][..q - 1] == history[..q - 1];
    if p == q - 1 {
      ReplayIsSound(o.sorter, o.input, history[..p]);
      FinishReplyDecides(PlanOf(o.sorter, o.input), Moment(o, history, p), history[p]);
    } else {
      AfterFinish(o, history, p, q - 1, call);
      if history[p] != Done {
        UndoingStays(PlanOf(o.sorter, o.input), Moment(o, history, q - 1), history[q - 1]);
      }
    }
  }

  /** Once a run is undoing, it stays so. */
  lemma {:induction false} UndoingFrom(o: Origin, history: seq<Reply>, k: nat, q: nat)
    requires k <= q <= |history| && IsUndoing(Moment(o, history, k))
    ensures IsUndoing(Moment(o, history, q))
    decreases q
  {
    if k < q {
      UndoingFrom(o, history, k, q - 1);
      assert history[..q][..q - 1] == history[..q - 1];
      UndoingStays(PlanOf(o.sorter, o.input), Moment(o, history, q - 1), history[q - 1]);
    }
  }

  /** A run that has asked for its own finish is undoing exactly when that was refused. */
  lemma UndoingIsRefusal(o: Origin, history: seq<Reply>, p: nat, call: Call)
    requires Asked(o, history, p, call) && call.Finish? && call.cause.None?
    ensures IsUndoing(Replay(o.sorter, o.input, history)) <==> FinishRefused(o, history)
    ensures FinishRefused(o, history) <==> p < |history| && history[p] != Done
  {
    assert history[..|history|] == history;
    ReplayIsSound(o.sorter, o.input, history[..p]);
    if p < |history| {
      AfterFinish(o, history, p, |history|, call);
    }
    if FinishRefused(o, history) {
      var k: nat, other: Call :|
        k < |history| && Asked(o, history, k, other) && other.Finish? && other.cause.None? && history[k] != Done;
      FinishOnce(o, history, p, k, call, other);
    }
  }

  /** And it has asked for a compensation exactly when, in addition, there is a completed service that has one. */
  lemma CompensationIsRefusal(o: Origin, history: seq<Reply>, p: nat, call: Call)
    requires Asked(o, history, p, call) && call.Finish? && call.cause.None?
    ensures AskedCompensation(o, history)
            <==> FinishRefused(o, history) && Compensable(Services(Replay(o.sorter, o.input, history).memory.log)) != []
  {
    UndoingIsRefusal(o, history, p, call);
    CompletedAtFinish(o, history, p, call);
    if AskedCompensation(o, history) {
      var k: nat, node: Node :| Asked(o, history, k, Compensate(node));
      CompensationComesAfter(o, history, p, k, call, node);
    }
    if p < |history| && history[p] != Done && Compensable(Moment(o, history, p).memory.completed) != [] {
      RefusalCompensates(o, history, p, call);
    }
  }

  lemma RefusalCompensates(o: Origin, history: seq<Reply>, p: nat, call: Call)
    requires p < |history| && Asked(o, history, p, call) && call.Finish? && call.cause.None? && history[p] != Done
    requires Compensable(Moment(o, history, p).memory.completed) != []
    ensures AskedCompensation(o, history)
  {
    ReplayIsSound(o.sorter, o.input, history[..p]);
    FinishReplyDecides(PlanOf(o.sorter, o.input), Moment(o, history, p), history[p]);
    assert history[..p + 1][..p] == history[..p];
    var node := Moment(o, history, p + 1).stage.call.node;
    assert Asked(o, history, p + 1, Compensate(node));
  }

  /** No service completes after the run's own finish. */
  lemma CompletedAtFinish(o: Origin, history: seq<Reply>, p: nat, call: Call)
    requires Asked(o, history, p, call) && call.Finish? && call.cause.None?
    ensures Moment(o, history, p).memory.completed == Services(Replay(o.sorter, o.input, history).memory.log)
  {
    assert history[..|history|] == history;
    ReplayIsSound(o.sorter, o.input, history[..p]);
    ReplayIsSound(o.sorter, o.input, history);
    if p < |history| {
      AfterFinish(o, history, p, |history|, call);
      LogStep(o, history, p);
      LogGrows(o, history, p + 1, |history|);
    }
  }

  lemma CompensationComesAfter(o: Origin, history: seq<Reply>, p: nat, k: nat, call: Call, node: Node)
    requires Asked(o, history, p, call) && call.Finish? && call.cause.None? && Asked(o, history, k, Compensate(node))
    ensures p < k && history[p] != Done && Compensable(Moment(o, history, p).memory.completed) != []
  {
    ReplayIsSound(o.sorter, o.input, history[..p]);
    ReplayIsSound(o.sorter, o.input, history[..k]);
    if k <= p {
      UndoingFrom(o, history, k, p);
    }
    if p < k {
      AfterFinish(o, history, p, k, call);
      var m := Moment(o, history, k).memory;
      var left := Moment(o, history, k).stage.place.left;
      assert node in Compensated(m.log) + [node] + Reversed(Compensable(left));
      UndoneWereDone(m.completed);
      ListedIsCompensable(m.completed, node);
    }
  }

  lemma {:induction false} ListedIsCompensable(services: seq<Node>, node: Node)
    requires node in services && node.compensationMethod != ""
    ensures Compensable(services) != []
  {
    var front, last := services[..|services| - 1], services[|services| - 1];
    if last.compensationMethod == "" {
      ListedIsCompensable(front, node);
    }
  }

  /**
   The exact condition.  The run of an instance that is stored as completed or rejected is undoing if and only if its
   own finish got a reply other than success; and it has asked for a compensation if and only if, in addition, it had
   completed a service that has one.
   */
  lemma UndoneLaw(c: Setting, t: Trace, n: nat, id: string)
    requires Possible(c, t) && n <= |t.moves| && id in t.states[n].world.db.instances
    requires t.states[n].world.db.instances[id].status in {Completed, Rejected}
    ensures id in t.states[n].flows
    ensures var f := t.states[n].flows[id];
            && (IsUndoing(Present(c, f)) <==> FinishRefused(OriginOf(c, f), f.history))
            && (AskedCompensation(OriginOf(c, f), f.history)
                <==> FinishRefused(OriginOf(c, f), f.history) && Compensable(Services(Present(c, f).memory.log)) != [])
  {
    Reachable(c, t, n);
    assert EndFits(c, t.states[n], id);
    var f := t.states[n].flows[id];
    var o := OriginOf(c, f);
    var p: nat, call: Call :|
      Asked(o, f.history, p, call) && call.Finish? && call.status == t.states[n].world.db.instances[id].status;
    FinishStatuses(o, f.history, p, call);
    UndoingIsRefusal(o, f.history, p, call);
    CompensationIsRefusal(o, f.history, p, call);
  }

  // ---------- reliable reporting ----------

  /** The move does not report the finish of instance `id` falsely. */
  ghost predicate IsReliable(c: Setting, s: System, move: Move, id: string) {
    match move
    case Conclude(k, _, _, _, _) =>
      k < |s.attempts| && s.attempts[k].id == id && id in s.flows ==> s.attempts[k].position == |s.flows[id].history|
    case Answer(answered, reply) =>
      (answered == id && id in s.flows && id in s.world.db.instances && Present(c, s.flows[id]).stage.Asking? ==>
        var call := Present(c, s.flows[id]).stage.call;
        call.Finish? && call.cause.None? && reply != Done ==> s.world.db.instances[id].status != call.status)
    case _ => true
  }

  ghost predicate ReliableAt(c: Setting, t: Trace, n: nat, id: string)
    requires n < |t.moves| == |t.states| - 1
  {
    IsReliable(c, t.states[n], t.moves[n], id)
  }

  /** The finish of instance `id` is reported reliably, whatever happens to other instances. */
  ghost predicate Reliable(c: Setting, t: Trace, id: string)
    requires |t.states| == |t.moves| + 1
  {
    forall n: nat {:trigger ReliableAt(c, t, n, id)} | n < |t.moves| :: ReliableAt(c, t, n, id)
  }

  /** An instance that is stored as completed or rejected has a run that is finishing so, or has returned so. */
  ghost predicate Together(c: Setting, s: System, id: string) {
    id in s.world.db.instances && s.world.db.instances[id].status in {Completed, Rejected} ==>
      && id in s.flows
      && var status := s.world.db.instances[id].status;
         match Present(c, s.flows[id]).stage
         case Asking(call, _) => call.Finish? && call.status == status && call.cause.None?
         case Ended(outcome) => outcome.Returned? && outcome.status == status
  }

  /** A run whose own finish is accepted returns with the status it asked for. */
  lemma AcceptedRunReturns(c: Setting, f: Flow)
    requires Present(c, f).stage.Asking? && Present(c, f).stage.call.Finish? && Present(c, f).stage.call.cause.None?
    ensures var after := Present(c, TakeReply(f, Done)).stage;
            after.Ended? && after.outcome.Returned? && after.outcome.status == Present(c, f).stage.call.status
  {
    ReplayIsSound(c.sorter, f.input, f.history);
    assert (f.history + [Done])[..|f.history|] == f.history;
  }

  lemma AnswerTogether(c: Setting, s: System, s': System, id: string, answered: string, reply: Reply)
    requires Together(c, s, id) && Takes(c, s, answered, reply, s')
             && IsReliable(c, s, Answer(answered, reply), id)
    ensures Together(c, s', id)
  {
    if answered == id && id in s.world.db.instances && s.world.db.instances[id].status in {Completed, Rejected} {
      AcceptedRunReturns(c, s.flows[id]);
    }
  }

  /** A transaction ends an instance only for a run that is at its finish. */
  lemma TransactionTogether(c: Setting, env: S.Env, s: System, s': System, a: S.Action, commits: bool, id: string)
    requires Together(c, s, id) && S.Admissible(env, s.world, a)
    requires s'.flows == s.flows && s'.world.db == S.Run(s.world.db, a, commits)
    requires a.Conclude? && a.id == id && a.status in {Completed, Rejected} ==>
               && id in s.flows && Present(c, s.flows[id]).stage.Asking?
               && var call := Present(c, s.flows[id]).stage.call;
                  call.Finish? && call.status == a.status && call.cause.None?
    ensures Together(c, s', id)
  {
    if id in s'.world.db.instances {
      NewEnding(env, s.world, a, commits, id);
    }
  }

  lemma ActivityTogether(c: Setting, s: System, move: Move, s': System, id: string)
    requires SystemOk(c, s) && Together(c, s, id) && IsTransaction(move)
    requires Acts(s, move, s') && IsReliable(c, s, move, id)
    ensures Together(c, s', id)
  {
    var env := ActivityWasAsked(c, s, move);
    var a := s.attempts[move.attempt];
    if move.Conclude? {
      var f := s.flows[a.id];
      assert AttemptFits(c, s, move.attempt) && f.history[..|f.history|] == f.history;
      FinishStatuses(OriginOf(c, f), f.history, a.position, a.call);
    }
    ActivityShape(s, move, s');
    TransactionTogether(c, env, s, s', ActionOf(s, move), move.commits, id);
  }

  lemma StepTogether(c: Setting, s: System, move: Move, s': System, id: string)
    requires SystemOk(c, s) && Together(c, s, id) && Moves(c, s, move, s') && IsReliable(c, s, move, id)
    ensures Together(c, s', id)
  {
    match move
    case User(step) => TransactionTogether(c, step.env, s, s', step.action, step.commits, id);
    case Answer(answered, reply) => AnswerTogether(c, s, s', id, answered, reply);
    case CreateRow(_, _, _, _) => ActivityTogether(c, s, move, s', id);
    case Guard(_, _, _) => ActivityTogether(c, s, move, s', id);
    case Conclude(_, _, _, _, _) => ActivityTogether(c, s, move, s', id);
    case _ => QuietTogether(c, s, move, s', id);
  }

  /** Steps that change neither the tables nor a history change nothing here. */
  lemma QuietTogether(c: Setting, s: System, move: Move, s': System, id: string)
    requires Together(c, s, id) && Moves(c, s, move, s')
             && (move.Deliver? || move.Begin? || move.CallUpstream? || move.Judge?)
    ensures Together(c, s', id)
  {
    if move.Deliver? {
      DeliveryKeepsRuns(s, s.world.db.outbox[move.event], id);
    } else {
      assert s'.flows == s.flows;
    }
  }

  lemma DeliveryKeepsRuns(s: System, e: T.Event, id: string)
    ensures var s' := Receive(s, e);
            && s'.world == s.world
            && (id in s.flows ==>
                  && id in s'.flows && s'.flows[id].input == s.flows[id].input
                  && s'.flows[id].history == s.flows[id].history)
  {
  }

  lemma {:induction false} AlwaysTogether(c: Setting, t: Trace, n: nat, id: string)
    requires Possible(c, t) && Reliable(c, t, id) && n <= |t.moves|
    ensures Together(c, t.states[n], id)
  {
    if n > 0 {
      AlwaysTogether(c, t, n - 1, id);
      TogetherAfter(c, t, n - 1, id);
    }
  }

  lemma TogetherAfter(c: Setting, t: Trace, n: nat, id: string)
    requires Possible(c, t) && Reliable(c, t, id) && n < |t.moves| && Together(c, t.states[n], id)
    ensures Together(c, t.states[n + 1], id)
  {
    Reachable(c, t, n);
    assert MoveAt(c, t, n) && ReliableAt(c, t, n, id);
    StepTogether(c, t.states[n], t.moves[n], t.states[n + 1], id);
  }

  /** A run at its own finish, or past it, has asked for no compensation. */
  lemma FinishingAskedNothing(o: Origin, history: seq<Reply>, p: nat, call: Call)
    requires Asked(o, history, p, call)
    requires match Replay(o.sorter, o.input, history).stage
             case Asking(last, _) => last.Finish? && last.cause.None?
             case Ended(outcome) => outcome.Returned?
    ensures !call.Compensate? && Compensated(Replay(o.sorter, o.input, history).memory.log) == []
  {
    assert history[..|history|] == history;
    ReplayIsSound(o.sorter, o.input, history);
    if p < |history| && call.Compensate? {
      var k := AnsweredIsLogged(o, history, p, |history|, call);
      CompensatedIsListed(LogAt(o, history, |history|), k);
    }
  }

  /**
   With reliable reporting, an instance that is stored as completed or rejected is never compensated, before or after.
   */
  lemma CompletedIsKept(c: Setting, t: Trace, i: nat, j: nat, id: string, q: nat)
    requires Possible(c, t) && Reliable(c, t, id) && i <= j <= |t.moves| && id in t.states[i].world.db.instances
    requires t.states[i].world.db.instances[id].status in {Completed, Rejected}
    requires q < |t.states[j].upstream| && t.states[j].upstream[q] < |t.states[j].attempts|
    requires t.states[j].attempts[t.states[j].upstream[q]].id == id
    ensures !t.states[j].attempts[t.states[j].upstream[q]].call.Compensate?
  {
    Onward(c, t, i, j);
    Reachable(c, t, j);
    AlwaysTogether(c, t, j, id);
    var s := t.states[j];
    var a := s.attempts[s.upstream[q]];
    assert AttemptFits(c, s, s.upstream[q]);
    assert s.world.db.instances[id] == t.states[i].world.db.instances[id];
    FinishingAskedNothing(OriginOf(c, s.flows[id]), s.flows[id].history, a.position, a.call);
  }

  // ---------- and why reliability is needed ----------

  /** A run that is told that its own finish failed turns to its compensations. */
  lemma DeniedFinishUndoes(c: Setting, f: Flow)
    requires Present(c, f).stage.Asking? && Present(c, f).stage.call.Finish? && Present(c, f).stage.call.cause.None?
    requires Compensable(Services(Present(c, f).memory.log)) != []
    ensures var stage := Present(c, TakeReply(f, Denied)).stage; stage.Asking? && stage.call.Compensate?
  {
    ReplayIsSound(c.sorter, f.input, f.history);
    FinishReplyDecides(PlanOf(c.sorter, f.input), Present(c, f), Denied);
    OneMoreReply(c, f, Denied);
  }

  lemma OneMoreReply(c: Setting, f: Flow, reply: Reply)
    ensures Present(c, TakeReply(f, reply)) == Resume(PlanOf(c.sorter, f.input), Present(c, f), reply)
  {
    assert (f.history + [reply])[..|f.history|] == f.history;
  }

  lemma CommitCompletes(db: T.Database, a: S.Action)
    requires a.Conclude? && a.status == Completed && T.Visible(db, a.tenantId, a.applicationId, a.id)
             && db.instances[a.id].status == Running
    ensures a.id in S.Run(db, a, true).instances && S.Run(db, a, true).instances[a.id].status == Completed
  {
  }

  /**
   From every state in which a run with a service to compensate has begun its completed finish, losing the report of the
   commit and then failing the call leads to an instance that is stored as completed and about to be compensated.
   */
  lemma LostReportUndoes(c: Setting, s: System, id: string, k: nat) returns (s1: System, s2: System)
    requires SystemOk(c, s) && id in s.flows && Present(c, s.flows[id]).stage.Asking? && k < |s.attempts|
    requires var call := Present(c, s.flows[id]).stage.call;
             && call.Finish? && call.status == Completed && call.cause.None?
             && s.attempts[k] == Attempt(id, |s.flows[id].history|, call, Begun)
    requires id in s.world.db.instances && s.world.db.instances[id].status == Running
    requires Compensable(Services(Present(c, s.flows[id]).memory.log)) != []
    ensures Moves(c, s, Conclude(k, "", 0, true, false), s1) && Moves(c, s1, Answer(id, Denied), s2)
    ensures id in s2.world.db.instances && s2.world.db.instances[id].status == Completed
    ensures id in s2.flows && Present(c, s2.flows[id]).stage.Asking? && Present(c, s2.flows[id]).stage.call.Compensate?
  {
    DeniedFinishUndoes(c, s.flows[id]);
    s1 := LosesReport(c, s, id, k);
    s2 := s1.(flows := s.flows[id := TakeReply(s.flows[id], Denied)]);
  }

  /** The finish commits, and its report is lost. */
  lemma LosesReport(c: Setting, s: System, id: string, k: nat) returns (s1: System)
    requires SystemOk(c, s) && id in s.flows && k < |s.attempts|
    requires s.attempts[k].id == id && s.attempts[k].progress == Begun
    requires s.attempts[k].call.Finish? && s.attempts[k].call.status == Completed
    requires id in s.world.db.instances && s.world.db.instances[id].status == Running
    ensures Moves(c, s, Conclude(k, "", 0, true, false), s1) && s1.flows == s.flows
    ensures id in s1.world.db.instances && s1.world.db.instances[id].status == Completed
  {
    var move := Conclude(k, "", 0, true, false);
    assert FlowFits(c, s, id);
    CommitCompletes(s.world.db, ActionOf(s, move));
    s1 := s.(world := S.Next(s.world, ActionOf(s, move), true), attempts := Progressed(s, k, Lost));
  }
}

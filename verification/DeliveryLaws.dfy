/** What the delivery of an event achieves: starts, cancellations and decisions reach their run, and no others do. */
module DeliveryLaws {
  import opened Model
  import opened Runtime
  import opened RuntimeLaws
  import opened Histories
  import opened Events
  import opened Ledger
  import opened Protocol
  import opened ProtocolProofs
  import opened ProtocolLaws
  import R = ReliableLaws
  import S = Service
  import T = Tables

  /** Move `n` delivers the start of instance `id`. */
  predicate DeliversStart(t: Trace, n: nat, id: string) {
    && n < |t.moves| == |t.states| - 1 && t.moves[n].Deliver? && t.moves[n].event < |t.states[n].world.db.outbox|
    && var e := t.states[n].world.db.outbox[t.moves[n].event]; e.StartRequested? && e.started.id == id
  }

  /** Move `n` delivers the cancellation of instance `id`. */
  predicate DeliversCancellation(t: Trace, n: nat, id: string) {
    && n < |t.moves| == |t.states| - 1 && t.moves[n].Deliver? && t.moves[n].event < |t.states[n].world.db.outbox|
    && var e := t.states[n].world.db.outbox[t.moves[n].event]; e.CancellationRequested? && e.cancelled.id == id
  }

  /** The decisions that move `n` delivers to the run of instance `id`: one or none. */
  function DecisionsAt(t: Trace, n: nat, id: string): seq<Signal>
    requires n < |t.moves| == |t.states| - 1
  {
    var s := t.states[n];
    if !t.moves[n].Deliver? || t.moves[n].event >= |s.world.db.outbox| || id !in s.flows then [] else
    match s.world.db.outbox[t.moves[n].event]
    case TaskCompleted(task) =>
      if task.instanceId == id then [Signal(task.id, task.nodeId, task.decision, task.output)] else []
    case _ => []
  }

  /** The decisions delivered to the run of instance `id` by the first `n` moves, in order. */
  function Delivered(t: Trace, n: nat, id: string): seq<Signal>
    requires n <= |t.moves| == |t.states| - 1
  {
    if n == 0 then [] else Delivered(t, n - 1, id) + DecisionsAt(t, n - 1, id)
  }

  /** The signals that the run has received, in order. */
  function ReceivedIn(history: seq<Reply>): seq<Signal> {
    if history == [] then [] else
    var last := history[|history| - 1];
    ReceivedIn(history[..|history| - 1]) + (if last.Received? then [last.signal] else [])
  }

  // ---------- steps ----------

  /** What one step does to the runs, by the event it delivers. */
  lemma StepFlows(c: Setting, s: System, move: Move, s': System, id: string)
    requires SystemOk(c, s) && Moves(c, s, move, s') && !move.Deliver?
    ensures s'.flows.Keys == s.flows.Keys
    ensures id in s.flows ==> s'.flows[id].cancelRequested == s.flows[id].cancelRequested
    ensures id in s.flows ==>
              ReceivedIn(s'.flows[id].history) + s'.flows[id].mailbox
              == ReceivedIn(s.flows[id].history) + s.flows[id].mailbox
  {
    if move.Answer? && move.id == id {
      AnswerMovesMail(c, s, id, move.reply);
    }
  }

  /** A received signal is the first one of the mailbox. */
  lemma AnswerMovesMail(c: Setting, s: System, id: string, reply: Reply)
    requires SystemOk(c, s) && id in s.flows && Present(c, s.flows[id]).stage.Asking?
    requires Replies(s, id, Present(c, s.flows[id]).stage.call, reply)
    ensures var f, f' := s.flows[id], TakeReply(s.flows[id], reply);
            ReceivedIn(f'.history) + f'.mailbox == ReceivedIn(f.history) + f.mailbox
  {
    var f := s.flows[id];
    assert (f.history + [reply])[..|f.history|] == f.history;
    if reply.Received? {
      SignalsComeByMail(c, s, id, Present(c, f).stage.call, reply);
      assert f.mailbox == [reply.signal] + f.mailbox[1..];
    }
  }

  /** Only a wait receives a signal, and only the first one of the mailbox. */
  lemma SignalsComeByMail(c: Setting, s: System, id: string, call: Call, reply: Reply)
    requires AttemptsFit(c, s) && id in s.flows && Replies(s, id, call, reply) && reply.Received?
    ensures call.AwaitDecision? && s.flows[id].mailbox != [] && s.flows[id].mailbox[0] == reply.signal
  {
    if !call.AwaitDecision? && !call.Sleep? {
      var k := AttemptFor(c, s, id, call, reply);
    }
  }

  /** A decision arrives as it is stored. */
  lemma DecisionDecodes(c: Setting, s: System, e: T.Event)
    requires SystemOk(c, s) && e in s.world.db.outbox && e.TaskCompleted?
    ensures var t := e.completed;
            && t.instanceId in s.flows
            && DecodeSignal(EncodeTask(t)) == Ok(Signal(t.id, t.nodeId, t.decision, t.output))
  {
    var t := e.completed;
    assert Faithful(s.world.db, e) && TaskOk(s.world.db, s.world.db.tasks[t.id]);
    assert InstanceOk(s.world.db, s.world.db.instances[t.instanceId]) && TaskFits(c, s, t.id);
    DecisionArrives(t);
  }

  lemma StartDecodes(c: Setting, s: System, e: T.Event)
    requires SystemOk(c, s) && e in s.world.db.outbox && e.StartRequested?
    ensures DecodeStart(EncodeStart(e.started, e.definition)).Ok?
  {
    StartFits(c, s, e);
  }

  // ---------- starts ----------

  /** A run exists from the delivery of its start on, and not without one. */
  lemma {:induction false} StartLaw(c: Setting, t: Trace, n: nat, id: string)
    requires Possible(c, t) && n <= |t.moves|
    ensures id in t.states[n].flows <==> exists m: nat :: m < n && DeliversStart(t, m, id)
  {
    if n > 0 {
      StartLaw(c, t, n - 1, id);
      StartStep(c, t, n - 1, id);
    }
  }

  lemma StartStep(c: Setting, t: Trace, n: nat, id: string)
    requires Possible(c, t) && n < |t.moves|
    ensures id in t.states[n + 1].flows <==> id in t.states[n].flows || DeliversStart(t, n, id)
  {
    Reachable(c, t, n);
    assert MoveAt(c, t, n);
    var s := t.states[n];
    if t.moves[n].Deliver? {
      var e := s.world.db.outbox[t.moves[n].event];
      if e.StartRequested? {
        StartDecodes(c, s, e);
      }
    } else {
      StepFlows(c, s, t.moves[n], t.states[n + 1], id);
    }
  }

  // ---------- cancellations ----------

  /** Cancellation is requested of a run exactly when a cancellation was delivered to it, and then for good. */
  lemma {:induction false} CancelRequestLaw(c: Setting, t: Trace, n: nat, id: string)
    requires Possible(c, t) && n <= |t.moves| && id in t.states[n].flows
    ensures t.states[n].flows[id].cancelRequested
            <==> exists m: nat :: m < n && id in t.states[m].flows && DeliversCancellation(t, m, id)
  {
    if n > 0 {
      if id in t.states[n - 1].flows {
        CancelRequestLaw(c, t, n - 1, id);
      } else {
        NotBefore(c, t, n - 1, id);
      }
      CancelStep(c, t, n - 1, id);
    }
  }

  lemma {:induction false} NotBefore(c: Setting, t: Trace, n: nat, id: string)
    requires Possible(c, t) && n <= |t.moves| && id !in t.states[n].flows
    ensures forall m: nat | m <= n :: id !in t.states[m].flows
  {
    forall m: nat | m <= n ensures id !in t.states[m].flows {
      Onward(c, t, m, n);
    }
  }

  lemma CancelStep(c: Setting, t: Trace, n: nat, id: string)
    requires Possible(c, t) && n < |t.moves| && id in t.states[n + 1].flows
    ensures id in t.states[n].flows ==>
              (t.states[n + 1].flows[id].cancelRequested
               <==> t.states[n].flows[id].cancelRequested || DeliversCancellation(t, n, id))
    ensures id !in t.states[n].flows ==> !t.states[n + 1].flows[id].cancelRequested
  {
    Reachable(c, t, n);
    assert MoveAt(c, t, n);
    if !t.moves[n].Deliver? {
      StepFlows(c, t.states[n], t.moves[n], t.states[n + 1], id);
    }
  }

  /** The run waits for a decision or sleeps. */
  predicate CanBeRefused(machine: Machine) {
    machine.stage.Asking? && (machine.stage.call.AwaitDecision? || machine.stage.call.Sleep?)
  }

  /**
   Once a cancellation was delivered to a run, its waits and timers can be refused at any moment from then on, and a run
   that is refused compensates or reports its failure.
   */
  lemma CancelReachesRun(c: Setting, t: Trace, m: nat, n: nat, id: string) returns (s': System)
    requires Possible(c, t) && m < n <= |t.moves| && id in t.states[m].flows && DeliversCancellation(t, m, id)
    requires id in t.states[n].flows ==> CanBeRefused(Present(c, t.states[n].flows[id]))
    ensures id in t.states[n].flows && t.states[n].flows[id].cancelRequested
    ensures Moves(c, t.states[n], Answer(id, Denied), s') && id in s'.flows
    ensures R.IsUndoing(Present(c, s'.flows[id])) && Present(c, s'.flows[id]).stage.Asking?
  {
    Onward(c, t, m, n);
    CancelRequestLaw(c, t, n, id);
    var s := t.states[n];
    s' := s.(flows := s.flows[id := TakeReply(s.flows[id], Denied)]);
    RefusedWaitUndoes(c, s.flows[id]);
  }

  lemma RefusedWaitUndoes(c: Setting, f: Flow)
    requires CanBeRefused(Present(c, f))
    ensures var machine := Present(c, TakeReply(f, Denied)); R.IsUndoing(machine) && machine.stage.Asking?
  {
    var m := Present(c, f).memory.(log := Present(c, f).memory.log + [Exchange(Present(c, f).stage.call, Denied)]);
    ReplayIsSound(c.sorter, f.input, f.history);
    R.OneMoreReply(c, f, Denied);
    R.UndoIsUndoing(m, m.completed, WaitFailed(m.current.id));
    R.UndoIsUndoing(m, m.completed, TimerFailed(m.current.id));
  }

  // ---------- decisions ----------

  /** All signals that have reached the run: those received, then those in the mailbox. */
  function Mail(s: System, id: string): seq<Signal> {
    if id in s.flows then ReceivedIn(s.flows[id].history) + s.flows[id].mailbox else []
  }

  /** Move `n` adds to the mail of the run what it delivers. */
  predicate GrowsAt(t: Trace, n: nat, id: string)
    requires n < |t.moves| == |t.states| - 1
  {
    Mail(t.states[n + 1], id) == Mail(t.states[n], id) + DecisionsAt(t, n, id)
  }

  /** What grows at each move by what that move delivers is in the end what all moves delivered. */
  lemma {:induction false} AddsUp(t: Trace, n: nat, id: string)
    requires n <= |t.moves| == |t.states| - 1 && Mail(t.states[0], id) == []
    requires forall k: nat {:trigger GrowsAt(t, k, id)} | k < n :: GrowsAt(t, k, id)
    ensures Mail(t.states[n], id) == Delivered(t, n, id)
  {
    if n > 0 {
      AddsUp(t, n - 1, id);
      assert GrowsAt(t, n - 1, id);
    }
  }

  lemma MailIsDelivered(c: Setting, t: Trace, n: nat, id: string)
    requires Possible(c, t) && n <= |t.moves|
    ensures Mail(t.states[n], id) == Delivered(t, n, id)
  {
    forall k: nat | k < n ensures GrowsAt(t, k, id) {
      MailStep(c, t, k, id);
    }
    AddsUp(t, n, id);
  }

  /**
   Conservation of decisions: what a run has received, followed by what waits in its mailbox, is exactly what was
   delivered to it since its start, as the rows were stored, in order of delivery, with every duplicate.
   */
  lemma MailLaw(c: Setting, t: Trace, n: nat, id: string)
    requires Possible(c, t) && n <= |t.moves| && id in t.states[n].flows
    ensures ReceivedIn(t.states[n].flows[id].history) + t.states[n].flows[id].mailbox == Delivered(t, n, id)
  {
    MailIsDelivered(c, t, n, id);
  }

  lemma MailStep(c: Setting, t: Trace, n: nat, id: string)
    requires Possible(c, t) && n < |t.moves|
    ensures GrowsAt(t, n, id)
  {
    Reachable(c, t, n);
    assert MoveAt(c, t, n);
    var s, s' := t.states[n], t.states[n + 1];
    if t.moves[n].Deliver? {
      if id in s'.flows {
        DeliveryMovesMail(c, s, s.world.db.outbox[t.moves[n].event], id);
      }
    } else {
      StepFlows(c, s, t.moves[n], s', id);
    }
  }

  lemma DeliveryMovesMail(c: Setting, s: System, e: T.Event, id: string)
    requires SystemOk(c, s) && e in s.world.db.outbox && id in Receive(s, e).flows
    ensures var f := Receive(s, e).flows[id];
            if id in s.flows then
              && f.history == s.flows[id].history
              && f.mailbox == s.flows[id].mailbox
                              + (if e.TaskCompleted? && e.completed.instanceId == id
                                 then [Signal(e.completed.id, e.completed.nodeId, e.completed.decision,
                                              e.completed.output)]
                                 else [])
            else f.history == [] && f.mailbox == []
  {
    if e.TaskCompleted? {
      DecisionDecodes(c, s, e);
    }
  }
}

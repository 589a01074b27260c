/**
 One background task of the worker, action by action: its pipeline ends, and its transaction
 context completes and closes before its permit returns. The steps refine the atomic
 completion and close, and what finally happens to the message is a function of the context
 as the pipeline left it.
 */
module TaskSteps {
  import opened Messages
  import opened TransactionContexts

  /** Where a list of actions runs: in `complete`, in its failure path, or in `close`. */
  datatype Stage = Completing | Failing | Closing

  /**
   Handling: the pipeline runs. Poisoned: the retry step is passing the message to the error
   handler. Crashed: a `BaseException` left `close`, so the permit is never returned.
   */
  datatype Phase = Handling | Poisoned | Running(kind: Kind, todo: seq<Action>, stage: Stage) | Released | Crashed

  /** A background task. `left` is its context as the pipeline left it, verdict included. */
  datatype Task = Task(message: Message, ctx: Ctx, phase: Phase, requeued: bool, deadLetter: Option<Message>, left: Ctx)

  predicate InPipeline(t: Task) { t.phase.Handling? || t.phase.Poisoned? }

  predicate Ended(t: Task) { t.phase.Released? || t.phase.Crashed? }

  /******* One task, step by step *******/

  function TakeList(t: Task, k: Kind, stage: Stage): (r: Task)
    ensures !InPipeline(r)
  {
    t.(ctx := t.ctx.With(k, []), phase := Running(k, t.ctx.Pending(k), stage))
  }

  function StartComplete(t: Task): (r: Task)
    ensures !InPipeline(r)
  {
    TakeList(t, if t.ctx.MustCommit() then Commit else Rollback, Completing)
  }

  function StartClose(t: Task): (r: Task)
    ensures !InPipeline(r)
  {
    if t.ctx.MustCommit() then CloseNacking(t) else TakeList(t, Rollback, Closing)
  }

  function CloseNacking(t: Task): (r: Task)
    ensures !InPipeline(r)
  {
    if t.ctx.MustAck() then TakeList(t, Close, Closing) else TakeList(t, Nack, Closing)
  }

  /** The list of kind k has run to its end or to its first failure. */
  function Finished(t: Task, k: Kind, stage: Stage, o: Outcome): (r: Task)
    ensures !InPipeline(r)
  {
    match stage
    case Completing =>
      if k.Ack? || k.Nack? then StartClose(t.(ctx := t.ctx.(completed := true)))
      else if !o.Done? then TakeList(t, Nack, Failing)
      else TakeList(t, if t.ctx.MustAck() then Ack else Nack, Completing)
    case Failing => StartClose(t.(ctx := t.ctx.(completed := true)))
    case Closing =>
      var rest := Contained(t.ctx.onError, o);
      if rest.Cancelled? then t.(phase := Crashed)
      else if rest.Raised? then t.(phase := Released)
      else if k.Rollback? then CloseNacking(t)
      else if k.Nack? then TakeList(t, Close, Closing)
      else t.(ctx := t.ctx.(closed := true), phase := Released)
  }

  /** What the next action of a task puts back on the input queue. */
  function Returns(t: Task): seq<Message> {
    if t.phase.Running? && t.phase.todo != [] then Requeues(t.phase.todo[0]) else []
  }

  function Requeues(a: Action): seq<Message> {
    if a.effect.Requeue? && a.outcome.Done? then [a.effect.message] else []
  }

  /** Only a requeue that succeeds puts its message back. */
  lemma RequeuesWhen(a: Action, m: Message)
    ensures m in Requeues(a) <==> a == Action(Requeue(m), Done)
    ensures |Requeues(a)| <= 1
  {
  }

  function RunAction(t: Task, a: Action): Task
    requires t.phase.Running?
  {
    t.(ctx := t.ctx.Log(t.phase.kind, [a]), requeued := t.requeued || Requeues(a) != [])
  }

  function AdvanceTask(t: Task): Task
    requires t.phase.Running?
  {
    var Running(k, todo, stage) := t.phase;
    if todo == [] then Finished(t, k, stage, Done) else
      var t' := RunAction(t, todo[0]);
      if todo[0].outcome.Done? then t'.(phase := Running(k, todo[1..], stage))
      else Finished(t', k, stage, todo[0].outcome)
  }

  /** How many lists may still be started. */
  function Rank(t: Task): nat {
    if !t.phase.Running? then 0 else
      match t.phase.stage
      case Completing => if t.phase.kind.Ack? || t.phase.kind.Nack? then 5 else 6
      case Failing => 4
      case Closing => if t.phase.kind.Rollback? then 3 else if t.phase.kind.Nack? then 2 else 1
  }

  lemma FinishedRank(t: Task, o: Outcome)
    requires t.phase.Running?
    ensures Rank(Finished(t, t.phase.kind, t.phase.stage, o)) < Rank(t)
    ensures !InPipeline(Finished(t, t.phase.kind, t.phase.stage, o))
  {
  }

  lemma AdvanceShrinks(t: Task)
    requires t.phase.Running?
    ensures var t' := AdvanceTask(t);
            && !InPipeline(t')
            && (Rank(t') < Rank(t)
                || (Rank(t') == Rank(t) && t'.phase.Running? && |t'.phase.todo| < |t.phase.todo|))
  {
  }

  /** The task run on alone to its end; nothing another task does can change this. */
  function Drive(t: Task): (e: Task)
    requires !InPipeline(t)
    ensures Ended(e)
    decreases Rank(t), if t.phase.Running? then |t.phase.todo| else 0
  {
    if Ended(t) then t else
      AdvanceShrinks(t);
      Drive(AdvanceTask(t))
  }

  /******* The steps of a task refine the atomic completion and close of its context *******/

  /** Running a whole list at once. */
  function RunWhole(t: Task): Task
    requires t.phase.Running?
  {
    Finished(RanList(t, t.phase.todo), t.phase.kind, t.phase.stage, Verdicts(t.phase.todo))
  }

  function RanList(t: Task, todo: seq<Action>): Task
    requires t.phase.Running?
  {
    t.(ctx := t.ctx.Log(t.phase.kind, Attempted(todo)), requeued := t.requeued || ReturnsAny(todo))
  }

  /** Some action that gets started puts the message back. */
  predicate ReturnsAny(todo: seq<Action>) {
    if todo == [] then false else Requeues(todo[0]) != [] || (todo[0].outcome.Done? && ReturnsAny(todo[1..]))
  }

  lemma FinishedIgnoresPhase(t: Task, p: Phase, k: Kind, stage: Stage, o: Outcome)
    ensures Finished(t, k, stage, o) == Finished(t.(phase := p), k, stage, o)
  {
  }

  lemma LogTwice(c: Ctx, k: Kind, a: Action, rest: seq<Action>)
    ensures c.Log(k, [a]).Log(k, rest) == c.Log(k, [a] + rest)
  {
    assert c.Ran(k) + [a] + rest == c.Ran(k) + ([a] + rest);
    assert rest == [] ==> [a] + rest == [a];
    assert c.Log(k, [a]).Log(k, rest).journal == c.Log(k, [a] + rest).journal;
  }

  lemma {:induction false} DriveWhole(t: Task)
    requires t.phase.Running?
    ensures !InPipeline(RunWhole(t)) && Drive(t) == Drive(RunWhole(t))
    decreases if t.phase.Running? then |t.phase.todo| else 0
  {
    var Running(k, todo, stage) := t.phase;
    if todo != [] {
      var a := todo[0];
      var t' := RunAction(t, a);
      if a.outcome.Done? {
        var t'' := t'.(phase := Running(k, todo[1..], stage));
        DriveWhole(t'');
        assert Attempted(todo) == [a] + Attempted(todo[1..]);
        LogTwice(t.ctx, k, a, Attempted(todo[1..]));
        FinishedIgnoresPhase(RanList(t'', todo[1..]), t.phase, k, stage, Verdicts(todo[1..]));
        assert RanList(t'', todo[1..]).(phase := t.phase) == RanList(t, todo);
      } else {
        assert Attempted(todo) == [a];
        assert RanList(t, todo) == t';
      }
    } else {
      assert RanList(t, todo) == t;
    }
  }

  /** The task after the whole list k ran, whatever phase comes next. */
  function Invoked(t: Task, k: Kind): Task {
    t.(ctx := Invoke(t.ctx, k).0, requeued := t.requeued || ReturnsAny(t.ctx.Pending(k)))
  }

  lemma DriveTaken(t: Task, k: Kind, stage: Stage)
    ensures var next := Finished(Invoked(t, k), k, stage, Verdicts(t.ctx.Pending(k)));
            !InPipeline(next) && Drive(TakeList(t, k, stage)) == Drive(next)
  {
    var taken := TakeList(t, k, stage);
    DriveWhole(taken);
    var todo := t.ctx.Pending(k);
    FinishedIgnoresPhase(RanList(taken, todo), t.phase, k, stage, Verdicts(todo));
    assert RanList(taken, todo).(phase := t.phase) == Invoked(t, k);
  }

  lemma DriveComplete(t: Task) returns (t': Task)
    requires t.ctx.verdict.Decided?
    ensures t'.ctx == CompleteSpec(t.ctx).0
    ensures t' == t.(ctx := t'.ctx, requeued := t.requeued || ReturnsAny(t.ctx.Pending(FirstKind(t.ctx)))
                                                || ReturnsAny(t.ctx.Pending(SecondKind(t.ctx))))
    ensures Drive(StartComplete(t)) == Drive(StartClose(t'))
  {
    var k1, k2 := FirstKind(t.ctx), SecondKind(t.ctx);
    var o := Verdicts(t.ctx.Pending(k1));
    var stage := if o.Done? then Completing else Failing;
    DriveTaken(t, k1, Completing);
    var t1 := Invoked(t, k1);
    assert Finished(t1, k1, Completing, o) == TakeList(t1, k2, stage);
    DriveTaken(t1, k2, stage);
    var t2 := Invoked(t1, k2);
    assert t1.ctx.Pending(k2) == t.ctx.Pending(k2);
    t' := t2.(ctx := t2.ctx.(completed := true));
    CompleteInParts(t.ctx);
    assert Finished(t2, k2, stage, Verdicts(t1.ctx.Pending(k2))) == StartClose(t');
  }

  function PhaseAfterClose(o: Outcome): Phase { if o.Cancelled? then Crashed else Released }

  /** The part of a close from the nack actions on. */
  function CloseFromNack(c: Ctx): (Ctx, Outcome) {
    var nacked := if c.MustAck() then (c, Done) else InvokeOrNotify(c, Nack);
    if !nacked.1.Done? then nacked else CloseFromEnd(nacked.0)
  }

  function CloseFromEnd(c: Ctx): (Ctx, Outcome) {
    var ended := InvokeOrNotify(c, Close);
    if ended.1.Done? then (ended.0.(closed := true), Done) else ended
  }

  lemma CloseInParts(c: Ctx)
    requires !c.closed
    ensures var rolled := if c.MustCommit() then (c, Done) else InvokeOrNotify(c, Rollback);
            CloseSpec(c) == if rolled.1.Done? then CloseFromNack(rolled.0) else rolled
  {
  }

  lemma DriveEnd(t: Task) returns (e: Task)
    ensures e == Drive(TakeList(t, Close, Closing))
    ensures e == t.(ctx := e.ctx, phase := e.phase, requeued := t.requeued || ReturnsAny(t.ctx.Pending(Close)))
    ensures var c := CloseFromEnd(t.ctx); e.ctx == c.0 && e.phase == PhaseAfterClose(c.1)
  {
    DriveTaken(t, Close, Closing);
    e := Drive(TakeList(t, Close, Closing));
  }

  lemma DriveNack(t: Task) returns (e: Task)
    requires !ReturnsAny(t.ctx.Pending(Close))
    ensures e == Drive(CloseNacking(t))
    ensures e == t.(ctx := e.ctx, phase := e.phase,
                    requeued := t.requeued || (!t.ctx.MustAck() && ReturnsAny(t.ctx.Pending(Nack))))
    ensures var c := CloseFromNack(t.ctx); e.ctx == c.0 && e.phase == PhaseAfterClose(c.1)
  {
    if t.ctx.MustAck() {
      e := DriveEnd(t);
    } else {
      DriveTaken(t, Nack, Closing);
      var t1 := Invoked(t, Nack);
      var o := Verdicts(t.ctx.Pending(Nack));
      if Contained(t.ctx.onError, o).Done? {
        assert Finished(t1, Nack, Closing, o) == TakeList(t1, Close, Closing);
        assert t1.ctx.Pending(Close) == t.ctx.Pending(Close);
        e := DriveEnd(t1);
      } else {
        e := Finished(t1, Nack, Closing, o);
      }
    }
  }

  lemma DriveRollback(t: Task) returns (e: Task)
    requires !ReturnsAny(t.ctx.Pending(Close)) && !ReturnsAny(t.ctx.Pending(Rollback))
    ensures e == Drive(TakeList(t, Rollback, Closing))
    ensures var rolled := InvokeOrNotify(t.ctx, Rollback);
            && e == t.(ctx := e.ctx, phase := e.phase,
                       requeued := t.requeued
                         || (rolled.1.Done? && !t.ctx.MustAck() && ReturnsAny(t.ctx.Pending(Nack))))
            && var c := if rolled.1.Done? then CloseFromNack(rolled.0) else rolled;
               e.ctx == c.0 && e.phase == PhaseAfterClose(c.1)
  {
    DriveTaken(t, Rollback, Closing);
    var t1 := Invoked(t, Rollback);
    var o := Verdicts(t.ctx.Pending(Rollback));
    if Contained(t.ctx.onError, o).Done? {
      assert Finished(t1, Rollback, Closing, o) == CloseNacking(t1);
      assert t1.ctx.Pending(Nack) == t.ctx.Pending(Nack) && t1.ctx.Pending(Close) == t.ctx.Pending(Close);
      e := DriveNack(t1);
    } else {
      e := Finished(t1, Rollback, Closing, o);
    }
  }

  lemma DriveClose(t: Task) returns (e: Task)
    requires !t.ctx.closed && !ReturnsAny(t.ctx.Pending(Close)) && !ReturnsAny(t.ctx.Pending(Rollback))
    ensures e == Drive(StartClose(t))
    ensures var rolled := t.ctx.MustCommit() || Contained(t.ctx.onError, Verdicts(t.ctx.Pending(Rollback))).Done?;
            e == t.(ctx := e.ctx, phase := e.phase,
                    requeued := t.requeued || (rolled && !t.ctx.MustAck() && ReturnsAny(t.ctx.Pending(Nack))))
    ensures e.ctx == CloseSpec(t.ctx).0 && e.phase == PhaseAfterClose(CloseSpec(t.ctx).1)
  {
    CloseInParts(t.ctx);
    if t.ctx.MustCommit() { e := DriveNack(t); } else { e := DriveRollback(t); }
  }

  /******* What becomes of the message *******/

  function RequeueAction(m: Message): Action { Action(Requeue(m), Done) }

  predicate NoRequeue(actions: seq<Action>) { forall a :: a in actions ==> !a.effect.Requeue? }

  predicate LeadsWithRequeue(actions: seq<Action>, m: Message) {
    actions != [] && actions[0] == RequeueAction(m) && NoRequeue(actions[1..])
  }

  /** The receive registered the requeue as the first nack action; nobody else registers one. */
  predicate RequeueFirst(c: Ctx, m: Message) {
    LeadsWithRequeue(c.Pending(Nack), m) && forall k: Kind :: k != Nack ==> NoRequeue(c.Pending(k))
  }

  lemma {:induction false} NoRequeueReturnsNothing(actions: seq<Action>)
    requires NoRequeue(actions)
    ensures !ReturnsAny(actions)
  {
    if actions != [] { NoRequeueReturnsNothing(actions[1..]); }
  }

  /**
   Returned: back on the input queue. Consumed: all commit actions succeeded. Buried: acked
   after dead-lettering. Gone: neither requeued nor acked.
   */
  datatype Fate = Returned | Consumed | Buried | Gone

  /** The close of an undecided context stops before the nack actions. */
  predicate CloseAborts(c: Ctx) { c.verdict.Undecided? && !Containment(c, Rollback).Done? }

  function FateOf(c: Ctx): Fate {
    if CloseAborts(c) then Gone
    else if c.verdict.Undecided? || !c.verdict.ack || !Verdicts(c.Pending(FirstKind(c))).Done? then Returned
    else if c.verdict.commit then Consumed
    else Buried
  }

  /** The context after completing, if there is a verdict, and closing. */
  function Concluded(c: Ctx): (Ctx, Outcome) {
    CloseSpec(if c.verdict.Undecided? then c else CompleteSpec(c).0)
  }

  /** The lists that completing and closing start, each at most once. */
  predicate ConcludeInvokes(c: Ctx, k: Kind) {
    match k
    case Commit => c.MustCommit()
    case Rollback => !c.MustCommit()
    case Ack => c.verdict.Decided? && SecondKind(c) == Ack
    case Nack => if c.verdict.Decided? then SecondKind(c) == Nack else RollsBackWell(c)
    case Close => c.verdict.Decided? || (RollsBackWell(c) && NacksWell(c))
  }

  /** A completion empties the lists that the close after it could still fail in. */
  lemma CloseAfterComplete(c: Ctx)
    requires Unstarted(c) && c.verdict.Decided?
    ensures var c' := CompleteSpec(c).0;
            && RollsBackWell(c') && NacksWell(c') && CloseOutcome(c') == Containment(c, Close)
            && !c'.closed && c'.verdict == c.verdict
  {
    CompleteEffect(c, Rollback);
    CompleteEffect(c, Nack);
    CompleteEffect(c, Close);
    assert Verdicts([]) == Done;
  }

  lemma MovedAgain(c: Ctx, c1: Ctx, c2: Ctx, k: Kind, first: bool, second: bool)
    requires Moved(c, c1, k, first) && Moved(c1, c2, k, second)
    ensures Moved(c, c2, k, first || second)
  {
    assert Attempted([]) == [];
  }

  lemma ConcludedEffect(c: Ctx, k: Kind)
    requires Unstarted(c)
    ensures Moved(c, Concluded(c).0, k, ConcludeInvokes(c, k))
  {
    if c.verdict.Undecided? {
      CloseEffect(c, k);
    } else {
      var c' := CompleteSpec(c).0;
      CompleteEffect(c, k);
      CloseAfterComplete(c);
      CloseEffect(c', k);
      MovedAgain(c, c', CloseSpec(c').0, k, k == FirstKind(c) || k == SecondKind(c), CloseInvokes(c', k));
    }
  }

  /**
   A `BaseException` leaves the close: for a context with a verdict it can only come from the
   close actions; without one, from the first of the three lists that does not end well.
   */
  predicate CloseLeaks(c: Ctx) {
    var rolled, nacked, ended := Containment(c, Rollback), Containment(c, Nack), Containment(c, Close);
    if c.verdict.Decided? then ended.Cancelled?
    else rolled.Cancelled? || (rolled.Done? && nacked.Cancelled?) || (rolled.Done? && nacked.Done? && ended.Cancelled?)
  }

  lemma LeakCondition(c: Ctx)
    requires Unstarted(c)
    ensures Concluded(c).1.Cancelled? <==> CloseLeaks(c)
  {
    if c.verdict.Undecided? {
      CloseEffect(c, Close);
    } else {
      CloseAfterComplete(c);
      CloseEffect(CompleteSpec(c).0, Close);
    }
  }

  /** The task at the moment its pipeline ended. */
  function AtExit(t: Task): Task {
    Task(t.message, t.left, Handling, false, t.deadLetter, t.left)
  }

  function Begun(t: Task): (r: Task)
    ensures !InPipeline(r)
  {
    if t.left.verdict.Undecided? then StartClose(AtExit(t)) else StartComplete(AtExit(t))
  }

  /** The requeue runs exactly when the fate of the context says so, and the task ends as the close ends. */
  lemma FinalTask(t: Task) returns (e: Task)
    requires Unstarted(t.left) && RequeueFirst(t.left, t.message)
    ensures e == Drive(Begun(t))
    ensures e == AtExit(t).(ctx := Concluded(t.left).0, phase := PhaseAfterClose(Concluded(t.left).1),
                            requeued := FateOf(t.left).Returned?)
  {
    var c, t0 := t.left, AtExit(t);
    NoRequeueReturnsNothing(c.Pending(Commit));
    NoRequeueReturnsNothing(c.Pending(Rollback));
    NoRequeueReturnsNothing(c.Pending(Ack));
    NoRequeueReturnsNothing(c.Pending(Close));
    assert ReturnsAny(c.Pending(Nack));
    if c.verdict.Undecided? {
      e := DriveClose(t0);
    } else {
      var t1 := DriveComplete(t0);
      CompleteEffect(c, Close);
      CompleteEffect(c, Rollback);
      CompleteEffect(c, Nack);
      assert !ReturnsAny([]);
      e := DriveClose(t1);
    }
  }

  /******* The requeue is never run twice *******/

  predicate OneRequeue(t: Task) {
    && (forall k: Kind :: k != Nack ==> NoRequeue(t.ctx.Pending(k)))
    && (if t.requeued then NoRequeue(t.ctx.Pending(Nack)) && (t.phase.Running? ==> NoRequeue(t.phase.todo))
        else if t.phase.Running? && t.phase.kind == Nack then
          LeadsWithRequeue(t.phase.todo, t.message) && NoRequeue(t.ctx.Pending(Nack))
        else LeadsWithRequeue(t.ctx.Pending(Nack), t.message) && (t.phase.Running? ==> NoRequeue(t.phase.todo)))
  }

  /** Between two lists: nothing is running. */
  predicate BetweenLists(t: Task) {
    && (forall k: Kind :: k != Nack ==> NoRequeue(t.ctx.Pending(k)))
    && (if t.requeued then NoRequeue(t.ctx.Pending(Nack)) else LeadsWithRequeue(t.ctx.Pending(Nack), t.message))
  }

  lemma TakeListOneRequeue(t: Task, k: Kind, stage: Stage)
    requires BetweenLists(t)
    ensures OneRequeue(TakeList(t, k, stage))
  {
    forall j: Kind
      ensures TakeList(t, k, stage).ctx.Pending(j) == if j == k then [] else t.ctx.Pending(j)
    {
    }
  }

  lemma FinishedOneRequeue(t: Task, k: Kind, stage: Stage, o: Outcome)
    requires BetweenLists(t)
    ensures OneRequeue(Finished(t, k, stage, o))
  {
    var completed := t.(ctx := t.ctx.(completed := true));
    assert BetweenLists(completed) by {
      assert forall j: Kind :: completed.ctx.Pending(j) == t.ctx.Pending(j);
    }
    forall j: Kind, st: Stage
      ensures OneRequeue(TakeList(t, j, st)) && OneRequeue(TakeList(completed, j, st))
    {
      TakeListOneRequeue(t, j, st);
      TakeListOneRequeue(completed, j, st);
    }
    var closed := t.ctx.(closed := true);
    assert forall j: Kind :: closed.Pending(j) == t.ctx.Pending(j);
  }

  lemma AdvanceOneRequeue(t: Task)
    requires t.phase.Running? && OneRequeue(t)
    ensures var t' := AdvanceTask(t);
            && OneRequeue(t')
            && t' == t.(ctx := t'.ctx, phase := t'.phase, requeued := t'.requeued)
            && (t.requeued ==> t'.requeued)
            && Returns(t) == if t'.requeued && !t.requeued then [t.message] else []
  {
    var Running(k, todo, stage) := t.phase;
    if todo == [] {
      FinishedOneRequeue(t, k, stage, Done);
    } else {
      var t' := RunAction(t, todo[0]);
      assert forall j: Kind :: t'.ctx.Pending(j) == t.ctx.Pending(j);
      assert todo[0] in todo;
      if !todo[0].outcome.Done? {
        FinishedOneRequeue(t', k, stage, todo[0].outcome);
      }
    }
  }
}

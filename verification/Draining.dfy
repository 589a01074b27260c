/**
 Draining: with distinct message ids, handlers that end on their own, context actions that
 do not fail and an error handler that accepts, every message is received a bounded number
 of times and ends consumed or dead-lettered exactly once, whatever the interleaving.
 */
module Draining {
  import opened Messages
  import opened TransactionContexts
  import opened Retries
  import opened TaskSteps
  import opened Deliveries

  predicate Smooth(w: World, s: Step) {
    match s
    case Accept(m) => forall a :: a in w.accepted ==> a.Id() != m.Id()
    case Register(_, _, a) => a.outcome.Done?
    case Abandon(_) => false
    case Bury(_, _, handing) => handing.Handed?
    case _ => true
  }

  predicate SmoothRun(w: World, steps: seq<Step>)
    decreases |steps|
  {
    steps == [] || (
      && SmoothRun(w, steps[..|steps| - 1])
      && Deliveries.Run(w, steps[..|steps| - 1]).Some?
      && Smooth(Deliveries.Run(w, steps[..|steps| - 1]).value, steps[|steps| - 1]))
  }

  function Of(m: Message): Task -> bool { (t: Task) => t.message == m }

  /** How often a message has been received so far. */
  function Receives(w: World, m: Message): nat { Count(w.tasks, Of(m)) }

  function Errors(w: World, m: Message): nat { |w.tracker.Errors(m.Id())| }

  predicate AllDone(c: Ctx) { forall k: Kind, a :: a in c.Pending(k) ==> a.outcome.Done? }

  predicate DistinctIds(ms: seq<Message>) {
    forall i, j :: 0 <= i < j < |ms| ==> ms[i].Id() != ms[j].Id()
  }

  /** A queued message has been received once per recorded error, and may fail at least once more. */
  predicate QueuedOk(w: World, m: Message) {
    Receives(w, m) == Errors(w, m) < Bound(w.tracker.maximum)
  }

  predicate HeldOk(w: World, t: Task) {
    var b := Bound(w.tracker.maximum);
    if t.phase.Handling? then
      AllDone(t.ctx) && Receives(w, t.message) == Errors(w, t.message) + 1 && Errors(w, t.message) < b
    else if t.phase.Poisoned? then AllDone(t.ctx) && Receives(w, t.message) <= b
    else if FateOf(t.left).Returned? then QueuedOk(w, t.message)
    else Receives(w, t.message) <= b
  }

  /** Every context leaves its pipeline decided, with actions that all succeed. */
  predicate LeftOk(t: Task) {
    InPipeline(t) || (t.left.verdict.Decided? && AllDone(t.left))
  }

  predicate Known(w: World, id: MessageId) { exists a :: a in w.accepted && a.Id() == id }

  ghost predicate DrainInv(w: World, permits: nat) {
    && Inv(w, permits)
    && (forall id :: w.tracker.Errors(id) != [] ==> Known(w, id))
    && DistinctIds(w.accepted)
    && (forall t :: t in w.tasks ==> t.message in w.accepted && LeftOk(t))
    && (forall m :: m in w.queue ==> QueuedOk(w, m))
    && (forall t :: t in w.tasks && !t.requeued ==> HeldOk(w, t))
  }

  /******* One copy of each message *******/

  lemma {:induction false} AtMostOnce(ms: seq<Message>, m: Message)
    requires DistinctIds(ms)
    ensures multiset(ms)[m] <= 1
  {
    if ms != [] {
      var last := |ms| - 1;
      AtMostOnce(ms[..last], m);
      assert ms == ms[..last] + [ms[last]];
      assert forall i :: 0 <= i < last ==> ms[i].Id() != ms[last].Id();
    }
  }

  lemma SameIdSameMessage(ms: seq<Message>, a: Message, b: Message)
    requires DistinctIds(ms) && a in ms && b in ms && a.Id() == b.Id()
    ensures a == b
  {
  }

  lemma {:induction false} CountTwo(tasks: seq<Task>, p: Task -> bool, i: nat, j: nat)
    requires i < j < |tasks| && p(tasks[i]) && p(tasks[j])
    ensures Count(tasks, p) >= 2
  {
    var last := |tasks| - 1;
    if j == last {
      CountMember(tasks[..last], p, tasks[i]);
    } else {
      CountTwo(tasks[..last], p, i, j);
    }
  }

  /** While task i holds its message, no queue entry and no other holder has the same id. */
  lemma SoleHolder(w: World, permits: nat, i: nat)
    requires DrainInv(w, permits) && i < |w.tasks| && !w.tasks[i].requeued
    ensures forall m :: m in w.queue ==> m.Id() != w.tasks[i].message.Id()
    ensures forall j :: 0 <= j < |w.tasks| && j != i && !w.tasks[j].requeued ==>
              w.tasks[j].message.Id() != w.tasks[i].message.Id()
  {
    var m := w.tasks[i].message;
    AtMostOnce(w.accepted, m);
    assert multiset(w.accepted)[m] == multiset(w.queue)[m] + Count(w.tasks, Unreturned(m));
    CountMember(w.tasks, Unreturned(m), w.tasks[i]);
    forall q | q in w.queue
      ensures q.Id() != m.Id()
    {
      assert multiset(w.accepted)[q] == multiset(w.queue)[q] + Count(w.tasks, Unreturned(q));
      assert q in w.accepted && m in w.accepted;
      if q.Id() == m.Id() { SameIdSameMessage(w.accepted, q, m); }
    }
    forall j | 0 <= j < |w.tasks| && j != i && !w.tasks[j].requeued
      ensures w.tasks[j].message.Id() != m.Id()
    {
      if w.tasks[j].message == m {
        if i < j { CountTwo(w.tasks, Unreturned(m), i, j); } else { CountTwo(w.tasks, Unreturned(m), j, i); }
      }
      assert w.tasks[j] in w.tasks && w.tasks[j].message in w.accepted;
      if w.tasks[j].message.Id() == m.Id() { SameIdSameMessage(w.accepted, w.tasks[j].message, m); }
    }
  }

  /******* Every smooth step keeps the invariant *******/

  /** The tracker changed for one id only. */
  ghost predicate ChangedOnlyAt(t: Tracker, t': Tracker, id: MessageId) {
    t'.maximum == t.maximum && forall i :: i != id ==> t'.Errors(i) == t.Errors(i)
  }

  lemma PutReceives(w: World, i: nat, t: Task, m: Message)
    requires i < |w.tasks| && t.message == w.tasks[i].message
    ensures Count(Put(w, i, t).tasks, Of(m)) == Receives(w, m)
  {
    CountUpdate(w.tasks, i, t, Of(m));
  }

  /** What is asked of the tasks that hold a message, and of the queue, once task i has changed. */
  ghost predicate PutAllowed(w: World, permits: nat, i: nat, t: Task, tracker: Tracker) {
    && DrainInv(w, permits) && i < |w.tasks|
    && (var w' := Put(w, i, t).(tracker := tracker);
        && Inv(w', permits)
        && (!t.requeued ==> HeldOk(w', t))
        && (t.requeued && !w.tasks[i].requeued ==> QueuedOk(w', t.message)))
    && t.message == w.tasks[i].message && LeftOk(t)
    && ChangedOnlyAt(w.tracker, tracker, t.message.Id())
    && (w.tasks[i].requeued ==> tracker == w.tracker && t.requeued)
  }

  lemma PutKeepsQueued(w: World, permits: nat, i: nat, t: Task, tracker: Tracker)
    requires PutAllowed(w, permits, i, t, tracker)
    ensures var w' := Put(w, i, t).(tracker := tracker); forall m :: m in w'.queue ==> QueuedOk(w', m)
  {
    var w' := Put(w, i, t).(tracker := tracker);
    if !w.tasks[i].requeued { SoleHolder(w, permits, i); }
    forall m | m in w'.queue
      ensures QueuedOk(w', m)
    {
      PutReceives(w, i, t, m);
      if m in w.queue { assert QueuedOk(w, m); }
    }
  }

  lemma PutKeepsHeld(w: World, permits: nat, i: nat, t: Task, tracker: Tracker)
    requires PutAllowed(w, permits, i, t, tracker)
    ensures var w' := Put(w, i, t).(tracker := tracker); forall u :: u in w'.tasks && !u.requeued ==> HeldOk(w', u)
  {
    var w' := Put(w, i, t).(tracker := tracker);
    if !w.tasks[i].requeued { SoleHolder(w, permits, i); }
    forall j | 0 <= j < |w'.tasks| && !w'.tasks[j].requeued
      ensures HeldOk(w', w'.tasks[j])
    {
      if j != i {
        assert w.tasks[j] in w.tasks && HeldOk(w, w.tasks[j]);
        PutReceives(w, i, t, w.tasks[j].message);
      }
    }
  }

  lemma PutKeepsDrain(w: World, permits: nat, i: nat, t: Task, tracker: Tracker)
    requires PutAllowed(w, permits, i, t, tracker)
    ensures DrainInv(Put(w, i, t).(tracker := tracker), permits)
  {
    var w' := Put(w, i, t).(tracker := tracker);
    assert w.tasks[i] in w.tasks && w.tasks[i].message in w.accepted;
    PutKeepsQueued(w, permits, i, t, tracker);
    PutKeepsHeld(w, permits, i, t, tracker);
    forall id | tracker.Errors(id) != []
      ensures Known(w', id)
    {
      if id != t.message.Id() { assert Known(w, id); }
    }
  }

  lemma AllDoneVerdict(c: Ctx, k: Kind)
    requires AllDone(c)
    ensures Verdicts(c.Pending(k)).Done?
  {
  }

  lemma SucceedKeepsDrain(w: World, permits: nat, i: nat)
    requires DrainInv(w, permits) && At(w, i, Handling)
    ensures DrainInv(Deliveries.Apply(w, Succeed(i)), permits)
  {
    var was := w.tasks[i];
    var t := Exit(was, Decided(true, true));
    assert was in w.tasks && TaskOk(was) && HeldOk(w, was);
    StepKeepsInv(w, permits, Succeed(i));
    ExitFollows(was, None, Decided(true, true));
    ExitLeft(was, Decided(true, true));
    PutReceives(w, i, t, t.message);
    PutKeepsDrain(w, permits, i, t, w.tracker);
  }

  lemma ExitLeft(t: Task, v: Verdict)
    requires AllDone(t.ctx) && v.Decided?
    ensures Exit(t, v).left == t.ctx.(verdict := v) && LeftOk(Exit(t, v)) && !Exit(t, v).requeued
    ensures FateOf(Exit(t, v).left) == if !v.ack then Returned else if v.commit then Consumed else Buried
  {
    var c := t.ctx.(verdict := v);
    assert forall k: Kind :: c.Pending(k) == t.ctx.Pending(k);
    AllDoneVerdict(c, FirstKind(c));
  }

  lemma TrackerChanges(t: Tracker, id: MessageId, e: Exn, failFast: bool)
    ensures ChangedOnlyAt(t, t.CleanUp(id), id)
    ensures ChangedOnlyAt(t, t.Register(id, e, failFast), id)
    ensures |t.Register(id, e, failFast).Errors(id)| == |t.Errors(id)| + 1
  {
  }

  lemma FailKeepsDrain(w: World, permits: nat, i: nat, e: Exn, failFast: bool)
    requires DrainInv(w, permits) && At(w, i, Handling)
    ensures DrainInv(Deliveries.Apply(w, Fail(i, e, failFast)), permits)
  {
    var was := w.tasks[i];
    var tracker := w.tracker.Register(was.message.Id(), e, failFast);
    var t := AfterFailure(was, tracker);
    assert was in w.tasks && TaskOk(was) && HeldOk(w, was);
    StepKeepsInv(w, permits, Fail(i, e, failFast));
    FailureFollows(was, tracker);
    ExitLeft(was, Decided(false, false));
    PutReceives(w, i, t, t.message);
    TrackerChanges(w.tracker, was.message.Id(), e, failFast);
    PutKeepsDrain(w, permits, i, t, tracker);
  }

  lemma BuryKeepsDrain(w: World, permits: nat, i: nat, details: string)
    requires DrainInv(w, permits) && At(w, i, Poisoned)
    ensures DrainInv(Deliveries.Apply(w, Bury(i, details, Handed)), permits)
  {
    var was := w.tasks[i];
    var t := AfterBurial(was, details, Handed);
    assert was in w.tasks && TaskOk(was) && HeldOk(w, was);
    StepKeepsInv(w, permits, Bury(i, details, Handed));
    ExitLeft(was.(deadLetter := Some(DeadLetterCopy(was.message, details))), Decided(false, true));
    PutReceives(w, i, t, t.message);
    TrackerChanges(w.tracker, was.message.Id(), InvalidState, false);
    assert HeldOk(Put(w, i, t).(tracker := w.tracker.CleanUp(was.message.Id())), t);
    PutKeepsDrain(w, permits, i, t, w.tracker.CleanUp(was.message.Id()));
  }

  lemma RegisterKeepsDrain(w: World, permits: nat, i: nat, k: Kind, a: Action)
    requires DrainInv(w, permits) && Enabled(w, Register(i, k, a)) && a.outcome.Done?
    ensures DrainInv(Deliveries.Apply(w, Register(i, k, a)), permits)
  {
    var was := w.tasks[i];
    var c := was.ctx.With(k, was.ctx.Pending(k) + [a]);
    assert was in w.tasks && TaskOk(was) && HeldOk(w, was);
    StepKeepsInv(w, permits, Register(i, k, a));
    forall j: Kind, b | b in c.Pending(j)
      ensures b.outcome.Done?
    {
      assert j == k || c.Pending(j) == was.ctx.Pending(j);
      assert b == a || b in was.ctx.Pending(j);
    }
    PutReceives(w, i, was.(ctx := c), was.message);
    PutKeepsDrain(w, permits, i, was.(ctx := c), w.tracker);
  }

  lemma WatchKeepsDrain(w: World, permits: nat, i: nat, h: ErrorAction)
    requires DrainInv(w, permits) && Enabled(w, Watch(i, h))
    ensures DrainInv(Deliveries.Apply(w, Watch(i, h)), permits)
  {
    var was := w.tasks[i];
    var c := was.ctx.(onError := was.ctx.onError + [h]);
    assert was in w.tasks && TaskOk(was) && HeldOk(w, was);
    StepKeepsInv(w, permits, Watch(i, h));
    assert forall j: Kind :: c.Pending(j) == was.ctx.Pending(j);
    PutReceives(w, i, was.(ctx := c), was.message);
    PutKeepsDrain(w, permits, i, was.(ctx := c), w.tracker);
  }

  lemma {:induction false} DriveKeepsRequeued(t: Task)
    requires !InPipeline(t) && t.requeued && OneRequeue(t)
    ensures Drive(t).requeued
    decreases Rank(t), if t.phase.Running? then |t.phase.todo| else 0
  {
    if !Ended(t) {
      AdvanceOneRequeue(t);
      AdvanceShrinks(t);
      DriveKeepsRequeued(AdvanceTask(t));
    }
  }

  lemma RequeuedIsReturned(t: Task)
    requires TaskOk(t) && t.requeued
    ensures FateOf(t.left).Returned?
  {
    DriveKeepsRequeued(t);
    var e := FinalTask(t);
  }

  lemma AdvanceKeepsDrain(w: World, permits: nat, i: nat)
    requires DrainInv(w, permits) && Enabled(w, Advance(i))
    ensures DrainInv(Deliveries.Apply(w, Advance(i)), permits)
  {
    var was := w.tasks[i];
    var t := AdvanceTask(was);
    assert was in w.tasks && TaskOk(was) && LeftOk(was);
    StepKeepsInv(w, permits, Advance(i));
    AdvanceOneRequeue(was);
    AdvanceShrinks(was);
    AdvanceFollows(was);
    if t.requeued { RequeuedIsReturned(t); }
    PutReceives(w, i, t, t.message);
    PutKeepsDrain(w, permits, i, t, w.tracker);
  }

  lemma AcceptKeepsDrain(w: World, permits: nat, m: Message)
    requires DrainInv(w, permits) && Smooth(w, Accept(m))
    ensures DrainInv(Deliveries.Apply(w, Accept(m)), permits)
  {
    var w' := Deliveries.Apply(w, Accept(m));
    StepKeepsInv(w, permits, Accept(m));
    assert !Known(w, m.Id());
    CountZero(w.tasks, Of(m));
    forall q | q in w'.queue
      ensures QueuedOk(w', q)
    {
      if q in w.queue { assert QueuedOk(w, q); }
    }
    forall t | t in w'.tasks && !t.requeued
      ensures HeldOk(w', t)
    {
      assert HeldOk(w, t);
    }
    forall id | w'.tracker.Errors(id) != []
      ensures Known(w', id)
    {
      var a :| a in w.accepted && a.Id() == id;
      assert a in w'.accepted;
    }
  }

  lemma ReceiveKeepsQueued(w: World, permits: nat)
    requires DrainInv(w, permits) && Enabled(w, Receive)
    ensures var w' := Deliveries.Apply(w, Receive); forall q :: q in w'.queue ==> QueuedOk(w', q)
  {
    var w', t := Deliveries.Apply(w, Receive), NewTask(w.queue[0]);
    SoleHolder'(w, w', permits);
    forall q | q in w'.queue
      ensures QueuedOk(w', q)
    {
      assert QueuedOk(w, q);
      CountSnoc(w.tasks, t, Of(q));
    }
  }

  lemma ReceiveKeepsHeld(w: World, permits: nat)
    requires DrainInv(w, permits) && Enabled(w, Receive)
    ensures var w' := Deliveries.Apply(w, Receive); forall u :: u in w'.tasks && !u.requeued ==> HeldOk(w', u)
  {
    var w', m, t := Deliveries.Apply(w, Receive), w.queue[0], NewTask(w.queue[0]);
    SoleHolder'(w, w', permits);
    assert QueuedOk(w, m) && AllDone(t.ctx);
    CountSnoc(w.tasks, t, Of(m));
    forall u | u in w'.tasks && !u.requeued
      ensures HeldOk(w', u)
    {
      if u in w.tasks {
        assert HeldOk(w, u);
        CountSnoc(w.tasks, t, Of(u.message));
      }
    }
  }

  lemma ReceiveKeepsDrain(w: World, permits: nat)
    requires DrainInv(w, permits) && Enabled(w, Receive)
    ensures DrainInv(Deliveries.Apply(w, Receive), permits)
  {
    var w' := Deliveries.Apply(w, Receive);
    StepKeepsInv(w, permits, Receive);
    ReceiveKeepsQueued(w, permits);
    ReceiveKeepsHeld(w, permits);
    forall id | w'.tracker.Errors(id) != []
      ensures Known(w', id)
    {
      assert Known(w, id);
    }
    QueuedIsAccepted(w, permits, w.queue[0]);
  }

  lemma QueuedIsAccepted(w: World, permits: nat, m: Message)
    requires Inv(w, permits) && m in w.queue
    ensures m in w.accepted
  {
    assert multiset(w.accepted)[m] == multiset(w.queue)[m] + Count(w.tasks, Unreturned(m));
  }

  /** The message just received is neither queued again nor held by another task. */
  lemma SoleHolder'(w: World, w': World, permits: nat)
    requires DrainInv(w, permits) && Enabled(w, Receive) && w' == Deliveries.Apply(w, Receive)
    ensures w.queue[0] !in w'.queue
    ensures forall u :: u in w.tasks && !u.requeued ==> u.message != w.queue[0]
  {
    var m := w.queue[0];
    assert w.queue == [m] + w'.queue;
    AtMostOnce(w.accepted, m);
    assert multiset(w.accepted)[m] == multiset(w.queue)[m] + Count(w.tasks, Unreturned(m));
    forall u | u in w.tasks && !u.requeued
      ensures u.message != m
    {
      if u.message == m { CountMember(w.tasks, Unreturned(m), u); }
    }
  }

  lemma StepKeepsDrain(w: World, permits: nat, s: Step)
    requires DrainInv(w, permits) && Enabled(w, s) && Smooth(w, s)
    ensures DrainInv(Deliveries.Apply(w, s), permits)
  {
    match s
    case Accept(m) => AcceptKeepsDrain(w, permits, m);
    case Receive => ReceiveKeepsDrain(w, permits);
    case Register(i, k, a) => RegisterKeepsDrain(w, permits, i, k, a);
    case Watch(i, h) => WatchKeepsDrain(w, permits, i, h);
    case Succeed(i) => SucceedKeepsDrain(w, permits, i);
    case Fail(i, e, failFast) => FailKeepsDrain(w, permits, i, e, failFast);
    case Bury(i, details, _) => BuryKeepsDrain(w, permits, i, details);
    case Advance(i) => AdvanceKeepsDrain(w, permits, i);
    case _ => PermitKeepsDrain(w, permits, s);
  }

  lemma PermitKeepsDrain(w: World, permits: nat, s: Step)
    requires DrainInv(w, permits) && Enabled(w, s) && (s.Acquire? || s.GiveBack?)
    ensures DrainInv(Deliveries.Apply(w, s), permits)
  {
    var w' := Deliveries.Apply(w, s);
    StepKeepsInv(w, permits, s);
    forall t | t in w'.tasks && !t.requeued
      ensures HeldOk(w', t)
    {
      assert HeldOk(w, t);
    }
    forall m | m in w'.queue
      ensures QueuedOk(w', m)
    {
      assert QueuedOk(w, m);
    }
    forall id | w'.tracker.Errors(id) != []
      ensures Known(w', id)
    {
      assert Known(w, id);
    }
  }

  lemma {:induction false} RunKeepsDrain(permits: nat, maximum: int, steps: seq<Step>, w: World)
    requires Deliveries.Run(Initial(permits, maximum), steps) == Some(w)
    requires SmoothRun(Initial(permits, maximum), steps)
    ensures DrainInv(w, permits) && w.tracker.maximum == maximum
  {
    var w0 := Initial(permits, maximum);
    if steps == [] {
      RunKeepsInv(permits, maximum, steps, w);
    } else {
      var before := Deliveries.Run(w0, steps[..|steps| - 1]).value;
      RunKeepsDrain(permits, maximum, steps[..|steps| - 1], before);
      StepKeepsDrain(before, permits, steps[|steps| - 1]);
    }
  }

  /******* Draining ends, and ends well *******/

  /** The number of tasks whose message is one of these. */
  function Among(ms: seq<Message>): Task -> bool { (t: Task) => t.message in ms }

  lemma ReceivesAreBounded(w: World, permits: nat, m: Message)
    requires DrainInv(w, permits) && m in w.accepted
    ensures Receives(w, m) <= Bound(w.tracker.maximum)
  {
    assert multiset(w.accepted)[m] == multiset(w.queue)[m] + Count(w.tasks, Unreturned(m));
    if m in w.queue {
      assert QueuedOk(w, m);
    } else {
      var i := CountPositive(w.tasks, Unreturned(m));
      assert w.tasks[i] in w.tasks && HeldOk(w, w.tasks[i]);
    }
  }

  /** As often as this, for each of n messages. */
  function Times(n: nat, b: nat): nat { if n == 0 then 0 else Times(n - 1, b) + b }

  lemma {:induction false} TasksAmong(w: World, permits: nat, ms: seq<Message>)
    requires DrainInv(w, permits) && forall m :: m in ms ==> m in w.accepted
    ensures Count(w.tasks, Among(ms)) <= Times(|ms|, Bound(w.tracker.maximum))
  {
    if ms == [] {
      CountZero(w.tasks, Among(ms));
    } else {
      var before, m := ms[..|ms| - 1], ms[|ms| - 1];
      TasksAmong(w, permits, before);
      ReceivesAreBounded(w, permits, m);
      assert ms == before + [m];
      CountUnion(w.tasks, Among(ms), Among(before), Of(m));
    }
  }

  lemma {:induction false} CountUnion(tasks: seq<Task>, p: Task -> bool, q: Task -> bool, r: Task -> bool)
    requires forall t :: t in tasks && p(t) ==> q(t) || r(t)
    ensures Count(tasks, p) <= Count(tasks, q) + Count(tasks, r)
  {
    if tasks != [] { CountUnion(tasks[..|tasks| - 1], p, q, r); }
  }

  lemma {:induction false} CountAll(tasks: seq<Task>, p: Task -> bool)
    requires forall t :: t in tasks ==> p(t)
    ensures Count(tasks, p) == |tasks|
  {
    if tasks != [] { CountAll(tasks[..|tasks| - 1], p); }
  }

  /** Receives still possible. */
  function Budget(w: World): int { Times(|w.accepted|, Bound(w.tracker.maximum)) - |w.tasks| }

  /**
   Over any smooth run the budget is never negative; every receive uses up one, nothing else
   does, and only a newly accepted message adds to it.
   */
  lemma DrainingTerminates(permits: nat, maximum: int, steps: seq<Step>, w: World, s: Step)
    requires Deliveries.Run(Initial(permits, maximum), steps) == Some(w)
    requires SmoothRun(Initial(permits, maximum), steps) && Enabled(w, s) && Smooth(w, s)
    ensures Budget(w) >= 0
    ensures Budget(Deliveries.Apply(w, s))
            == Budget(w) + (if s.Receive? then -1 else if s.Accept? then Bound(maximum) else 0)
    ensures s.Receive? ==> Budget(w) > 0
  {
    RunKeepsDrain(permits, maximum, steps, w);
    StepKeepsDrain(w, permits, s);
    BudgetIsNat(w, permits);
    BudgetIsNat(Deliveries.Apply(w, s), permits);
    BudgetStep(w, s);
  }

  lemma BudgetStep(w: World, s: Step)
    requires Enabled(w, s)
    ensures Budget(Deliveries.Apply(w, s)) == Budget(w) +
              (if s.Receive? then -1 else if s.Accept? then Bound(w.tracker.maximum) else 0)
  {
  }

  lemma BudgetIsNat(w: World, permits: nat)
    requires DrainInv(w, permits)
    ensures Budget(w) >= 0
  {
    TasksAmong(w, permits, w.accepted);
    CountAll(w.tasks, Among(w.accepted));
  }

  /******* Work inside the tasks ends too *******/

  /** How many turns of its own a task may still take, besides running its actions. */
  function Turns(t: Task): nat { if t.phase.Handling? then 8 else if t.phase.Poisoned? then 7 else Rank(t) }

  /** The actions it may still run: those of the list under way, and those not yet taken. */
  function ActionsLeft(t: Task): nat {
    (if t.phase.Running? then |t.phase.todo| else 0) + Held(t.ctx)
  }

  function Held(c: Ctx): nat {
    |c.Pending(Commit)| + |c.Pending(Rollback)| + |c.Pending(Ack)| + |c.Pending(Nack)| + |c.Pending(Close)|
  }

  function Work(t: Task): nat { Turns(t) + ActionsLeft(t) }

  lemma HeldLess(c: Ctx, k: Kind)
    ensures Held(c.With(k, [])) + |c.Pending(k)| == Held(c)
  {
    assert forall j: Kind :: c.With(k, []).Pending(j) == if j == k then [] else c.Pending(j);
  }

  /** Starting a list, or none, adds no action. */
  lemma TakeListActions(t: Task, k: Kind, stage: Stage)
    ensures ActionsLeft(TakeList(t, k, stage)) == Held(t.ctx)
  {
    HeldLess(t.ctx, k);
  }

  lemma CloseActions(t: Task)
    ensures ActionsLeft(StartClose(t)) == ActionsLeft(CloseNacking(t)) == Held(t.ctx)
  {
    TakeListActions(t, Rollback, Closing);
    TakeListActions(t, Close, Closing);
    TakeListActions(t, Nack, Closing);
  }

  /** A flag set on the context changes no list. */
  lemma FlagsHoldNothing(c: Ctx)
    ensures Held(c.(completed := true)) == Held(c) && Held(c.(closed := true)) == Held(c)
  {
    assert forall j: Kind :: c.(completed := true).Pending(j) == c.Pending(j);
    assert forall j: Kind :: c.(closed := true).Pending(j) == c.Pending(j);
  }

  lemma CompletingActions(t: Task, k: Kind, stage: Stage, o: Outcome)
    requires t.phase.Running? && !stage.Closing?
    ensures ActionsLeft(Finished(t, k, stage, o)) == Held(t.ctx)
  {
    FlagsHoldNothing(t.ctx);
    if stage.Failing? || k.Ack? || k.Nack? {
      CloseActions(t.(ctx := t.ctx.(completed := true)));
    } else if !o.Done? {
      TakeListActions(t, Nack, Failing);
    } else {
      TakeListActions(t, if t.ctx.MustAck() then Ack else Nack, Completing);
    }
  }

  lemma ClosingActions(t: Task, k: Kind, o: Outcome)
    requires t.phase.Running?
    ensures ActionsLeft(Finished(t, k, Closing, o)) == Held(t.ctx)
  {
    if !Contained(t.ctx.onError, o).Done? {
    } else if k.Rollback? {
      CloseActions(t);
    } else if k.Nack? {
      TakeListActions(t, Close, Closing);
    } else {
      FlagsHoldNothing(t.ctx);
    }
  }

  lemma FinishedActions(t: Task, k: Kind, stage: Stage, o: Outcome)
    requires t.phase.Running?
    ensures ActionsLeft(Finished(t, k, stage, o)) == Held(t.ctx)
  {
    if stage.Closing? { ClosingActions(t, k, o); } else { CompletingActions(t, k, stage, o); }
  }

  lemma RunActionHeld(t: Task, a: Action)
    requires t.phase.Running?
    ensures Held(RunAction(t, a).ctx) == Held(t.ctx) && Rank(RunAction(t, a)) == Rank(t)
  {
    assert forall j: Kind :: RunAction(t, a).ctx.Pending(j) == t.ctx.Pending(j);
  }

  lemma AdvanceWork(t: Task)
    requires t.phase.Running?
    ensures Work(AdvanceTask(t)) < Work(t)
  {
    var Running(k, todo, stage) := t.phase;
    if todo == [] {
      FinishedRank(t, Done);
      FinishedActions(t, k, stage, Done);
    } else {
      var t', o := RunAction(t, todo[0]), todo[0].outcome;
      RunActionHeld(t, todo[0]);
      FinishedRank(t', o);
      FinishedActions(t', k, stage, o);
    }
  }

  lemma ExitWork(t: Task, v: Verdict)
    ensures Work(Exit(t, v)) <= 6 + Held(t.ctx)
  {
    var c := t.ctx.(verdict := v);
    var t0 := AtExit(t.(left := c));
    assert forall j: Kind :: c.Pending(j) == t.ctx.Pending(j);
    TakeListActions(t0, if c.MustCommit() then Commit else Rollback, Completing);
    CloseActions(t0);
  }

  function TotalWork(tasks: seq<Task>): nat {
    if tasks == [] then 0 else TotalWork(tasks[..|tasks| - 1]) + Work(tasks[|tasks| - 1])
  }

  lemma {:induction false} WorkUpdate(tasks: seq<Task>, i: nat, t: Task)
    requires i < |tasks|
    ensures TotalWork(tasks[i := t]) + Work(tasks[i]) == TotalWork(tasks) + Work(t)
  {
    var last := |tasks| - 1;
    if i == last {
      assert tasks[i := t][..last] == tasks[..last];
    } else {
      WorkUpdate(tasks[..last], i, t);
      assert tasks[i := t][..last] == tasks[..last][i := t];
    }
  }

  lemma ReplacedWork(w: World, s: Step, t: Task)
    requires Enabled(w, s) && (s.Succeed? || s.Fail? || s.Bury? || s.Advance?)
    requires Deliveries.Apply(w, s).tasks == w.tasks[s.i := t] && Work(t) < Work(w.tasks[s.i])
    ensures TotalWork(Deliveries.Apply(w, s).tasks) < TotalWork(w.tasks)
  {
    WorkUpdate(w.tasks, s.i, t);
  }

  lemma FailureWork(t: Task, tracker: Tracker)
    requires t.phase.Handling?
    ensures Work(AfterFailure(t, tracker)) < Work(t)
  {
    ExitWork(t, Decided(false, false));
  }

  lemma BurialWork(t: Task, details: string)
    requires t.phase.Poisoned?
    ensures Work(AfterBurial(t, details, Handed)) < Work(t)
  {
    ExitWork(t.(deadLetter := Some(DeadLetterCopy(t.message, details))), Decided(false, true));
  }

  /** A step inside a task uses up some of its work. */
  lemma TasksTerminate(w: World, s: Step)
    requires Enabled(w, s) && Smooth(w, s) && (s.Succeed? || s.Fail? || s.Bury? || s.Advance?)
    ensures TotalWork(Deliveries.Apply(w, s).tasks) < TotalWork(w.tasks)
    ensures Budget(Deliveries.Apply(w, s)) == Budget(w)
  {
    BudgetStep(w, s);
    var t := w.tasks[s.i];
    match s {
      case Succeed(_) =>
        ExitWork(t, Decided(true, true));
        ReplacedWork(w, s, Exit(t, Decided(true, true)));
      case Fail(_, e, failFast) =>
        var tracker := w.tracker.Register(t.message.Id(), e, failFast);
        FailureWork(t, tracker);
        ReplacedWork(w, s, AfterFailure(t, tracker));
      case Bury(_, details, _) =>
        BurialWork(t, details);
        ReplacedWork(w, s, AfterBurial(t, details, Handed));
      case Advance(_) =>
        AdvanceWork(t);
        ReplacedWork(w, s, AdvanceTask(t));
    }
  }

  /******* Draining as a whole *******/

  /** Draining steps bring no message, register nothing and do not receive in vain. */
  predicate Drains(s: Step) { !s.Accept? && !s.Register? && !s.Watch? && !s.GiveBack? }

  function DrainingSteps(steps: seq<Step>): nat {
    if steps == [] then 0 else
      DrainingSteps(steps[..|steps| - 1]) + if Drains(steps[|steps| - 1]) then 1 else 0
  }

  /** Every receive still possible costs at most eleven steps: the permit, itself and its task. */
  function StepsToDrain(w: World): int {
    11 * Budget(w) + TotalWork(w.tasks) + if w.holding then 0 else 1
  }

  /** What a step adds to that: an action to run, a permit to take again, a message with all its receives. */
  function Adds(s: Step, bound: nat): nat {
    match s
    case Register(_, _, _) => 1
    case GiveBack => 1
    case Accept(_) => 11 * bound
    case _ => 0
  }

  function AddedBy(steps: seq<Step>, bound: nat): nat {
    if steps == [] then 0 else AddedBy(steps[..|steps| - 1], bound) + Adds(steps[|steps| - 1], bound)
  }

  lemma ReplacedContext(w: World, s: Step, c: Ctx)
    requires Enabled(w, s) && (s.Register? || s.Watch?)
    requires Deliveries.Apply(w, s).tasks == w.tasks[s.i := w.tasks[s.i].(ctx := c)]
    ensures TotalWork(Deliveries.Apply(w, s).tasks) == TotalWork(w.tasks) + Held(c) - Held(w.tasks[s.i].ctx)
  {
    WorkUpdate(w.tasks, s.i, w.tasks[s.i].(ctx := c));
  }

  lemma HeldMore(c: Ctx, k: Kind, a: Action, h: ErrorAction)
    ensures Held(c.With(k, c.Pending(k) + [a])) == Held(c) + 1
    ensures Held(c.(onError := c.onError + [h])) == Held(c)
  {
    assert forall j: Kind ::
        c.With(k, c.Pending(k) + [a]).Pending(j) == if j == k then c.Pending(k) + [a] else c.Pending(j);
    assert forall j: Kind :: c.(onError := c.onError + [h]).Pending(j) == c.Pending(j);
  }

  lemma RegisteredWork(w: World, s: Step)
    requires Enabled(w, s) && (s.Register? || s.Watch?)
    ensures TotalWork(Deliveries.Apply(w, s).tasks) == TotalWork(w.tasks) + if s.Register? then 1 else 0
  {
    var c := w.tasks[s.i].ctx;
    if s.Register? {
      HeldMore(c, s.kind, s.action, ErrorAction(map[]));
      ReplacedContext(w, s, c.With(s.kind, c.Pending(s.kind) + [s.action]));
    } else {
      HeldMore(c, Commit, Action(Custom(0), Done), s.handler);
      ReplacedContext(w, s, c.(onError := c.onError + [s.handler]));
    }
  }

  lemma DrainingStep(w: World, s: Step)
    requires Enabled(w, s) && Smooth(w, s)
    ensures StepsToDrain(Deliveries.Apply(w, s)) + (if Drains(s) then 1 else 0)
            <= StepsToDrain(w) + Adds(s, Bound(w.tracker.maximum))
  {
    BudgetStep(w, s);
    if s.Receive? {
      var t := NewTask(w.queue[0]);
      assert (w.tasks + [t])[..|w.tasks|] == w.tasks;
      assert Held(t.ctx) == 1;
    } else if s.Register? || s.Watch? {
      RegisteredWork(w, s);
    } else if !s.Accept? && !s.Acquire? && !s.GiveBack? {
      TasksTerminate(w, s);
    }
  }

  lemma LastStepDrains(w0: World, steps: seq<Step>, s: Step, w': World) returns (w: World)
    requires SmoothRun(w0, steps + [s]) && Deliveries.Run(w0, steps + [s]) == Some(w')
    ensures SmoothRun(w0, steps) && Deliveries.Run(w0, steps) == Some(w) && w'.tracker.maximum == w.tracker.maximum
    ensures StepsToDrain(w') + (if Drains(s) then 1 else 0) <= StepsToDrain(w) + Adds(s, Bound(w.tracker.maximum))
  {
    assert (steps + [s])[..|steps|] == steps;
    w := Deliveries.Run(w0, steps).value;
    DrainingStep(w, s);
  }

  lemma CountsSnoc(steps: seq<Step>, s: Step, bound: nat)
    ensures DrainingSteps(steps + [s]) == DrainingSteps(steps) + if Drains(s) then 1 else 0
    ensures AddedBy(steps + [s], bound) == AddedBy(steps, bound) + Adds(s, bound)
  {
    assert (steps + [s])[..|steps|] == steps;
  }

  /** What is left after a run, and what was left before it, with the steps and additions in between. */
  predicate Accounts(w: World, w': World, more: seq<Step>) {
    && w'.tracker.maximum == w.tracker.maximum
    && DrainingSteps(more) + StepsToDrain(w') <= StepsToDrain(w) + AddedBy(more, Bound(w.tracker.maximum))
  }

  lemma AccountsSnoc(w: World, before: World, w': World, rest: seq<Step>, s: Step)
    requires Accounts(w, before, rest) && w'.tracker.maximum == before.tracker.maximum
    requires StepsToDrain(w') + (if Drains(s) then 1 else 0)
             <= StepsToDrain(before) + Adds(s, Bound(before.tracker.maximum))
    ensures Accounts(w, w', rest + [s])
  {
    CountsSnoc(rest, s, Bound(w.tracker.maximum));
  }

  lemma AccountsNothing(w: World)
    ensures Accounts(w, w, [])
  {
  }

  /** One more step at the end of the run. */
  lemma AccountsRun(w0: World, steps: seq<Step>, rest: seq<Step>, s: Step, w: World, w': World) returns (before: World)
    requires SmoothRun(w0, steps + rest + [s]) && Deliveries.Run(w0, steps + rest + [s]) == Some(w')
    ensures SmoothRun(w0, steps + rest) && Deliveries.Run(w0, steps + rest) == Some(before)
    ensures Accounts(w, before, rest) ==> Accounts(w, w', rest + [s])
  {
    before := LastStepDrains(w0, steps + rest, s, w');
    if Accounts(w, before, rest) { AccountsSnoc(w, before, w', rest, s); }
  }

  lemma {:induction false} DrainingIsBounded(w0: World, steps: seq<Step>, more: seq<Step>, w: World, w': World)
    requires SmoothRun(w0, steps + more)
    requires Deliveries.Run(w0, steps) == Some(w) && Deliveries.Run(w0, steps + more) == Some(w')
    ensures Accounts(w, w', more)
    decreases |more|
  {
    if more == [] {
      assert steps + more == steps;
      AccountsNothing(w);
    } else {
      var rest, s := more[..|more| - 1], more[|more| - 1];
      assert more == rest + [s] && steps + more == steps + rest + [s];
      var before := AccountsRun(w0, steps, rest, s, w, w');
      DrainingIsBounded(w0, steps, rest, w, before);
    }
  }

  /** No draining step can extend the run. */
  ghost predicate AtRest(w: World) {
    forall s :: Drains(s) ==> !(Enabled(w, s) && Smooth(w, s))
  }

  /******* The drained state *******/

  /** Messages with distinct ids differ in more than their error details. */
  lemma SameBareSameMessage(ms: seq<Message>, a: Message, b: Message)
    requires DistinctIds(ms) && a in ms && b in ms && Bare(a) == Bare(b)
    ensures a == b
  {
    assert Bare(a).Id() == a.Id() && Bare(b).Id() == b.Id();
    SameIdSameMessage(ms, a, b);
  }

  /**
   With the queue empty and every task ended, each accepted message was consumed or
   dead-lettered, exactly once, and the error queue holds one copy of it if it was
   dead-lettered and none otherwise.
   */
  lemma DrainedStateIsFinal(permits: nat, maximum: int, steps: seq<Step>, w: World, m: Message)
    requires Deliveries.Run(Initial(permits, maximum), steps) == Some(w)
    requires SmoothRun(Initial(permits, maximum), steps)
    requires w.queue == [] && (forall t :: t in w.tasks ==> Ended(t)) && m in w.accepted
    ensures Count(w.tasks, EndedAs(m, Consumed)) + Count(w.tasks, EndedAs(m, Buried)) == 1
    ensures Copies(w.dead, m) == Count(w.tasks, EndedAs(m, Buried))
    ensures Receives(w, m) <= Bound(maximum)
  {
    RunKeepsDrain(permits, maximum, steps, w);
    forall t | t in w.tasks && Ended(t) && t.message == m
      ensures !CloseAborts(t.left)
    {
      assert LeftOk(t);
    }
    NoMessageIsLost(permits, maximum, steps, w, m);
    CountZero(w.tasks, Awaiting(m));
    AtMostOnce(w.accepted, m);
    ReceivesAreBounded(w, permits, m);
    BuriedInDeed(w, permits, m);
    DeadLettersAreCopies(permits, maximum, steps, w, m);
  }

  /** Where nothing fails after the verdict, tasks that delivered a dead letter end as buried. */
  lemma BuriedInDeed(w: World, permits: nat, m: Message)
    requires DrainInv(w, permits) && (forall t :: t in w.tasks ==> Ended(t)) && m in w.accepted
    ensures Count(w.tasks, BuriedFor(m)) == Count(w.tasks, EndedAs(m, Buried))
  {
    forall t | t in w.tasks
      ensures BuriedFor(m)(t) <==> EndedAs(m, Buried)(t)
    {
      assert TaskOk(t) && LeftOk(t);
      AllDoneVerdict(t.left, FirstKind(t.left));
      if Bare(t.message) == Bare(m) { SameBareSameMessage(w.accepted, t.message, m); }
    }
    CountSame(w.tasks, BuriedFor(m), EndedAs(m, Buried));
  }

  /******* Draining never gets stuck *******/

  lemma SmoothCloseSucceeds(t: Task)
    requires TaskOk(t) && LeftOk(t) && Ended(t)
    ensures t.phase.Released?
  {
    EndedTask(t);
    LeakCondition(t.left);
    AllDoneVerdict(t.left, Close);
  }

  /** While anything is queued or unended, some step makes progress: nobody has to give up a permit first. */
  lemma DrainingMakesProgress(permits: nat, maximum: int, steps: seq<Step>, w: World) returns (s: Step)
    requires Deliveries.Run(Initial(permits, maximum), steps) == Some(w)
    requires SmoothRun(Initial(permits, maximum), steps) && permits >= 1
    requires w.queue != [] || exists t :: t in w.tasks && !Ended(t)
    ensures Enabled(w, s) && Smooth(w, s)
    ensures s.Acquire? || s.Receive? || s.Succeed? || s.Bury? || s.Advance?
  {
    RunKeepsDrain(permits, maximum, steps, w);
    if t :| t in w.tasks && !Ended(t) {
      var i :| 0 <= i < |w.tasks| && w.tasks[i] == t;
      s := if t.phase.Handling? then Succeed(i) else if t.phase.Poisoned? then Bury(i, "", Handed) else Advance(i);
    } else {
      forall t | t in w.tasks
        ensures !HoldsPermit()(t)
      {
        assert TaskOk(t) && LeftOk(t);
        SmoothCloseSucceeds(t);
      }
      CountZero(w.tasks, HoldsPermit());
      s := if w.holding then Receive else Acquire;
    }
  }

  lemma RestIsFinal(permits: nat, maximum: int, steps: seq<Step>, w: World)
    requires Deliveries.Run(Initial(permits, maximum), steps) == Some(w)
    requires SmoothRun(Initial(permits, maximum), steps) && permits >= 1 && AtRest(w)
    ensures w.queue == [] && AllSettled(w)
  {
    if w.queue != [] || exists t :: t in w.tasks && !Ended(t) {
      var _ := DrainingMakesProgress(permits, maximum, steps, w);
    }
    forall m | m in w.accepted
      ensures SettledOnce(w, m)
    {
      DrainedStateIsFinal(permits, maximum, steps, w, m);
    }
  }

  /** Consumed with no copy in the error queue, or dead-lettered with one. */
  ghost predicate SettledOnce(w: World, m: Message) {
    && Count(w.tasks, EndedAs(m, Consumed)) + Count(w.tasks, EndedAs(m, Buried)) == 1
    && Copies(w.dead, m) == Count(w.tasks, EndedAs(m, Buried))
  }

  ghost predicate AllSettled(w: World) { forall m :: m in w.accepted ==> SettledOnce(w, m) }

  /**
   From any reachable state the number of draining steps of a run is bounded by a number fixed by
   that state, plus one for each registration and each permit given back, and eleven for each
   receive that a newly accepted message may need. A run that no draining step can extend has
   consumed every message once, or dead-lettered it once.
   */
  lemma DrainingEndsWell(permits: nat, maximum: int, steps: seq<Step>, more: seq<Step>, w: World, w': World)
    requires SmoothRun(Initial(permits, maximum), steps + more)
    requires Deliveries.Run(Initial(permits, maximum), steps) == Some(w)
    requires Deliveries.Run(Initial(permits, maximum), steps + more) == Some(w')
    ensures DrainingSteps(more) <= StepsToDrain(w) + AddedBy(more, Bound(maximum))
    ensures permits >= 1 && AtRest(w') ==> w'.queue == [] && AllSettled(w')
  {
    DrainingIsBounded(Initial(permits, maximum), steps, more, w, w');
    RunKeepsDrain(permits, maximum, steps + more, w');
    BudgetIsNat(w', permits);
    if permits >= 1 && AtRest(w') { RestIsFinal(permits, maximum, steps + more, w'); }
  }
}

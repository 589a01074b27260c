/**
 The worker's delivery protocol as a state machine: the receive loop takes permits and pops
 messages, any number of background tasks interleave action by action, and the retry step
 of each task commits, requeues or dead-letters its message.
 */
module Deliveries {
  import opened Messages
  import opened TransactionContexts
  import opened Retries
  import opened TaskSteps

  /** `accepted` is every message ever put on the input queue; ended tasks stay in `tasks`. */
  datatype World = World(
    accepted: seq<Message>, queue: seq<Message>, dead: seq<Message>,
    tracker: Tracker, free: nat, holding: bool, tasks: seq<Task>)

  function Initial(permits: nat, maximum: int): World {
    World([], [], [], Tracker(map[], {}, maximum), permits, false, [])
  }

  /** How the error handler ends: it may also fail after it has delivered the copy. */
  datatype Handing = Refused | Handed | HandedThenFailed(cleaned: bool)

  datatype Step =
    | Accept(message: Message)
    | Acquire
    | Receive
    | GiveBack
    | Register(i: nat, kind: Kind, action: Action)
    | Watch(i: nat, handler: ErrorAction)
    | Succeed(i: nat)
    | Fail(i: nat, error: Exn, failFast: bool)
    | Abandon(i: nat)
    | Bury(i: nat, details: string, handing: Handing)
    | Advance(i: nat)

  /** The task leaves its pipeline with this verdict and starts to complete or close. */
  function Exit(t: Task, v: Verdict): (r: Task)
    ensures !InPipeline(r)
  {
    Begun(t.(left := t.ctx.(verdict := v)))
  }

  function NewTask(m: Message): Task {
    Task(m, EMPTY_CTX.(lists := map[Nack := [RequeueAction(m)]]), Handling, false, None, EMPTY_CTX)
  }

  predicate At(w: World, i: nat, p: Phase) { i < |w.tasks| && w.tasks[i].phase == p }

  /** GiveBack is a receive that brings no message: an empty queue, an error or a cancellation. */
  predicate Enabled(w: World, s: Step) {
    match s
    case Accept(_) => true
    case Acquire => w.free > 0 && !w.holding
    case Receive => w.holding && w.queue != []
    case GiveBack => w.holding
    case Register(i, _, a) => At(w, i, Handling) && !a.effect.Requeue?
    case Watch(i, _) => At(w, i, Handling)
    case Succeed(i) => At(w, i, Handling)
    case Fail(i, _, _) => At(w, i, Handling)
    case Abandon(i) => At(w, i, Handling)
    case Bury(i, _, _) => At(w, i, Poisoned)
    case Advance(i) => i < |w.tasks| && w.tasks[i].phase.Running?
  }

  /** A task changes; what it requeues, buries and releases reaches the shared state. */
  function Put(w: World, i: nat, t: Task): World
    requires i < |w.tasks|
  {
    var was := w.tasks[i];
    w.(tasks := w.tasks[i := t],
       queue := w.queue + (if t.requeued && !was.requeued then [t.message] else []),
       dead := w.dead + (if t.deadLetter.Some? && was.deadLetter.None? then [t.deadLetter.value] else []),
       free := w.free + (if t.phase.Released? && !was.phase.Released? then 1 else 0))
  }

  function AfterFailure(t: Task, tracker: Tracker): Task {
    if tracker.FailedTooManyTimes(t.message.Id()) then t.(phase := Poisoned) else Exit(t, Decided(false, false))
  }

  function AfterBurial(t: Task, details: string, handing: Handing): Task {
    var handed := t.(deadLetter := Some(DeadLetterCopy(t.message, details)));
    match handing
    case Refused => Exit(t, Undecided)
    case Handed => Exit(handed, Decided(false, true))
    case HandedThenFailed(_) => Exit(handed, Undecided)
  }

  function Apply(w: World, s: Step): World
    requires Enabled(w, s)
  {
    match s
    case Accept(m) => w.(accepted := w.accepted + [m], queue := w.queue + [m])
    case Acquire => w.(free := w.free - 1, holding := true)
    case Receive => w.(queue := w.queue[1..], holding := false, tasks := w.tasks + [NewTask(w.queue[0])])
    case GiveBack => w.(free := w.free + 1, holding := false)
    case Register(i, k, a) =>
      var t := w.tasks[i];
      Put(w, i, t.(ctx := t.ctx.With(k, t.ctx.Pending(k) + [a])))
    case Watch(i, h) =>
      var t := w.tasks[i];
      Put(w, i, t.(ctx := t.ctx.(onError := t.ctx.onError + [h])))
    case Succeed(i) => Put(w, i, Exit(w.tasks[i], Decided(true, true)))
    case Fail(i, e, failFast) =>
      var t := w.tasks[i];
      var tracker := w.tracker.Register(t.message.Id(), e, failFast);
      Put(w, i, AfterFailure(t, tracker)).(tracker := tracker)
    case Abandon(i) => Put(w, i, Exit(w.tasks[i], Undecided))
    case Bury(i, details, handing) =>
      var t := w.tasks[i];
      var cleaned := handing.Handed? || (handing.HandedThenFailed? && handing.cleaned);
      Put(w, i, AfterBurial(t, details, handing)).(
        tracker := if cleaned then w.tracker.CleanUp(t.message.Id()) else w.tracker)
    case Advance(i) => Put(w, i, AdvanceTask(w.tasks[i]))
  }

  function Run(w: World, steps: seq<Step>): Option<World> {
    if steps == [] then Some(w) else
      var before := Run(w, steps[..|steps| - 1]);
      if before.Some? && Enabled(before.value, steps[|steps| - 1])
      then Some(Apply(before.value, steps[|steps| - 1])) else None
  }

  /******* Counting tasks *******/

  function Count(tasks: seq<Task>, p: Task -> bool): nat {
    if tasks == [] then 0 else
      Count(tasks[..|tasks| - 1], p) + if p(tasks[|tasks| - 1]) then 1 else 0
  }

  lemma {:induction false} CountUpdate(tasks: seq<Task>, i: nat, t: Task, p: Task -> bool)
    requires i < |tasks|
    ensures Count(tasks[i := t], p) + (if p(tasks[i]) then 1 else 0) == Count(tasks, p) + if p(t) then 1 else 0
  {
    var last := |tasks| - 1;
    if i == last {
      assert tasks[i := t][..last] == tasks[..last];
    } else {
      CountUpdate(tasks[..last], i, t, p);
      assert tasks[i := t][..last] == tasks[..last][i := t];
    }
  }

  lemma CountSnoc(tasks: seq<Task>, t: Task, p: Task -> bool)
    ensures Count(tasks + [t], p) == Count(tasks, p) + if p(t) then 1 else 0
  {
  }

  lemma {:induction false} CountSplit(tasks: seq<Task>, p: Task -> bool, q: Task -> bool, r: Task -> bool)
    requires forall t :: t in tasks ==> (p(t) <==> q(t) || r(t)) && !(q(t) && r(t))
    ensures Count(tasks, p) == Count(tasks, q) + Count(tasks, r)
  {
    if tasks != [] { CountSplit(tasks[..|tasks| - 1], p, q, r); }
  }

  lemma {:induction false} CountPositive(tasks: seq<Task>, p: Task -> bool) returns (i: nat)
    requires Count(tasks, p) > 0
    ensures i < |tasks| && p(tasks[i])
  {
    i := |tasks| - 1;
    if !p(tasks[i]) { i := CountPositive(tasks[..|tasks| - 1], p); }
  }

  lemma {:induction false} CountZero(tasks: seq<Task>, p: Task -> bool)
    requires forall t :: t in tasks ==> !p(t)
    ensures Count(tasks, p) == 0
  {
    if tasks != [] { CountZero(tasks[..|tasks| - 1], p); }
  }

  function Unreturned(m: Message): Task -> bool { (t: Task) => t.message == m && !t.requeued }

  function HoldsPermit(): Task -> bool { (t: Task) => !t.phase.Released? }

  function BuriedAs(copy: Message): Task -> bool { (t: Task) => t.deadLetter == Some(copy) }

  /******* The invariant *******/

  predicate TaskOk(t: Task) {
    && OneRequeue(t)
    && (if InPipeline(t) then
          Unstarted(t.ctx) && t.ctx.verdict.Undecided? && !t.requeued && t.deadLetter.None?
        else
          && Unstarted(t.left) && RequeueFirst(t.left, t.message)
          && Drive(t) == Drive(Begun(t))
          && (t.left.verdict == Decided(false, true) ==> t.deadLetter.Some?)
          && (t.deadLetter.Some? ==> t.left.verdict in {Decided(false, true), Undecided})
          && (t.deadLetter.Some? ==> IsDeadLetterOf(t.deadLetter.value, t.message))
          && (t.left.verdict.Decided? && t.left.verdict.commit ==> t.left.verdict.ack))
  }

  ghost predicate Inv(w: World, permits: nat) {
    && w.free + (if w.holding then 1 else 0) + Count(w.tasks, HoldsPermit()) == permits
    && (forall t :: t in w.tasks ==> TaskOk(t))
    && (forall m :: multiset(w.accepted)[m] == multiset(w.queue)[m] + Count(w.tasks, Unreturned(m)))
    && (forall c :: multiset(w.dead)[c] == Count(w.tasks, BuriedAs(c)))
  }

  /** What a task may change about itself. */
  predicate Follows(t: Task, t': Task) {
    && t'.message == t.message
    && (t.requeued ==> t'.requeued)
    && (t.deadLetter.Some? ==> t'.deadLetter == t.deadLetter)
    && !t.phase.Released?
    && TaskOk(t')
  }

  lemma PutCountsMessage(w: World, i: nat, t: Task, m: Message)
    requires i < |w.tasks| && t.message == w.tasks[i].message && (w.tasks[i].requeued ==> t.requeued)
    requires multiset(w.accepted)[m] == multiset(w.queue)[m] + Count(w.tasks, Unreturned(m))
    ensures var w' := Put(w, i, t);
            multiset(w'.accepted)[m] == multiset(w'.queue)[m] + Count(w'.tasks, Unreturned(m))
  {
    CountUpdate(w.tasks, i, t, Unreturned(m));
  }

  lemma PutCountsCopy(w: World, i: nat, t: Task, c: Message)
    requires i < |w.tasks| && (w.tasks[i].deadLetter.Some? ==> t.deadLetter == w.tasks[i].deadLetter)
    requires multiset(w.dead)[c] == Count(w.tasks, BuriedAs(c))
    ensures var w' := Put(w, i, t);
            multiset(w'.dead)[c] == Count(w'.tasks, BuriedAs(c))
  {
    CountUpdate(w.tasks, i, t, BuriedAs(c));
  }

  lemma PutKeepsInv(w: World, permits: nat, i: nat, t: Task)
    requires Inv(w, permits) && i < |w.tasks| && Follows(w.tasks[i], t)
    ensures Inv(Put(w, i, t), permits)
  {
    var w' := Put(w, i, t);
    CountUpdate(w.tasks, i, t, HoldsPermit());
    forall m
      ensures multiset(w'.accepted)[m] == multiset(w'.queue)[m] + Count(w'.tasks, Unreturned(m))
    {
      PutCountsMessage(w, i, t, m);
    }
    forall c
      ensures multiset(w'.dead)[c] == Count(w'.tasks, BuriedAs(c))
    {
      PutCountsCopy(w, i, t, c);
    }
  }

  lemma ExitFollows(t: Task, deadLetter: Option<Message>, v: Verdict)
    requires TaskOk(t) && InPipeline(t)
    requires v == Decided(false, true) ==> deadLetter.Some?
    requires deadLetter.Some? ==> v in {Decided(false, true), Undecided} && IsDeadLetterOf(deadLetter.value, t.message)
    requires v.Decided? && v.commit ==> v.ack
    ensures Follows(t, Exit(t.(deadLetter := deadLetter), v))
  {
    var left := t.ctx.(verdict := v);
    var t0 := AtExit(t.(deadLetter := deadLetter, left := left));
    assert forall k: Kind :: left.Pending(k) == t.ctx.Pending(k);
    forall k: Kind, stage: Stage
      ensures OneRequeue(TakeList(t0, k, stage))
    {
      TakeListOneRequeue(t0, k, stage);
    }
  }

  lemma RegisterFollows(t: Task, k: Kind, a: Action)
    requires TaskOk(t) && InPipeline(t) && !a.effect.Requeue?
    ensures Follows(t, t.(ctx := t.ctx.With(k, t.ctx.Pending(k) + [a])))
  {
    var c := t.ctx.With(k, t.ctx.Pending(k) + [a]);
    forall j: Kind
      ensures c.Pending(j) == if j == k then t.ctx.Pending(j) + [a] else t.ctx.Pending(j)
    {
    }
    var nacks := t.ctx.Pending(Nack);
    assert (nacks + [a])[1..] == nacks[1..] + [a];
  }

  lemma WatchFollows(t: Task, h: ErrorAction)
    requires TaskOk(t) && InPipeline(t)
    ensures Follows(t, t.(ctx := t.ctx.(onError := t.ctx.onError + [h])))
  {
    assert forall j: Kind :: t.ctx.(onError := t.ctx.onError + [h]).Pending(j) == t.ctx.Pending(j);
  }

  lemma AdvanceFollows(t: Task)
    requires TaskOk(t) && t.phase.Running?
    ensures Follows(t, AdvanceTask(t))
  {
    AdvanceOneRequeue(t);
    AdvanceShrinks(t);
    var t' := AdvanceTask(t);
    assert Begun(t') == Begun(t);
    assert Drive(t) == Drive(t');
  }

  lemma NewTaskOk(m: Message)
    ensures TaskOk(NewTask(m)) && !NewTask(m).requeued
  {
  }

  lemma ReceiveKeepsInv(w: World, permits: nat)
    requires Inv(w, permits) && Enabled(w, Receive)
    ensures Inv(Apply(w, Receive), permits)
  {
    var w', m, t := Apply(w, Receive), w.queue[0], NewTask(w.queue[0]);
    NewTaskOk(m);
    CountSnoc(w.tasks, t, HoldsPermit());
    assert w.queue == [m] + w'.queue;
    forall n
      ensures multiset(w'.accepted)[n] == multiset(w'.queue)[n] + Count(w'.tasks, Unreturned(n))
    {
      CountSnoc(w.tasks, t, Unreturned(n));
      assert multiset(w.accepted)[n] == multiset(w.queue)[n] + Count(w.tasks, Unreturned(n));
    }
    forall c
      ensures multiset(w'.dead)[c] == Count(w'.tasks, BuriedAs(c))
    {
      CountSnoc(w.tasks, t, BuriedAs(c));
    }
  }

  lemma AcceptKeepsInv(w: World, permits: nat, m: Message)
    requires Inv(w, permits)
    ensures Inv(Apply(w, Accept(m)), permits)
  {
    var w' := Apply(w, Accept(m));
    forall n
      ensures multiset(w'.accepted)[n] == multiset(w'.queue)[n] + Count(w'.tasks, Unreturned(n))
    {
      assert multiset(w.accepted)[n] == multiset(w.queue)[n] + Count(w.tasks, Unreturned(n));
    }
  }

  lemma TrackerIsIndependent(w: World, permits: nat, tracker: Tracker)
    requires Inv(w, permits)
    ensures Inv(w.(tracker := tracker), permits)
  {
  }

  lemma StepKeepsInv(w: World, permits: nat, s: Step)
    requires Inv(w, permits) && Enabled(w, s)
    ensures Inv(Apply(w, s), permits)
  {
    match s
    case Accept(m) => AcceptKeepsInv(w, permits, m);
    case Acquire =>
    case Receive => ReceiveKeepsInv(w, permits);
    case GiveBack =>
    case Register(i, k, a) =>
      RegisterFollows(w.tasks[i], k, a);
      PutKeepsInv(w, permits, i, w.tasks[i].(ctx := w.tasks[i].ctx.With(k, w.tasks[i].ctx.Pending(k) + [a])));
    case Watch(i, h) =>
      WatchFollows(w.tasks[i], h);
      PutKeepsInv(w, permits, i, w.tasks[i].(ctx := w.tasks[i].ctx.(onError := w.tasks[i].ctx.onError + [h])));
    case Succeed(i) =>
      ExitFollows(w.tasks[i], None, Decided(true, true));
      PutKeepsInv(w, permits, i, Exit(w.tasks[i], Decided(true, true)));
    case Fail(i, e, failFast) => FailKeepsInv(w, permits, i, e, failFast);
    case Abandon(i) =>
      ExitFollows(w.tasks[i], None, Undecided);
      PutKeepsInv(w, permits, i, Exit(w.tasks[i], Undecided));
    case Bury(i, details, handing) => BuryKeepsInv(w, permits, i, details, handing);
    case Advance(i) =>
      AdvanceFollows(w.tasks[i]);
      PutKeepsInv(w, permits, i, AdvanceTask(w.tasks[i]));
  }

  lemma FailKeepsInv(w: World, permits: nat, i: nat, e: Exn, failFast: bool)
    requires Inv(w, permits) && At(w, i, Handling)
    ensures Inv(Apply(w, Fail(i, e, failFast)), permits)
  {
    var t := w.tasks[i];
    var tracker := w.tracker.Register(t.message.Id(), e, failFast);
    FailureFollows(t, tracker);
    PutKeepsInv(w, permits, i, AfterFailure(t, tracker));
    TrackerIsIndependent(Put(w, i, AfterFailure(t, tracker)), permits, tracker);
  }

  lemma FailureFollows(t: Task, tracker: Tracker)
    requires TaskOk(t) && t.phase.Handling?
    ensures Follows(t, AfterFailure(t, tracker))
  {
    if !tracker.FailedTooManyTimes(t.message.Id()) {
      ExitFollows(t, None, Decided(false, false));
      assert t.(deadLetter := None) == t;
    }
  }

  lemma BuryKeepsInv(w: World, permits: nat, i: nat, details: string, handing: Handing)
    requires Inv(w, permits) && At(w, i, Poisoned)
    ensures Inv(Apply(w, Bury(i, details, handing)), permits)
  {
    var t := w.tasks[i];
    var copy := Some(DeadLetterCopy(t.message, details));
    ExitFollows(t, None, Undecided);
    ExitFollows(t, copy, Decided(false, true));
    ExitFollows(t, copy, Undecided);
    PutKeepsInv(w, permits, i, AfterBurial(t, details, handing));
    TrackerIsIndependent(Put(w, i, AfterBurial(t, details, handing)), permits,
                         Apply(w, Bury(i, details, handing)).tracker);
  }

  lemma {:induction false} RunKeepsInv(permits: nat, maximum: int, steps: seq<Step>, w: World)
    requires Run(Initial(permits, maximum), steps) == Some(w)
    ensures Inv(w, permits)
  {
    if steps != [] {
      var before := Run(Initial(permits, maximum), steps[..|steps| - 1]).value;
      RunKeepsInv(permits, maximum, steps[..|steps| - 1], before);
      StepKeepsInv(before, permits, steps[|steps| - 1]);
    }
  }

  /******* Dead letters are copies of the messages they stand for *******/

  /** How many messages differ from m at most in their error details. */
  function Copies(ms: seq<Message>, m: Message): nat {
    if ms == [] then 0 else
      Copies(ms[..|ms| - 1], m) + if Bare(ms[|ms| - 1]) == Bare(m) then 1 else 0
  }

  /** The task delivered a dead letter that could stand for m. */
  function LetterFor(m: Message): Task -> bool {
    (t: Task) => t.deadLetter.Some? && Bare(t.deadLetter.value) == Bare(m)
  }

  /** The task delivered a dead letter for m, or for a message that differs only in error details. */
  function BuriedFor(m: Message): Task -> bool { (t: Task) => t.deadLetter.Some? && Bare(t.message) == Bare(m) }

  ghost predicate LettersOk(w: World) { forall m :: Copies(w.dead, m) == Count(w.tasks, LetterFor(m)) }

  lemma CopiesSnoc(ms: seq<Message>, c: Message, m: Message)
    ensures Copies(ms + [c], m) == Copies(ms, m) + if Bare(c) == Bare(m) then 1 else 0
  {
  }

  lemma PutKeepsLetters(w: World, i: nat, t: Task)
    requires LettersOk(w) && i < |w.tasks| && (w.tasks[i].deadLetter.Some? ==> t.deadLetter == w.tasks[i].deadLetter)
    ensures LettersOk(Put(w, i, t))
  {
    var w' := Put(w, i, t);
    forall m
      ensures Copies(w'.dead, m) == Count(w'.tasks, LetterFor(m))
    {
      CountUpdate(w.tasks, i, t, LetterFor(m));
      if t.deadLetter.Some? { CopiesSnoc(w.dead, t.deadLetter.value, m); }
      assert w.dead + [] == w.dead;
    }
  }

  lemma ReceiveKeepsLetters(w: World)
    requires LettersOk(w) && Enabled(w, Receive)
    ensures LettersOk(Apply(w, Receive))
  {
    var w' := Apply(w, Receive);
    forall m
      ensures Copies(w'.dead, m) == Count(w'.tasks, LetterFor(m))
    {
      CountSnoc(w.tasks, NewTask(w.queue[0]), LetterFor(m));
    }
  }

  lemma TrackerChangesNoLetter(w: World, tracker: Tracker)
    requires LettersOk(w)
    ensures LettersOk(w.(tracker := tracker))
  {
  }

  lemma BuryKeepsLetters(w: World, permits: nat, i: nat, details: string, handing: Handing)
    requires Inv(w, permits) && LettersOk(w) && At(w, i, Poisoned)
    ensures LettersOk(Apply(w, Bury(i, details, handing)))
  {
    var t := w.tasks[i];
    assert TaskOk(t);
    PutKeepsLetters(w, i, AfterBurial(t, details, handing));
    TrackerChangesNoLetter(Put(w, i, AfterBurial(t, details, handing)), Apply(w, Bury(i, details, handing)).tracker);
  }

  lemma StepKeepsLetters(w: World, permits: nat, s: Step)
    requires Inv(w, permits) && LettersOk(w) && Enabled(w, s)
    ensures LettersOk(Apply(w, s))
  {
    match s
    case Accept(_) =>
    case Acquire =>
    case Receive => ReceiveKeepsLetters(w);
    case GiveBack =>
    case Register(i, k, a) =>
      PutKeepsLetters(w, i, w.tasks[i].(ctx := w.tasks[i].ctx.With(k, w.tasks[i].ctx.Pending(k) + [a])));
    case Watch(i, h) =>
      PutKeepsLetters(w, i, w.tasks[i].(ctx := w.tasks[i].ctx.(onError := w.tasks[i].ctx.onError + [h])));
    case Succeed(i) => PutKeepsLetters(w, i, Exit(w.tasks[i], Decided(true, true)));
    case Fail(i, e, failFast) =>
      var tracker := w.tracker.Register(w.tasks[i].message.Id(), e, failFast);
      PutKeepsLetters(w, i, AfterFailure(w.tasks[i], tracker));
      TrackerChangesNoLetter(Put(w, i, AfterFailure(w.tasks[i], tracker)), tracker);
    case Abandon(i) => PutKeepsLetters(w, i, Exit(w.tasks[i], Undecided));
    case Bury(i, details, handing) => BuryKeepsLetters(w, permits, i, details, handing);
    case Advance(i) =>
      AdvanceFollows(w.tasks[i]);
      PutKeepsLetters(w, i, AdvanceTask(w.tasks[i]));
  }

  lemma {:induction false} RunKeepsLetters(permits: nat, maximum: int, steps: seq<Step>, w: World)
    requires Run(Initial(permits, maximum), steps) == Some(w)
    ensures LettersOk(w)
  {
    if steps != [] {
      var before := Run(Initial(permits, maximum), steps[..|steps| - 1]).value;
      RunKeepsInv(permits, maximum, steps[..|steps| - 1], before);
      RunKeepsLetters(permits, maximum, steps[..|steps| - 1], before);
      StepKeepsLetters(before, permits, steps[|steps| - 1]);
    }
  }

  lemma {:induction false} CountSame(tasks: seq<Task>, p: Task -> bool, q: Task -> bool)
    requires forall t :: t in tasks ==> (p(t) <==> q(t))
    ensures Count(tasks, p) == Count(tasks, q)
  {
    if tasks != [] { CountSame(tasks[..|tasks| - 1], p, q); }
  }

  lemma {:induction false} CountAtMost(tasks: seq<Task>, p: Task -> bool, q: Task -> bool)
    requires forall t :: t in tasks && p(t) ==> q(t)
    ensures Count(tasks, p) <= Count(tasks, q)
  {
    if tasks != [] { CountAtMost(tasks[..|tasks| - 1], p, q); }
  }

  /**
   In every state of every run the error queue holds, for any message, one copy for each task
   that buried it, or buried a message that differs from it only in error details.
   */
  lemma DeadLettersAreCopies(permits: nat, maximum: int, steps: seq<Step>, w: World, m: Message)
    requires Run(Initial(permits, maximum), steps) == Some(w)
    ensures Copies(w.dead, m) == Count(w.tasks, BuriedFor(m))
    ensures forall t :: t in w.tasks && t.deadLetter.Some? ==> IsDeadLetterOf(t.deadLetter.value, t.message)
  {
    RunKeepsInv(permits, maximum, steps, w);
    RunKeepsLetters(permits, maximum, steps, w);
    forall t | t in w.tasks
      ensures t.deadLetter.Some? ==> IsDeadLetterOf(t.deadLetter.value, t.message)
      ensures LetterFor(m)(t) <==> BuriedFor(m)(t)
    {
      assert TaskOk(t);
      if t.deadLetter.Some? { DeadLettersDifferInDetails(t.deadLetter.value, t.message); }
    }
    CountSame(w.tasks, LetterFor(m), BuriedFor(m));
  }

  /******* No message is lost *******/

  function Awaiting(m: Message): Task -> bool { (t: Task) => t.message == m && !t.requeued && !Ended(t) }

  function EndedAs(m: Message, fate: Fate): Task -> bool {
    (t: Task) => t.message == m && Ended(t) && FateOf(t.left) == fate
  }

  /** The requeue of this task is still to run: first in its nack list, or next to run. */
  predicate RequeuePending(t: Task) {
    || LeadsWithRequeue(t.ctx.Pending(Nack), t.message)
    || (t.phase.Running? && t.phase.kind == Nack && LeadsWithRequeue(t.phase.todo, t.message))
  }

  /** An ended task is what its context at the end of the pipeline made it. */
  lemma EndedTask(t: Task)
    requires TaskOk(t) && Ended(t)
    ensures t.ctx == Concluded(t.left).0 && t.phase == PhaseAfterClose(Concluded(t.left).1)
    ensures t.requeued <==> FateOf(t.left).Returned?
  {
    var e := FinalTask(t);
    assert Drive(t) == t;
  }

  function EndedUnreturned(m: Message): Task -> bool { (t: Task) => t.message == m && !t.requeued && Ended(t) }

  function Lost(m: Message): Task -> bool { (t: Task) => EndedAs(m, Consumed)(t) || EndedAs(m, Gone)(t) }

  lemma PlacesOf(t: Task, m: Message)
    requires TaskOk(t)
    ensures Unreturned(m)(t) <==> Awaiting(m)(t) || EndedUnreturned(m)(t)
    ensures !(Awaiting(m)(t) && EndedUnreturned(m)(t))
    ensures EndedUnreturned(m)(t) <==> EndedAs(m, Buried)(t) || Lost(m)(t)
    ensures Awaiting(m)(t) ==> RequeuePending(t)
  {
    if Ended(t) { EndedTask(t); } else if !t.requeued { AwaitingHasRequeue(t); }
    assert Lost(m)(t) <==> EndedAs(m, Consumed)(t) || EndedAs(m, Gone)(t);
  }

  lemma AwaitingHasRequeue(t: Task)
    requires OneRequeue(t) && !t.requeued
    ensures RequeuePending(t)
  {
  }

  lemma CountPlaces(tasks: seq<Task>, m: Message)
    requires forall t :: t in tasks ==> TaskOk(t)
    ensures Count(tasks, Unreturned(m)) == Count(tasks, Awaiting(m))
              + Count(tasks, EndedAs(m, Consumed)) + Count(tasks, EndedAs(m, Buried)) + Count(tasks, EndedAs(m, Gone))
  {
    forall t | t in tasks
      ensures Unreturned(m)(t) <==> Awaiting(m)(t) || EndedUnreturned(m)(t)
      ensures !(Awaiting(m)(t) && EndedUnreturned(m)(t))
      ensures EndedUnreturned(m)(t) <==> EndedAs(m, Buried)(t) || Lost(m)(t)
    {
      PlacesOf(t, m);
    }
    CountSplit(tasks, Unreturned(m), Awaiting(m), EndedUnreturned(m));
    CountSplit(tasks, EndedUnreturned(m), EndedAs(m, Buried), Lost(m));
    CountSplit(tasks, Lost(m), EndedAs(m, Consumed), EndedAs(m, Gone));
  }

  /**
   Every copy of a message ever accepted is, at every moment of every run, in exactly one
   place: on the queue, held by one unended task whose requeue is still to run, consumed,
   buried, or gone.
   */
  lemma MessagesAreConserved(permits: nat, maximum: int, steps: seq<Step>, w: World, m: Message)
    requires Run(Initial(permits, maximum), steps) == Some(w)
    ensures multiset(w.accepted)[m] == multiset(w.queue)[m] + Count(w.tasks, Awaiting(m))
              + Count(w.tasks, EndedAs(m, Consumed)) + Count(w.tasks, EndedAs(m, Buried))
              + Count(w.tasks, EndedAs(m, Gone))
    ensures forall t :: t in w.tasks && Awaiting(m)(t) ==> RequeuePending(t)
  {
    RunKeepsInv(permits, maximum, steps, w);
    CountPlaces(w.tasks, m);
    forall t | t in w.tasks && Awaiting(m)(t)
      ensures RequeuePending(t)
    {
      PlacesOf(t, m);
    }
  }

  lemma {:induction false} CountMember(tasks: seq<Task>, p: Task -> bool, t: Task)
    requires t in tasks && p(t)
    ensures Count(tasks, p) > 0
  {
    var last := |tasks| - 1;
    assert tasks == tasks[..last] + [tasks[last]];
    if tasks[last] != t { CountMember(tasks[..last], p, t); }
  }

  /** What the final places mean. */
  lemma FinalPlaces(permits: nat, maximum: int, steps: seq<Step>, w: World, t: Task)
    requires Run(Initial(permits, maximum), steps) == Some(w)
    requires t in w.tasks && Ended(t)
    ensures FateOf(t.left).Consumed? ==>
              t.ctx.Ran(Commit) == t.left.Pending(Commit) && Verdicts(t.left.Pending(Commit)).Done?
    ensures FateOf(t.left).Buried? ==>
              && t.deadLetter.Some? && IsDeadLetterOf(t.deadLetter.value, t.message)
              && t.deadLetter.value in w.dead && t.ctx.Ran(Commit) == []
    ensures FateOf(t.left).Gone? <==> CloseAborts(t.left)
    ensures FateOf(t.left).Gone? ==> t.ctx.Ran(Nack) == [] && t.ctx.Ran(Ack) == [] && t.ctx.Ran(Commit) == []
    ensures t.phase.Crashed? <==> CloseLeaks(t.left)
  {
    RunKeepsInv(permits, maximum, steps, w);
    EndedTask(t);
    var e := FinalTask(t);
    LeakCondition(t.left);
    ConcludedEffect(t.left, Commit);
    ConcludedEffect(t.left, Ack);
    ConcludedEffect(t.left, Nack);
    StartedConcat(t.left.Pending(Commit), []);
    if t.deadLetter.Some? {
      var copy := t.deadLetter.value;
      assert multiset(w.dead)[copy] == Count(w.tasks, BuriedAs(copy));
      CountMember(w.tasks, BuriedAs(copy), t);
    }
  }

  /**
   A message with no aborted close among its tasks is never lost: each accepted copy is
   queued, held with its requeue pending, consumed or buried, and for each buried one the
   error queue holds a copy.
   */
  lemma NoMessageIsLost(permits: nat, maximum: int, steps: seq<Step>, w: World, m: Message)
    requires Run(Initial(permits, maximum), steps) == Some(w)
    requires forall t :: t in w.tasks && Ended(t) && t.message == m ==> !CloseAborts(t.left)
    ensures multiset(w.accepted)[m] == multiset(w.queue)[m] + Count(w.tasks, Awaiting(m))
              + Count(w.tasks, EndedAs(m, Consumed)) + Count(w.tasks, EndedAs(m, Buried))
    ensures Count(w.tasks, EndedAs(m, Buried)) <= Copies(w.dead, m)
  {
    MessagesAreConserved(permits, maximum, steps, w, m);
    CountZero(w.tasks, EndedAs(m, Gone));
    RunKeepsInv(permits, maximum, steps, w);
    DeadLettersAreCopies(permits, maximum, steps, w, m);
    forall t | t in w.tasks && EndedAs(m, Buried)(t)
      ensures BuriedFor(m)(t)
    {
      assert TaskOk(t);
    }
    CountAtMost(w.tasks, EndedAs(m, Buried), BuriedFor(m));
  }

  lemma RunSnoc(w: World, steps: seq<Step>, s: Step)
    ensures var before := Run(w, steps);
            Run(w, steps + [s]) ==
              if before.Some? && Enabled(before.value, s) then Some(Apply(before.value, s)) else None
  {
  }

  /** What one receive of the worker does: it takes a permit, and gives it back unless it brings a message. */
  lemma ReceivingIsSteps(w: World)
    requires w.free > 0 && !w.holding
    ensures Run(w, [Acquire] + [GiveBack]) == Some(w)
    ensures w.queue != [] ==>
              Run(w, [Acquire] + [Receive])
              == Some(w.(free := w.free - 1, queue := w.queue[1..], tasks := w.tasks + [NewTask(w.queue[0])]))
  {
    assert [Acquire][..0] == [];
    RunSnoc(w, [Acquire], GiveBack);
    RunSnoc(w, [Acquire], Receive);
  }

  /** What a burial does to task, error queue and tracker, for each way the error handler ends. */
  lemma BurialIs(w: World, i: nat, details: string, handing: Handing)
    requires At(w, i, Poisoned) && w.tasks[i].deadLetter.None?
    ensures var t, w' := w.tasks[i], Apply(w, Bury(i, details, handing));
            var delivered := handing.Handed? || handing.HandedThenFailed?;
            && w'.dead == w.dead + (if delivered then [DeadLetterCopy(t.message, details)] else [])
            && w'.tasks[i].left == t.ctx.(verdict := if handing.Handed? then Decided(false, true) else Undecided)
            && w'.tracker == (if handing.Handed? || handing == HandedThenFailed(true)
                              then w.tracker.CleanUp(t.message.Id()) else w.tracker)
  {
  }

  lemma ReceivedOne(m: Message, maximum: int)
    ensures Run(Initial(1, maximum), [Accept(m), Acquire, Receive])
            == Some(Initial(1, maximum).(accepted := [m], free := 0, tasks := [NewTask(m)]))
  {
    var w0 := Initial(1, maximum);
    assert [Accept(m)][..0] == [] && Run(w0, []) == Some(w0) && [] + [m] == [m];
    assert Run(w0, [Accept(m)]) == Some(w0.(accepted := [m], queue := [m]));
    RunSnoc(w0, [Accept(m)], Acquire);
    assert [Accept(m)] + [Acquire] == [Accept(m), Acquire];
    RunSnoc(w0, [Accept(m), Acquire], Receive);
    assert [Accept(m), Acquire] + [Receive] == [Accept(m), Acquire, Receive];
    assert [] + [NewTask(m)] == [NewTask(m)] && [m][1..] == [];
  }

  /** The handler's context once it registered a failing rollback and a failing on-error action. */
  function DoomedTask(m: Message, fails: Action, h: ErrorAction): Task {
    Task(m, EMPTY_CTX.(lists := map[Nack := [RequeueAction(m)], Rollback := [fails]], onError := [h]),
         Handling, false, None, EMPTY_CTX)
  }

  /** The rollback of an abandoned task raises, and so does the on-error action. */
  lemma ClosingAborts(w: World, m: Message, fails: Action, h: ErrorAction)
    requires w.tasks == [DoomedTask(m, fails, h)] && w.queue == [] && w.dead == [] && w.free == 0
    requires fails == Action(Custom(0), Raised(Failure(1))) && h == ErrorAction(map[Failure(1) := Raised(Failure(2))])
    ensures var w' := Apply(w, Abandon(0));
            && Enabled(w, Abandon(0)) && Enabled(w', Advance(0))
            && var end := Apply(w', Advance(0));
               && end.accepted == w.accepted && end.queue == [] && end.dead == [] && end.free == 1
               && |end.tasks| == 1 && end.tasks[0].phase.Released?
               && end.tasks[0].ctx.Ran(Commit) == [] && end.tasks[0].ctx.Ran(Nack) == []
  {
  }

  lemma Dooms(w: World, m: Message, fails: Action, h: ErrorAction)
    requires w.tasks == [NewTask(m)] && w.queue == [] && w.dead == [] && !fails.effect.Requeue?
    ensures var w' := Apply(w, Register(0, Rollback, fails));
            Enabled(w, Register(0, Rollback, fails)) && Enabled(w', Watch(0, h))
            && Apply(w', Watch(0, h)) == w.(tasks := [DoomedTask(m, fails, h)])
  {
    var w' := Apply(w, Register(0, Rollback, fails));
    assert [] + [fails] == [fails] && [] + [h] == [h];
    assert w'.tasks[0].ctx.lists == map[Nack := [RequeueAction(m)], Rollback := [fails]];
  }

  /** The excluded case is real: a cancelled handler, a rollback that raises, an on-error action that raises too. */
  lemma AnAbortedCloseLosesTheMessage(m: Message, maximum: int) returns (steps: seq<Step>, w: World)
    ensures Run(Initial(1, maximum), steps) == Some(w)
    ensures w.accepted == [m] && w.queue == [] && w.dead == [] && w.free == 1
    ensures |w.tasks| == 1 && w.tasks[0].phase.Released? && w.tasks[0].ctx.Ran(Commit) == []
            && w.tasks[0].ctx.Ran(Nack) == []
  {
    var fails, h := Action(Custom(0), Raised(Failure(1))), ErrorAction(map[Failure(1) := Raised(Failure(2))]);
    var w0, s0 := Initial(1, maximum), [Accept(m), Acquire, Receive];
    var s1 := s0 + [Register(0, Rollback, fails)];
    var s2 := s1 + [Watch(0, h)];
    var s3 := s2 + [Abandon(0)];
    steps := s3 + [Advance(0)];
    ReceivedOne(m, maximum);
    Dooms(Run(w0, s0).value, m, fails, h);
    ClosingAborts(Run(w0, s0).value.(tasks := [DoomedTask(m, fails, h)]), m, fails, h);
    RunSnoc(w0, s0, Register(0, Rollback, fails));
    RunSnoc(w0, s1, Watch(0, h));
    RunSnoc(w0, s2, Abandon(0));
    RunSnoc(w0, s3, Advance(0));
    w := Run(w0, steps).value;
  }

  /******* A buried message that comes back *******/

  /** The handler's context once it registered a rollback that fails. */
  function RejectedTask(m: Message, fails: Action): Task {
    Task(m, EMPTY_CTX.(lists := map[Nack := [RequeueAction(m)], Rollback := [fails]]), Handling, false, None, EMPTY_CTX)
  }

  function BuriedTask(m: Message, fails: Action, copy: Message): Task {
    Exit(RejectedTask(m, fails).(phase := Poisoned, deadLetter := Some(copy)), Decided(false, true))
  }

  /** After dead-lettering, the rollback fails and the requeue runs. */
  lemma RollbackFailsAndRequeues(m: Message, fails: Action, copy: Message)
    requires fails == Action(Custom(0), Raised(Failure(1)))
    ensures var t := BuriedTask(m, fails, copy);
            && t.phase == Running(Rollback, [fails], Completing) && !t.requeued && t.deadLetter == Some(copy)
            && var t1 := AdvanceTask(t);
               && t1.phase == Running(Nack, [RequeueAction(m)], Failing) && !t1.requeued && t1.deadLetter == Some(copy)
               && var t2 := AdvanceTask(t1);
                  t2.message == m && t2.requeued && !t2.phase.Released? && t2.deadLetter == Some(copy)
  {
    var t := BuriedTask(m, fails, copy);
    assert t.ctx.Pending(Rollback) == [] && t.ctx.Pending(Nack) == [RequeueAction(m)];
    var ran := RunAction(t, fails);
    assert ran.ctx.Pending(Nack) == [RequeueAction(m)];
  }

  lemma RejectRegisters(w: World, m: Message, fails: Action)
    requires w.tasks == [NewTask(m)] && !fails.effect.Requeue?
    ensures var register := Register(0, Rollback, fails);
            Enabled(w, register) && Apply(w, register) == w.(tasks := [RejectedTask(m, fails)])
  {
    var w' := Apply(w, Register(0, Rollback, fails));
    assert [] + [fails] == [fails];
    assert w'.tasks[0].ctx.lists == map[Nack := [RequeueAction(m)], Rollback := [fails]];
    assert w'.tasks == [RejectedTask(m, fails)];
  }

  lemma RejectFails(w: World, m: Message, fails: Action, e: Exn)
    requires w.tasks == [RejectedTask(m, fails)]
    ensures var fail := Fail(0, e, true);
            && Enabled(w, fail)
            && var w' := Apply(w, fail);
               w' == w.(tasks := [RejectedTask(m, fails).(phase := Poisoned)], tracker := w'.tracker)
  {
    var w' := Apply(w, Fail(0, e, true));
    assert w'.tasks == [RejectedTask(m, fails).(phase := Poisoned)];
  }

  lemma RejectBuries(w: World, m: Message, fails: Action, details: string)
    requires w.tasks == [RejectedTask(m, fails).(phase := Poisoned)] && w.dead == []
    ensures var bury, copy := Bury(0, details, Handed), DeadLetterCopy(m, details);
            && Enabled(w, bury)
            && var w' := Apply(w, bury);
               w' == w.(tasks := [BuriedTask(m, fails, copy)], dead := [copy], tracker := w'.tracker)
  {
    var w' := Apply(w, Bury(0, details, Handed));
    assert w'.tasks == [BuriedTask(m, fails, DeadLetterCopy(m, details))];
    assert [] + [DeadLetterCopy(m, details)] == [DeadLetterCopy(m, details)];
  }

  /** A task alone in the world moves on and puts its message back. */
  lemma AdvanceRequeues(w: World, t: Task, t': Task)
    requires w.tasks == [t] && t.phase.Running? && AdvanceTask(t) == t' && !t.requeued && t'.requeued && w.queue == []
    requires t'.deadLetter == t.deadLetter && !t'.phase.Released?
    ensures Enabled(w, Advance(0)) && Apply(w, Advance(0)) == w.(tasks := [t'], queue := [t'.message])
  {
    assert [] + [t'.message] == [t'.message];
  }

  /** The message is in the error queue and back on its own: its rollback failed once it had been dead-lettered. */
  lemma ABuriedMessageComesBack(m: Message, maximum: int, details: string) returns (steps: seq<Step>, w: World)
    ensures Run(Initial(1, maximum), steps) == Some(w)
    ensures w.accepted == [m] && w.queue == [m] && w.dead == [DeadLetterCopy(m, details)]
  {
    var fails, e := Action(Custom(0), Raised(Failure(1))), Failure(0);
    var copy, w0, s0 := DeadLetterCopy(m, details), Initial(1, maximum), [Accept(m), Acquire, Receive];
    ReceivedOne(m, maximum);
    var w1 := Run(w0, s0).value;
    RejectRegisters(w1, m, fails);
    RunSnoc(w0, s0, Register(0, Rollback, fails));
    var s1, w2 := s0 + [Register(0, Rollback, fails)], Apply(w1, Register(0, Rollback, fails));
    RejectFails(w2, m, fails, e);
    RunSnoc(w0, s1, Fail(0, e, true));
    var s2, w3 := s1 + [Fail(0, e, true)], Apply(w2, Fail(0, e, true));
    RejectBuries(w3, m, fails, details);
    RunSnoc(w0, s2, Bury(0, details, Handed));
    var s3 := s2 + [Bury(0, details, Handed)];
    w := Apply(w3, Bury(0, details, Handed));
    RollbackFailsAndRequeues(m, fails, copy);
    var t := BuriedTask(m, fails, copy);
    AdvanceAlone(w, t, AdvanceTask(t));
    RunSnoc(w0, s3, Advance(0));
    w := w.(tasks := [AdvanceTask(t)]);
    AdvanceRequeues(w, AdvanceTask(t), AdvanceTask(AdvanceTask(t)));
    RunSnoc(w0, s3 + [Advance(0)], Advance(0));
    steps := s3 + [Advance(0)] + [Advance(0)];
    w := Run(w0, steps).value;
  }

  /******* Permits *******/

  /**
   Free permits, the receiver's permit and the tasks that have not returned theirs always add
   up to the maximum. A permit returns only after its context has completed and closed, and
   fails to return exactly when the lists of the context, as the pipeline left it, let a
   `BaseException` out of the close.
   */
  lemma PermitsAreConserved(permits: nat, maximum: int, steps: seq<Step>, w: World)
    requires Run(Initial(permits, maximum), steps) == Some(w)
    ensures w.free + (if w.holding then 1 else 0) + Count(w.tasks, HoldsPermit()) == permits
    ensures forall t :: t in w.tasks && Ended(t) ==>
              && t.ctx == Concluded(t.left).0
              && (t.phase.Released? <==> !CloseLeaks(t.left))
  {
    RunKeepsInv(permits, maximum, steps, w);
    forall t | t in w.tasks && Ended(t)
      ensures t.ctx == Concluded(t.left).0 && (t.phase.Released? <==> !CloseLeaks(t.left))
    {
      EndedTask(t);
      var e := FinalTask(t);
      LeakCondition(t.left);
    }
  }

  /** A handler's close action that is going to be cancelled. */
  function LeakingTask(m: Message, a: Action): Task {
    Task(m, EMPTY_CTX.(lists := map[Nack := [RequeueAction(m)], Close := [a]]), Handling, false, None, EMPTY_CTX)
  }

  /** It succeeds, its commit and ack lists are empty, and its close action is cancelled. */
  lemma LeakingTaskEnds(m: Message, a: Action)
    requires a == Action(Custom(0), Cancelled)
    ensures var t := Exit(LeakingTask(m, a), Decided(true, true));
            && t.phase == Running(Commit, [], Completing) && !t.requeued && t.deadLetter.None?
            && var t1 := AdvanceTask(t);
               && t1.phase == Running(Ack, [], Completing) && !t1.requeued && t1.deadLetter.None?
               && var t2 := AdvanceTask(t1);
                  && t2.phase == Running(Close, [a], Closing) && !t2.requeued && t2.deadLetter.None?
                  && var t3 := AdvanceTask(t2);
                     t3.phase.Crashed? && !t3.requeued && t3.deadLetter.None?
  {
    var t := Exit(LeakingTask(m, a), Decided(true, true));
    assert t.phase == Running(Commit, [], Completing);
    var t1 := AdvanceTask(t);
    assert t1.phase == Running(Ack, [], Completing);
    var t2 := AdvanceTask(t1);
    assert t2.ctx.MustAck() && t2.ctx.MustCommit();
  }

  lemma LeakingRegisters(w: World, m: Message, a: Action)
    requires w.tasks == [NewTask(m)] && w.queue == [] && !a.effect.Requeue?
    ensures Enabled(w, Register(0, Close, a)) && Apply(w, Register(0, Close, a)) == w.(tasks := [LeakingTask(m, a)])
  {
    assert [] + [a] == [a];
    assert Apply(w, Register(0, Close, a)).tasks[0].ctx.lists == map[Nack := [RequeueAction(m)], Close := [a]];
  }

  lemma AdvanceAlone(w: World, t: Task, t': Task)
    requires w.tasks == [t] && t.phase.Running? && t' == AdvanceTask(t) && t'.requeued == t.requeued
    requires t'.deadLetter == t.deadLetter && !t'.phase.Released?
    ensures Enabled(w, Advance(0)) && Apply(w, Advance(0)) == w.(tasks := [t'])
  {
  }

  /** The leak is real: the message is consumed, its task has ended, and one permit never comes back. */
  lemma ACancelledCloseLeaksThePermit(m: Message, maximum: int) returns (steps: seq<Step>, w: World)
    ensures Run(Initial(1, maximum), steps) == Some(w)
    ensures w.accepted == [m] && w.queue == [] && w.dead == []
    ensures |w.tasks| == 1 && w.tasks[0].phase.Crashed? && w.free == 0 && !w.holding
  {
    var a := Action(Custom(0), Cancelled);
    var w0, s0 := Initial(1, maximum), [Accept(m), Acquire, Receive];
    var t := Exit(LeakingTask(m, a), Decided(true, true));
    var t1 := AdvanceTask(t);
    var t2 := AdvanceTask(t1);
    ReceivedOne(m, maximum);
    LeakingTaskEnds(m, a);
    var w1 := Run(w0, s0).value;
    LeakingRegisters(w1, m, a);
    RunSnoc(w0, s0, Register(0, Close, a));
    steps := s0 + [Register(0, Close, a)];
    var w2 := w1.(tasks := [LeakingTask(m, a)]);
    assert Apply(w2, Succeed(0)) == w2.(tasks := [t]);
    RunSnoc(w0, steps, Succeed(0));
    steps := steps + [Succeed(0)];
    AdvanceAlone(w2.(tasks := [t]), t, t1);
    RunSnoc(w0, steps, Advance(0));
    steps := steps + [Advance(0)];
    AdvanceAlone(w2.(tasks := [t1]), t1, t2);
    RunSnoc(w0, steps, Advance(0));
    steps := steps + [Advance(0)];
    AdvanceAlone(w2.(tasks := [t2]), t2, AdvanceTask(t2));
    RunSnoc(w0, steps, Advance(0));
    steps := steps + [Advance(0)];
    w := w2.(tasks := [AdvanceTask(t2)]);
  }
}

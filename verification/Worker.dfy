/**
 The worker's methods over the real transport, retry step and transaction context, one
 message at a time: what one receive and one processing do to the permits and the queues.
 */
module Workers {
  import opened Messages
  import opened TransactionContexts
  import opened Transports
  import opened Retries
  import TaskSteps
  import Deliveries

  datatype ReceiveOutcome = Received | Empty | Error

  /** What the nack actions that ran put back on the input queue. */
  function Requeued(ran: seq<Action>, a: Address): seq<OutgoingMessage> {
    if ran == [] then [] else
      var last := ran[|ran| - 1].effect;
      Requeued(ran[..|ran| - 1], a) + if last.Requeue? then [OutgoingMessage(a, last.message)] else []
  }

  /** Handlers may register anything but another requeue. */
  predicate Ordinary(op: HandlerOp) { op.Other? ==> !op.action.effect.Requeue? }

  predicate AllOrdinary(ops: seq<HandlerOp>) { forall op :: op in ops ==> Ordinary(op) }

  /** The context that the receive of a message hands to its processing. */
  function HandedOver(m: Message): Ctx { Apply(EMPTY_CTX, Add(Nack, TaskSteps.RequeueAction(m))) }

  function Judged(c: Ctx, d: Decision): Ctx {
    match d
    case Succeeded => Apply(c, Decide(true, true))
    case Retried => Apply(c, Decide(false, false))
    case DeadLettered => Apply(c, Decide(false, true))
    case Unresolved => c
  }

  class AnyioWorker {
    const transport: InMemoryTransport
    const retry: DefaultRetryStep
    const ambient: AmbientContext
    /** The free permits of the parallelism limiter. */
    var free: nat

    constructor (transport: InMemoryTransport, retry: DefaultRetryStep, ambient: AmbientContext, maxParallelism: nat)
      ensures this.transport == transport && this.retry == retry && this.ambient == ambient && free == maxParallelism
    {
      this.transport, this.retry, this.ambient, free := transport, retry, ambient, maxParallelism;
    }

    /**
     `receiving` is how the transport's receive ends if it does not get to the queue; `o` is
     what leaves this method. The permit stays taken exactly when a message was handed off.
     */
    method ReceiveMessage(receiving: Outcome)
      returns (o: Outcome, outcome: ReceiveOutcome, message: Option<Message>, ctx: DefaultTransactionContext)
      requires free > 0
      modifies this`free, transport.network
      ensures fresh(ctx) && ctx.items == map[]
      ensures free == if message.Some? then old(free) - 1 else old(free)
      ensures outcome.Received? <==> message.Some?
      ensures message.Some? <==> receiving.Done? && old(Waiting(transport.network.queues, transport.address)) != []
      ensures message.Some? ==>
                && old(Waiting(transport.network.queues, transport.address))
                   == [message.value] + Waiting(transport.network.queues, transport.address)
                && ctx.View() == HandedOver(message.value)
      ensures message.None? ==> Waiting(transport.network.queues, transport.address)
                                == old(Waiting(transport.network.queues, transport.address))
      ensures forall b :: b != transport.address ==>
                Waiting(transport.network.queues, b) == old(Waiting(transport.network.queues, b))
      ensures o == if receiving.Cancelled? then Cancelled else Done
      ensures message.None? && o.Done? ==> ctx.closed
    {
      free := free - 1;
      outcome, message := Empty, None;
      var handedOff := false;
      ctx := new DefaultTransactionContext();
      o := if receiving.Cancelled? then Cancelled else Done;
      if receiving.Done? { o, message := transport.Receive(ctx); }
      if receiving.Raised? { outcome := Error; }
      if message.Some? {
        handedOff := true;
        outcome := Received;
      } else if o.Done? {
        EmptyCloses();
        o := ctx.CloseContext();
      }
      if !handedOff { free := free + 1; }
    }

    /** A handler at work: it sends through the transport and registers actions. */
    method RunHandler(ctx: DefaultTransactionContext, ops: seq<HandlerOp>)
      requires ambient.current == ctx && !ctx.completed
      modifies ctx`lists, ctx`items, ctx`onError
      ensures Sender(ctx.View(), ListUnder(ctx.items, OUTGOING_MESSAGES_KEY))
              == Handle(old(Sender(ctx.View(), ListUnder(ctx.items, OUTGOING_MESSAGES_KEY))), ops)
    {
      var i := 0;
      while i < |ops|
        invariant 0 <= i <= |ops|
        invariant Sender(ctx.View(), ListUnder(ctx.items, OUTGOING_MESSAGES_KEY))
                  == Handle(old(Sender(ctx.View(), ListUnder(ctx.items, OUTGOING_MESSAGES_KEY))), ops[..i])
      {
        assert ops[..i + 1][..i] == ops[..i];
        match ops[i] {
          case Send(m) => var _ := transport.Send(m.destination, m.message, ctx);
          case Other(k, a) => var _ := ctx.Register(k, a);
          case Watch(h) => ctx.OnError(h);
        }
        i := i + 1;
      }
      assert ops[..i] == ops;
    }

    method RunRequeues(ran: seq<Action>)
      modifies transport.network
      ensures transport.network.queues == DeliverAll(old(transport.network.queues), Requeued(ran, transport.address))
    {
      var i := 0;
      while i < |ran|
        invariant 0 <= i <= |ran|
        invariant transport.network.queues
                  == DeliverAll(old(transport.network.queues), Requeued(ran[..i], transport.address))
      {
        assert ran[..i + 1][..i] == ran[..i];
        if ran[i].effect.Requeue? {
          transport.network.Deliver(transport.address, ran[i].effect.message);
          var sofar := Requeued(ran[..i], transport.address);
          assert (sofar + [OutgoingMessage(transport.address, ran[i].effect.message)])[..|sofar|] == sofar;
        } else {
          assert Requeued(ran[..i + 1], transport.address) == Requeued(ran[..i], transport.address);
        }
        i := i + 1;
      }
      assert ran[..i] == ran;
    }

    /** The pipeline with the retry step outermost, then the completion, whose exceptions are logged. */
    method ProcessMessage(message: Message, ctx: DefaultTransactionContext, ops: seq<HandlerOp>, next: Outcome,
                          handing: Outcome)
      returns (o: Outcome, decision: Decision)
      requires retry.transport == transport && retry.ambient == ambient && ctx.journal == map[]
      requires !ctx.completed
      modifies ctx, ambient, retry.tracker, transport.network
      ensures ambient.current == null
      ensures decision == Deciding(old(retry.tracker.View()), message.Id(), next, retry.failFast, handing)
      ensures retry.tracker.View()
              == TrackedAfter(old(retry.tracker.View()), message.Id(), next, retry.failFast, decision)
      ensures var worked := Handle(old(Sender(ctx.View(), ListUnder(ctx.items, OUTGOING_MESSAGES_KEY))), ops);
              var left := Judged(worked.ctx, decision);
              && ctx.View() == (if decision.Unresolved? then left else CompleteSpec(left).0)
              && (var end := if !decision.Unresolved? then CompleteSpec(left).1
                             else if next.Cancelled? then Cancelled else handing;
                  o == if end.Raised? then Done else end)
              && transport.network.queues
                 == DeliverAll(old(transport.network.queues),
                      Copy(message, next, decision, old(retry.tracker.View())) +
                      Delivered(ctx.View().Ran(Commit), worked.outgoing))
    {
      ghost var network := transport.network.queues;
      decision, o := RunPipeline(message, ctx, ops, next, handing);
      ghost var copy := Copy(message, next, decision, old(retry.tracker.View()));
      if o.Done? {
        o := CompleteAndDeliver(ctx, transport);
        DeliverAllConcat(network, copy, Delivered(ctx.View().Ran(Commit), ListUnder(ctx.items, OUTGOING_MESSAGES_KEY)));
      } else {
        assert copy + [] == copy;
      }
      if o.Raised? { o := Done; }
      ambient.current := null;
    }

    method RunPipeline(message: Message, ctx: DefaultTransactionContext, ops: seq<HandlerOp>, next: Outcome,
                       handing: Outcome)
      returns (decision: Decision, o: Outcome)
      requires retry.transport == transport && retry.ambient == ambient && ctx.journal == map[] && !ctx.completed
      modifies ctx`lists, ctx`items, ctx`onError, ctx`verdict, ambient, retry.tracker, transport.network
      ensures decision == Deciding(old(retry.tracker.View()), message.Id(), next, retry.failFast, handing)
      ensures o == (if !decision.Unresolved? then Done else if next.Cancelled? then Cancelled else handing)
      ensures retry.tracker.View()
              == TrackedAfter(old(retry.tracker.View()), message.Id(), next, retry.failFast, decision)
      ensures ctx.journal == map[]
      ensures var worked := Handle(old(Sender(ctx.View(), ListUnder(ctx.items, OUTGOING_MESSAGES_KEY))), ops);
              && ctx.View() == Judged(worked.ctx, decision)
              && ListUnder(ctx.items, OUTGOING_MESSAGES_KEY) == worked.outgoing
      ensures transport.network.queues
              == DeliverAll(old(transport.network.queues), Copy(message, next, decision, old(retry.tracker.View())))
    {
      ambient.current := ctx;
      RunHandler(ctx, ops);
      decision, o := retry.Call(message, ctx, next, handing);
    }

    /**
     One message from hand-off to the end of its task. What becomes of it is a function of the
     context as the pipeline left it: its sends, if the commit reached them, a dead-letter copy,
     and the message itself back on its queue exactly when its fate is to be returned. The
     permit returns after the context has closed, unless a `BaseException` leaves the close.
     */
    method ProcessMessageInBackground(message: Message, ctx: DefaultTransactionContext, ops: seq<HandlerOp>,
                                      next: Outcome, handing: Outcome)
      returns (decision: Decision, ghost left: Ctx)
      requires retry.transport == transport && retry.ambient == ambient
      requires ctx.View() == HandedOver(message) && ctx.items == map[] && AllOrdinary(ops)
      modifies this`free, ctx, ambient, retry.tracker, transport.network
      ensures decision == Deciding(old(retry.tracker.View()), message.Id(), next, retry.failFast, handing)
      ensures retry.tracker.View()
              == TrackedAfter(old(retry.tracker.View()), message.Id(), next, retry.failFast, decision)
      ensures left == Judged(Handle(Sender(HandedOver(message), []), ops).ctx, decision)
      ensures ctx.View() == TaskSteps.Concluded(left).0
      ensures free == old(free) + if TaskSteps.CloseLeaks(left) then 0 else 1
      ensures ambient.current == null
      ensures transport.network.queues == DeliverAll(old(transport.network.queues),
                Copy(message, next, decision, old(retry.tracker.View()))
                + Delivered(ctx.View().Ran(Commit), Sends(ops)) + Back(left, message))
    {
      HandlersLeave(message, ops);
      ghost var network, tracker := transport.network.queues, retry.tracker.View();
      var o;
      o, decision := ProcessMessage(message, ctx, ops, next, handing);
      left := Judged(Handle(Sender(HandedOver(message), []), ops).ctx, decision);
      JudgedIsReady(Handle(Sender(HandedOver(message), []), ops).ctx, decision, message);
      ghost var emitted := Copy(message, next, decision, tracker) + Delivered(ctx.View().Ran(Commit), Sends(ops));
      CloseAndRelease(message, ctx, left);
      DeliverAllConcat(network, emitted, Back(left, message));
    }

    /** The end of the task: the context closes, then the permit returns. */
    method CloseAndRelease(message: Message, ctx: DefaultTransactionContext, ghost left: Ctx)
      requires Unstarted(left) && TaskSteps.RequeueFirst(left, message)
      requires ctx.View() == if left.verdict.Undecided? then left else CompleteSpec(left).0
      modifies this`free, ctx`lists, ctx`journal, ctx`closed, transport.network
      ensures ctx.View() == TaskSteps.Concluded(left).0 && ctx.View().Ran(Commit) == old(ctx.View().Ran(Commit))
      ensures free == old(free) + if TaskSteps.CloseLeaks(left) then 0 else 1
      ensures transport.network.queues == DeliverAll(old(transport.network.queues), Back(left, message))
    {
      CloseKeepsCommits(ctx.View());
      RequeuedWhenReturned(left, message, transport.address);
      TaskSteps.LeakCondition(left);
      var closed := ctx.CloseContext();
      if !closed.Cancelled? { free := free + 1; }
      RunRequeues(ctx.View().Ran(Nack));
    }

    /** The copy has the details of all recorded errors, and there is one only for a dead-lettered message. */
    lemma CopyIs(message: Message, next: Outcome, decision: Decision, tracker: Tracker)
      ensures decision.DeadLettered? && next.Raised? ==>
                Copy(message, next, decision, tracker)
                == [OutgoingMessage(retry.errorQueue, DeadLetterCopy(message,
                     Details(tracker.Errors(message.Id()) + [next.error], retry.text)))]
      ensures !decision.DeadLettered? || !next.Raised? ==> Copy(message, next, decision, tracker) == []
    {
    }

    lemma BackIs(left: Ctx, message: Message)
      ensures TaskSteps.FateOf(left).Returned? ==> Back(left, message) == [OutgoingMessage(transport.address, message)]
      ensures !TaskSteps.FateOf(left).Returned? ==> Back(left, message) == []
    {
    }

    /** The message, if its context as the pipeline left it gives it back. */
    ghost function Back(left: Ctx, message: Message): seq<OutgoingMessage> {
      if TaskSteps.FateOf(left).Returned? then [OutgoingMessage(transport.address, message)] else []
    }

    ghost function Copy(message: Message, next: Outcome, decision: Decision, tracker: Tracker): seq<OutgoingMessage> {
      if !(decision.DeadLettered? && next.Raised?) then [] else
        [OutgoingMessage(retry.errorQueue,
           DeadLetterCopy(message, AllDetails(message, next.error, tracker, retry.text)))]
    }
  }

  /** The details of the errors recorded so far and of this one. */
  function AllDetails(message: Message, e: Exn, tracker: Tracker, text: Exn -> string): string {
    Details(tracker.Errors(message.Id()) + [e], text)
  }

  /** The machine's steps for one end of a pipeline: Succeed, Abandon, or Fail, followed by Bury if poisoned. */
  function RetrySteps(i: nat, next: Outcome, d: Decision, failFast: set<Exn>, details: string): seq<Deliveries.Step> {
    match next
    case Done => [Deliveries.Succeed(i)]
    case Cancelled => [Deliveries.Abandon(i)]
    case Raised(e) =>
      [Deliveries.Fail(i, e, e in failFast)] +
      match d
      case DeadLettered => [Deliveries.Bury(i, details, Deliveries.Handed)]
      case Unresolved => [Deliveries.Bury(i, details, Deliveries.Refused)]
      case _ => []
  }

  lemma RunOne(w: Deliveries.World, s: Deliveries.Step)
    requires Deliveries.Enabled(w, s)
    ensures Deliveries.Run(w, [s]) == Some(Deliveries.Apply(w, s))
  {
    Deliveries.RunSnoc(w, [], s);
    assert [] + [s] == [s];
  }

  lemma RunTwo(w: Deliveries.World, s: Deliveries.Step, s': Deliveries.Step)
    requires Deliveries.Enabled(w, s) && Deliveries.Enabled(Deliveries.Apply(w, s), s')
    ensures Deliveries.Run(w, [s, s']) == Some(Deliveries.Apply(Deliveries.Apply(w, s), s'))
  {
    RunOne(w, s);
    Deliveries.RunSnoc(w, [s], s');
    assert [s] + [s'] == [s, s'];
  }

  /** Task i left its pipeline, or waits for the error handler, with this tracker. */
  predicate LeftWith(w: Deliveries.World, i: nat, left: Ctx, tracker: Tracker) {
    i < |w.tasks| && w.tasks[i].left == left && w.tracker == tracker
  }

  lemma FailStep(w: Deliveries.World, i: nat, e: Exn, failFast: bool)
    requires Deliveries.At(w, i, TaskSteps.Handling)
    ensures var w' := Deliveries.Apply(w, Deliveries.Fail(i, e, failFast));
            var t' := w.tracker.Register(w.tasks[i].message.Id(), e, failFast);
            && w'.dead == w.dead
            && if t'.FailedTooManyTimes(w.tasks[i].message.Id())
               then Deliveries.At(w', i, TaskSteps.Poisoned) && w'.tracker == t'
                    && w'.tasks[i] == w.tasks[i].(phase := TaskSteps.Poisoned)
               else LeftWith(w', i, Judged(w.tasks[i].ctx, Retried), t')
  {
  }

  lemma BuryStep(w: Deliveries.World, i: nat, details: string, handed: bool)
    requires Deliveries.At(w, i, TaskSteps.Poisoned) && w.tasks[i].ctx.verdict.Undecided?
    ensures var handing := if handed then Deliveries.Handed else Deliveries.Refused;
            var w' := Deliveries.Apply(w, Deliveries.Bury(i, details, handing));
            && LeftWith(w', i, Judged(w.tasks[i].ctx, if handed then DeadLettered else Unresolved),
                        if handed then w.tracker.CleanUp(w.tasks[i].message.Id()) else w.tracker)
            && (w.tasks[i].deadLetter.None? ==>
                  w'.dead == w.dead + if handed then [DeadLetterCopy(w.tasks[i].message, details)] else [])
  {
  }

  lemma PlainStep(w: Deliveries.World, i: nat)
    requires Deliveries.At(w, i, TaskSteps.Handling) && w.tasks[i].ctx.verdict.Undecided?
    ensures LeftWith(Deliveries.Apply(w, Deliveries.Succeed(i)), i, Judged(w.tasks[i].ctx, Succeeded), w.tracker)
    ensures LeftWith(Deliveries.Apply(w, Deliveries.Abandon(i)), i, Judged(w.tasks[i].ctx, Unresolved), w.tracker)
    ensures Deliveries.Apply(w, Deliveries.Succeed(i)).dead == Deliveries.Apply(w, Deliveries.Abandon(i)).dead == w.dead
  {
  }

  ghost predicate Matches(w: Deliveries.World, i: nat, next: Outcome, failFast: set<Exn>, d: Decision, details: string)
    requires i < |w.tasks|
  {
    var after := Deliveries.Run(w, RetrySteps(i, next, d, failFast, details));
    && after.Some?
    && LeftWith(after.value, i, Judged(w.tasks[i].ctx, d),
                TrackedAfter(w.tracker, w.tasks[i].message.Id(), next, failFast, d))
    && (w.tasks[i].deadLetter.None? ==>
          after.value.dead == w.dead + if d.DeadLettered? then [DeadLetterCopy(w.tasks[i].message, details)] else [])
  }

  /** Spelt out: the steps are possible, and this is the state they leave. */
  lemma MatchesMeans(w: Deliveries.World, i: nat, next: Outcome, failFast: set<Exn>, d: Decision, details: string)
    requires i < |w.tasks| && Matches(w, i, next, failFast, d, details)
    ensures var after := Deliveries.Run(w, RetrySteps(i, next, d, failFast, details));
            && after.Some? && i < |after.value.tasks|
            && after.value.tasks[i].left == Judged(w.tasks[i].ctx, d)
            && after.value.tracker == TrackedAfter(w.tracker, w.tasks[i].message.Id(), next, failFast, d)
            && (w.tasks[i].deadLetter.None? && d.DeadLettered? ==>
                  after.value.dead == w.dead + [DeadLetterCopy(w.tasks[i].message, details)])
            && (w.tasks[i].deadLetter.None? && !d.DeadLettered? ==> after.value.dead == w.dead)
  {
  }

  lemma RetriedIsOneStep(w: Deliveries.World, i: nat, e: Exn, failFast: set<Exn>, details: string)
    requires Deliveries.At(w, i, TaskSteps.Handling)
    requires !w.tracker.Register(w.tasks[i].message.Id(), e, e in failFast).FailedTooManyTimes(w.tasks[i].message.Id())
    ensures Matches(w, i, Raised(e), failFast, Retried, details)
  {
    var fail := Deliveries.Fail(i, e, e in failFast);
    FailStep(w, i, e, e in failFast);
    RunOne(w, fail);
    assert [fail] + [] == [fail];
  }

  /** The failure made the message poisonous, and the burial ended this way. */
  lemma BuriedMatches(w: Deliveries.World, i: nat, e: Exn, failFast: set<Exn>, handed: bool, details: string,
                      after: Deliveries.World)
    requires i < |w.tasks|
    requires var d := if handed then DeadLettered else Unresolved;
             && Deliveries.Run(w, RetrySteps(i, Raised(e), d, failFast, details)) == Some(after)
             && var id := w.tasks[i].message.Id();
                var t := w.tracker.Register(id, e, e in failFast);
                LeftWith(after, i, Judged(w.tasks[i].ctx, d), if handed then t.CleanUp(id) else t)
    requires w.tasks[i].deadLetter.None? ==>
               after.dead == w.dead + if handed then [DeadLetterCopy(w.tasks[i].message, details)] else []
    ensures Matches(w, i, Raised(e), failFast, if handed then DeadLettered else Unresolved, details)
  {
  }

  lemma PoisonedIsTwoSteps(w: Deliveries.World, i: nat, e: Exn, failFast: set<Exn>, handed: bool, details: string)
    requires Deliveries.At(w, i, TaskSteps.Handling) && w.tasks[i].ctx.verdict.Undecided?
    requires w.tracker.Register(w.tasks[i].message.Id(), e, e in failFast).FailedTooManyTimes(w.tasks[i].message.Id())
    ensures Matches(w, i, Raised(e), failFast, if handed then DeadLettered else Unresolved, details)
  {
    var fail := Deliveries.Fail(i, e, e in failFast);
    var bury := Deliveries.Bury(i, details, if handed then Deliveries.Handed else Deliveries.Refused);
    FailStep(w, i, e, e in failFast);
    var failed := Deliveries.Apply(w, fail);
    BuryStep(failed, i, details, handed);
    RunTwo(w, fail, bury);
    assert [fail] + [bury] == [fail, bury];
    BuriedMatches(w, i, e, failFast, handed, details, Deliveries.Apply(failed, bury));
  }

  /**
   They are possible, and leave the task with the verdict, the tracker with the errors, and the
   error queue with the copy, if any, that the retry step decides on and delivers.
   */
  lemma DecisionsAreSteps(w: Deliveries.World, i: nat, next: Outcome, failFast: set<Exn>, handing: Outcome,
                          text: Exn -> string)
    requires Deliveries.At(w, i, TaskSteps.Handling) && w.tasks[i].ctx.verdict.Undecided?
    ensures var details := if next.Raised? then AllDetails(w.tasks[i].message, next.error, w.tracker, text) else "";
            Matches(w, i, next, failFast, Deciding(w.tracker, w.tasks[i].message.Id(), next, failFast, handing),
                    details)
  {
    PlainStep(w, i);
    match next {
      case Done => RunOne(w, Deliveries.Succeed(i));
      case Cancelled => RunOne(w, Deliveries.Abandon(i));
      case Raised(e) =>
        var details := AllDetails(w.tasks[i].message, e, w.tracker, text);
        if w.tracker.Register(w.tasks[i].message.Id(), e, e in failFast).FailedTooManyTimes(w.tasks[i].message.Id()) {
          PoisonedIsTwoSteps(w, i, e, failFast, handing.Done?, details);
        } else {
          RetriedIsOneStep(w, i, e, failFast, details);
        }
    }
  }

  /** What a handler does to its context are steps of the machine too; only the first send registers anything. */
  lemma HandlingIsSteps(w: Deliveries.World, i: nat, op: HandlerOp, outgoing: seq<OutgoingMessage>)
    requires Deliveries.At(w, i, TaskSteps.Handling) && !w.tasks[i].ctx.completed
    ensures var t := w.tasks[i];
            var handled := t.(ctx := HandleOne(Sender(t.ctx, outgoing), op).ctx);
            match op
            case Send(_) =>
              if outgoing != [] then handled == t
              else Deliveries.Apply(w, Deliveries.Register(i, Commit, SEND_ACTION)).tasks[i] == handled
            case Other(k, a) =>
              !a.effect.Requeue? ==> Deliveries.Apply(w, Deliveries.Register(i, k, a)).tasks[i] == handled
            case Watch(h) => Deliveries.Apply(w, Deliveries.Watch(i, h)).tasks[i] == handled
  {
  }

  lemma EmptyCloses()
    ensures CloseSpec(EMPTY_CTX).1 == Done
  {
  }

  lemma CloseKeepsCommits(c: Ctx)
    ensures CloseSpec(c).0.Ran(Commit) == c.Ran(Commit)
  {
    if !c.closed { CloseEffect(c, Commit); }
  }

  /** Whatever a handler did, its context is untouched by runs, has one requeue and collected all sends. */
  lemma {:induction false} HandlersLeave(m: Message, ops: seq<HandlerOp>)
    requires AllOrdinary(ops)
    ensures var s := Handle(Sender(HandedOver(m), []), ops);
            && s.outgoing == Sends(ops)
            && Unstarted(s.ctx) && s.ctx.verdict.Undecided? && TaskSteps.RequeueFirst(s.ctx, m)
  {
    if ops == [] {
      assert [] + [TaskSteps.RequeueAction(m)] == [TaskSteps.RequeueAction(m)];
    } else {
      var before, op := ops[..|ops| - 1], ops[|ops| - 1];
      HandlersLeave(m, before);
      assert Ordinary(op);
      OneMoreOp(Handle(Sender(HandedOver(m), []), before), op, m);
    }
  }

  lemma JudgedIsReady(c: Ctx, d: Decision, m: Message)
    requires Unstarted(c) && c.verdict.Undecided? && TaskSteps.RequeueFirst(c, m)
    ensures var left := Judged(c, d);
            && Unstarted(left) && TaskSteps.RequeueFirst(left, m) && (left.verdict.Undecided? <==> d.Unresolved?)
  {
    assert forall k: Kind :: Judged(c, d).Pending(k) == c.Pending(k);
  }

  lemma OneMoreOp(s: Sender, op: HandlerOp, m: Message)
    requires Unstarted(s.ctx) && TaskSteps.RequeueFirst(s.ctx, m) && Ordinary(op)
    ensures var s' := HandleOne(s, op);
            && Unstarted(s'.ctx) && s'.ctx.verdict == s.ctx.verdict && TaskSteps.RequeueFirst(s'.ctx, m)
            && s'.outgoing == s.outgoing + if op.Send? then [op.message] else []
  {
    var s' := HandleOne(s, op);
    assert op.Send? || s.outgoing + [] == s.outgoing;
    if op.Other? && op.kind == Nack {
      var was := s.ctx.Pending(Nack);
      assert (was + [op.action])[1..] == was[1..] + [op.action];
    }
    forall k: Kind | k != Nack
      ensures TaskSteps.NoRequeue(s'.ctx.Pending(k))
    {
      assert TaskSteps.NoRequeue(s.ctx.Pending(k));
    }
  }

  lemma {:induction false} RequeuedOnce(ran: seq<Action>, m: Message, a: Address)
    requires TaskSteps.LeadsWithRequeue(ran, m)
    ensures Requeued(ran, a) == [OutgoingMessage(a, m)]
  {
    var last := |ran| - 1;
    if last == 0 {
      assert Requeued(ran[..0], a) == [];
    } else {
      assert ran[..last][1..] == ran[1..][..last - 1] && ran[last] == ran[1..][last - 1];
      assert ran[last] in ran[1..];
      RequeuedOnce(ran[..last], m, a);
    }
  }

  lemma RequeuedWhenReturned(c: Ctx, m: Message, a: Address)
    requires Unstarted(c) && TaskSteps.RequeueFirst(c, m)
    ensures Requeued(TaskSteps.Concluded(c).0.Ran(Nack), a)
            == if TaskSteps.FateOf(c).Returned? then [OutgoingMessage(a, m)] else []
  {
    TaskSteps.ConcludedEffect(c, Nack);
    assert TaskSteps.FateOf(c).Returned? <==> TaskSteps.ConcludeInvokes(c, Nack);
    var todo := c.Pending(Nack);
    assert [] + Attempted(todo) == Attempted(todo);
    assert todo[0].outcome.Done?;
    assert Attempted(todo) == todo[..Started(todo)] && Started(todo) >= 1;
    assert Attempted(todo)[1..] == todo[1..][..Started(todo) - 1];
    RequeuedOnce(Attempted(todo), m, a);
  }
}

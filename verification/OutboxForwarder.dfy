/** The relay that sends what the outbox saved, with retries, and completes a batch only after it was sent. */
module OutboxForwarders {
  import opened Messages
  import opened TransactionContexts
  import opened Transports
  import opened Retries

  const DELAYS: seq<real> := [0.1, 0.1, 0.1, 0.1, 0.1, 0.5, 0.5, 0.5, 0.5, 0.5, 1.0, 1.0, 1.0, 1.0, 1.0]

  lemma DelaysGrow(i: nat)
    requires i < |DELAYS|
    ensures |DELAYS| == 15 && DELAYS[i] == if i < 5 then 0.1 else if i < 10 then 0.5 else 1.0
  {
  }

  /** How attempt number n of a call ends, and how the sleep after it ends. */
  type Attempts = nat -> Outcome

  /** The outcome and the number of attempts, from retry number n on. */
  function RetrySpec(results: Attempts, sleeps: Attempts, n: nat, retries: nat): (Outcome, nat)
    requires n <= retries
    decreases retries - n
  {
    if !results(n).Raised? || n == retries then (results(n), n + 1)
    else if !sleeps(n).Done? then (sleeps(n), n + 1)
    else RetrySpec(results, sleeps, n + 1, retries)
  }

  class AsyncRetrier {
    const delays: seq<real>

    constructor (delays: seq<real>)
      ensures this.delays == delays
    {
      this.delays := delays;
    }

    /** Only an `Exception` is retried; `slept` lists the delays taken between attempts. */
    method Retry(results: Attempts, sleeps: Attempts) returns (o: Outcome, attempts: nat, slept: seq<real>)
      ensures (o, attempts) == RetrySpec(results, sleeps, 0, |delays|)
      ensures attempts <= |delays| + 1
      ensures slept <= delays && attempts - 1 <= |slept| <= attempts
    {
      var retryNumber := 0;
      slept := [];
      while retryNumber <= |delays|
        invariant retryNumber <= |delays|
        invariant slept == delays[..retryNumber]
        invariant RetrySpec(results, sleeps, 0, |delays|) == RetrySpec(results, sleeps, retryNumber, |delays|)
      {
        o := results(retryNumber);
        if !o.Raised? || retryNumber == |delays| { return o, retryNumber + 1, slept; }
        slept := slept + [delays[retryNumber]];
        if !sleeps(retryNumber).Done? { return sleeps(retryNumber), retryNumber + 1, slept; }
        retryNumber := retryNumber + 1;
      }
    }
  }

  /** A call succeeds exactly when some attempt within the bound does and nothing before it stopped the retries. */
  lemma {:induction false} RetrySucceedsWithinBound(results: Attempts, sleeps: Attempts, n: nat, retries: nat)
    requires n <= retries
    ensures var r := RetrySpec(results, sleeps, n, retries);
            && n < r.1 <= retries + 1
            && (forall j :: n <= j < r.1 - 1 ==> results(j).Raised? && sleeps(j).Done?)
            && (if results(r.1 - 1).Raised? && r.1 - 1 < retries then r.0 == sleeps(r.1 - 1) && !r.0.Done?
                else r.0 == results(r.1 - 1))
            && (r.0.Done? ==> results(r.1 - 1).Done?)
            && (r.0.Done? <==> exists k :: n <= k <= retries && results(k).Done?
                                 && forall j :: n <= j < k ==> results(j).Raised? && sleeps(j).Done?)
    decreases retries - n
  {
    if results(n).Raised? && n < retries && sleeps(n).Done? {
      RetrySucceedsWithinBound(results, sleeps, n + 1, retries);
      var r := RetrySpec(results, sleeps, n + 1, retries);
      if r.0.Done? {
        var k :| n + 1 <= k <= retries && results(k).Done?
                 && forall j :: n + 1 <= j < k ==> results(j).Raised? && sleeps(j).Done?;
        assert forall j :: n <= j < k ==> results(j).Raised? && sleeps(j).Done?;
      }
    }
  }

  /******* The storage protocol and one run of the relay *******/

  /** A batch may hold any saved messages that are not completed, each once, in any order. */
  predicate Allowed(n: nat, completed: set<nat>, batch: seq<nat>) {
    && (forall k :: 0 <= k < |batch| ==> batch[k] < n && batch[k] !in completed)
    && (forall j, k :: 0 <= j < k < |batch| ==> batch[j] != batch[k])
  }

  /** How a storage chooses its next batch. */
  type Policy = (seq<OutgoingMessage>, set<nat>) -> seq<nat>

  ghost predicate Protocol(policy: Policy) {
    forall saved, completed :: Allowed(|saved|, completed, policy(saved, completed))
  }

  /** Any outbox storage: save, offer what is not completed, complete a batch. */
  class OutboxStorage {
    var saved: seq<OutgoingMessage>
    var completed: set<nat>
    const policy: Policy

    constructor (policy: Policy)
      ensures saved == [] && completed == {} && this.policy == policy
    {
      saved, completed := [], {};
      this.policy := policy;
    }

    method Save(messages: seq<OutgoingMessage>)
      modifies this`saved
      ensures saved == old(saved) + messages
    {
      saved := saved + messages;
    }

    method GetNextMessageBatch() returns (batch: seq<nat>)
      requires Protocol(policy)
      ensures batch == policy(saved, completed) && Allowed(|saved|, completed, batch)
    {
      batch := policy(saved, completed);
    }

    method CompleteBatch(batch: seq<nat>)
      modifies this`completed
      ensures completed == old(completed) + Positions(batch)
    {
      completed := completed + Positions(batch);
    }
  }

  function Positions(batch: seq<nat>): set<nat> { set i | i in batch }

  function Picked(saved: seq<OutgoingMessage>, batch: seq<nat>): (r: seq<OutgoingMessage>)
    requires forall k :: 0 <= k < |batch| ==> batch[k] < |saved|
    ensures |r| == |batch|
  {
    seq(|batch|, k requires 0 <= k < |batch| => saved[batch[k]])
  }

  /**
   Everything that can go wrong in one run: each attempt to send message k of the batch, each
   sleep, the completion (which may fail before or after it marked the batch) and the close.
   */
  datatype Luck = Luck(attempts: nat -> Attempts, sleeps: nat -> Attempts, completing: Outcome, marked: bool,
                       closing: Outcome)

  function SendAll(luck: Luck, n: nat): Outcome {
    if n == 0 then Done else
      var before := SendAll(luck, n - 1);
      if !before.Done? then before else RetrySpec(luck.attempts(n - 1), luck.sleeps(n - 1), 0, |DELAYS|).0
  }

  predicate SentWithin(attempts: Attempts, sleeps: Attempts, retries: nat) {
    exists j :: (0 <= j <= retries && attempts(j).Done?
                 && forall i :: 0 <= i < j ==> attempts(i).Raised? && sleeps(i).Done?)
  }

  /** Messages are tried in order, each up to sixteen times, and the first that is not sent stops the batch. */
  lemma {:induction false} SendsAllOrStops(luck: Luck, n: nat)
    ensures SendAll(luck, n).Done? <==>
              forall k: nat :: k < n ==> SentWithin(luck.attempts(k), luck.sleeps(k), 15)
  {
    if n > 0 {
      SendsAllOrStops(luck, n - 1);
      RetrySucceedsWithinBound(luck.attempts(n - 1), luck.sleeps(n - 1), 0, |DELAYS|);
    }
  }

  /** The durable side of the relay and the messages it delivered so far. */
  datatype Relay = Relay(saved: seq<OutgoingMessage>, completed: set<nat>, delivered: seq<OutgoingMessage>) {
    predicate Allows(batch: seq<nat>) { Allowed(|saved|, completed, batch) }

    function Sent(messages: seq<OutgoingMessage>): Relay { this.(delivered := delivered + messages) }

    function Completed(batch: seq<nat>): Relay { this.(completed := completed + Positions(batch)) }
  }

  function ForwardSpec(r: Relay, batch: seq<nat>, luck: Luck): (Relay, Outcome)
    requires r.Allows(batch)
  {
    if batch == [] then (r, luck.closing) else
      var sent := SendAll(luck, |batch|);
      if !sent.Done? then (r, sent) else
        var delivered := r.Sent(Picked(r.saved, batch));
        if luck.completing.Done? then (delivered.Completed(batch), luck.closing)
        else (if luck.marked then delivered.Completed(batch) else delivered, luck.completing)
  }

  /**
   One run: nothing without a batch; nothing delivered or completed unless all of it could be
   sent; otherwise all of it delivered, and completed if the completion gets as far as marking it.
   */
  lemma RunCases(r: Relay, batch: seq<nat>, luck: Luck)
    requires r.Allows(batch)
    ensures var f, sent := ForwardSpec(r, batch, luck), SendAll(luck, |batch|);
            && f.0.saved == r.saved
            && (batch == [] ==> f == (r, luck.closing))
            && (batch != [] && !sent.Done? ==> f == (r, sent))
            && (batch != [] && sent.Done? ==>
                  && f.0.delivered == r.delivered + Picked(r.saved, batch)
                  && f.0.completed == (if luck.completing.Done? || luck.marked
                                       then r.completed + (set i | i in batch) else r.completed)
                  && f.1 == if luck.completing.Done? then luck.closing else luck.completing)
  {
  }

  class OutboxForwarder {
    const transport: InMemoryTransport
    const storage: OutboxStorage
    const retrier: AsyncRetrier
    const ambient: AmbientContext

    constructor (transport: InMemoryTransport, storage: OutboxStorage, ambient: AmbientContext)
      ensures this.transport == transport && this.storage == storage && this.ambient == ambient
      ensures retrier.delays == DELAYS
    {
      this.transport, this.storage, this.ambient := transport, storage, ambient;
      retrier := new AsyncRetrier(DELAYS);
    }

    method SendMessages(batch: seq<nat>, ctx: DefaultTransactionContext, luck: Luck) returns (o: Outcome)
      requires retrier.delays == DELAYS && forall k :: 0 <= k < |batch| ==> batch[k] < |storage.saved|
      requires ambient.current == ctx && ctx.View() == EMPTY_CTX && ctx.items == map[]
      modifies ctx`lists, ctx`items
      ensures o == SendAll(luck, |batch|)
      ensures ctx.journal == map[] && ctx.View().Pending(Ack) == []
      ensures o.Done? ==> ListUnder(ctx.items, OUTGOING_MESSAGES_KEY) == Picked(storage.saved, batch)
      ensures o.Done? ==> ctx.View().Pending(Commit) == if batch == [] then [] else [SEND_ACTION]
    {
      var k := 0;
      while k < |batch|
        invariant 0 <= k <= |batch| && SendAll(luck, k) == Done
        invariant ListUnder(ctx.items, OUTGOING_MESSAGES_KEY) == Picked(storage.saved, batch)[..k]
        invariant ctx.View() == EMPTY_CTX.(lists := ctx.lists) && ctx.View().Pending(Ack) == []
        invariant ctx.View().Pending(Commit) == if k == 0 then [] else [SEND_ACTION]
      {
        var tried, _, _ := retrier.Retry(luck.attempts(k), luck.sleeps(k));
        if !tried.Done? {
          StoppedSending(luck, k, |batch|);
          return tried;
        }
        var m := storage.saved[batch[k]];
        var _ := transport.Send(m.destination, m.message, ctx);
        k := k + 1;
      }
      return Done;
    }

    method ProcessBatch(batch: seq<nat>, luck: Luck) returns (o: Outcome)
      requires retrier.delays == DELAYS && batch != [] && forall k :: 0 <= k < |batch| ==> batch[k] < |storage.saved|
      modifies ambient, transport.network
      ensures o == SendAll(luck, |batch|)
      ensures transport.network.queues
              == DeliverAll(old(transport.network.queues), if o.Done? then Picked(storage.saved, batch) else [])
      ensures ambient.current == old(ambient.current)
    {
      var scope := new TransactionScope(ambient);
      scope.Enter();
      o := SendMessages(batch, scope.context, luck);
      if o.Done? { CompleteScope(scope.context, Picked(storage.saved, batch)); }
      scope.CloseScope();
    }

    method CompleteScope(ctx: DefaultTransactionContext, ghost messages: seq<OutgoingMessage>)
      requires ctx.View().Pending(Commit) == [SEND_ACTION] && ctx.View().Pending(Ack) == [] && ctx.journal == map[]
      requires ListUnder(ctx.items, OUTGOING_MESSAGES_KEY) == messages
      modifies ctx`lists, ctx`journal, ctx`completed, ctx`verdict, transport.network
      ensures transport.network.queues == DeliverAll(old(transport.network.queues), messages)
    {
      ctx.SetResult(true, true);
      CommitDelivers(ctx.View(), messages);
      var _ := CompleteAndDeliver(ctx, transport);
    }

    /** One run of the periodic task. */
    method RunTask(luck: Luck) returns (o: Outcome, ghost delivered: seq<OutgoingMessage>)
      requires retrier.delays == DELAYS && Protocol(storage.policy)
      modifies ambient, transport.network, storage
      ensures var r := Relay(old(storage.saved), old(storage.completed), []);
              var batch := storage.policy(r.saved, r.completed);
              r.Allows(batch) && (Relay(storage.saved, storage.completed, delivered), o) == ForwardSpec(r, batch, luck)
      ensures transport.network.queues == DeliverAll(old(transport.network.queues), delivered)
      ensures ambient.current == old(ambient.current)
    {
      delivered := [];
      var batch := storage.GetNextMessageBatch();
      if batch == [] { return luck.closing, delivered; }
      o := ProcessBatch(batch, luck);
      if !o.Done? { return; }
      delivered := Picked(storage.saved, batch);
      assert [] + delivered == delivered;
      if luck.completing.Done? || luck.marked { storage.CompleteBatch(batch); }
      if !luck.completing.Done? { return luck.completing, delivered; }
      o := luck.closing;
    }
  }

  lemma {:induction false} StoppedSending(luck: Luck, k: nat, n: nat)
    requires k < n && SendAll(luck, k).Done? && !SendAll(luck, k + 1).Done?
    ensures SendAll(luck, n) == SendAll(luck, k + 1)
  {
    if n > k + 1 { StoppedSending(luck, k, n - 1); }
  }

  /******* Runs: saves, relay runs and crashes in any order *******/

  /** `Crash`: the process dies in a run after the first messages of the batch were delivered. */
  datatype RelayStep =
    | Save(messages: seq<OutgoingMessage>)
    | Forward(batch: seq<nat>, luck: Luck)
    | Crash(batch: seq<nat>, prefix: nat)

  /** A storage offers only allowed batches; a step with another one does not happen. */
  function Go(r: Relay, step: RelayStep): Relay {
    match step
    case Save(ms) => r.(saved := r.saved + ms)
    case Forward(batch, luck) => if r.Allows(batch) then ForwardSpec(r, batch, luck).0 else r
    case Crash(batch, prefix) =>
      if r.Allows(batch) then r.Sent(Picked(r.saved, batch)[..if prefix <= |batch| then prefix else |batch|]) else r
  }

  function GoAll(steps: seq<RelayStep>): Relay {
    if steps == [] then Relay([], {}, []) else Go(GoAll(steps[..|steps| - 1]), steps[|steps| - 1])
  }

  /** Runs go step by step. */
  lemma RunsGoOn(steps: seq<RelayStep>, step: RelayStep)
    ensures GoAll([]) == Relay([], {}, []) && GoAll(steps + [step]) == Go(GoAll(steps), step)
  {
    assert (steps + [step])[..|steps|] == steps;
  }

  /** A crash leaves the first messages of the batch delivered and none completed; other batches cannot happen. */
  lemma StepsLeave(r: Relay, messages: seq<OutgoingMessage>, batch: seq<nat>, luck: Luck, n: nat)
    ensures Go(r, Save(messages)) == Relay(r.saved + messages, r.completed, r.delivered)
    ensures !Allowed(|r.saved|, r.completed, batch) ==> Go(r, Forward(batch, luck)) == Go(r, Crash(batch, n)) == r
    ensures Allowed(|r.saved|, r.completed, batch) ==>
              && Go(r, Forward(batch, luck)) == ForwardSpec(r, batch, luck).0
              && Go(r, Crash(batch, n)).saved == r.saved && Go(r, Crash(batch, n)).completed == r.completed
              && (n <= |batch| ==> Go(r, Crash(batch, n)).delivered == r.delivered + Picked(r.saved, batch)[..n])
              && (n >= |batch| ==> Go(r, Crash(batch, n)).delivered == r.delivered + Picked(r.saved, batch))
  {
    if Allowed(|r.saved|, r.completed, batch) {
      assert Picked(r.saved, batch)[..|batch|] == Picked(r.saved, batch);
    }
  }

  function Copies(ms: seq<OutgoingMessage>, m: OutgoingMessage): nat { multiset(ms)[m] }

  /** The completed ones among the first n saved messages that equal m. */
  function CompletedCopies(saved: seq<OutgoingMessage>, completed: set<nat>, n: nat, m: OutgoingMessage): nat
    requires n <= |saved|
  {
    if n == 0 then 0 else
      CompletedCopies(saved, completed, n - 1, m) + if n - 1 in completed && saved[n - 1] == m then 1 else 0
  }

  /** Copies of m that a step delivered without completing them: later batches offer them again. */
  function Extra(r: Relay, step: RelayStep, m: OutgoingMessage): nat {
    var r' := Go(r, step);
    if r'.completed == r.completed then Copies(r'.delivered[|r.delivered|..], m) else 0
  }

  function Extras(steps: seq<RelayStep>, m: OutgoingMessage): nat {
    if steps == [] then 0 else
      Extras(steps[..|steps| - 1], m) + Extra(GoAll(steps[..|steps| - 1]), steps[|steps| - 1], m)
  }

  lemma {:induction false} CompletedLonger(saved: seq<OutgoingMessage>, more: seq<OutgoingMessage>, c: set<nat>, n: nat,
                                           m: OutgoingMessage)
    requires n <= |saved|
    ensures CompletedCopies(saved + more, c, n, m) == CompletedCopies(saved, c, n, m)
  {
    if n > 0 { CompletedLonger(saved, more, c, n - 1, m); }
  }

  lemma {:induction false} CompletedNone(saved: seq<OutgoingMessage>, c: set<nat>, n: nat, m: OutgoingMessage)
    requires n <= |saved| && forall i :: i in c ==> i < n
    ensures CompletedCopies(saved, c, |saved|, m) == CompletedCopies(saved, c, n, m)
    decreases |saved| - n
  {
    if n < |saved| { CompletedNone(saved, c, n + 1, m); }
  }

  lemma {:induction false} CompletedOneMore(saved: seq<OutgoingMessage>, c: set<nat>, i: nat, n: nat,
                                            m: OutgoingMessage)
    requires n <= |saved| && i !in c
    ensures CompletedCopies(saved, c + {i}, n, m)
            == CompletedCopies(saved, c, n, m) + if i < n && saved[i] == m then 1 else 0
  {
    if n > 0 { CompletedOneMore(saved, c, i, n - 1, m); }
  }

  lemma PickedSnoc(saved: seq<OutgoingMessage>, batch: seq<nat>, i: nat, m: OutgoingMessage)
    requires i < |saved| && forall k :: 0 <= k < |batch| ==> batch[k] < |saved|
    ensures Copies(Picked(saved, batch + [i]), m) == Copies(Picked(saved, batch), m) + if saved[i] == m then 1 else 0
    ensures Positions(batch + [i]) == Positions(batch) + {i}
  {
    assert Picked(saved, batch + [i]) == Picked(saved, batch) + [saved[i]];
  }

  /** Completing a batch adds exactly the copies in it. */
  lemma {:induction false} CompletingABatch(saved: seq<OutgoingMessage>, completed: set<nat>, batch: seq<nat>,
                                            m: OutgoingMessage)
    requires Allowed(|saved|, completed, batch)
    ensures CompletedCopies(saved, completed + Positions(batch), |saved|, m)
            == CompletedCopies(saved, completed, |saved|, m) + Copies(Picked(saved, batch), m)
  {
    if batch == [] {
      assert completed + Positions([]) == completed;
    } else {
      var before, i := batch[..|batch| - 1], batch[|batch| - 1];
      assert batch == before + [i];
      CompletingABatch(saved, completed, before, m);
      PickedSnoc(saved, before, i, m);
      assert completed + Positions(batch) == (completed + Positions(before)) + {i};
      CompletedOneMore(saved, completed + Positions(before), i, |saved|, m);
    }
  }

  predicate Bounded(r: Relay) { forall i :: i in r.completed ==> i < |r.saved| }

  /** The weight of a relay for m: copies delivered less copies completed. */
  function Surplus(r: Relay, m: OutgoingMessage): int {
    Copies(r.delivered, m) - CompletedCopies(r.saved, r.completed, |r.saved|, m)
  }

  lemma SavingKeepsSurplus(r: Relay, more: seq<OutgoingMessage>, m: OutgoingMessage)
    requires Bounded(r)
    ensures Surplus(r.(saved := r.saved + more), m) == Surplus(r, m)
  {
    CompletedLonger(r.saved, more, r.completed, |r.saved|, m);
    CompletedNone(r.saved + more, r.completed, |r.saved|, m);
  }

  lemma DeliveringAddsSurplus(r: Relay, news: seq<OutgoingMessage>, m: OutgoingMessage)
    ensures Surplus(r.Sent(news), m) == Surplus(r, m) + Copies(news, m)
    ensures r.Sent(news).delivered[|r.delivered|..] == news
  {
  }

  lemma CompletingTakesSurplus(r: Relay, batch: seq<nat>, m: OutgoingMessage)
    requires r.Allows(batch)
    ensures Surplus(r.Completed(batch), m) == Surplus(r, m) - Copies(Picked(r.saved, batch), m)
    ensures batch != [] ==> r.Completed(batch).completed != r.completed
  {
    CompletingABatch(r.saved, r.completed, batch, m);
    if batch != [] { assert batch[0] in Positions(batch); }
  }

  /** The three ways a relay run can end: nothing sent, sent, or sent and completed. */
  lemma ForwardCases(r: Relay, batch: seq<nat>, luck: Luck)
    requires r.Allows(batch)
    ensures var r', sent := Go(r, Forward(batch, luck)), r.Sent(Picked(r.saved, batch));
            r' == r || r' == sent || (batch != [] && r' == sent.Completed(batch))
  {
  }

  lemma ForwardIsConserved(r: Relay, batch: seq<nat>, luck: Luck, m: OutgoingMessage)
    requires Bounded(r) && r.Allows(batch)
    ensures var r' := Go(r, Forward(batch, luck));
            Bounded(r') && Surplus(r', m) == Surplus(r, m) + Extra(r, Forward(batch, luck), m)
  {
    ForwardCases(r, batch, luck);
    var r', news := Go(r, Forward(batch, luck)), Picked(r.saved, batch);
    DeliveringAddsSurplus(r, news, m);
    CompletingTakesSurplus(r.Sent(news), batch, m);
    if r' == r { assert r.delivered[|r.delivered|..] == []; }
  }

  lemma StepIsConserved(r: Relay, step: RelayStep, m: OutgoingMessage)
    requires Bounded(r)
    ensures Bounded(Go(r, step)) && Surplus(Go(r, step), m) == Surplus(r, m) + Extra(r, step, m)
  {
    assert r.delivered[|r.delivered|..] == [];
    match step {
      case Save(ms) => SavingKeepsSurplus(r, ms, m);
      case Forward(batch, luck) => if r.Allows(batch) { ForwardIsConserved(r, batch, luck, m); }
      case Crash(batch, prefix) =>
        if r.Allows(batch) {
          DeliveringAddsSurplus(r, Picked(r.saved, batch)[..if prefix <= |batch| then prefix else |batch|], m);
        }
    }
  }

  /**
   Over any run every delivered copy is accounted for: it completed its message, or it is an
   extra whose message is offered again. So a completed message was delivered at least once.
   */
  lemma {:induction false} DeliveriesAreConserved(steps: seq<RelayStep>, m: OutgoingMessage)
    ensures var r := GoAll(steps);
            && Bounded(r)
            && Copies(r.delivered, m) == CompletedCopies(r.saved, r.completed, |r.saved|, m) + Extras(steps, m)
  {
    if steps != [] {
      var before := GoAll(steps[..|steps| - 1]);
      DeliveriesAreConserved(steps[..|steps| - 1], m);
      StepIsConserved(before, steps[|steps| - 1], m);
    }
  }

  lemma {:induction false} CompletedIsCounted(saved: seq<OutgoingMessage>, completed: set<nat>, n: nat, i: nat)
    requires i < n <= |saved| && i in completed
    ensures CompletedCopies(saved, completed, n, saved[i]) > 0
  {
    if i < n - 1 { CompletedIsCounted(saved, completed, n - 1, i); }
  }

  /** At least once: whatever the storage offered and whatever failed when, a completed message was delivered. */
  lemma CompletedWasDelivered(steps: seq<RelayStep>, i: nat)
    requires i in GoAll(steps).completed
    ensures i < |GoAll(steps).saved| && GoAll(steps).saved[i] in GoAll(steps).delivered
  {
    var r := GoAll(steps);
    DeliveriesAreConserved(steps, OutgoingMessage("", Message("", map[])));
    DeliveriesAreConserved(steps, r.saved[i]);
    CompletedIsCounted(r.saved, r.completed, |r.saved|, i);
  }

  /******* Storages that offer messages in the order they were saved *******/

  /** Positions of the first `limit` saved messages not yet completed. */
  function Batch(n: nat, completed: set<nat>, limit: nat): (b: seq<nat>)
    ensures |b| <= limit && Allowed(n, completed, b)
  {
    if n == 0 then [] else
      var b := Batch(n - 1, completed, limit);
      if n - 1 !in completed && |b| < limit then b + [n - 1] else b
  }

  function InOrder(limit: nat): (p: Policy)
    ensures Protocol(p)
  {
    (saved: seq<OutgoingMessage>, completed: set<nat>) => Batch(|saved|, completed, limit)
  }

  /** A batch offers all that is not completed, unless it is full of earlier messages. */
  lemma {:induction false} BatchOffers(n: nat, completed: set<nat>, limit: nat, i: nat)
    requires i < n && i !in completed
    ensures var b := Batch(n, completed, limit);
            i in b || (|b| == limit && forall k :: 0 <= k < |b| ==> b[k] < i)
  {
    var b := Batch(n - 1, completed, limit);
    if i < n - 1 {
      BatchOffers(n - 1, completed, limit, i);
      if i in b { assert i in b + [n - 1]; }
    } else if |b| < limit {
      assert (b + [i])[|b|] == i;
    }
  }

  /**
   A saved message was delivered, is in the next batch, or that batch is full of earlier ones,
   whatever happened so far.
   */
  lemma SavedIsDeliveredOrOffered(steps: seq<RelayStep>, i: nat, limit: nat)
    requires i < |GoAll(steps).saved|
    ensures var r := GoAll(steps);
            var next := InOrder(limit)(r.saved, r.completed);
            || r.saved[i] in r.delivered
            || i in next
            || (|next| == limit && forall k :: 0 <= k < limit ==> next[k] < i)
  {
    var r := GoAll(steps);
    if i in r.completed {
      CompletedWasDelivered(steps, i);
    } else {
      BatchOffers(|r.saved|, r.completed, limit, i);
    }
  }

  /** Nothing is sent without also being completed, and batches are offered in order. */
  predicate Clean(r: Relay, step: RelayStep, limit: nat) {
    match step
    case Save(_) => true
    case Forward(batch, luck) => batch == InOrder(limit)(r.saved, r.completed) && (luck.completing.Done? || luck.marked)
    case Crash(_, _) => false
  }

  predicate CleanRun(steps: seq<RelayStep>, limit: nat) {
    steps == [] || (
      && CleanRun(steps[..|steps| - 1], limit)
      && Clean(GoAll(steps[..|steps| - 1]), steps[|steps| - 1], limit))
  }

  function FirstN(k: nat): (s: set<nat>)
    ensures forall i: nat :: i in s <==> i < k
  {
    if k == 0 then {} else FirstN(k - 1) + {k - 1}
  }

  lemma {:induction false} NextPositions(n: nat, k: nat, limit: nat)
    requires k <= n
    ensures var b := Batch(n, FirstN(k), limit);
            && k + |b| <= n && (k + |b| < n ==> |b| == limit)
            && forall j :: 0 <= j < |b| ==> b[j] == k + j
    decreases n
  {
    if k < n {
      NextPositions(n - 1, k, limit);
    } else {
      NothingBelow(n, limit, k);
    }
  }

  lemma {:induction false} NothingBelow(n: nat, limit: nat, k: nat)
    requires n <= k
    ensures Batch(n, FirstN(k), limit) == []
  {
    if n > 0 { NothingBelow(n - 1, limit, k); }
  }

  lemma PickedConsecutive(saved: seq<OutgoingMessage>, b: seq<nat>, k: nat)
    requires k + |b| <= |saved| && forall j :: 0 <= j < |b| ==> b[j] == k + j
    ensures Picked(saved, b) == saved[k..k + |b|]
  {
  }

  lemma ConsecutivePositions(b: seq<nat>, k: nat)
    requires forall j :: 0 <= j < |b| ==> b[j] == k + j
    ensures FirstN(k) + Positions(b) == FirstN(k + |b|)
  {
    forall i: nat | i in FirstN(k + |b|)
      ensures i in FirstN(k) + Positions(b)
    {
      if k <= i { assert b[i - k] == i; }
    }
  }

  /** When the first k messages are completed, the next batch is the next `limit` of them. */
  lemma NextBatch(saved: seq<OutgoingMessage>, k: nat, limit: nat)
    requires k <= |saved|
    ensures var b := Batch(|saved|, FirstN(k), limit);
            && k + |b| <= |saved| && (k + |b| < |saved| ==> |b| == limit)
            && Picked(saved, b) == saved[k..k + |b|]
            && FirstN(k) + Positions(b) == FirstN(k + |b|)
  {
    NextPositions(|saved|, k, limit);
    var b := Batch(|saved|, FirstN(k), limit);
    PickedConsecutive(saved, b, k);
    ConsecutivePositions(b, k);
  }

  lemma PrefixGrows(r: Relay, batch: seq<nat>, k: nat)
    requires r.Allows(batch) && k + |batch| <= |r.saved| && r.delivered == r.saved[..k] && r.completed == FirstN(k)
    requires Picked(r.saved, batch) == r.saved[k..k + |batch|] && FirstN(k) + Positions(batch) == FirstN(k + |batch|)
    ensures var r' := r.Sent(Picked(r.saved, batch)).Completed(batch);
            r'.delivered == r.saved[..k + |batch|] && r'.completed == FirstN(k + |batch|)
  {
  }

  lemma LuckyForward(r: Relay, batch: seq<nat>, luck: Luck)
    requires r.Allows(batch) && (luck.completing.Done? || luck.marked)
    ensures Go(r, Forward(batch, luck))
            == if batch == [] || !SendAll(luck, |batch|).Done? then r
               else r.Sent(Picked(r.saved, batch)).Completed(batch)
  {
  }

  lemma ForwardFromPrefix(r: Relay, limit: nat, luck: Luck)
    requires r.delivered <= r.saved && r.completed == FirstN(|r.delivered|)
    requires luck.completing.Done? || luck.marked
    ensures var next := InOrder(limit)(r.saved, r.completed);
            var r' := Go(r, Forward(next, luck));
            && r'.delivered <= r'.saved && r'.completed == FirstN(|r'.delivered|)
            && (SendAll(luck, |next|).Done? ==> |r'.delivered| == |r.delivered| + |next|)
  {
    var k, next := |r.delivered|, InOrder(limit)(r.saved, r.completed);
    NextBatch(r.saved, k, limit);
    LuckyForward(r, next, luck);
    PrefixGrows(r, next, k);
  }

  /** Without such failures, whatever else fails, the saved messages are delivered once each and in the order saved. */
  lemma {:induction false} CleanRunsForwardInOrder(steps: seq<RelayStep>, limit: nat)
    requires CleanRun(steps, limit)
    ensures var r := GoAll(steps);
            r.delivered <= r.saved && r.completed == FirstN(|r.delivered|)
  {
    if steps == [] {
      assert FirstN(0) == {};
    } else {
      var r, step := GoAll(steps[..|steps| - 1]), steps[|steps| - 1];
      CleanRunsForwardInOrder(steps[..|steps| - 1], limit);
      if step.Forward? { ForwardFromPrefix(r, limit, step.luck); }
    }
  }

  /** And each run that succeeds takes the next `limit` messages, so that enough of them deliver everything. */
  lemma SuccessfulRunsMakeProgress(steps: seq<RelayStep>, limit: nat, luck: Luck)
    requires CleanRun(steps, limit) && luck.completing.Done?
    requires var r := GoAll(steps); SendAll(luck, |InOrder(limit)(r.saved, r.completed)|).Done?
    ensures var r := GoAll(steps);
            var done := |r.delivered| + limit;
            Go(r, Forward(InOrder(limit)(r.saved, r.completed), luck)).delivered
            == r.saved[..if done <= |r.saved| then done else |r.saved|]
  {
    CleanRunsForwardInOrder(steps, limit);
    var r := GoAll(steps);
    NextBatch(r.saved, |r.delivered|, limit);
    ForwardFromPrefix(r, limit, luck);
  }
}

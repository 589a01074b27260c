/** Idempotent handling: duplicates are found by a message tracker and their handlers skipped or warned. */
module Idempotency {
  import opened Messages
  import opened TransactionContexts
  import opened Correlation

  const IDEMPOTENCY_CHECK_KEY := "mersal-message-is-repeated"

  class InMemoryMessageTracker {
    var tracked: set<MessageId>

    constructor ()
      ensures tracked == {}
    {
      tracked := {};
    }

    method TrackMessage(id: MessageId) returns (o: Outcome)
      modifies this
      ensures tracked == old(tracked) + {id}
      ensures o == if id in old(tracked) then Raised(InvalidState) else Done
    {
      if id in tracked { return Raised(InvalidState); }
      tracked := tracked + {id};
      return Done;
    }

    method IsMessageTracked(id: MessageId) returns (r: bool)
      ensures r == (id in tracked)
    {
      r := id in tracked;
    }
  }

  class HandlerInvoker {
    var shouldInvoke: bool

    constructor ()
      ensures shouldInvoke
    {
      shouldInvoke := true;
    }
  }

  /** Tracked before the check, or by others (`meanwhile`) between the check and the own track. */
  predicate IsDuplicate(tracked: set<MessageId>, meanwhile: set<MessageId>, id: MessageId) {
    id in tracked || id in meanwhile
  }

  /** The headers after the step: unmarked only if the handlers of a duplicate are switched off instead. */
  function Marked(h: Headers, duplicate: bool, stop: bool): Headers {
    if duplicate && stop then h else h[IDEMPOTENCY_CHECK_KEY := Str(Truth(duplicate))]
  }

  /**
   Both marks are texts that are not empty, so a handler that tests the header as a condition
   takes every message for a repeated one, the first delivery included; only the text tells
   them apart.
   */
  lemma EveryMarkIsTruthy(h: Headers, duplicate: bool, stop: bool)
    ensures var h' := Marked(h, duplicate, stop);
            && (duplicate && stop ==> h' == h)
            && (!(duplicate && stop) ==>
                  && h' == h["mersal-message-is-repeated" := if duplicate then "True" else "False"]
                  && !Unset(h', "mersal-message-is-repeated"))
  {
    assert "True"[0] != "False"[0];
  }

  class IdempotencyCheckerStep {
    const tracker: InMemoryMessageTracker
    const stopInvocation: bool

    constructor (tracker: InMemoryMessageTracker, stopInvocation: bool)
      ensures this.tracker == tracker && this.stopInvocation == stopInvocation
    {
      this.tracker, this.stopInvocation := tracker, stopInvocation;
    }

    /** `meanwhile` are the ids that other attempts track between this one's check and its track. */
    method Call(headers: MessageHeaders, invokers: seq<HandlerInvoker>, meanwhile: set<MessageId>)
      returns (duplicate: bool)
      modifies tracker, headers, set v | v in invokers
      ensures var id := old(Got(headers.data, MESSAGE_ID_KEY));
              && duplicate == IsDuplicate(old(tracker.tracked), meanwhile, id)
              && tracker.tracked == old(tracker.tracked) + meanwhile + {id}
      ensures headers.data == Marked(old(headers.data), duplicate, stopInvocation)
      ensures forall v :: v in invokers ==> v.shouldInvoke == (old(v.shouldInvoke) && !(duplicate && stopInvocation))
    {
      var id := Got(headers.data, MESSAGE_ID_KEY);
      duplicate := tracker.IsMessageTracked(id);
      tracker.tracked := tracker.tracked + meanwhile;
      if !duplicate {
        var o := tracker.TrackMessage(id);
        duplicate := !o.Done?;
      }
      if duplicate {
        HandleDuplicate(headers, invokers);
      } else {
        headers.SetItem(IDEMPOTENCY_CHECK_KEY, Truth(false));
      }
    }

    method HandleDuplicate(headers: MessageHeaders, invokers: seq<HandlerInvoker>)
      modifies headers, set v | v in invokers
      ensures headers.data == if stopInvocation then old(headers.data)
              else old(headers.data)[IDEMPOTENCY_CHECK_KEY := "True"]
      ensures forall v :: v in invokers ==> v.shouldInvoke == (old(v.shouldInvoke) && !stopInvocation)
    {
      if !stopInvocation {
        headers.SetItem(IDEMPOTENCY_CHECK_KEY, Truth(true));
        return;
      }
      for i := 0 to |invokers|
        invariant headers.data == old(headers.data)
        invariant forall j :: 0 <= j < i ==> !invokers[j].shouldInvoke
        modifies set v | v in invokers
      {
        invokers[i].shouldInvoke := false;
      }
    }
  }

  /******* Attempts to process messages, interleaved at every await *******/

  datatype Phase = Checking | Tracking | Dispatching(duplicate: bool, next: nat) | Ended

  /** One processing attempt: a first delivery, a redelivery or a copy. */
  datatype Attempt = Attempt(id: MessageId, handlers: nat, phase: Phase)

  /** A handler that was invoked, and whether the message said that it is repeated. */
  datatype Invoked = Invoked(id: MessageId, attempt: nat, handler: nat, repeated: bool)

  /** The tracker's ids, each with the attempt that tracked it. */
  datatype World = World(tracked: map<MessageId, nat>, attempts: seq<Attempt>, calls: seq<Invoked>) {
    function At(i: nat, p: Phase): World
      requires i < |attempts|
    {
      this.(attempts := attempts[i := attempts[i].(phase := p)])
    }
  }

  datatype Event = Arrive(id: MessageId, handlers: nat) | Advance(attempt: nat, raises: bool)

  function Apply(stop: bool, w: World, e: Event): World {
    match e
    case Arrive(id, handlers) => w.(attempts := w.attempts + [Attempt(id, handlers, Checking)])
    case Advance(i, raises) => if i < |w.attempts| then AdvanceOne(stop, w, i, raises) else w
  }

  /** The next await of attempt i ends. */
  function AdvanceOne(stop: bool, w: World, i: nat, raises: bool): World
    requires i < |w.attempts|
  {
    var a := w.attempts[i];
    match a.phase
    case Checking => w.At(i, if a.id in w.tracked then Dispatching(true, 0) else Tracking)
    case Tracking =>
      if a.id in w.tracked then w.At(i, Dispatching(true, 0))
      else w.At(i, Dispatching(false, 0)).(tracked := w.tracked[a.id := i])
    case Dispatching(duplicate, n) =>
      if n >= a.handlers then w.At(i, Ended)
      else if duplicate && stop then w.At(i, Dispatching(duplicate, n + 1))
      else
        w.At(i, if raises then Ended else Dispatching(duplicate, n + 1)).(
          calls := w.calls + [Invoked(a.id, i, n, duplicate)])
    case Ended => w
  }

  function Run(stop: bool, w: World, events: seq<Event>): World {
    if events == [] then w else Apply(stop, Run(stop, w, events[..|events| - 1]), events[|events| - 1])
  }

  /** Other attempts go on while attempt i waits. */
  predicate Leaves(events: seq<Event>, i: nat) { forall e :: e in events && e.Advance? ==> e.attempt != i }

  lemma WaitingThroughOne(stop: bool, w: World, e: Event, i: nat)
    requires i < |w.attempts| && (e.Advance? ==> e.attempt != i)
    ensures var w' := Apply(stop, w, e);
            i < |w'.attempts| && w'.attempts[i] == w.attempts[i] && w.tracked.Keys <= w'.tracked.Keys
  {
  }

  lemma {:induction false} WaitingAttempt(stop: bool, w: World, events: seq<Event>, i: nat)
    requires i < |w.attempts| && Leaves(events, i)
    ensures var w' := Run(stop, w, events);
            i < |w'.attempts| && w'.attempts[i] == w.attempts[i] && w.tracked.Keys <= w'.tracked.Keys
  {
    if events != [] {
      var before, e := events[..|events| - 1], events[|events| - 1];
      assert e in events && forall d :: d in before ==> d in events;
      WaitingAttempt(stop, w, before, i);
      WaitingThroughOne(stop, Run(stop, w, before), e, i);
    }
  }

  /**
   The step as the machine takes it: its check, whatever others do in between, and its track if
   the check found nothing. It finds the same duplicates and tracks the same ids.
   */
  lemma CheckAndTrackAreSteps(stop: bool, w: World, i: nat, between: seq<Event>) returns (w': World)
    requires i < |w.attempts| && w.attempts[i].phase.Checking? && Leaves(between, i)
    ensures var checked := Run(stop, Apply(stop, w, Advance(i, false)), between);
            var id, meanwhile := w.attempts[i].id, checked.tracked.Keys - w.tracked.Keys;
            && i < |checked.attempts|
            && w' == (if checked.attempts[i].phase.Tracking? then Apply(stop, checked, Advance(i, false)) else checked)
            && w'.attempts[i]
               == w.attempts[i].(phase := Dispatching(IsDuplicate(w.tracked.Keys, meanwhile, id), 0))
            && w'.tracked.Keys == w.tracked.Keys + meanwhile + {id} && w'.calls == checked.calls
  {
    var w1 := Apply(stop, w, Advance(i, false));
    WaitingAttempt(stop, w1, between, i);
    w' := Run(stop, w1, between);
    if w'.attempts[i].phase.Tracking? { w' := Apply(stop, w', Advance(i, false)); }
  }

  /** Attempt i goes on alone n times, and nothing raises. */
  function Alone(i: nat, n: nat): seq<Event> { if n == 0 then [] else Alone(i, n - 1) + [Advance(i, false)] }

  function CallsOf(id: MessageId, i: nat, n: nat, repeated: bool): seq<Invoked> {
    if n == 0 then [] else CallsOf(id, i, n - 1, repeated) + [Invoked(id, i, n - 1, repeated)]
  }

  lemma RunMore(stop: bool, w: World, events: seq<Event>, e: Event)
    ensures Run(stop, w, []) == w && Run(stop, w, events + [e]) == Apply(stop, Run(stop, w, events), e)
  {
    assert (events + [e])[..|events|] == events;
  }

  /** World w with attempt i in this phase and these calls made besides. */
  function Dispatched(w: World, i: nat, p: Phase, more: seq<Invoked>): World
    requires i < |w.attempts|
  {
    World(w.tracked, w.attempts[i := w.attempts[i].(phase := p)], w.calls + more)
  }

  lemma DispatchesOne(stop: bool, w: World, i: nat, n: nat, repeated: bool, made: seq<Invoked>)
    requires i < |w.attempts| && n < w.attempts[i].handlers
    ensures Apply(stop, Dispatched(w, i, Dispatching(repeated, n), made), Advance(i, false))
            == Dispatched(w, i, Dispatching(repeated, n + 1),
                 made + if repeated && stop then [] else [Invoked(w.attempts[i].id, i, n, repeated)])
  {
    var before := Dispatched(w, i, Dispatching(repeated, n), made);
    assert made + [] == made;
    assert before.calls + [Invoked(w.attempts[i].id, i, n, repeated)]
        == w.calls + (made + [Invoked(w.attempts[i].id, i, n, repeated)]);
    assert before.attempts[i := w.attempts[i].(phase := Dispatching(repeated, n + 1))]
        == w.attempts[i := w.attempts[i].(phase := Dispatching(repeated, n + 1))];
  }

  /** World w after attempt i invoked its first n handlers, or skipped them. */
  function AfterHandlers(stop: bool, w: World, i: nat, n: nat, repeated: bool): World
    requires i < |w.attempts|
  {
    Dispatched(w, i, Dispatching(repeated, n),
      if repeated && stop then [] else CallsOf(w.attempts[i].id, i, n, repeated))
  }

  lemma OneHandlerMore(stop: bool, w: World, i: nat, n: nat, repeated: bool)
    requires i < |w.attempts| && n < w.attempts[i].handlers
    ensures Apply(stop, AfterHandlers(stop, w, i, n, repeated), Advance(i, false))
            == AfterHandlers(stop, w, i, n + 1, repeated)
  {
    DispatchesOne(stop, w, i, n, repeated, if repeated && stop then [] else CallsOf(w.attempts[i].id, i, n, repeated));
  }

  lemma NoHandlersYet(stop: bool, w: World, i: nat, repeated: bool)
    requires i < |w.attempts| && w.attempts[i].phase == Dispatching(repeated, 0)
    ensures AfterHandlers(stop, w, i, 0, repeated) == w
  {
    assert w.calls + [] == w.calls && w.attempts[i := w.attempts[i]] == w.attempts;
  }

  lemma DispatchesMore(stop: bool, w: World, events: seq<Event>, i: nat, n: nat, repeated: bool)
    requires i < |w.attempts| && n < w.attempts[i].handlers
    requires Run(stop, w, events) == AfterHandlers(stop, w, i, n, repeated)
    ensures Run(stop, w, events + [Advance(i, false)]) == AfterHandlers(stop, w, i, n + 1, repeated)
  {
    RunMore(stop, w, events, Advance(i, false));
    OneHandlerMore(stop, w, i, n, repeated);
  }

  lemma {:induction false} DispatchesAll(stop: bool, w: World, i: nat, n: nat, repeated: bool)
    requires i < |w.attempts| && w.attempts[i].phase == Dispatching(repeated, 0) && n <= w.attempts[i].handlers
    ensures Run(stop, w, Alone(i, n)) == AfterHandlers(stop, w, i, n, repeated)
  {
    if n == 0 {
      NoHandlersYet(stop, w, i, repeated);
    } else {
      var m := n - 1;
      DispatchesAll(stop, w, i, m, repeated);
      assert Alone(i, m + 1) == Alone(i, m) + [Advance(i, false)];
      DispatchesMore(stop, w, Alone(i, m), i, m, repeated);
    }
  }

  /** World w with one more attempt, in this phase. */
  function With(w: World, id: MessageId, n: nat, p: Phase): World {
    w.(attempts := w.attempts + [Attempt(id, n, p)])
  }

  lemma PhaseOfTheLast(w: World, id: MessageId, n: nat, p: Phase, q: Phase)
    ensures With(w, id, n, p).At(|w.attempts|, q) == With(w, id, n, q)
  {
    assert With(w, id, n, p).attempts[|w.attempts| := Attempt(id, n, q)] == With(w, id, n, q).attempts;
  }

  lemma ChecksItsId(stop: bool, w: World, id: MessageId, n: nat)
    ensures Apply(stop, With(w, id, n, Checking), Advance(|w.attempts|, false))
            == With(w, id, n, if id in w.tracked then Dispatching(true, 0) else Tracking)
  {
    PhaseOfTheLast(w, id, n, Checking, if id in w.tracked then Dispatching(true, 0) else Tracking);
  }

  lemma TracksItsId(stop: bool, w: World, id: MessageId, n: nat)
    requires id !in w.tracked
    ensures Apply(stop, With(w, id, n, Tracking), Advance(|w.attempts|, false))
            == With(w, id, n, Dispatching(false, 0)).(tracked := w.tracked[id := |w.attempts|])
  {
    PhaseOfTheLast(w, id, n, Tracking, Dispatching(false, 0));
  }

  lemma RunOf(stop: bool, w: World, e: Event)
    ensures Run(stop, w, [e]) == Apply(stop, w, e)
  {
    RunMore(stop, w, [], e);
    assert [] + [e] == [e];
  }

  /** Its check, and its track if it is the first. */
  lemma ArrivesAndTracks(stop: bool, w: World, id: MessageId, n: nat) returns (events: seq<Event>, v: World)
    ensures v == Run(stop, w, events)
    ensures var i, repeated := |w.attempts|, id in w.tracked;
            v == With(w, id, n, Dispatching(repeated, 0)).(
                   tracked := if repeated then w.tracked else w.tracked[id := i])
  {
    var next := Advance(|w.attempts|, false);
    events := [Arrive(id, n)];
    RunOf(stop, w, Arrive(id, n));
    RunMore(stop, w, events, next);
    ChecksItsId(stop, w, id, n);
    events := events + [next];
    v := With(w, id, n, if id in w.tracked then Dispatching(true, 0) else Tracking);
    if id !in w.tracked {
      RunMore(stop, w, events, next);
      TracksItsId(stop, w, id, n);
      events := events + [next];
      v := With(w, id, n, Dispatching(false, 0)).(tracked := w.tracked[id := |w.attempts|]);
    }
  }

  lemma EndsAfter(stop: bool, w: World, i: nat, repeated: bool)
    requires i < |w.attempts| && w.attempts[i].phase == Dispatching(repeated, w.attempts[i].handlers)
    ensures Apply(stop, w, Advance(i, false))
            == World(w.tracked, w.attempts[i := Attempt(w.attempts[i].id, w.attempts[i].handlers, Ended)], w.calls)
  {
  }

  /**
   An attempt that arrives and is left alone: the first one for its id tracks it and invokes all
   handlers; a later one invokes them marked as repeated, or, with `stop_invocation`, not at all.
   */
  lemma AloneItRuns(stop: bool, w: World, id: MessageId, n: nat) returns (events: seq<Event>)
    ensures var i, repeated := |w.attempts|, id in w.tracked;
            var w' := Run(stop, w, events);
            && w'.attempts == w.attempts + [Attempt(id, n, Ended)]
            && w'.tracked == (if repeated then w.tracked else w.tracked[id := i])
            && w'.calls == w.calls + if repeated && stop then [] else CallsOf(id, i, n, repeated)
  {
    var i, repeated := |w.attempts|, id in w.tracked;
    var v;
    events, v := ArrivesAndTracks(stop, w, id, n);
    DispatchesAll(stop, v, i, n, repeated);
    RunConcat(stop, w, events, Alone(i, n));
    events := events + Alone(i, n);
    RunMore(stop, w, events, Advance(i, false));
    v := Run(stop, w, events);
    EndsAfter(stop, v, i, repeated);
    assert v.attempts[i := Attempt(id, n, Ended)] == w.attempts + [Attempt(id, n, Ended)];
    events := events + [Advance(i, false)];
  }

  lemma {:induction false} RunConcat(stop: bool, w: World, a: seq<Event>, b: seq<Event>)
    ensures Run(stop, w, a + b) == Run(stop, Run(stop, w, a), b)
  {
    if b == [] {
      assert a + b == a;
    } else {
      assert (a + b)[..|a + b| - 1] == a + b[..|b| - 1];
      RunConcat(stop, w, a, b[..|b| - 1]);
    }
  }

  /** A handler that raises is the last one invoked. */
  lemma RaisingEnds(stop: bool, w: World, i: nat)
    requires i < |w.attempts| && w.attempts[i].phase.Dispatching? && w.attempts[i].phase.next < w.attempts[i].handlers
    requires !(w.attempts[i].phase.duplicate && stop)
    ensures var a, w' := w.attempts[i], Apply(stop, w, Advance(i, true));
            && w'.attempts[i].phase == Ended
            && w'.calls == w.calls + [Invoked(a.id, i, a.phase.next, a.phase.duplicate)]
  {
  }

  const EMPTY_WORLD := World(map[], [], [])

  predicate Tracks(w: World, i: nat)
    requires i < |w.attempts|
  {
    w.attempts[i].id in w.tracked && w.tracked[w.attempts[i].id] == i
  }

  /** An attempt goes to its handlers as the first one only if it tracked its id. */
  predicate AttemptInv(w: World, i: nat)
    requires i < |w.attempts|
  {
    match w.attempts[i].phase
    case Checking => !Tracks(w, i)
    case Tracking => !Tracks(w, i)
    case Dispatching(duplicate, _) => w.attempts[i].id in w.tracked && (duplicate <==> !Tracks(w, i))
    case Ended => true
  }

  predicate CallInv(stop: bool, w: World, c: Invoked) {
    && c.attempt < |w.attempts| && c.id == w.attempts[c.attempt].id
    && (c.repeated ==> !stop)
    && (c.repeated <==> !Tracks(w, c.attempt))
    && (w.attempts[c.attempt].phase.Ended?
        || (w.attempts[c.attempt].phase.Dispatching? && c.handler < w.attempts[c.attempt].phase.next))
  }

  ghost predicate Inv(stop: bool, w: World) {
    && (forall id :: id in w.tracked ==> w.tracked[id] < |w.attempts|)
    && (forall i :: 0 <= i < |w.attempts| ==> AttemptInv(w, i))
    && (forall k :: 0 <= k < |w.calls| ==> CallInv(stop, w, w.calls[k]))
    && InOrder(w.calls)
  }

  predicate InOrder(calls: seq<Invoked>) {
    forall j, k :: 0 <= j < k < |calls| && calls[j].attempt == calls[k].attempt ==> calls[j].handler < calls[k].handler
  }

  lemma AdvanceKeepsAttempts(stop: bool, w: World, i: nat, raises: bool)
    requires Inv(stop, w) && i < |w.attempts|
    ensures var w' := AdvanceOne(stop, w, i, raises); forall j :: 0 <= j < |w'.attempts| ==> AttemptInv(w', j)
  {
    var w' := AdvanceOne(stop, w, i, raises);
    forall j | 0 <= j < |w'.attempts|
      ensures AttemptInv(w', j)
    {
      assert AttemptInv(w, i) && AttemptInv(w, j);
    }
  }

  lemma AdvanceKeepsCalls(stop: bool, w: World, i: nat, raises: bool)
    requires Inv(stop, w) && i < |w.attempts|
    ensures var w' := AdvanceOne(stop, w, i, raises); forall k :: 0 <= k < |w'.calls| ==> CallInv(stop, w', w'.calls[k])
  {
    var w' := AdvanceOne(stop, w, i, raises);
    assert AttemptInv(w, i);
    forall k | 0 <= k < |w'.calls|
      ensures CallInv(stop, w', w'.calls[k])
    {
      if k < |w.calls| { assert CallInv(stop, w, w.calls[k]); }
    }
  }

  lemma AdvanceKeepsOrder(stop: bool, w: World, i: nat, raises: bool)
    requires Inv(stop, w) && i < |w.attempts|
    ensures InOrder(AdvanceOne(stop, w, i, raises).calls)
  {
  }

  lemma ArriveKeepsInv(stop: bool, w: World, id: MessageId, handlers: nat)
    requires Inv(stop, w)
    ensures Inv(stop, Apply(stop, w, Arrive(id, handlers)))
  {
    var w' := Apply(stop, w, Arrive(id, handlers));
    forall i | 0 <= i < |w'.attempts|
      ensures AttemptInv(w', i)
    {
      if i < |w.attempts| { assert AttemptInv(w, i) && w'.attempts[i] == w.attempts[i]; }
    }
    forall k | 0 <= k < |w'.calls|
      ensures CallInv(stop, w', w'.calls[k])
    {
      assert CallInv(stop, w, w.calls[k]);
    }
  }

  lemma ApplyKeepsInv(stop: bool, w: World, e: Event)
    requires Inv(stop, w)
    ensures Inv(stop, Apply(stop, w, e))
  {
    if e.Arrive? {
      ArriveKeepsInv(stop, w, e.id, e.handlers);
    } else if e.attempt < |w.attempts| {
      AdvanceKeepsAttempts(stop, w, e.attempt, e.raises);
      AdvanceKeepsCalls(stop, w, e.attempt, e.raises);
      AdvanceKeepsOrder(stop, w, e.attempt, e.raises);
    }
  }

  lemma {:induction false} RunKeepsInv(stop: bool, events: seq<Event>)
    ensures Inv(stop, Run(stop, EMPTY_WORLD, events))
  {
    if events != [] {
      RunKeepsInv(stop, events[..|events| - 1]);
      ApplyKeepsInv(stop, Run(stop, EMPTY_WORLD, events[..|events| - 1]), events[|events| - 1]);
    }
  }

  /**
   However attempts interleave, the handlers of one message id that are not told of a
   repetition run in one attempt only, each at most once and in order; and with
   `stop_invocation` no others run at all.
   */
  lemma HandledInOneAttempt(stop: bool, events: seq<Event>, j: nat, k: nat)
    requires j < k < |Run(stop, EMPTY_WORLD, events).calls|
    ensures var w := Run(stop, EMPTY_WORLD, events);
            var c, d := w.calls[j], w.calls[k];
            && (c.id == d.id && !c.repeated && !d.repeated ==> c.attempt == d.attempt && c.handler < d.handler)
            && (stop ==> !c.repeated && !d.repeated)
  {
    RunKeepsInv(stop, events);
    var w := Run(stop, EMPTY_WORLD, events);
    assert CallInv(stop, w, w.calls[j]) && CallInv(stop, w, w.calls[k]);
  }

  function CallsFor(calls: seq<Invoked>, id: MessageId): seq<Invoked> {
    if calls == [] then [] else
      CallsFor(calls[..|calls| - 1], id) + if calls[|calls| - 1].id == id then [calls[|calls| - 1]] else []
  }

  predicate FirstAttemptEnded(w: World, id: MessageId) {
    id in w.tracked && w.tracked[id] < |w.attempts| && w.attempts[w.tracked[id]].phase.Ended?
  }

  lemma NoCallAfterwards(w: World, e: Event, id: MessageId)
    requires Inv(true, w) && FirstAttemptEnded(w, id)
    ensures FirstAttemptEnded(Apply(true, w, e), id)
    ensures CallsFor(Apply(true, w, e).calls, id) == CallsFor(w.calls, id)
  {
    if e.Advance? && e.attempt < |w.attempts| { assert AttemptInv(w, e.attempt); }
  }

  /**
   Once the attempt that tracked an id has ended, by success or by a handler's exception, no
   handler ever runs for that id again: a failed first attempt is not made good by a retry.
   */
  lemma {:induction false} AFailedFirstAttemptIsFinal(before: seq<Event>, after: seq<Event>, id: MessageId)
    requires FirstAttemptEnded(Run(true, EMPTY_WORLD, before), id)
    ensures var w := Run(true, EMPTY_WORLD, before);
            && FirstAttemptEnded(Run(true, w, after), id)
            && CallsFor(Run(true, w, after).calls, id) == CallsFor(w.calls, id)
    ensures Inv(true, Run(true, Run(true, EMPTY_WORLD, before), after))
  {
    RunKeepsInv(true, before);
    if after != [] {
      AFailedFirstAttemptIsFinal(before, after[..|after| - 1], id);
      var w := Run(true, Run(true, EMPTY_WORLD, before), after[..|after| - 1]);
      ApplyKeepsInv(true, w, after[|after| - 1]);
      NoCallAfterwards(w, after[|after| - 1], id);
    }
  }

  /******* Attempts in which nothing fails *******/

  /** Handler h ran for attempt i, with the mark that tells whether it repeats an earlier one. */
  predicate Ran(w: World, i: nat, h: nat)
    requires i < |w.attempts|
  {
    Invoked(w.attempts[i].id, i, h, !Tracks(w, i)) in w.calls
  }

  predicate RanFirst(w: World, i: nat, n: nat)
    requires i < |w.attempts|
  {
    forall h: nat :: h < n ==> Ran(w, i, h)
  }

  /** An attempt that is not skipped has invoked all handlers up to the next, or all of them if it has ended. */
  predicate RanSoFar(stop: bool, w: World, i: nat)
    requires i < |w.attempts|
  {
    Tracks(w, i) || !stop ==>
      match w.attempts[i].phase
      case Dispatching(_, n) => n <= w.attempts[i].handlers && RanFirst(w, i, n)
      case Ended => RanFirst(w, i, w.attempts[i].handlers)
      case _ => true
  }

  lemma StillRan(w: World, w': World, i: nat, n: nat)
    requires i < |w.attempts| && i < |w'.attempts| && w'.attempts[i].id == w.attempts[i].id
    requires RanFirst(w, i, n) && Tracks(w', i) == Tracks(w, i) && w.calls <= w'.calls
    ensures RanFirst(w', i, n)
  {
    forall h: nat | h < n
      ensures Ran(w', i, h)
    {
      assert Ran(w, i, h);
    }
  }

  lemma OwnStepRuns(stop: bool, w: World, i: nat)
    requires Inv(stop, w) && i < |w.attempts| && RanSoFar(stop, w, i)
    ensures RanSoFar(stop, AdvanceOne(stop, w, i, false), i)
  {
    var w', p := AdvanceOne(stop, w, i, false), w.attempts[i].phase;
    assert AttemptInv(w, i);
    if Tracks(w, i) || !stop {
      if p.Dispatching? { StillRan(w, w', i, p.next); }
      if p.Ended? { StillRan(w, w', i, w.attempts[i].handlers); }
    }
  }

  lemma OtherStepKeeps(stop: bool, w: World, e: Event, i: nat)
    requires Inv(stop, w) && i < |w.attempts| && RanSoFar(stop, w, i) && (e.Advance? ==> e.attempt != i)
    ensures i < |Apply(stop, w, e).attempts| && RanSoFar(stop, Apply(stop, w, e), i)
  {
    var w', p := Apply(stop, w, e), w.attempts[i].phase;
    WaitingThroughOne(stop, w, e, i);
    assert AttemptInv(w, i) && Tracks(w', i) == Tracks(w, i);
    if Tracks(w, i) || !stop {
      if p.Dispatching? { StillRan(w, w', i, p.next); }
      if p.Ended? { StillRan(w, w', i, w.attempts[i].handlers); }
    }
  }

  lemma StepKeepsRan(stop: bool, w: World, e: Event, i: nat)
    requires Inv(stop, w) && e != Advance(i, true) && i < |Apply(stop, w, e).attempts|
    requires i < |w.attempts| ==> RanSoFar(stop, w, i)
    ensures RanSoFar(stop, Apply(stop, w, e), i)
  {
    if i < |w.attempts| {
      if e == Advance(i, false) { OwnStepRuns(stop, w, i); } else { OtherStepKeeps(stop, w, e, i); }
    }
  }

  lemma {:induction false} NothingFails(stop: bool, events: seq<Event>, i: nat)
    requires Advance(i, true) !in events && i < |Run(stop, EMPTY_WORLD, events).attempts|
    ensures RanSoFar(stop, Run(stop, EMPTY_WORLD, events), i)
  {
    var before, e := events[..|events| - 1], events[|events| - 1];
    var w := Run(stop, EMPTY_WORLD, before);
    RunKeepsInv(stop, before);
    assert e in events && forall d :: d in before ==> d in events;
    if i < |w.attempts| { NothingFails(stop, before, i); }
    StepKeepsRan(stop, w, e, i);
  }

  /**
   A first attempt in which no handler raises invokes all its handlers, and without
   `stop_invocation` so does every other.
   */
  lemma AllHandlersRun(stop: bool, events: seq<Event>, i: nat)
    requires Advance(i, true) !in events && i < |Run(stop, EMPTY_WORLD, events).attempts|
    ensures var w := Run(stop, EMPTY_WORLD, events);
            w.attempts[i].phase.Ended? && (Tracks(w, i) || !stop) ==>
              forall h: nat :: h < w.attempts[i].handlers ==> Ran(w, i, h)
  {
    NothingFails(stop, events, i);
  }
}

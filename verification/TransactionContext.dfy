/**
 The transaction context of one message: five lists of actions, each of which may
 raise an exception or be cancelled, a verdict, and the completed and closed flags.
 What an action will do when it runs is part of the action, so a claim about all
 contexts is a claim about every pattern of failures.
 */
module TransactionContexts {
  import opened Messages

  datatype Exn = InvalidState | Failure(code: nat)

  /** Raised is an `Exception`; Cancelled is any other `BaseException`. */
  datatype Outcome = Done | Raised(error: Exn) | Cancelled

  /** What running an action does to the outside world. */
  datatype Effect =
    | Requeue(message: Message)
    | SendOutgoing
    | SaveOutbox
    | UowCommit
    | UowRollback
    | UowClose
    | Custom(id: nat)

  datatype Action = Action(effect: Effect, outcome: Outcome)
  /** An on-error action ends in some way on each exception; on those not listed it returns. */
  datatype ErrorAction = ErrorAction(responses: map<Exn, Outcome>) {
    function On(e: Exn): Outcome { if e in responses then responses[e] else Done }
  }

  datatype Kind = Commit | Rollback | Ack | Nack | Close
  /** A value kept in the `items` dictionary of a context. */
  datatype Item = Flag(on: bool) | Outgoing(messages: seq<OutgoingMessage>) | UnitOfWork

  datatype Verdict = Undecided | Decided(commit: bool, ack: bool)

  /** The value of a context: its lists by kind, and for each kind the actions started so far. */
  datatype Ctx = Ctx(
    lists: map<Kind, seq<Action>>, onError: seq<ErrorAction>, verdict: Verdict,
    completed: bool, closed: bool, journal: map<Kind, seq<Action>>)
  {
    function Pending(k: Kind): seq<Action> {
      if k in lists then lists[k] else []
    }

    function With(k: Kind, actions: seq<Action>): Ctx {
      this.(lists := lists[k := actions])
    }

    function Ran(k: Kind): seq<Action> {
      if k in journal then journal[k] else []
    }

    function Log(k: Kind, actions: seq<Action>): Ctx {
      if actions == [] then this else this.(journal := journal[k := Ran(k) + actions])
    }

    /** `_must_commit` read as a condition: None counts as false. */
    predicate MustCommit() { verdict.Decided? && verdict.commit }

    predicate MustAck() { verdict.Decided? && verdict.ack }
  }

  /** A context in which nothing has been started yet. */
  predicate Unstarted(c: Ctx) { !c.completed && !c.closed && c.journal == map[] }

  const EMPTY_CTX := Ctx(map[], [], Undecided, false, false, map[])

  /** How many actions of a list get started: all up to and including the first that fails. */
  function Started(todo: seq<Action>): (n: nat)
    ensures n <= |todo|
    ensures n < |todo| ==> n > 0 && !todo[n - 1].outcome.Done?
  {
    if todo == [] then 0 else if todo[0].outcome.Done? then 1 + Started(todo[1..]) else 1
  }

  function Attempted(todo: seq<Action>): seq<Action> {
    todo[..Started(todo)]
  }

  function Verdicts(todo: seq<Action>): (o: Outcome)
    ensures o.Done? <==> forall a :: a in todo ==> a.outcome.Done?
  {
    if todo == [] then Done else if todo[0].outcome.Done? then Verdicts(todo[1..]) else todo[0].outcome
  }

  /** A list split in two starts its second part only if the first part is all done. */
  lemma {:induction false} StartedConcat(a: seq<Action>, b: seq<Action>)
    ensures Verdicts(a).Done? ==>
              Attempted(a) == a && Attempted(a + b) == a + Attempted(b) && Verdicts(a + b) == Verdicts(b)
    ensures !Verdicts(a).Done? ==> Attempted(a + b) == Attempted(a) && Verdicts(a + b) == Verdicts(a)
  {
    if a == [] {
      assert a + b == b;
    } else {
      assert (a + b)[1..] == a[1..] + b;
      StartedConcat(a[1..], b);
      assert a == [a[0]] + a[1..];
    }
  }

  lemma SingletonList(a: Action)
    ensures Attempted([a]) == [a] && Verdicts([a]) == a.outcome
  {
  }

  /** One more action after a prefix that all succeeded. */
  lemma RanOneMore(todo: seq<Action>, i: nat)
    requires i < |todo| && Verdicts(todo[..i]).Done?
    ensures Attempted(todo[..i + 1]) == todo[..i + 1] && Verdicts(todo[..i + 1]) == todo[i].outcome
  {
    StartedConcat(todo[..i], [todo[i]]);
    SingletonList(todo[i]);
    assert todo[..i + 1] == todo[..i] + [todo[i]];
  }

  lemma StoppedAfter(todo: seq<Action>, i: nat)
    requires i <= |todo| && Attempted(todo[..i]) == todo[..i] && (i == |todo| || !Verdicts(todo[..i]).Done?)
    ensures Attempted(todo) == todo[..i] && Verdicts(todo) == Verdicts(todo[..i])
  {
    StartedConcat(todo[..i], todo[i..]);
    assert todo == todo[..i] + todo[i..];
    assert i == |todo| ==> todo[..i] == todo;
  }

  lemma LogSnoc(c: Ctx, k: Kind, todo: seq<Action>, i: nat)
    requires i < |todo|
    ensures c.Log(k, todo[..i]).Log(k, [todo[i]]) == c.Log(k, todo[..i + 1])
  {
    var ran := todo[..i];
    assert todo[..i + 1] == ran + [todo[i]];
    assert c.Ran(k) + ran + [todo[i]] == c.Ran(k) + (ran + [todo[i]]);
    assert ran == [] ==> ran + [todo[i]] == [todo[i]];
    assert c.Log(k, ran).Log(k, [todo[i]]).journal == c.Log(k, ran + [todo[i]]).journal;
  }

  function Invoke(c: Ctx, k: Kind): (Ctx, Outcome) {
    (c.With(k, []).Log(k, Attempted(c.Pending(k))), Verdicts(c.Pending(k)))
  }

  function NotifyError(handlers: seq<ErrorAction>, e: Exn): Outcome {
    if handlers == [] then Done else
      if handlers[0].On(e).Done? then NotifyError(handlers[1..], e) else handlers[0].On(e)
  }

  /** The on-error actions are told in order; one that does not return ends that, and nothing else does. */
  lemma {:induction false} NotifiedInOrder(told: seq<ErrorAction>, h: ErrorAction, rest: seq<ErrorAction>, e: Exn)
    requires forall t :: t in told && e in t.responses ==> t.responses[e].Done?
    ensures NotifyError(told, e) == Done
    ensures e in h.responses && !h.responses[e].Done? ==> NotifyError(told + [h] + rest, e) == h.responses[e]
  {
    if told != [] {
      assert told[0] in told && (told + [h] + rest)[1..] == told[1..] + [h] + rest;
      NotifiedInOrder(told[1..], h, rest, e);
    }
  }

  /** What is left of an outcome after an `Exception` went to the on-error actions. */
  function Contained(handlers: seq<ErrorAction>, o: Outcome): Outcome {
    if o.Raised? then NotifyError(handlers, o.error) else o
  }

  /** Only an `Exception` goes to the on-error actions, and they contain it unless one of them does not return. */
  lemma {:induction false} ContainedExceptions(handlers: seq<ErrorAction>, o: Outcome)
    ensures !o.Raised? ==> Contained(handlers, o) == o
    ensures o.Raised? ==> (Contained(handlers, o).Done? <==>
                             forall h :: h in handlers && o.error in h.responses ==> h.responses[o.error].Done?)
  {
    if handlers != [] && o.Raised? {
      ContainedExceptions(handlers[1..], o);
      assert forall h :: h in handlers <==> h == handlers[0] || h in handlers[1..];
    }
  }

  function InvokeOrNotify(c: Ctx, k: Kind): (Ctx, Outcome) {
    var r := Invoke(c, k);
    (r.0, Contained(c.onError, r.1))
  }

  function CompleteSpec(c: Ctx): (Ctx, Outcome) {
    if c.verdict.Undecided? then (c, Raised(InvalidState)) else
      var first := Invoke(c, if c.verdict.commit then Commit else Rollback);
      var second :=
        if first.1.Done? then Invoke(first.0, if c.verdict.ack then Ack else Nack)
        else var nacked := InvokeOrNotify(first.0, Nack); (nacked.0, if nacked.1.Done? then first.1 else nacked.1);
      (second.0.(completed := true), second.1)
  }

  function CloseSpec(c: Ctx): (Ctx, Outcome) {
    if c.closed then (c, Done) else
      var rolled := if c.MustCommit() then (c, Done) else InvokeOrNotify(c, Rollback);
      if !rolled.1.Done? then rolled else
        var nacked := if c.MustAck() then (rolled.0, Done) else InvokeOrNotify(rolled.0, Nack);
        if !nacked.1.Done? then nacked else
          var ended := InvokeOrNotify(nacked.0, Close);
          if ended.1.Done? then (ended.0.(closed := true), Done) else ended
  }

  class DefaultTransactionContext {
    var lists: map<Kind, seq<Action>>
    var onError: seq<ErrorAction>
    var verdict: Verdict
    var completed: bool
    var closed: bool
    var journal: map<Kind, seq<Action>>
    var items: map<string, Item>

    function View(): Ctx
      reads this
    {
      Ctx(lists, onError, verdict, completed, closed, journal)
    }

    constructor ()
      ensures View() == EMPTY_CTX && items == map[]
    {
      lists, onError := map[], [];
      verdict, completed, closed, journal, items := Undecided, false, false, map[], map[];
    }

    /** `on_commit`, `on_rollback`, `on_ack`, `on_nack` and `on_close`. */
    method Register(k: Kind, action: Action) returns (o: Outcome)
      modifies this`lists
      ensures o == (if old(completed) then Raised(InvalidState) else Done)
      ensures View() == Apply(old(View()), Add(k, action))
    {
      if completed { return Raised(InvalidState); }
      lists := lists[k := View().Pending(k) + [action]];
      return Done;
    }

    method OnError(action: ErrorAction)
      modifies this`onError
      ensures View() == Apply(old(View()), AddError(action))
    {
      onError := onError + [action];
    }

    method SetResult(commit: bool, ack: bool)
      modifies this`verdict
      ensures View() == Apply(old(View()), Decide(commit, ack))
    {
      verdict := Decided(commit, ack);
    }

    /** Copies and clears the list, then runs the copy until an action fails. */
    method InvokeActions(k: Kind) returns (o: Outcome)
      modifies this`lists, this`journal
      ensures (View(), o) == Invoke(old(View()), k)
    {
      var actions := View().Pending(k);
      lists := lists[k := []];
      o := RunActions(k, actions);
    }

    method RunActions(k: Kind, actions: seq<Action>) returns (o: Outcome)
      modifies this`journal
      ensures View() == old(View()).Log(k, Attempted(actions)) && o == Verdicts(actions)
    {
      ghost var before := View();
      var i := 0;
      o := Done;
      while i < |actions| && o.Done?
        invariant 0 <= i <= |actions|
        invariant Attempted(actions[..i]) == actions[..i] && Verdicts(actions[..i]) == o
        invariant View() == before.Log(k, actions[..i])
      {
        RanOneMore(actions, i);
        LogSnoc(before, k, actions, i);
        journal := View().Log(k, [actions[i]]).journal;
        o := actions[i].outcome;
        i := i + 1;
      }
      StoppedAfter(actions, i);
    }

    method InvokeErrorActions(e: Exn) returns (o: Outcome)
      ensures o == NotifyError(onError, e)
    {
      var i := 0;
      while i < |onError|
        invariant 0 <= i <= |onError|
        invariant NotifyError(onError, e) == NotifyError(onError[i..], e)
      {
        o := onError[i].On(e);
        if !o.Done? { return; }
        i := i + 1;
      }
      return Done;
    }

    /** `_try_to_nack_or_invoke_error` and `_try_to_rollback_or_invoke_error`. */
    method TryToInvokeOrNotify(k: Kind) returns (o: Outcome)
      modifies this`lists, this`journal
      ensures (View(), o) == InvokeOrNotify(old(View()), k)
    {
      o := InvokeActions(k);
      if o.Raised? { o := InvokeErrorActions(o.error); }
    }

    method Complete() returns (o: Outcome)
      modifies this`lists, this`journal, this`completed
      ensures (View(), o) == CompleteSpec(old(View()))
    {
      if verdict.Undecided? { return Raised(InvalidState); }
      o := InvokeActions(if verdict.commit then Commit else Rollback);
      if o.Done? {
        o := InvokeActions(if verdict.ack then Ack else Nack);
      } else {
        var p := TryToInvokeOrNotify(Nack);
        if !p.Done? { o := p; }
      }
      completed := true;
    }

    method CloseContext() returns (o: Outcome)
      modifies this`lists, this`journal, this`closed
      ensures (View(), o) == CloseSpec(old(View()))
    {
      if closed { return Done; }
      if !View().MustCommit() {
        o := TryToInvokeOrNotify(Rollback);
        if !o.Done? { return; }
      }
      if !View().MustAck() {
        o := TryToInvokeOrNotify(Nack);
        if !o.Done? { return; }
      }
      o := TryToInvokeOrNotify(Close);
      if !o.Done? { return; }
      closed := true;
    }
  }

  /******* Runs: any order of registrations, verdicts, completions and closes *******/

  datatype Op =
    | Add(kind: Kind, action: Action)
    | AddError(handler: ErrorAction)
    | Decide(commit: bool, ack: bool)
    | DoComplete
    | DoClose

  function Apply(c: Ctx, op: Op): Ctx {
    match op
    case Add(k, a) => if c.completed then c else c.With(k, c.Pending(k) + [a])
    case AddError(h) => c.(onError := c.onError + [h])
    case Decide(commit, ack) => c.(verdict := Decided(commit, ack))
    case DoComplete => CompleteSpec(c).0
    case DoClose => CloseSpec(c).0
  }

  function Run(c: Ctx, ops: seq<Op>): Ctx {
    if ops == [] then c else Apply(Run(c, ops[..|ops| - 1]), ops[|ops| - 1])
  }

  lemma RunSnoc(c: Ctx, ops: seq<Op>, op: Op)
    ensures Run(c, ops + [op]) == Apply(Run(c, ops), op)
  {
  }

  /** The actions accepted into list k over a run that starts empty. */
  function Accepted(ops: seq<Op>, k: Kind): seq<Action> {
    if ops == [] then [] else
      var before, op := ops[..|ops| - 1], ops[|ops| - 1];
      Accepted(before, k) + if Accepts(Run(EMPTY_CTX, before), op, k) then [op.action] else []
  }

  predicate Subsequence<T(==)>(a: seq<T>, b: seq<T>) {
    if a == [] then true else if b == [] then false else
      Subsequence(a, b[..|b| - 1])
      || (a[|a| - 1] == b[|b| - 1] && Subsequence(a[..|a| - 1], b[..|b| - 1]))
  }

  lemma {:induction false} SubsequencePrefix<T>(a: seq<T>, a': seq<T>, b: seq<T>)
    requires Subsequence(a, b) && a' <= a
    ensures Subsequence(a', b)
    decreases |b|
  {
    if a' != a && b != [] {
      var b' := b[..|b| - 1];
      if Subsequence(a, b') {
        SubsequencePrefix(a, a', b');
      } else {
        assert a' <= a[..|a| - 1];
        SubsequencePrefix(a[..|a| - 1], a', b');
      }
    }
  }

  lemma {:induction false} SubsequenceMultiset<T>(a: seq<T>, b: seq<T>)
    requires Subsequence(a, b)
    ensures multiset(a) <= multiset(b)
    decreases |b|
  {
    if a != [] && b != [] {
      var b' := b[..|b| - 1];
      assert b == b' + [b[|b| - 1]];
      if Subsequence(a, b') {
        SubsequenceMultiset(a, b');
      } else {
        assert a == a[..|a| - 1] + [a[|a| - 1]];
        SubsequenceMultiset(a[..|a| - 1], b');
      }
    }
  }

  /** Started and still pending actions of one kind, in order: what invoking a list never grows. */
  function Footprint(c: Ctx, k: Kind): seq<Action> {
    c.Ran(k) + c.Pending(k)
  }

  /** A list that is invoked is started and emptied; one that is not stays as it was. */
  predicate Moved(c: Ctx, c': Ctx, k: Kind, invoked: bool) {
    if invoked then c'.Ran(k) == c.Ran(k) + Attempted(c.Pending(k)) && c'.Pending(k) == []
    else c'.Ran(k) == c.Ran(k) && c'.Pending(k) == c.Pending(k)
  }

  predicate SameStanding(c: Ctx, c': Ctx) {
    c'.verdict == c.verdict && c'.closed == c.closed && c'.onError == c.onError
  }

  lemma LogEffect(c: Ctx, k: Kind, actions: seq<Action>, j: Kind)
    ensures var c' := c.With(k, []).Log(k, actions);
            && c'.Ran(j) == (if j == k then c.Ran(j) + actions else c.Ran(j))
            && c'.Pending(j) == (if j == k then [] else c.Pending(j))
            && SameStanding(c, c')
  {
    assert actions == [] ==> c.Ran(k) + actions == c.Ran(k);
  }

  lemma InvokeEffect(c: Ctx, k: Kind, j: Kind)
    ensures Moved(c, Invoke(c, k).0, j, j == k) && SameStanding(c, Invoke(c, k).0)
  {
    LogEffect(c, k, Attempted(c.Pending(k)), j);
  }

  lemma AttemptedIsPrefix(todo: seq<Action>)
    ensures Attempted(todo) <= todo && (Attempted(todo) == [] <==> todo == [])
  {
  }

  lemma MovedFootprint(c: Ctx, c': Ctx, k: Kind, invoked: bool)
    requires Moved(c, c', k, invoked)
    ensures Footprint(c', k) <= Footprint(c, k)
  {
    AttemptedIsPrefix(c.Pending(k));
  }

  /** The two lists a completion runs. */
  function FirstKind(c: Ctx): Kind { if c.MustCommit() then Commit else Rollback }

  function SecondKind(c: Ctx): Kind { if Verdicts(c.Pending(FirstKind(c))).Done? && c.MustAck() then Ack else Nack }

  lemma CompleteInParts(c: Ctx)
    requires c.verdict.Decided?
    ensures CompleteSpec(c).0 == Invoke(Invoke(c, FirstKind(c)).0, SecondKind(c)).0.(completed := true)
  {
  }

  /** Two invocations, of different lists, one after the other. */
  lemma MovedTwice(c: Ctx, k1: Kind, k2: Kind, j: Kind)
    requires k1 != k2
    ensures var c' := Invoke(Invoke(c, k1).0, k2).0; Moved(c, c', j, j == k1 || j == k2) && SameStanding(c, c')
  {
    InvokeEffect(c, k1, j);
    InvokeEffect(Invoke(c, k1).0, k2, j);
  }

  /** What a completion starts of each list and leaves pending. */
  lemma CompleteEffect(c: Ctx, j: Kind)
    requires c.verdict.Decided?
    ensures var c' := CompleteSpec(c).0;
            Moved(c, c', j, j == FirstKind(c) || j == SecondKind(c)) && SameStanding(c, c')
  {
    CompleteInParts(c);
    MovedTwice(c, FirstKind(c), SecondKind(c), j);
    MovedCompleted(c, Invoke(Invoke(c, FirstKind(c)).0, SecondKind(c)).0, j, j == FirstKind(c) || j == SecondKind(c));
  }

  /**
   How a completion ends. Without a verdict it raises. It succeeds exactly when both lists that it
   starts do. A first list that fails is raised again, unless the nack that follows fails too
   and is not contained; after a first list that succeeds the second decides.
   */
  lemma CompleteOutcome(c: Ctx)
    ensures c.verdict.Undecided? ==> CompleteSpec(c) == (c, Raised(InvalidState))
    ensures c.verdict.Decided? ==>
              var first := Verdicts(c.Pending(if c.verdict.commit then Commit else Rollback));
              var second, nack := Verdicts(c.Pending(if c.verdict.ack then Ack else Nack)), Containment(c, Nack);
              && CompleteSpec(c).0.completed
              && (CompleteSpec(c).1.Done? <==> first.Done? && second.Done?)
              && (first.Done? ==> CompleteSpec(c).1 == second)
              && (!first.Done? ==> CompleteSpec(c).1 == if nack.Done? then first else nack)
  {
    if c.verdict.Decided? { CompleteInParts(c); }
  }

  lemma MovedCompleted(c: Ctx, c': Ctx, j: Kind, invoked: bool)
    requires Moved(c, c', j, invoked)
    ensures Moved(c, c'.(completed := true), j, invoked) && Moved(c, c'.(closed := true), j, invoked)
  {
  }

  /** How the invocation of a list during a close ends, once on-error actions have seen its exception. */
  function Containment(c: Ctx, k: Kind): Outcome { Contained(c.onError, Verdicts(c.Pending(k))) }

  predicate RollsBackWell(c: Ctx) { c.MustCommit() || Containment(c, Rollback).Done? }

  predicate NacksWell(c: Ctx) { c.MustAck() || Containment(c, Nack).Done? }

  /** The lists a close invokes: it stops at the first that does not end well. */
  predicate CloseInvokes(c: Ctx, k: Kind) {
    match k
    case Rollback => !c.MustCommit()
    case Nack => RollsBackWell(c) && !c.MustAck()
    case Close => RollsBackWell(c) && NacksWell(c)
    case _ => false
  }

  function CloseOutcome(c: Ctx): Outcome {
    if !RollsBackWell(c) then Containment(c, Rollback)
    else if !NacksWell(c) then Containment(c, Nack)
    else Containment(c, Close)
  }

  function InvokedIf(c: Ctx, k: Kind, invoked: bool): Ctx { if invoked then Invoke(c, k).0 else c }

  lemma InvokedIfEffect(c: Ctx, k: Kind, invoked: bool, j: Kind)
    ensures Moved(c, InvokedIf(c, k, invoked), j, invoked && j == k) && SameStanding(c, InvokedIf(c, k, invoked))
  {
    InvokeEffect(c, k, j);
  }

  /** The contexts a close goes through. */
  lemma CloseStages(c: Ctx)
    requires !c.closed
    ensures var c1 := InvokedIf(c, Rollback, CloseInvokes(c, Rollback));
            var c2 := InvokedIf(c1, Nack, CloseInvokes(c, Nack));
            var c3 := InvokedIf(c2, Close, CloseInvokes(c, Close));
            CloseSpec(c) == (if CloseOutcome(c).Done? then c3.(closed := true) else c3, CloseOutcome(c))
  {
    var c1 := InvokedIf(c, Rollback, CloseInvokes(c, Rollback));
    InvokedIfEffect(c, Rollback, CloseInvokes(c, Rollback), Nack);
    InvokedIfEffect(c, Rollback, CloseInvokes(c, Rollback), Close);
    InvokedIfEffect(c1, Nack, CloseInvokes(c, Nack), Close);
  }

  lemma MovedThrice(c: Ctx, rollback: bool, nack: bool, close: bool, j: Kind)
    ensures var c3 := InvokedIf(InvokedIf(InvokedIf(c, Rollback, rollback), Nack, nack), Close, close);
            && Moved(c, c3, j, (rollback && j == Rollback) || (nack && j == Nack) || (close && j == Close))
            && SameStanding(c, c3)
  {
    var c1 := InvokedIf(c, Rollback, rollback);
    var c2 := InvokedIf(c1, Nack, nack);
    InvokedIfEffect(c, Rollback, rollback, j);
    InvokedIfEffect(c1, Nack, nack, j);
    InvokedIfEffect(c2, Close, close, j);
  }

  /** What a close starts of each list and leaves pending, and how it ends. */
  lemma CloseEffect(c: Ctx, j: Kind)
    requires !c.closed
    ensures Moved(c, CloseSpec(c).0, j, CloseInvokes(c, j))
    ensures CloseSpec(c).0.verdict == c.verdict && CloseSpec(c).1 == CloseOutcome(c)
  {
    CloseStages(c);
    MovedThrice(c, CloseInvokes(c, Rollback), CloseInvokes(c, Nack), CloseInvokes(c, Close), j);
    var c1 := InvokedIf(c, Rollback, CloseInvokes(c, Rollback));
    var c2 := InvokedIf(c1, Nack, CloseInvokes(c, Nack));
    MovedCompleted(c, InvokedIf(c2, Close, CloseInvokes(c, Close)), j, CloseInvokes(c, j));
  }

  /** Closing again does nothing. */
  lemma ClosedStaysClosed(c: Ctx)
    requires c.closed
    ensures CloseSpec(c) == (c, Done)
  {
  }

  lemma CompleteFootprint(c: Ctx, k: Kind)
    ensures Footprint(CompleteSpec(c).0, k) <= Footprint(c, k)
  {
    if c.verdict.Decided? {
      CompleteEffect(c, k);
      MovedFootprint(c, CompleteSpec(c).0, k, k == FirstKind(c) || k == SecondKind(c));
    }
  }

  lemma CloseFootprint(c: Ctx, k: Kind)
    ensures Footprint(CloseSpec(c).0, k) <= Footprint(c, k)
  {
    if !c.closed {
      CloseEffect(c, k);
      MovedFootprint(c, CloseSpec(c).0, k, CloseInvokes(c, k));
    }
  }

  lemma SameFootprint(c: Ctx, c': Ctx, k: Kind)
    requires c.lists == c'.lists && c.journal == c'.journal
    ensures Footprint(c, k) == Footprint(c', k)
  {
  }

  predicate Accepts(c: Ctx, op: Op, k: Kind) { op.Add? && op.kind == k && !c.completed }

  lemma AddFootprint(c: Ctx, op: Op, k: Kind)
    requires op.Add?
    ensures Footprint(Apply(c, op), k) == Footprint(c, k) + if Accepts(c, op, k) then [op.action] else []
  {
    assert Accepts(c, op, k) ==> c.Ran(k) + (c.Pending(k) + [op.action]) == Footprint(c, k) + [op.action];
    assert Footprint(c, k) + [] == Footprint(c, k);
  }

  lemma ApplyFootprint(c: Ctx, op: Op, k: Kind)
    ensures if Accepts(c, op, k) then Footprint(Apply(c, op), k) == Footprint(c, k) + [op.action]
            else Footprint(Apply(c, op), k) <= Footprint(c, k)
  {
    match op {
      case Add(_, _) => AddFootprint(c, op, k);
      case AddError(_) => SameFootprint(c, Apply(c, op), k);
      case Decide(_, _) => SameFootprint(c, Apply(c, op), k);
      case DoComplete => CompleteFootprint(c, k);
      case DoClose => CloseFootprint(c, k);
    }
  }

  lemma SubsequenceSnoc<T>(a: seq<T>, b: seq<T>, x: T)
    requires Subsequence(a, b)
    ensures Subsequence(a + [x], b + [x])
  {
  }

  lemma {:induction false} FootprintIsSubsequence(ops: seq<Op>, k: Kind)
    ensures Subsequence(Footprint(Run(EMPTY_CTX, ops), k), Accepted(ops, k))
  {
    if ops != [] {
      var before, op := ops[..|ops| - 1], ops[|ops| - 1];
      var c := Run(EMPTY_CTX, before);
      FootprintIsSubsequence(before, k);
      ApplyFootprint(c, op, k);
      if Accepts(c, op, k) {
        SubsequenceSnoc(Footprint(c, k), Accepted(before, k), op.action);
      } else {
        SubsequencePrefix(Footprint(c, k), Footprint(Apply(c, op), k), Accepted(before, k));
        assert Accepted(ops, k) == Accepted(before, k);
      }
    }
  }

  /** Whatever the order of the calls, every list runs its actions at most once and in registration order. */
  lemma ActionsRunAtMostOnceInOrder(ops: seq<Op>, k: Kind)
    ensures var c := Run(EMPTY_CTX, ops);
            && Subsequence(c.Ran(k) + c.Pending(k), Accepted(ops, k))
            && multiset(c.Ran(k)) + multiset(c.Pending(k)) <= multiset(Accepted(ops, k))
  {
    FootprintIsSubsequence(ops, k);
    SubsequenceMultiset(Footprint(Run(EMPTY_CTX, ops), k), Accepted(ops, k));
  }

  /******* Commit and rollback, and ack and nack, exclude each other *******/

  /** No verdict after the first completion or close, and at most one completion. */
  predicate Settled(ops: seq<Op>) {
    && (forall i, j :: 0 <= i < j < |ops| && (ops[i].DoComplete? || ops[i].DoClose?) ==> !ops[j].Decide?)
    && (forall i, j :: 0 <= i < j < |ops| && ops[i].DoComplete? ==> !ops[j].DoComplete?)
  }

  predicate Exclusive(c: Ctx) {
    && (c.Ran(Commit) != [] ==> c.MustCommit())
    && (c.Ran(Rollback) != [] ==> !c.MustCommit())
    && (c.Ran(Ack) != [] ==> c.MustAck() && c.Ran(Nack) == [])
  }

  /** Before the completion no ack ran, and a nack ran only if the verdict is not to ack. */
  predicate Uncompleted(c: Ctx) {
    c.Ran(Commit) == [] && c.Ran(Ack) == [] && (c.Ran(Nack) != [] ==> !c.MustAck())
  }

  lemma CompleteExclusive(c: Ctx)
    requires Exclusive(c) && Uncompleted(c)
    ensures Exclusive(CompleteSpec(c).0)
  {
    if c.verdict.Decided? {
      CompleteEffect(c, Commit);
      CompleteEffect(c, Rollback);
      CompleteEffect(c, Ack);
      CompleteEffect(c, Nack);
    }
  }

  lemma CloseExclusive(c: Ctx)
    requires Exclusive(c)
    ensures Exclusive(CloseSpec(c).0)
    ensures Uncompleted(c) ==> Uncompleted(CloseSpec(c).0)
  {
    if !c.closed {
      CloseEffect(c, Commit);
      CloseEffect(c, Rollback);
      CloseEffect(c, Ack);
      CloseEffect(c, Nack);
    }
  }

  lemma {:induction false} SettledRuns(ops: seq<Op>)
    requires Settled(ops)
    ensures Exclusive(Run(EMPTY_CTX, ops))
    ensures (forall op :: op in ops ==> !op.DoComplete?) ==> Uncompleted(Run(EMPTY_CTX, ops))
    ensures (forall op :: op in ops ==> !op.DoComplete? && !op.DoClose?) ==> Run(EMPTY_CTX, ops).journal == map[]
  {
    if ops != [] {
      var before, op := ops[..|ops| - 1], ops[|ops| - 1];
      var c := Run(EMPTY_CTX, before);
      assert forall i :: 0 <= i < |before| ==> ops[i] == before[i];
      SettledRuns(before);
      match op {
        case Add(_, _) =>
        case AddError(_) =>
        case Decide(_, _) =>
          assert forall o :: o in before ==> !o.DoComplete? && !o.DoClose?;
        case DoComplete =>
          assert forall o :: o in before ==> !o.DoComplete?;
          CompleteExclusive(c);
        case DoClose => CloseExclusive(c);
      }
    }
  }

  /** With one completion and the verdict settled before it, at most one list of each opposite pair runs. */
  lemma OppositeListsNeverBothRun(ops: seq<Op>)
    requires Settled(ops)
    ensures var c := Run(EMPTY_CTX, ops);
            (c.Ran(Commit) == [] || c.Ran(Rollback) == []) && (c.Ran(Ack) == [] || c.Ran(Nack) == [])
  {
    SettledRuns(ops);
  }

  /** Two completions: the second runs only a list that the first left. */
  lemma SecondCompletion(c: Ctx)
    requires Unstarted(c) && c.verdict.Decided?
    ensures var c' := CompleteSpec(CompleteSpec(c).0).0;
            && c'.Ran(Ack) == (if c.MustAck() then Attempted(c.Pending(Ack)) else [])
            && c'.Ran(Nack) == (if SecondKind(c) == Nack then Attempted(c.Pending(Nack)) else [])
  {
    var c1 := CompleteSpec(c).0;
    CompleteEffect(c, FirstKind(c));
    CompleteEffect(c, Ack);
    CompleteEffect(c, Nack);
    assert FirstKind(c1) == FirstKind(c) && Verdicts(c1.Pending(FirstKind(c1))).Done?;
    CompleteEffect(c1, Ack);
    CompleteEffect(c1, Nack);
    assert Attempted([]) == [];
  }

  /** It acks after a nack exactly when the verdict acks, the first list failed and both lists have actions. */
  lemma SecondCompletionCondition(c: Ctx)
    requires Unstarted(c) && c.verdict.Decided?
    ensures var c' := CompleteSpec(CompleteSpec(c).0).0;
            c'.Ran(Ack) != [] && c'.Ran(Nack) != [] <==>
              && c.MustAck() && !Verdicts(c.Pending(FirstKind(c))).Done?
              && c.Pending(Ack) != [] && c.Pending(Nack) != []
  {
    SecondCompletion(c);
    AttemptedIsPrefix(c.Pending(Ack));
    AttemptedIsPrefix(c.Pending(Nack));
  }

  /** Three registrations and a verdict. */
  lemma RegisteredAndDecided(a: Action, b: Action)
    ensures Run(EMPTY_CTX, [Add(Commit, a), Add(Ack, b), Add(Nack, b), Decide(true, true)])
            == EMPTY_CTX.(lists := map[Commit := [a], Ack := [b], Nack := [b]], verdict := Decided(true, true))
  {
    var ops1 := [Add(Commit, a)];
    var ops2 := ops1 + [Add(Ack, b)];
    var ops3 := ops2 + [Add(Nack, b)];
    assert [] + [a] == [a] && [] + [b] == [b] && ops1[..0] == [];
    assert Run(EMPTY_CTX, ops1) == EMPTY_CTX.(lists := map[Commit := [a]]);
    RunSnoc(EMPTY_CTX, ops1, Add(Ack, b));
    assert Run(EMPTY_CTX, ops2) == EMPTY_CTX.(lists := map[Commit := [a], Ack := [b]]);
    RunSnoc(EMPTY_CTX, ops2, Add(Nack, b));
    RunSnoc(EMPTY_CTX, ops3, Decide(true, true));
    assert ops3 + [Decide(true, true)] == [Add(Commit, a), Add(Ack, b), Add(Nack, b), Decide(true, true)];
  }

  lemma CompletedTwice(c: Ctx, ops: seq<Op>)
    ensures Run(c, ops + [DoComplete, DoComplete]) == CompleteSpec(CompleteSpec(Run(c, ops)).0).0
  {
    RunSnoc(c, ops, DoComplete);
    RunSnoc(c, ops + [DoComplete], DoComplete);
    assert ops + [DoComplete] + [DoComplete] == ops + [DoComplete, DoComplete];
  }

  /** The smallest run of that kind: the nack of a failed commit is followed by the ack. */
  lemma TwoCompletionsAckAndNack()
    ensures var fails := Action(Custom(0), Raised(Failure(1)));
            var ok := Action(Custom(1), Done);
            var ops := [Add(Commit, fails), Add(Ack, ok), Add(Nack, ok), Decide(true, true), DoComplete, DoComplete];
            var c := Run(EMPTY_CTX, ops);
            c.Ran(Ack) == [ok] && c.Ran(Nack) == [ok]
  {
    var fails, ok := Action(Custom(0), Raised(Failure(1))), Action(Custom(1), Done);
    var ops4 := [Add(Commit, fails), Add(Ack, ok), Add(Nack, ok), Decide(true, true)];
    RegisteredAndDecided(fails, ok);
    CompletedTwice(EMPTY_CTX, ops4);
    assert [Add(Commit, fails), Add(Ack, ok), Add(Nack, ok), Decide(true, true), DoComplete, DoComplete]
        == ops4 + [DoComplete, DoComplete];
    SingletonList(fails);
    SingletonList(ok);
    SecondCompletion(Run(EMPTY_CTX, ops4));
  }

  /**
   A verdict taken back after a completion makes the close roll back what was committed, if there is
   anything of either.
   */
  lemma VerdictTakenBack(c: Ctx, ack: bool)
    requires Unstarted(c) && c.MustCommit()
    ensures var c' := CloseSpec(Apply(CompleteSpec(c).0, Decide(false, ack))).0;
            c'.Ran(Commit) != [] && c'.Ran(Rollback) != [] <==> c.Pending(Commit) != [] && c.Pending(Rollback) != []
  {
    CompleteEffect(c, Commit);
    CompleteEffect(c, Rollback);
    var taken := Apply(CompleteSpec(c).0, Decide(false, ack));
    CloseEffect(taken, Commit);
    CloseEffect(taken, Rollback);
    AttemptedIsPrefix(c.Pending(Commit));
    AttemptedIsPrefix(c.Pending(Rollback));
  }

  lemma CommittedLate(c: Ctx, late: Ctx)
    requires Unstarted(c) && late.MustCommit() && Moved(c, late, Commit, false) && Moved(c, late, Rollback, true)
    ensures var c' := CompleteSpec(late).0;
            c'.Ran(Commit) != [] && c'.Ran(Rollback) != [] <==> c.Pending(Commit) != [] && c.Pending(Rollback) != []
  {
    CompleteEffect(late, Commit);
    CompleteEffect(late, Rollback);
    AttemptedIsPrefix(c.Pending(Commit));
    AttemptedIsPrefix(c.Pending(Rollback));
  }

  /** And a verdict given only after a close commits what the close rolled back. */
  lemma VerdictGivenTooLate(c: Ctx, ack: bool)
    requires Unstarted(c) && c.verdict.Undecided?
    ensures var c' := CompleteSpec(Apply(CloseSpec(c).0, Decide(true, ack))).0;
            c'.Ran(Commit) != [] && c'.Ran(Rollback) != [] <==> c.Pending(Commit) != [] && c.Pending(Rollback) != []
  {
    CloseEffect(c, Commit);
    CloseEffect(c, Rollback);
    CommittedLate(c, Apply(CloseSpec(c).0, Decide(true, ack)));
  }

  /** A close without a verdict came first; then a completion with an acknowledging one. */
  lemma CompletedLate(c: Ctx, late: Ctx, commit: bool)
    requires Unstarted(c) && c.verdict.Undecided? && late.verdict == Decided(commit, true)
    requires Moved(c, late, Commit, false) && Moved(c, late, Rollback, true)
    requires Moved(c, late, Ack, false) && Moved(c, late, Nack, RollsBackWell(c))
    ensures var c' := CompleteSpec(late).0;
            c'.Ran(Ack) != [] && c'.Ran(Nack) != [] <==>
              && RollsBackWell(c) && c.Pending(Ack) != [] && c.Pending(Nack) != []
              && (commit ==> Verdicts(c.Pending(Commit)).Done?)
  {
    CompleteEffect(late, Ack);
    CompleteEffect(late, Nack);
    AttemptedIsPrefix(c.Pending(Ack));
    AttemptedIsPrefix(c.Pending(Nack));
  }

  /** The same of ack and nack, when the close rolls back well and the late commit list succeeds. */
  lemma AckGivenTooLate(c: Ctx, commit: bool)
    requires Unstarted(c) && c.verdict.Undecided?
    ensures var c' := CompleteSpec(Apply(CloseSpec(c).0, Decide(commit, true))).0;
            c'.Ran(Ack) != [] && c'.Ran(Nack) != [] <==>
              && RollsBackWell(c) && c.Pending(Ack) != [] && c.Pending(Nack) != []
              && (commit ==> Verdicts(c.Pending(Commit)).Done?)
  {
    CloseEffect(c, Commit);
    CloseEffect(c, Rollback);
    CloseEffect(c, Ack);
    CloseEffect(c, Nack);
    CompletedLate(c, Apply(CloseSpec(c).0, Decide(commit, true)), commit);
  }

  /** A completion came first; then a close with a verdict that no longer acknowledges. */
  lemma ClosedAfterChange(c: Ctx, taken: Ctx, commit: bool)
    requires Unstarted(c) && c.MustAck() && taken.verdict == Decided(commit, false) && !taken.closed
    requires taken.onError == c.onError && Moved(c, taken, Rollback, !c.MustCommit())
    requires Moved(c, taken, Ack, SecondKind(c) == Ack) && Moved(c, taken, Nack, SecondKind(c) == Nack)
    ensures var c' := CloseSpec(taken).0;
            c'.Ran(Ack) != [] && c'.Ran(Nack) != [] <==>
              && Verdicts(c.Pending(FirstKind(c))).Done? && c.Pending(Ack) != [] && c.Pending(Nack) != []
              && (commit || !c.MustCommit() || Containment(c, Rollback).Done?)
  {
    CloseEffect(taken, Ack);
    CloseEffect(taken, Nack);
    AttemptedIsPrefix(c.Pending(Ack));
    AttemptedIsPrefix(c.Pending(Nack));
    assert Attempted([]) == [];
  }

  /** And when an ack is taken back after a completion that acked, and the close gets past its rollback. */
  lemma AckTakenBack(c: Ctx, commit: bool)
    requires Unstarted(c) && c.MustAck()
    ensures var c' := CloseSpec(Apply(CompleteSpec(c).0, Decide(commit, false))).0;
            c'.Ran(Ack) != [] && c'.Ran(Nack) != [] <==>
              && Verdicts(c.Pending(FirstKind(c))).Done? && c.Pending(Ack) != [] && c.Pending(Nack) != []
              && (commit || !c.MustCommit() || Containment(c, Rollback).Done?)
  {
    CompleteEffect(c, Rollback);
    CompleteEffect(c, Ack);
    CompleteEffect(c, Nack);
    ClosedAfterChange(c, Apply(CompleteSpec(c).0, Decide(commit, false)), commit);
  }

  lemma TwoRegistered(j: Kind, a: Action, k: Kind, b: Action)
    requires j != k
    ensures Run(EMPTY_CTX, [Add(j, a), Add(k, b)]) == EMPTY_CTX.(lists := map[j := [a], k := [b]])
  {
    var ops1 := [Add(j, a)];
    assert [] + [a] == [a] && [] + [b] == [b] && ops1[..0] == [];
    assert Run(EMPTY_CTX, ops1) == EMPTY_CTX.(lists := map[j := [a]]);
    RunSnoc(EMPTY_CTX, ops1, Add(k, b));
    assert ops1 + [Add(k, b)] == [Add(j, a), Add(k, b)];
  }

  function ThreeMore(c: Ctx, x: Op, y: Op, z: Op): Ctx { Apply(Apply(Apply(c, x), y), z) }

  lemma RunThreeMore(c: Ctx, ops: seq<Op>, x: Op, y: Op, z: Op)
    ensures Run(c, ops + [x] + [y] + [z]) == ThreeMore(Run(c, ops), x, y, z)
  {
    RunSnoc(c, ops, x);
    RunSnoc(c, ops + [x], y);
    RunSnoc(c, ops + [x] + [y], z);
  }

  /** Both of these lists were started. */
  predicate BothRan(c: Ctx, j: Kind, k: Kind) { c.Ran(j) != [] && c.Ran(k) != [] }

  lemma LateVerdict(c: Ctx)
    requires Unstarted(c) && c.verdict.Undecided? && c.Pending(Commit) != [] && c.Pending(Rollback) != []
    ensures BothRan(ThreeMore(c, DoClose, Decide(true, true), DoComplete), Commit, Rollback)
  {
    CloseEffect(c, Commit);
    CloseEffect(c, Rollback);
    CommittedLate(c, Apply(Apply(c, DoClose), Decide(true, true)));
  }

  lemma LateAck(c: Ctx)
    requires Unstarted(c) && c.verdict.Undecided? && c.Pending(Ack) != [] && c.Pending(Nack) != []
    requires c.Pending(Rollback) == [] && c.Pending(Commit) == []
    ensures BothRan(ThreeMore(c, DoClose, Decide(true, true), DoComplete), Ack, Nack)
  {
    CloseEffect(c, Commit);
    CloseEffect(c, Rollback);
    CloseEffect(c, Ack);
    CloseEffect(c, Nack);
    CompletedLate(c, Apply(Apply(c, DoClose), Decide(true, true)), true);
  }

  lemma ChangedVerdict(c: Ctx)
    requires Unstarted(c) && c.MustCommit() && c.Pending(Commit) != [] && c.Pending(Rollback) != []
    ensures BothRan(ThreeMore(c, DoComplete, Decide(false, true), DoClose), Commit, Rollback)
  {
    VerdictTakenBack(c, true);
  }

  lemma ChangedAck(c: Ctx)
    requires Unstarted(c) && c.MustAck() && c.MustCommit() && c.Pending(Ack) != [] && c.Pending(Nack) != []
    requires c.Pending(Commit) == []
    ensures BothRan(ThreeMore(c, DoComplete, Decide(true, false), DoClose), Ack, Nack)
  {
    AckTakenBack(c, true);
  }

  /** The smallest such runs: a late verdict makes commit and rollback actions both run. */
  lemma ALateVerdictBreaksTheExclusion(a: Action, b: Action) returns (ops: seq<Op>)
    ensures ops == [Add(Commit, a), Add(Rollback, b)] + [DoClose] + [Decide(true, true)] + [DoComplete]
    ensures BothRan(Run(EMPTY_CTX, ops), Commit, Rollback)
  {
    var registered := [Add(Commit, a), Add(Rollback, b)];
    TwoRegistered(Commit, a, Rollback, b);
    LateVerdict(Run(EMPTY_CTX, registered));
    RunThreeMore(EMPTY_CTX, registered, DoClose, Decide(true, true), DoComplete);
    ops := registered + [DoClose] + [Decide(true, true)] + [DoComplete];
  }

  /** And ack and nack actions. */
  lemma ALateAckFollowsTheNack(a: Action, b: Action) returns (ops: seq<Op>)
    ensures ops == [Add(Ack, a), Add(Nack, b)] + [DoClose] + [Decide(true, true)] + [DoComplete]
    ensures BothRan(Run(EMPTY_CTX, ops), Ack, Nack)
  {
    var registered := [Add(Ack, a), Add(Nack, b)];
    TwoRegistered(Ack, a, Nack, b);
    LateAck(Run(EMPTY_CTX, registered));
    RunThreeMore(EMPTY_CTX, registered, DoClose, Decide(true, true), DoComplete);
    ops := registered + [DoClose] + [Decide(true, true)] + [DoComplete];
  }

  lemma TwoDecided(j: Kind, a: Action, k: Kind, b: Action)
    requires j != k
    ensures Run(EMPTY_CTX, [Add(j, a), Add(k, b)] + [Decide(true, true)])
            == EMPTY_CTX.(lists := map[j := [a], k := [b]], verdict := Decided(true, true))
  {
    TwoRegistered(j, a, k, b);
    RunSnoc(EMPTY_CTX, [Add(j, a), Add(k, b)], Decide(true, true));
  }

  /** So does a verdict that changes. */
  lemma AChangedVerdictBreaksTheExclusion(a: Action, b: Action) returns (ops: seq<Op>)
    ensures ops == [Add(Commit, a), Add(Rollback, b)] + [Decide(true, true)] + [DoComplete] + [Decide(false, true)]
            + [DoClose]
    ensures BothRan(Run(EMPTY_CTX, ops), Commit, Rollback)
  {
    var decided := [Add(Commit, a), Add(Rollback, b)] + [Decide(true, true)];
    TwoDecided(Commit, a, Rollback, b);
    ChangedVerdict(Run(EMPTY_CTX, decided));
    RunThreeMore(EMPTY_CTX, decided, DoComplete, Decide(false, true), DoClose);
    ops := decided + [DoComplete] + [Decide(false, true)] + [DoClose];
  }

  lemma ANackFollowsTheAck(a: Action, b: Action) returns (ops: seq<Op>)
    ensures ops == [Add(Ack, a), Add(Nack, b)] + [Decide(true, true)] + [DoComplete] + [Decide(true, false)] + [DoClose]
    ensures BothRan(Run(EMPTY_CTX, ops), Ack, Nack)
  {
    var decided := [Add(Ack, a), Add(Nack, b)] + [Decide(true, true)];
    TwoDecided(Ack, a, Nack, b);
    ChangedAck(Run(EMPTY_CTX, decided));
    RunThreeMore(EMPTY_CTX, decided, DoComplete, Decide(true, false), DoClose);
    ops := decided + [DoComplete] + [Decide(true, false)] + [DoClose];
  }
}

/** The error tracker, the ambient transaction scope and the retry step that dead-letters. */
module Retries {
  import opened Messages
  import opened TransactionContexts
  import opened Transports

  /** The tracked errors by message id; `final` ids never stop failing. */
  datatype Tracker = Tracker(errors: map<MessageId, seq<Exn>>, final: set<MessageId>, maximum: int) {
    function Errors(id: MessageId): seq<Exn> {
      if id in errors then errors[id] else []
    }

    function Register(id: MessageId, e: Exn, failFast: bool): Tracker {
      this.(errors := errors[id := Errors(id) + [e]], final := if failFast then final + {id} else final)
    }

    predicate FailedTooManyTimes(id: MessageId) {
      id in final || |Errors(id)| >= maximum
    }

    function CleanUp(id: MessageId): Tracker {
      this.(errors := errors - {id})
    }
  }

  /** What registering and forgetting do to each id, and when an id has failed too often. */
  lemma TrackerCases(t: Tracker, id: MessageId, e: Exn, failFast: bool, i: MessageId)
    ensures var r := t.Register(id, e, failFast);
            && r.Errors(i) == t.Errors(i) + (if i == id then [e] else []) && r.maximum == t.maximum
            && (i in r.final <==> i in t.final || (failFast && i == id))
    ensures var c := t.CleanUp(id);
            c.Errors(i) == (if i == id then [] else t.Errors(i)) && c.final == t.final && c.maximum == t.maximum
    ensures t.FailedTooManyTimes(i) <==> i in t.final || |t.Errors(i)| >= t.maximum
    ensures i in t.errors ==> t.Errors(i) == t.errors[i]
    ensures i !in t.errors ==> t.Errors(i) == []
  {
  }

  class InMemoryErrorTracker {
    var errors: map<MessageId, seq<Exn>>
    var final: set<MessageId>
    const maximum: int

    function View(): Tracker
      reads this
    {
      Tracker(errors, final, maximum)
    }

    constructor (maximum: int)
      ensures View() == Tracker(map[], {}, maximum)
    {
      this.maximum := maximum;
      errors, final := map[], {};
    }

    method RegisterError(id: MessageId, e: Exn)
      modifies this`errors
      ensures View() == old(View()).Register(id, e, false)
    {
      errors := errors[id := View().Errors(id) + [e]];
    }

    method MarkAsFinal(id: MessageId)
      modifies this`final
      ensures final == old(final) + {id}
    {
      final := final + {id};
    }

    /** Looking an id up creates its empty list, which changes no id's errors. */
    method HasFailedTooManyTimes(id: MessageId) returns (r: bool)
      modifies this`errors
      ensures r == old(View()).FailedTooManyTimes(id)
      ensures id in old(errors) ==> errors == old(errors)
      ensures forall i :: View().Errors(i) == old(View()).Errors(i)
    {
      if id in final { return true; }
      if id !in errors { errors := errors[id := []]; }
      return |errors[id]| >= maximum;
    }

    method GetExceptions(id: MessageId) returns (es: seq<Exn>)
      modifies this`errors
      ensures es == old(View()).Errors(id)
      ensures errors - {id} == old(errors) - {id} && (id in old(errors) ==> errors == old(errors))
      ensures forall i :: View().Errors(i) == old(View()).Errors(i)
    {
      if id !in errors { errors := errors[id := []]; }
      return errors[id];
    }

    method CleanUp(id: MessageId)
      modifies this`errors
      ensures View() == old(View()).CleanUp(id)
    {
      errors := errors - {id};
    }
  }

  class AmbientContext {
    var current: DefaultTransactionContext?

    constructor ()
      ensures current == null
    {
      current := null;
    }
  }

  /** A fresh context made current until the scope closes. */
  class TransactionScope {
    const ambient: AmbientContext
    const previous: DefaultTransactionContext?
    const context: DefaultTransactionContext

    constructor (ambient: AmbientContext)
      ensures this.ambient == ambient && previous == ambient.current
      ensures fresh(context) && context.View() == EMPTY_CTX && context.items == map[]
    {
      this.ambient := ambient;
      previous := ambient.current;
      context := new DefaultTransactionContext();
    }

    method Enter()
      modifies ambient
      ensures ambient.current == context
    {
      ambient.current := context;
    }

    method CloseScope()
      modifies ambient, context`lists, context`journal, context`closed
      ensures context.View() == CloseSpec(old(context.View())).0
      ensures ambient.current == previous
    {
      var _ := context.CloseContext();
      ambient.current := previous;
    }
  }

  /** The dead-letter copy: same body, same other headers, the error details set. */
  function DeadLetterCopy(m: Message, details: string): Message {
    m.(headers := m.headers[ERROR_DETAILS_KEY := details])
  }

  predicate IsDeadLetterOf(copy: Message, m: Message) {
    ERROR_DETAILS_KEY in copy.headers && copy == DeadLetterCopy(m, copy.headers[ERROR_DETAILS_KEY])
  }

  /** A message without its error details. */
  function Bare(m: Message): Message { m.(headers := m.headers - {ERROR_DETAILS_KEY}) }

  lemma DeadLettersDifferInDetails(copy: Message, m: Message)
    requires IsDeadLetterOf(copy, m)
    ensures Bare(copy) == Bare(m)
  {
  }

  function Joined(texts: seq<string>): string {
    if texts == [] then "" else if |texts| == 1 then texts[0] else texts[0] + "--" + Joined(texts[1..])
  }

  function Texts(es: seq<Exn>, text: Exn -> string): seq<string> {
    if es == [] then [] else [text(es[0])] + Texts(es[1..], text)
  }

  function Details(es: seq<Exn>, text: Exn -> string): string {
    if es == [] then "Message failed too many times" else Joined(Texts(es, text))
  }

  lemma {:induction false} TextsSnoc(es: seq<Exn>, e: Exn, text: Exn -> string)
    ensures Texts(es + [e], text) == Texts(es, text) + [text(e)] && |Texts(es, text)| == |es|
  {
    if es != [] {
      assert (es + [e])[1..] == es[1..] + [e];
      TextsSnoc(es[1..], e, text);
    }
  }

  lemma {:induction false} JoinedSnoc(texts: seq<string>, t: string)
    requires texts != []
    ensures Joined(texts + [t]) == Joined(texts) + "--" + t
  {
    assert (texts + [t])[1..] == texts[1..] + [t];
    if |texts| > 1 {
      JoinedSnoc(texts[1..], t);
      assert texts[0] + "--" + (Joined(texts[1..]) + "--" + t) == texts[0] + "--" + Joined(texts[1..]) + "--" + t;
    }
  }

  /** The text of one error, those of several in order with "--" between them, or the default without any. */
  lemma DetailsOf(es: seq<Exn>, e: Exn, text: Exn -> string)
    ensures Details([], text) == "Message failed too many times"
    ensures Details([e], text) == text(e)
    ensures es != [] ==> Details(es + [e], text) == Details(es, text) + "--" + text(e)
  {
    TextsSnoc(es, e, text);
    TextsSnoc([], e, text);
    assert [] + [e] == [e] && [] + [text(e)] == [text(e)];
    if es != [] { JoinedSnoc(Texts(es, text), text(e)); }
  }

  /** The dead letter has these details and is otherwise the message. */
  lemma DeadLetterHas(m: Message, details: string, key: string)
    ensures var copy := DeadLetterCopy(m, details);
            && copy.body == m.body && "error_details" in copy.headers && copy.headers["error_details"] == details
            && (key != "error_details" ==>
                  (key in copy.headers <==> key in m.headers)
                  && (key in m.headers ==> copy.headers[key] == m.headers[key]))
  {
  }

  datatype Decision = Succeeded | Retried | DeadLettered | Unresolved

  /** What the step decides, from the tracker, how the pipeline ended and how the error handler would. */
  function Deciding(t: Tracker, id: MessageId, next: Outcome, failFast: set<Exn>, handing: Outcome): Decision {
    match next
    case Done => Succeeded
    case Cancelled => Unresolved
    case Raised(e) =>
      if !t.Register(id, e, e in failFast).FailedTooManyTimes(id) then Retried
      else if handing.Done? then DeadLettered else Unresolved
  }

  /** The tracker after a decision: the error is recorded, and forgotten again after dead-lettering. */
  function TrackedAfter(t: Tracker, id: MessageId, next: Outcome, failFast: set<Exn>, d: Decision): Tracker {
    if !next.Raised? then t else
      var t' := t.Register(id, next.error, next.error in failFast);
      if d.DeadLettered? then t'.CleanUp(id) else t'
  }

  class DefaultRetryStep {
    const tracker: InMemoryErrorTracker
    const failFast: set<Exn>
    const transport: InMemoryTransport
    const errorQueue: Address
    const ambient: AmbientContext
    const text: Exn -> string

    constructor (tracker: InMemoryErrorTracker, failFast: set<Exn>, transport: InMemoryTransport, errorQueue: Address,
                 ambient: AmbientContext, text: Exn -> string)
      ensures this.tracker == tracker && this.failFast == failFast && this.transport == transport
      ensures this.errorQueue == errorQueue && this.ambient == ambient && this.text == text
    {
      this.tracker, this.failFast, this.transport := tracker, failFast, transport;
      this.errorQueue, this.ambient, this.text := errorQueue, ambient, text;
    }

    /**
     `next` is how the rest of the pipeline ended and `handing` how the error handler ends
     before it sends. Only an `Exception` reaches the tracker.
     */
    method Call(message: Message, ctx: DefaultTransactionContext, next: Outcome, handing: Outcome)
      returns (decision: Decision, o: Outcome)
      modifies ctx`verdict, tracker, ambient, transport.network
      ensures ambient.current == old(ambient.current)
      ensures o == (if !decision.Unresolved? then Done else if next.Cancelled? then Cancelled else handing)
      ensures decision == Deciding(old(tracker.View()), message.Id(), next, failFast, handing)
      ensures ctx.View() == (
                match decision
                case Succeeded => Apply(old(ctx.View()), Decide(true, true))
                case Retried => Apply(old(ctx.View()), Decide(false, false))
                case DeadLettered => Apply(old(ctx.View()), Decide(false, true))
                case Unresolved => old(ctx.View()))
      ensures tracker.View() == TrackedAfter(old(tracker.View()), message.Id(), next, failFast, decision)
      ensures transport.network.queues == DeliverAll(old(transport.network.queues),
                if !decision.DeadLettered? then [] else
                  [OutgoingMessage(errorQueue, DeadLetterCopy(message,
                     Details(old(tracker.View()).Errors(message.Id()) + [next.error], text)))])
    {
      if next.Done? {
        ctx.SetResult(true, true);
        return Succeeded, Done;
      }
      if next.Cancelled? { return Unresolved, Cancelled; }
      var id := message.Id();
      tracker.RegisterError(id, next.error);
      if next.error in failFast { tracker.MarkAsFinal(id); }
      var poisoned := tracker.HasFailedTooManyTimes(id);
      if !poisoned {
        ctx.SetResult(false, false);
        return Retried, Done;
      }
      o := HandlePoisonousMessage(message, handing);
      if !o.Done? { return Unresolved, o; }
      ctx.SetResult(false, true);
      decision := DeadLettered;
    }

    /** Looking up an id without errors leaves an empty list behind if the hand-over then fails. */
    method HandlePoisonousMessage(message: Message, handing: Outcome) returns (o: Outcome)
      modifies tracker`errors, ambient, transport.network
      ensures o == handing
      ensures ambient.current == old(ambient.current)
      ensures o.Done? ==> tracker.View() == old(tracker.View()).CleanUp(message.Id())
      ensures !o.Done? ==> forall i :: tracker.View().Errors(i) == old(tracker.View()).Errors(i)
      ensures !o.Done? && message.Id() in old(tracker.errors) ==> tracker.View() == old(tracker.View())
      ensures transport.network.queues == DeliverAll(old(transport.network.queues),
                if !o.Done? then [] else
                  var details := Details(old(tracker.View()).Errors(message.Id()), text);
                  [OutgoingMessage(errorQueue, DeadLetterCopy(message, details))])
    {
      var exceptions := tracker.GetExceptions(message.Id());
      o := PassToDeadletterQueue(message, Details(exceptions, text), handing);
      if o.Done? { tracker.CleanUp(message.Id()); }
    }

    method PassToDeadletterQueue(message: Message, details: string, handing: Outcome) returns (o: Outcome)
      modifies ambient, transport.network
      ensures o == handing
      ensures ambient.current == old(ambient.current)
      ensures transport.network.queues == DeliverAll(old(transport.network.queues),
                      if o.Done? then [OutgoingMessage(errorQueue, DeadLetterCopy(message, details))] else [])
    {
      var scope := new TransactionScope(ambient);
      scope.Enter();
      o := handing;
      if o.Done? { o := SendAndComplete(scope.context, OutgoingMessage(errorQueue, DeadLetterCopy(message, details))); }
      scope.CloseScope();
    }

    /** With the scope's own context as the ambient one. */
    method SendAndComplete(ctx: DefaultTransactionContext, m: OutgoingMessage) returns (o: Outcome)
      requires ambient.current == ctx && ctx.View() == EMPTY_CTX && ctx.items == map[]
      modifies ctx, transport.network
      ensures o.Done?
      ensures transport.network.queues == DeliverAll(old(transport.network.queues), [m])
    {
      OneSend(m);
      o := transport.Send(m.destination, m.message, ctx);
      ctx.SetResult(true, true);
      CommitDelivers(ctx.View(), [m]);
      o := CompleteAndDeliver(ctx, transport);
    }
  }

  lemma OneSend(m: OutgoingMessage)
    ensures SendSpec(NEW_SENDER, m) == Sender(EMPTY_CTX.(lists := map[Commit := [SEND_ACTION]]), [m])
  {
    assert [] + [m] == [m] && [] + [SEND_ACTION] == [SEND_ACTION];
  }

  /******* The retry bound, for failures of any messages in any interleaving *******/

  /** One handler failure; `handed` says that the error handler accepts the message if asked. */
  datatype Attempt = Attempt(id: MessageId, error: Exn, failFast: bool, handed: bool)

  predicate Poisoned(t: Tracker, a: Attempt) {
    t.Register(a.id, a.error, a.failFast).FailedTooManyTimes(a.id)
  }

  function AfterAttempt(t: Tracker, a: Attempt): Tracker {
    var t' := t.Register(a.id, a.error, a.failFast);
    if Poisoned(t, a) && a.handed then t'.CleanUp(a.id) else t'
  }

  /** It is the failure of one pipeline, as the retry step decides on it. */
  lemma AttemptIsDecided(t: Tracker, a: Attempt, failFast: set<Exn>, handing: Outcome)
    requires (a.error in failFast <==> a.failFast) && (handing.Done? <==> a.handed)
    ensures var d := Deciding(t, a.id, Raised(a.error), failFast, handing);
            && AfterAttempt(t, a) == TrackedAfter(t, a.id, Raised(a.error), failFast, d)
            && (d.Retried? <==> !Poisoned(t, a)) && (d.DeadLettered? <==> Poisoned(t, a) && a.handed)
  {
  }

  function Track(maximum: int, attempts: seq<Attempt>): Tracker {
    if attempts == [] then Tracker(map[], {}, maximum)
    else AfterAttempt(Track(maximum, attempts[..|attempts| - 1]), attempts[|attempts| - 1])
  }

  function Failures(attempts: seq<Attempt>, id: MessageId): nat {
    if attempts == [] then 0 else
      Failures(attempts[..|attempts| - 1], id) + if attempts[|attempts| - 1].id == id then 1 else 0
  }

  predicate FailedFast(attempts: seq<Attempt>, id: MessageId) {
    exists a :: a in attempts && a.id == id && a.failFast
  }

  function Bound(maximum: int): (b: nat)
    ensures b >= 1
  {
    if maximum < 1 then 1 else maximum
  }

  lemma MulMagnitude(b: int, d: int)
    requires b >= 1
    ensures d >= 1 ==> b * d >= b
    ensures d <= -1 ==> b * d <= -b
  {
  }

  lemma ModIs(n: nat, b: nat, q: int, r: nat)
    requires b >= 1 && n == b * q + r && r < b
    ensures n % b == r
  {
    var q' := n / b;
    assert n == b * q' + n % b;
    assert b * (q' - q) == b * q' - b * q;
    MulMagnitude(b, q' - q);
  }

  predicate Divided(n: nat, b: nat, q: nat, r: nat) { n == b * q + r && r < b }

  lemma DividedNext(n: nat, b: nat, q: nat, r: nat) returns (q': nat, r': nat)
    requires Divided(n, b, q, r)
    ensures Divided(n + 1, b, q', r') && r' == if r + 1 == b then 0 else r + 1
  {
    q', r' := if r + 1 == b then q + 1 else q, if r + 1 == b then 0 else r + 1;
    assert b * (q + 1) == b * q + b;
  }

  lemma FailedFastSnoc(before: seq<Attempt>, a: Attempt, id: MessageId)
    ensures FailedFast(before + [a], id) <==> FailedFast(before, id) || (a.id == id && a.failFast)
  {
  }

  /** Failure k of these was dead-lettered, and the error handler accepted it. */
  predicate BuriedAt(maximum: int, attempts: seq<Attempt>, k: nat)
    requires k < |attempts|
  {
    attempts[k].handed && Poisoned(Track(maximum, attempts[..k]), attempts[k])
  }

  /** Where the failures of an id start to count: after its last accepted burial, if any. */
  function LastBurial(maximum: int, attempts: seq<Attempt>, id: MessageId): (n: nat)
    ensures n <= |attempts|
  {
    if attempts == [] then 0 else
      var last := |attempts| - 1;
      if attempts[last].id == id && BuriedAt(maximum, attempts, last) then |attempts|
      else LastBurial(maximum, attempts[..last], id)
  }

  function FailuresSince(maximum: int, attempts: seq<Attempt>, id: MessageId): nat {
    Failures(attempts[LastBurial(maximum, attempts, id)..], id)
  }

  /** One more failure: forgotten with all others by an accepted burial, otherwise counted. */
  lemma FailuresSinceSnoc(maximum: int, before: seq<Attempt>, a: Attempt, id: MessageId)
    ensures var n := FailuresSince(maximum, before, id);
            FailuresSince(maximum, before + [a], id) ==
              if a.id != id then n else if a.handed && Poisoned(Track(maximum, before), a) then 0 else n + 1
  {
    var attempts := before + [a];
    assert attempts[..|before|] == before;
    if a.id == id && BuriedAt(maximum, attempts, |before|) {
      assert attempts[|attempts|..] == [];
    } else {
      var j := LastBurial(maximum, before, id);
      assert attempts[j..] == before[j..] + [a];
      assert (before[j..] + [a])[..|before[j..]|] == before[j..];
    }
  }

  lemma TrackOne(t: Tracker, a: Attempt, id: MessageId)
    ensures var t' := AfterAttempt(t, a);
            && t'.maximum == t.maximum
            && (id in t'.final <==> id in t.final || (a.id == id && a.failFast))
            && |t'.Errors(id)| ==
                 if a.id != id then |t.Errors(id)| else if a.handed && Poisoned(t, a) then 0 else |t.Errors(id)| + 1
  {
  }

  /** What the tracker knows of an id is what the history says. */
  lemma {:induction false} TrackedErrors(maximum: int, attempts: seq<Attempt>, id: MessageId)
    ensures var t := Track(maximum, attempts);
            && t.maximum == maximum
            && (id in t.final <==> FailedFast(attempts, id))
            && |t.Errors(id)| == FailuresSince(maximum, attempts, id)
  {
    if attempts != [] {
      var before, a := attempts[..|attempts| - 1], attempts[|attempts| - 1];
      TrackedErrors(maximum, before, id);
      assert attempts == before + [a];
      FailedFastSnoc(before, a, id);
      FailuresSinceSnoc(maximum, before, a, id);
      TrackOne(Track(maximum, before), a, id);
    }
  }

  /**
   A failure dead-letters its message exactly when some failure of that id was fail-fast or
   it is at least failure number max(1, maximum) of that id since the last burial that the
   error handler accepted. Failures of other ids and refused burials make no difference.
   */
  lemma RetryBound(maximum: int, before: seq<Attempt>, a: Attempt)
    ensures Poisoned(Track(maximum, before), a)
            <==> FailedFast(before + [a], a.id) || FailuresSince(maximum, before, a.id) + 1 >= Bound(maximum)
  {
    TrackedErrors(maximum, before, a.id);
    FailedFastSnoc(before, a, a.id);
  }

  predicate AllHanded(attempts: seq<Attempt>) { forall a :: a in attempts ==> a.handed }

  /** With nothing fail-fast and every burial accepted, the failures divide into full rounds and the rest. */
  lemma {:induction false} FailuresWrap(maximum: int, attempts: seq<Attempt>, id: MessageId) returns (q: nat)
    requires AllHanded(attempts) && !FailedFast(attempts, id)
    ensures Divided(Failures(attempts, id), Bound(maximum), q, FailuresSince(maximum, attempts, id))
  {
    q := 0;
    if attempts != [] {
      var before, a := attempts[..|attempts| - 1], attempts[|attempts| - 1];
      assert attempts == before + [a] && a in attempts;
      FailedFastSnoc(before, a, id);
      q := FailuresWrap(maximum, before, id);
      FailuresSinceSnoc(maximum, before, a, id);
      if a.id == id {
        RetryBound(maximum, before, a);
        var q', r' := DividedNext(Failures(before, id), Bound(maximum), q, FailuresSince(maximum, before, id));
        q := q';
      }
    }
  }

  /**
   When every burial is accepted: the first time on failure number max(1, maximum), and,
   since dead-lettering forgets the errors, on every multiple of it if the id comes back.
   */
  lemma AcceptedRetryBound(maximum: int, before: seq<Attempt>, a: Attempt)
    requires AllHanded(before)
    ensures Poisoned(Track(maximum, before), a)
            <==> FailedFast(before + [a], a.id) || Failures(before + [a], a.id) % Bound(maximum) == 0
  {
    RetryBound(maximum, before, a);
    FailedFastSnoc(before, a, a.id);
    if !FailedFast(before + [a], a.id) {
      var b := Bound(maximum);
      var q := FailuresWrap(maximum, before, a.id);
      assert (before + [a])[..|before|] == before;
      var q', r' := DividedNext(Failures(before, a.id), b, q, FailuresSince(maximum, before, a.id));
      ModIs(Failures(before + [a], a.id), b, q', r');
    }
  }
}

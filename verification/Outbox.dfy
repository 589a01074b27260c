/**
 The outbox decorator of the transport and the unit-of-work step: outgoing messages are
 collected in the transaction context and saved by a commit action in the session whose
 commit the unit of work registers after it.
 */
module Outbox {
  import opened Messages
  import opened TransactionContexts
  import opened Transports

  const USE_OUTBOX_KEY := "use-outbox"
  const COLLECTED_KEY := "outgoing-messages"
  const UOW_KEY := "uow"

  predicate Truthy(items: map<string, Item>, key: string) {
    key in items && match items[key] case Flag(on) => on case Outgoing(ms) => ms != [] case UnitOfWork => true
  }

  /** Python's truth value of what `items.get` gives. */
  lemma TruthOf(items: map<string, Item>, key: string)
    ensures key !in items ==> !Truthy(items, key)
    ensures key in items ==> Truthy(items, key) == match items[key]
                                                   case Flag(on) => on
                                                   case Outgoing(ms) => |ms| > 0
                                                   case UnitOfWork => true
  {
  }

  lemma CollectedIs(items: map<string, Item>, ms: seq<OutgoingMessage>)
    ensures "outgoing-messages" !in items ==> Collected(items) == None
    ensures Collected(items["outgoing-messages" := Outgoing(ms)]) == Some(ms)
  {
  }

  function Collected(items: map<string, Item>): Option<seq<OutgoingMessage>> {
    if COLLECTED_KEY in items && items[COLLECTED_KEY].Outgoing? then Some(items[COLLECTED_KEY].messages) else None
  }

  /** A context with the collected messages, None before the first send. */
  datatype Collector = Collector(ctx: Ctx, messages: Option<seq<OutgoingMessage>>)

  /** The action that saves the collected messages; `saving` is how the storage's save will end. */
  function SaveAction(saving: Outcome): Action { Action(SaveOutbox, saving) }

  /** Only the first send registers the save; on a completed context that leaves an empty list. */
  function CollectSpec(s: Collector, m: OutgoingMessage, saving: Outcome): Collector {
    if s.messages.Some? then s.(messages := Some(s.messages.value + [m]))
    else if s.ctx.completed then s.(messages := Some([]))
    else Collector(Apply(s.ctx, Add(Commit, SaveAction(saving))), Some([m]))
  }

  /**
   The first send makes the list and registers the save, which on a completed context raises with an
   empty list left.
   */
  lemma CollectCases(s: Collector, m: OutgoingMessage, saving: Outcome)
    ensures var r := CollectSpec(s, m, saving);
            && (s.messages.Some? ==> r == Collector(s.ctx, Some(s.messages.value + [m])))
            && (s.messages.None? && s.ctx.completed ==> r == Collector(s.ctx, Some([])))
            && (s.messages.None? && !s.ctx.completed ==>
                  && r.messages == Some([m])
                  && r.ctx.Pending(Commit) == s.ctx.Pending(Commit) + [Action(SaveOutbox, saving)]
                  && forall k: Kind :: k != Commit ==> r.ctx.Pending(k) == s.ctx.Pending(k))
  {
  }

  class OutboxTransportDecorator {
    const transport: InMemoryTransport

    constructor (transport: InMemoryTransport)
      ensures this.transport == transport
    {
      this.transport := transport;
    }

    method Send(destination: Address, message: Message, ctx: DefaultTransactionContext, saving: Outcome)
      returns (o: Outcome)
      modifies ctx`lists, ctx`items
      ensures Truthy(old(ctx.items), USE_OUTBOX_KEY) ==>
                && Collector(ctx.View(), Collected(ctx.items))
                   == CollectSpec(old(Collector(ctx.View(), Collected(ctx.items))),
                                  OutgoingMessage(destination, message), saving)
                && ctx.items - {COLLECTED_KEY} == old(ctx.items) - {COLLECTED_KEY}
                && (!o.Done? <==> old(ctx.completed && Collected(ctx.items).None?))
      ensures !Truthy(old(ctx.items), USE_OUTBOX_KEY) ==>
                && Sender(ctx.View(), ListUnder(ctx.items, OUTGOING_MESSAGES_KEY))
                   == SendSpec(old(Sender(ctx.View(), ListUnder(ctx.items, OUTGOING_MESSAGES_KEY))),
                               OutgoingMessage(destination, message))
                && ctx.items - {OUTGOING_MESSAGES_KEY} == old(ctx.items) - {OUTGOING_MESSAGES_KEY}
    {
      if !Truthy(ctx.items, USE_OUTBOX_KEY) {
        o := transport.Send(destination, message, ctx);
        return;
      }
      var outgoing := Collected(ctx.items);
      if outgoing.None? {
        outgoing := Some([]);
        ctx.items := ctx.items[COLLECTED_KEY := Outgoing([])];
        o := ctx.Register(Commit, SaveAction(saving));
        if !o.Done? { return; }
      }
      assert [] + [OutgoingMessage(destination, message)] == [OutgoingMessage(destination, message)];
      ctx.items := ctx.items[COLLECTED_KEY := Outgoing(outgoing.value + [OutgoingMessage(destination, message)])];
      return Done;
    }
  }

  /** Sets the flag that routes sends into the outbox, then goes on. */
  method OutboxIncomingStep(ctx: DefaultTransactionContext)
    modifies ctx`items
    ensures Truthy(ctx.items, "use-outbox") && ctx.items - {USE_OUTBOX_KEY} == old(ctx.items) - {USE_OUTBOX_KEY}
  {
    ctx.items := ctx.items[USE_OUTBOX_KEY := Flag(true)];
  }

  /******* The session of a unit of work *******/

  type Row = nat

  /** What is durable, and what the open session has written but not committed. */
  datatype Db = Db(rows: seq<Row>, outbox: seq<OutgoingMessage>, pendingRows: seq<Row>,
                   pendingOutbox: seq<OutgoingMessage>) {
    function Dropped(): Db { this.(pendingRows := [], pendingOutbox := []) }

    function Committed(): Db { Db(rows + pendingRows, outbox + pendingOutbox, [], []) }

    predicate SameDurable(d: Db) { rows == d.rows && outbox == d.outbox }
  }

  /** The session commits atomically: an unsuccessful commit makes nothing durable. */
  function Effected(db: Db, a: Action, messages: seq<OutgoingMessage>): Db {
    match a.effect
    case SaveOutbox => db.(pendingOutbox := db.pendingOutbox + messages)
    case UowCommit => if a.outcome.Done? then db.Committed() else db
    case UowRollback => db.Dropped()
    case UowClose => db.Dropped()
    case _ => db
  }

  function EffectedAll(db: Db, ran: seq<Action>, messages: seq<OutgoingMessage>): Db {
    if ran == [] then db else Effected(EffectedAll(db, ran[..|ran| - 1], messages), ran[|ran| - 1], messages)
  }

  /** What each action does to the session. */
  lemma EffectsOf(db: Db, o: Outcome, messages: seq<OutgoingMessage>, id: nat)
    ensures Effected(db, Action(SaveOutbox, o), messages) == db.(pendingOutbox := db.pendingOutbox + messages)
    ensures Effected(db, Action(UowCommit, o), messages)
            == if o.Done? then Db(db.rows + db.pendingRows, db.outbox + db.pendingOutbox, [], []) else db
    ensures Effected(db, Action(UowRollback, o), messages) == Db(db.rows, db.outbox, [], [])
    ensures Effected(db, Action(UowClose, o), messages) == Db(db.rows, db.outbox, [], [])
    ensures Effected(db, Action(Custom(id), o), messages) == Effected(db, Action(SendOutgoing, o), messages) == db
  {
  }

  class Session {
    var db: Db

    constructor (db: Db)
      ensures this.db == db
    {
      this.db := db;
    }

    method Perform(a: Action, messages: seq<OutgoingMessage>) returns (o: Outcome)
      modifies this
      ensures db == Effected(old(db), a, messages) && o == a.outcome
    {
      match a.effect {
        case SaveOutbox => db := db.(pendingOutbox := db.pendingOutbox + messages);
        case UowCommit => if a.outcome.Done? { db := db.Committed(); }
        case UowRollback => db := db.Dropped();
        case UowClose => db := db.Dropped();
        case _ =>
      }
      return a.outcome;
    }
  }

  class UnitOfWorkStep {
    const commit: Action
    const rollback: Action
    const close: Action
    const commitWithTransaction: bool

    constructor (commit: Outcome, rollback: Outcome, close: Outcome, commitWithTransaction: bool)
      ensures this.commit == Action(UowCommit, commit) && this.rollback == Action(UowRollback, rollback)
      ensures this.close == Action(UowClose, close) && this.commitWithTransaction == commitWithTransaction
    {
      this.commit, this.rollback := Action(UowCommit, commit), Action(UowRollback, rollback);
      this.close, this.commitWithTransaction := Action(UowClose, close), commitWithTransaction;
    }

    /**
     `inside` says that there is a message context, `made` how the factory of the unit of work
     ends and `next` how the rest of the pipeline does. Within the transaction the step only
     registers actions, which raises on a completed context; otherwise it runs them, and a
     commit or close that raises is followed by a rollback and another close.
     */
    method Call(ctx: DefaultTransactionContext, session: Session, inside: bool, made: Outcome, next: Outcome)
      returns (o: Outcome)
      modifies ctx`lists, ctx`items, session
      ensures !inside || !made.Done? ==>
                && ctx.View() == old(ctx.View()) && ctx.items == old(ctx.items) && session.db == old(session.db)
                && o == if inside then made else Raised(InvalidState)
      ensures inside && made.Done? ==> "uow" in ctx.items && ctx.items - {UOW_KEY} == old(ctx.items) - {UOW_KEY}
      ensures inside && made.Done? && commitWithTransaction ==>
                && session.db == old(session.db)
                && ctx.View() == Registered(old(ctx.View()), next, commit, rollback, close)
                && o == if ctx.completed && !next.Cancelled? then Raised(InvalidState) else next
      ensures inside && made.Done? && !commitWithTransaction ==>
                && ctx.View() == old(ctx.View())
                && (session.db, o) == Immediate(old(session.db), next, commit, rollback, close)
    {
      if !inside { return Raised(InvalidState); }
      if !made.Done? { return made; }
      ctx.items := ctx.items[UOW_KEY := UnitOfWork];
      o := next;
      if o.Done? { o := FinishWith(ctx, session, Commit, commit); }
      if o.Raised? {
        var p := FinishWith(ctx, session, Rollback, rollback);
        if !p.Done? { o := p; }
      }
    }

    /** `_commit` and `_rollback`. */
    method FinishWith(ctx: DefaultTransactionContext, session: Session, k: Kind, a: Action) returns (o: Outcome)
      modifies ctx`lists, session
      ensures commitWithTransaction ==>
                && session.db == old(session.db)
                && ctx.View() == Apply(Apply(old(ctx.View()), Add(k, a)), Add(Close, close))
                && o == if ctx.completed then Raised(InvalidState) else Done
      ensures !commitWithTransaction ==>
                && ctx.View() == old(ctx.View())
                && (session.db, o) == RunTwo(old(session.db), a, close)
    {
      if commitWithTransaction {
        o := ctx.Register(k, a);
        if o.Done? { o := ctx.Register(Close, close); }
      } else {
        o := session.Perform(a, []);
        if o.Done? { o := session.Perform(close, []); }
      }
    }
  }

  function Registered(c: Ctx, next: Outcome, commit: Action, rollback: Action, close: Action): Ctx {
    match next
    case Done => Apply(Apply(c, Add(Commit, commit)), Add(Close, close))
    case Raised(_) => Apply(Apply(c, Add(Rollback, rollback)), Add(Close, close))
    case Cancelled => c
  }

  /** The commit and the close, or the rollback and the close, join their lists; after a cancellation nothing does. */
  lemma RegisteredActions(c: Ctx, next: Outcome, commit: Action, rollback: Action, close: Action, k: Kind)
    ensures c.completed || next.Cancelled? ==> Registered(c, next, commit, rollback, close) == c
    ensures var more := match k
                        case Commit => if next.Done? then [commit] else []
                        case Rollback => if next.Raised? then [rollback] else []
                        case Close => if next.Cancelled? then [] else [close]
                        case _ => [];
            !c.completed ==> Registered(c, next, commit, rollback, close).Pending(k) == c.Pending(k) + more
  {
  }

  function RunTwo(db: Db, a: Action, close: Action): (Db, Outcome) {
    var first := Effected(db, a, []);
    if a.outcome.Done? then (Effected(first, close, []), close.outcome) else (first, a.outcome)
  }

  function Immediate(db: Db, next: Outcome, commit: Action, rollback: Action, close: Action): (Db, Outcome) {
    var tried := if next.Done? then RunTwo(db, commit, close) else (db, next);
    if !tried.1.Raised? then tried else
      var undone := RunTwo(tried.0, rollback, close);
      (undone.0, if undone.1.Done? then tried.1 else undone.1)
  }

  /**
   Outside the transaction, after a pipeline or a commit that raised: nothing became durable. With
   a rollback that is done nothing is pending either, and the first exception leaves unless the
   rollback or the close raises another.
   */
  lemma FailureIsRolledBack(db: Db, next: Outcome, commit: Outcome, rollback: Outcome, close: Outcome)
    requires next.Raised? || (next.Done? && commit.Raised?)
    ensures var r := Immediate(db, next, Action(UowCommit, commit), Action(UowRollback, rollback),
                              Action(UowClose, close));
            var first := if next.Raised? then next else commit;
            && r.0.rows == db.rows && r.0.outbox == db.outbox
            && (rollback.Done? ==> r.0.pendingRows == [] && r.0.pendingOutbox == [])
            && r.1 == if !rollback.Done? then rollback else if !close.Done? then close else first
  {
  }

  /**
   After a pipeline and a commit that succeed everything pending is durable, and a close that raises
   is called again.
   */
  lemma SuccessIsCommitted(db: Db, rollback: Outcome, close: Outcome)
    ensures var r := Immediate(db, Done, Action(UowCommit, Done), Action(UowRollback, rollback),
                              Action(UowClose, close));
            && r.0 == Db(db.rows + db.pendingRows, db.outbox + db.pendingOutbox, [], [])
            && r.1 == if close.Raised? && !rollback.Done? then rollback else close
  {
  }

  /** A `BaseException` goes through: the session stays as it was. */
  lemma CancellationGoesThrough(db: Db, next: Outcome, commit: Outcome, rollback: Outcome, close: Outcome)
    requires next.Cancelled? || (next.Done? && commit.Cancelled?)
    ensures Immediate(db, next, Action(UowCommit, commit), Action(UowRollback, rollback), Action(UowClose, close))
            == (db, Cancelled)
  {
  }

  /******* Business data and messages become durable together *******/

  /** What a handler does inside the unit of work. */
  datatype UnitOp =
    | Write(row: Row)
    | SendMessage(message: OutgoingMessage)
    | Other(kind: Kind, action: Action)
    | Watch(handler: ErrorAction)

  /** Registered by anyone else: no effect on the session. */
  predicate Foreign(a: Action) {
    !a.effect.SaveOutbox? && !a.effect.UowCommit? && !a.effect.UowRollback? && !a.effect.UowClose?
  }

  predicate ForeignOps(ops: seq<UnitOp>) { forall op :: op in ops && op.Other? ==> Foreign(op.action) }

  predicate ForeignAll(actions: seq<Action>) { forall a :: a in actions ==> Foreign(a) }

  datatype Unit = Unit(collector: Collector, db: Db) {
    /** The list that the save action saves, as it is when the action runs. */
    function Listed(): seq<OutgoingMessage> { collector.messages.GetOr([]) }
  }

  function DoOp(u: Unit, op: UnitOp, saving: Outcome): Unit {
    match op
    case Write(row) => u.(db := u.db.(pendingRows := u.db.pendingRows + [row]))
    case SendMessage(m) => u.(collector := CollectSpec(u.collector, m, saving))
    case Other(k, a) => u.(collector := u.collector.(ctx := Apply(u.collector.ctx, Add(k, a))))
    case Watch(h) => u.(collector := u.collector.(ctx := Apply(u.collector.ctx, AddError(h))))
  }

  /** What each operation leaves in the session, the list and the context. */
  lemma DoOpCases(u: Unit, op: UnitOp, saving: Outcome, k: Kind)
    requires !u.collector.ctx.completed
    ensures var v := DoOp(u, op, saving);
            && v.db == (if op.Write? then u.db.(pendingRows := u.db.pendingRows + [op.row]) else u.db)
            && v.Listed() == u.Listed() + (if op.SendMessage? then [op.message] else [])
            && v.collector.ctx.onError == u.collector.ctx.onError + (if op.Watch? then [op.handler] else [])
            && (op.Other? ==> v.collector.ctx.Pending(k)
                              == u.collector.ctx.Pending(k) + if op.kind == k then [op.action] else [])
  {
    assert u.collector.ctx.onError + [] == u.collector.ctx.onError && u.Listed() + [] == u.Listed();
    if op.SendMessage? { assert [] + [op.message] == [op.message]; }
  }

  function DoOps(u: Unit, ops: seq<UnitOp>, saving: Outcome): Unit {
    if ops == [] then u else DoOp(DoOps(u, ops[..|ops| - 1], saving), ops[|ops| - 1], saving)
  }

  function Written(ops: seq<UnitOp>): seq<Row> {
    if ops == [] then [] else
      Written(ops[..|ops| - 1]) + if ops[|ops| - 1].Write? then [ops[|ops| - 1].row] else []
  }

  function Sent(ops: seq<UnitOp>): seq<OutgoingMessage> {
    if ops == [] then [] else
      Sent(ops[..|ops| - 1]) + if ops[|ops| - 1].SendMessage? then [ops[|ops| - 1].message] else []
  }

  /** A fresh message: an empty context, nothing collected and an idle session. */
  function NewUnit(rows: seq<Row>, outbox: seq<OutgoingMessage>): Unit {
    Unit(Collector(EMPTY_CTX, None), Db(rows, outbox, [], []))
  }

  lemma DoOpEffect(u: Unit, op: UnitOp, saving: Outcome)
    requires Open(u.collector.ctx)
    ensures var u' := DoOp(u, op, saving);
            && Open(u'.collector.ctx)
            && u'.collector.messages == (
                 if op.SendMessage? then Some(u.collector.messages.GetOr([]) + [op.message]) else u.collector.messages)
            && u'.collector.ctx.Pending(Commit) == u.collector.ctx.Pending(Commit) + (
                 match op
                 case SendMessage(_) => if u.collector.messages.None? then [SaveAction(saving)] else []
                 case Other(k, a) => if k == Commit then [a] else []
                 case _ => [])
  {
    if op.SendMessage? { assert [] + [op.message] == [op.message]; }
  }

  /** The handlers' writes and sends are all in the session and the list, with one save action if there is any send. */
  lemma {:induction false} OneSaveAction(rows: seq<Row>, outbox: seq<OutgoingMessage>, ops: seq<UnitOp>,
                                         saving: Outcome)
    returns (first: seq<Action>, tail: seq<Action>)
    requires ForeignOps(ops)
    ensures var u := DoOps(NewUnit(rows, outbox), ops, saving);
            && Open(u.collector.ctx) && u.db == Db(rows, outbox, Written(ops), [])
            && u.collector.messages == (if Sent(ops) == [] then None else Some(Sent(ops)))
            && u.collector.ctx.Pending(Commit) == first + (if Sent(ops) == [] then [] else [SaveAction(saving)]) + tail
    ensures ForeignAll(first) && ForeignAll(tail) && (Sent(ops) == [] ==> tail == [])
    ensures NoUowCommit(DoOps(NewUnit(rows, outbox), ops, saving).collector.ctx.Pending(Commit))
  {
    first, tail := [], [];
    if ops != [] {
      var before, op := ops[..|ops| - 1], ops[|ops| - 1];
      assert op in ops && forall o :: o in before ==> o in ops;
      first, tail := OneSaveAction(rows, outbox, before, saving);
      DoOpEffect(DoOps(NewUnit(rows, outbox), before, saving), op, saving);
      assert Sent(before) + [] == Sent(before);
      if op.Other? && op.kind == Commit {
        if Sent(before) == [] { first := first + [op.action]; } else { tail := tail + [op.action]; }
      }
    }
  }

  lemma {:induction false} EffectedConcat(db: Db, a: seq<Action>, b: seq<Action>, messages: seq<OutgoingMessage>)
    ensures EffectedAll(db, a + b, messages) == EffectedAll(EffectedAll(db, a, messages), b, messages)
  {
    if b == [] {
      assert a + b == a;
    } else {
      assert (a + b)[..|a + b| - 1] == a + b[..|b| - 1];
      EffectedConcat(db, a, b[..|b| - 1], messages);
    }
  }

  lemma {:induction false} ForeignsDoNothing(db: Db, ran: seq<Action>, messages: seq<OutgoingMessage>)
    requires ForeignAll(ran)
    ensures EffectedAll(db, ran, messages) == db
  {
    if ran != [] {
      assert ran[|ran| - 1] in ran;
      ForeignsDoNothing(db, ran[..|ran| - 1], messages);
    }
  }

  /** No list without a successful unit-of-work commit changes what is durable. */
  lemma {:induction false} DurableNeedsCommit(db: Db, ran: seq<Action>, messages: seq<OutgoingMessage>)
    requires forall a :: a in ran && a.effect.UowCommit? ==> !a.outcome.Done?
    ensures EffectedAll(db, ran, messages).SameDurable(db)
  {
    if ran != [] { DurableNeedsCommit(db, ran[..|ran| - 1], messages); }
  }

  predicate NoUowCommit(ran: seq<Action>) { forall a :: a in ran ==> !a.effect.UowCommit? }

  /** The commit list of a finished message: what it started, and what later rollback and close actions do. */
  function Trace(c: Ctx, commit: bool, ack: bool, closes: nat, after: seq<Action>): seq<Action> {
    JudgedAndClosed(c, commit, ack, closes).Ran(Commit) + after
  }

  lemma TraceIs(c: Ctx, commit: bool, ack: bool, closes: nat, after: seq<Action>)
    requires Open(c)
    ensures Trace(c, commit, ack, closes, after) == (if commit then Attempted(c.Pending(Commit)) else []) + after
  {
    JudgedRan(c, commit, ack, closes);
  }

  /** A list that reaches the unit-of-work commit has done everything before it. */
  lemma CommittedPrefix(db: Db, first: seq<Action>, save: seq<Action>, tail: seq<Action>, uow: Action,
                        messages: seq<OutgoingMessage>)
    requires ForeignAll(first) && ForeignAll(tail) && uow.effect.UowCommit? && uow.outcome.Done?
    requires save == [] || (|save| == 1 && save[0].effect.SaveOutbox?)
    ensures var saved := if save == [] then [] else messages;
            EffectedAll(db, first + save + tail + [uow], messages)
            == db.(pendingOutbox := db.pendingOutbox + saved).Committed()
  {
    EffectedConcat(db, first + save + tail, [uow], messages);
    EffectedConcat(db, first + save, tail, messages);
    EffectedConcat(db, first, save, messages);
    ForeignsDoNothing(db, first, messages);
    var saved := EffectedAll(db, save, messages);
    assert saved == db.(pendingOutbox := db.pendingOutbox + if save == [] then [] else messages) by {
      if save == [] { assert db.pendingOutbox + [] == db.pendingOutbox; } else { assert save[..0] == []; }
    }
    ForeignsDoNothing(saved, tail, messages);
    assert [uow][..0] == [];
  }

  /** A list that fails before or at the unit-of-work commit never commits. */
  lemma FailedListNeverCommits(earlier: seq<Action>, uow: Action, late: seq<Action>)
    requires NoUowCommit(earlier) && NoUowCommit(late) && !Verdicts(earlier + [uow]).Done?
    ensures forall a :: a in Attempted(earlier + [uow] + late) && a.effect.UowCommit? ==> !a.outcome.Done?
  {
    StartedConcat(earlier + [uow], late);
    StartedConcat(earlier, [uow]);
    SingletonList(uow);
  }

  lemma CommittedList(db: Db, listed: seq<Action>, late: seq<Action>, after: seq<Action>,
                      messages: seq<OutgoingMessage>)
    requires Verdicts(listed).Done? && NoUowCommit(late) && NoUowCommit(after)
    ensures EffectedAll(db, Attempted(listed + late) + after, messages).SameDurable(EffectedAll(db, listed, messages))
  {
    StartedConcat(listed, late);
    var rest := Attempted(late) + after;
    assert Attempted(listed + late) + after == listed + rest;
    EffectedConcat(db, listed, rest, messages);
    DurableNeedsCommit(EffectedAll(db, listed, messages), rest, messages);
  }

  lemma UncommittedList(db: Db, earlier: seq<Action>, uow: Action, late: seq<Action>, after: seq<Action>,
                        messages: seq<OutgoingMessage>, commit: bool)
    requires NoUowCommit(earlier) && NoUowCommit(late) && NoUowCommit(after)
    requires !commit || !Verdicts(earlier + [uow]).Done?
    ensures var ran := (if commit then Attempted(earlier + [uow] + late) else []) + after;
            EffectedAll(db, ran, messages).SameDurable(db)
  {
    if commit { FailedListNeverCommits(earlier, uow, late); }
    DurableNeedsCommit(db, (if commit then Attempted(earlier + [uow] + late) else []) + after, messages);
  }

  lemma NeverCommitted(db: Db, listed: seq<Action>, after: seq<Action>, messages: seq<OutgoingMessage>, commit: bool)
    requires NoUowCommit(listed) && NoUowCommit(after)
    ensures EffectedAll(db, (if commit then Attempted(listed) else []) + after, messages).SameDurable(db)
  {
    DurableNeedsCommit(db, (if commit then Attempted(listed) else []) + after, messages);
  }

  /** What outer steps do once the unit of work has registered its actions: a first send registers a late save. */
  lemma {:induction false} LateOps(u: Unit, ops: seq<UnitOp>, saving: Outcome) returns (late: seq<Action>)
    requires Open(u.collector.ctx) && ForeignOps(ops)
    ensures var v := DoOps(u, ops, saving);
            && Open(v.collector.ctx) && NoUowCommit(late)
            && v.db == u.db.(pendingRows := u.db.pendingRows + Written(ops))
            && v.collector.ctx.Pending(Commit) == u.collector.ctx.Pending(Commit) + late
  {
    late := [];
    if ops == [] {
      assert u.db.pendingRows + [] == u.db.pendingRows;
    } else {
      var before, op := ops[..|ops| - 1], ops[|ops| - 1];
      assert op in ops && forall o :: o in before ==> o in ops;
      var v := DoOps(u, before, saving);
      late := LateOps(u, before, saving);
      DoOpEffect(v, op, saving);
      if op.SendMessage? && v.collector.messages.None? { late := late + [SaveAction(saving)]; }
      if op.Other? && op.kind == Commit { late := late + [op.action]; }
    }
  }

  /** Every send adds its message to the list. */
  lemma {:induction false} ListedAfter(u: Unit, ops: seq<UnitOp>, saving: Outcome)
    requires Open(u.collector.ctx)
    ensures var v := DoOps(u, ops, saving); Open(v.collector.ctx) && v.Listed() == u.Listed() + Sent(ops)
  {
    if ops == [] {
      assert u.Listed() + [] == u.Listed();
    } else {
      var before := ops[..|ops| - 1];
      ListedAfter(u, before, saving);
      DoOpEffect(DoOps(u, before, saving), ops[|ops| - 1], saving);
    }
  }

  /** The unit of work has registered its actions, and outer steps go on. */
  function Wrapped(u: Unit, next: Outcome, commit: Action, rollback: Action, close: Action, late: seq<UnitOp>,
                   saving: Outcome): Unit {
    var c := Registered(u.collector.ctx, next, commit, rollback, close);
    DoOps(u.(collector := u.collector.(ctx := c)), late, saving)
  }

  /** The database once a message has been concluded in any way. */
  function Ending(u: Unit, commit: bool, ack: bool, closes: nat, after: seq<Action>): Db {
    EffectedAll(u.db, Trace(u.collector.ctx, commit, ack, closes, after), u.Listed())
  }

  /** Every commit action up to the unit of work's own succeeds. */
  predicate ListSucceeds(u: Unit, uow: Outcome) {
    Verdicts(u.collector.ctx.Pending(Commit) + [Action(UowCommit, uow)]).Done?
  }

  /** What was written and saved becomes durable together, or nothing does. */
  predicate Together(end: Db, rows: seq<Row>, outbox: seq<OutgoingMessage>, written: seq<Row>,
                     saved: seq<OutgoingMessage>, both: bool) {
    if both then end.rows == rows + written && end.outbox == outbox + saved
    else end.rows == rows && end.outbox == outbox
  }

  lemma EndingCommitted(u: Unit, listed: seq<Action>, late: seq<Action>, ack: bool, closes: nat, after: seq<Action>)
    requires Open(u.collector.ctx) && u.collector.ctx.Pending(Commit) == listed + late && Verdicts(listed).Done?
    requires NoUowCommit(late) && NoUowCommit(after)
    ensures Ending(u, true, ack, closes, after).SameDurable(EffectedAll(u.db, listed, u.Listed()))
  {
    TraceIs(u.collector.ctx, true, ack, closes, after);
    CommittedList(u.db, listed, late, after, u.Listed());
  }

  lemma EndingUncommitted(u: Unit, earlier: seq<Action>, uow: Action, late: seq<Action>,
                          commit: bool, ack: bool, closes: nat, after: seq<Action>)
    requires Open(u.collector.ctx) && u.collector.ctx.Pending(Commit) == earlier + [uow] + late
    requires NoUowCommit(earlier) && NoUowCommit(late) && NoUowCommit(after)
    requires !commit || !Verdicts(earlier + [uow]).Done?
    ensures Ending(u, commit, ack, closes, after).SameDurable(u.db)
  {
    TraceIs(u.collector.ctx, commit, ack, closes, after);
    UncommittedList(u.db, earlier, uow, late, after, u.Listed(), commit);
  }

  lemma LastSucceeds(earlier: seq<Action>, uow: Action)
    requires Verdicts(earlier + [uow]).Done?
    ensures uow.outcome.Done?
  {
    assert uow in earlier + [uow];
  }

  lemma NoCommitBefore(first: seq<Action>, save: seq<Action>, tail: seq<Action>)
    requires ForeignAll(first) && ForeignAll(tail) && (save == [] || (|save| == 1 && save[0].effect.SaveOutbox?))
    ensures NoUowCommit(first + save + tail)
  {
  }

  /** A commit list with the unit of work's commit after `first`, `save` and `tail`, and before `late`. */
  lemma EndingFrom(u: Unit, first: seq<Action>, save: seq<Action>, tail: seq<Action>, uow: Action, late: seq<Action>,
                    commit: bool, ack: bool, closes: nat, after: seq<Action>)
    requires Open(u.collector.ctx) && u.collector.ctx.Pending(Commit) == first + save + tail + [uow] + late
    requires ForeignAll(first) && ForeignAll(tail) && NoUowCommit(late) && NoUowCommit(after) && uow.effect.UowCommit?
    requires save == [] || (|save| == 1 && save[0].effect.SaveOutbox?)
    ensures Together(Ending(u, commit, ack, closes, after), u.db.rows, u.db.outbox, u.db.pendingRows,
                     u.db.pendingOutbox + (if save == [] then [] else u.Listed()),
                     commit && Verdicts(first + save + tail + [uow]).Done?)
  {
    var listed := first + save + tail + [uow];
    if commit && Verdicts(listed).Done? {
      LastSucceeds(first + save + tail, uow);
      EndingCommitted(u, listed, late, ack, closes, after);
      CommittedPrefix(u.db, first, save, tail, uow, u.Listed());
    } else {
      NoCommitBefore(first, save, tail);
      EndingUncommitted(u, first + save + tail, uow, late, commit, ack, closes, after);
    }
  }

  lemma WrappedTogether(
    u: Unit, rows: seq<Row>, outbox: seq<OutgoingMessage>, written: seq<Row>,
    first: seq<Action>, save: seq<Action>, tail: seq<Action>, uow: Outcome, close: Outcome, late: seq<UnitOp>,
    saving: Outcome, commit: bool, ack: bool, closes: nat, after: seq<Action>)
    requires Open(u.collector.ctx) && u.collector.ctx.Pending(Commit) == first + save + tail
    requires ForeignAll(first) && ForeignAll(tail) && ForeignOps(late) && NoUowCommit(after)
    requires save == [] || (|save| == 1 && save[0].effect.SaveOutbox?)
    requires u.db == Db(rows, outbox, written, [])
    ensures var v := Wrapped(u, Done, Action(UowCommit, uow), Action(UowRollback, Done), Action(UowClose, close),
                             late, saving);
            && v.Listed() == u.Listed() + Sent(late)
            && Together(Ending(v, commit, ack, closes, after), rows, outbox, written + Written(late),
                        if save == [] then [] else v.Listed(), commit && ListSucceeds(u, uow))
  {
    var uowCommit := Action(UowCommit, uow);
    var c := Registered(u.collector.ctx, Done, uowCommit, Action(UowRollback, Done), Action(UowClose, close));
    assert c.Pending(Commit) == first + save + tail + [uowCommit];
    var more := LateOps(u.(collector := u.collector.(ctx := c)), late, saving);
    ListedAfter(u.(collector := u.collector.(ctx := c)), late, saving);
    var v := Wrapped(u, Done, uowCommit, Action(UowRollback, Done), Action(UowClose, close), late, saving);
    EndingFrom(v, first, save, tail, uowCommit, more, commit, ack, closes, after);
    var saved := if save == [] then [] else v.Listed();
    assert [] + saved == saved;
  }

  /**
   With `commit_with_transaction`, what the pipeline writes becomes durable exactly when the
   verdict commits and every commit action up to the unit of work's own succeeds. With it goes
   the full ordered list of outgoing messages, also those that steps around the unit of work
   send after it, if there was any send before the unit of work registered its commit: only
   then does the save run before that commit. Otherwise nothing becomes durable.
   */
  lemma DurableFromBeforeTheCommit(
    rows: seq<Row>, outbox: seq<OutgoingMessage>, ops: seq<UnitOp>, saving: Outcome, uow: Outcome, close: Outcome,
    late: seq<UnitOp>, commit: bool, ack: bool, closes: nat, after: seq<Action>)
    requires ForeignOps(ops) && ForeignOps(late) && NoUowCommit(after)
    ensures var u := DoOps(NewUnit(rows, outbox), ops, saving);
            var v := Wrapped(u, Done, Action(UowCommit, uow), Action(UowRollback, Done), Action(UowClose, close),
                             late, saving);
            && v.Listed() == Sent(ops) + Sent(late)
            && Together(Ending(v, commit, ack, closes, after), rows, outbox, Written(ops) + Written(late),
                        if Sent(ops) == [] then [] else v.Listed(), commit && ListSucceeds(u, uow))
  {
    var first, tail := OneSaveAction(rows, outbox, ops, saving);
    var save := if Sent(ops) == [] then [] else [SaveAction(saving)];
    WrappedTogether(DoOps(NewUnit(rows, outbox), ops, saving), rows, outbox, Written(ops), first, save, tail,
                    uow, close, late, saving, commit, ack, closes, after);
  }

  /**
   Given a verdict to commit and a list that succeeds up to the unit of work's commit, business
   data and all messages become durable together if and only if something was sent before that
   commit was registered, or nothing is sent at all.
   */
  lemma DataAndMessagesCommitTogether(
    rows: seq<Row>, outbox: seq<OutgoingMessage>, ops: seq<UnitOp>, saving: Outcome, uow: Outcome, close: Outcome,
    late: seq<UnitOp>, commit: bool, ack: bool, closes: nat, after: seq<Action>)
    requires ForeignOps(ops) && ForeignOps(late) && NoUowCommit(after)
    ensures var u := DoOps(NewUnit(rows, outbox), ops, saving);
            var v := Wrapped(u, Done, Action(UowCommit, uow), Action(UowRollback, Done), Action(UowClose, close),
                             late, saving);
            var end := Ending(v, commit, ack, closes, after);
            && v.Listed() == Sent(ops) + Sent(late)
            && if commit && ListSucceeds(u, uow) then
                 && end.rows == rows + (Written(ops) + Written(late))
                 && (end.outbox == outbox + (Sent(ops) + Sent(late)) <==> Sent(ops) != [] || Sent(late) == [])
               else end.rows == rows && end.outbox == outbox
  {
    DurableFromBeforeTheCommit(rows, outbox, ops, saving, uow, close, late, commit, ack, closes, after);
    assert |outbox + []| < |outbox + (Sent(ops) + Sent(late))| || Sent(ops) + Sent(late) == [];
  }

  /** The row that a handler wrote, then a message that an outer step sends first of all. */
  lemma WroteThenSent(row: Row, m: OutgoingMessage, commit: Action, rollback: Action, close: Action)
    ensures var u := DoOps(NewUnit([], []), [Write(row)], Done);
            var v := Wrapped(u, Done, commit, rollback, close, [SendMessage(m)], Done);
            && u.collector.ctx == EMPTY_CTX
            && v.collector.ctx.Pending(Commit) == [commit, SaveAction(Done)] && v.collector.messages == Some([m])
            && Written([Write(row)]) == [row] && Sent([Write(row)]) == [] && Written([SendMessage(m)]) == []
            && Sent([SendMessage(m)]) == [m]
  {
    var op := Write(row);
    assert [op][..0] == [] && [SendMessage(m)][..0] == [];
    var u := DoOps(NewUnit([], []), [op], Done);
    assert u == DoOp(NewUnit([], []), op, Done) && u.collector == Collector(EMPTY_CTX, None);
    var c := Registered(EMPTY_CTX, Done, commit, rollback, close);
    assert c.Pending(Commit) == [commit];
    var w := u.(collector := u.collector.(ctx := c));
    assert DoOps(w, [SendMessage(m)], Done) == DoOp(w, SendMessage(m), Done);
  }

  /** The smallest such case: everything succeeds, the row becomes durable and the message does not. */
  lemma ALateFirstSendStaysBehind(row: Row, m: OutgoingMessage)
    ensures var u := DoOps(NewUnit([], []), [Write(row)], Done);
            var v := Wrapped(u, Done, Action(UowCommit, Done), Action(UowRollback, Done), Action(UowClose, Done),
                             [SendMessage(m)], Done);
            var end := Ending(v, true, true, 1, [Action(UowClose, Done)]);
            && v.collector.ctx.Pending(Commit) == [Action(UowCommit, Done), SaveAction(Done)]
            && v.collector.messages == Some([m]) && end.rows == [row] && end.outbox == []
  {
    var after := [Action(UowClose, Done)];
    WroteThenSent(row, m, Action(UowCommit, Done), Action(UowRollback, Done), Action(UowClose, Done));
    DurableFromBeforeTheCommit([], [], [Write(row)], Done, Done, Done, [SendMessage(m)], true, true, 1, after);
    SingletonList(Action(UowCommit, Done));
    assert [] + [Action(UowCommit, Done)] == [Action(UowCommit, Done)] && [] + [m] == [m] && [row] + [] == [row];
  }

  /** When the handlers fail nothing becomes durable, whatever the verdict. */
  lemma FailedHandlersLeaveNothing(
    rows: seq<Row>, outbox: seq<OutgoingMessage>, ops: seq<UnitOp>, saving: Outcome,
    next: Outcome, rollback: Outcome, close: Outcome,
    late: seq<UnitOp>, commit: bool, ack: bool, closes: nat, after: seq<Action>)
    requires ForeignOps(ops) && ForeignOps(late) && NoUowCommit(after) && !next.Done?
    ensures var u := DoOps(NewUnit(rows, outbox), ops, saving);
            var v := Wrapped(u, next, Action(UowCommit, Done), Action(UowRollback, rollback), Action(UowClose, close),
                             late, saving);
            var end := Ending(v, commit, ack, closes, after);
            end.rows == rows && end.outbox == outbox
  {
    var first, tail := OneSaveAction(rows, outbox, ops, saving);
    var u := DoOps(NewUnit(rows, outbox), ops, saving);
    var c := Registered(u.collector.ctx, next, Action(UowCommit, Done), Action(UowRollback, rollback),
                        Action(UowClose, close));
    assert c.Pending(Commit) == u.collector.ctx.Pending(Commit);
    StaysBehind(u.(collector := u.collector.(ctx := c)), late, saving, commit, ack, closes, after);
  }

  /**
   Without `commit_with_transaction` they part: the step commits the data by itself, and the
   messages, saved later in a session that nobody commits again, are not durable with them.
   */
  lemma WithoutTransactionMessagesStayBehind(
    rows: seq<Row>, outbox: seq<OutgoingMessage>, ops: seq<UnitOp>, saving: Outcome,
    late: seq<UnitOp>, commit: bool, ack: bool, closes: nat, after: seq<Action>)
    requires ForeignOps(ops) && ForeignOps(late) && NoUowCommit(after)
    ensures var u := DoOps(NewUnit(rows, outbox), ops, saving);
            var step := Immediate(u.db, Done, Action(UowCommit, Done), Action(UowRollback, Done),
                                  Action(UowClose, Done));
            var v := DoOps(u.(db := step.0), late, saving);
            var end := Ending(v, commit, ack, closes, after);
            step.1.Done? && end.rows == rows + Written(ops) && end.outbox == outbox
  {
    var first, tail := OneSaveAction(rows, outbox, ops, saving);
    var u := DoOps(NewUnit(rows, outbox), ops, saving);
    var step := CommittedAtOnce(u.db);
    StaysBehind(u.(db := step), late, saving, commit, ack, closes, after);
    assert outbox + [] == outbox;
  }

  function CommittedAtOnce(db: Db): (d: Db)
    ensures Immediate(db, Done, Action(UowCommit, Done), Action(UowRollback, Done), Action(UowClose, Done)) == (d, Done)
  {
    db.Committed()
  }

  lemma StaysBehind(u: Unit, late: seq<UnitOp>, saving: Outcome, commit: bool, ack: bool,
                    closes: nat, after: seq<Action>)
    requires Open(u.collector.ctx) && NoUowCommit(u.collector.ctx.Pending(Commit))
    requires ForeignOps(late) && NoUowCommit(after)
    ensures Ending(DoOps(u, late, saving), commit, ack, closes, after).SameDurable(u.db)
  {
    var more := LateOps(u, late, saving);
    var v := DoOps(u, late, saving);
    TraceIs(v.collector.ctx, commit, ack, closes, after);
    NeverCommitted(v.db, u.collector.ctx.Pending(Commit) + more, after, v.Listed(), commit);
  }
}

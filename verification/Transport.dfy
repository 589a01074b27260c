/** The in-memory network, and the transport that sends when its context commits. */
module Transports {
  import opened Messages
  import opened TransactionContexts

  const OUTGOING_MESSAGES_KEY := "outgoing_messages"

  /** A deque per address, leftmost element first; a missing address is an empty deque. */
  type Queues = map<Address, seq<Message>>

  function Deque(queues: Queues, a: Address): seq<Message> {
    if a in queues then queues[a] else []
  }

  /** The waiting messages of an address, next one first. */
  function Waiting(queues: Queues, a: Address): seq<Message> {
    Reversed(Deque(queues, a))
  }

  function Reversed<T>(s: seq<T>): (r: seq<T>)
    ensures |r| == |s| && forall i :: 0 <= i < |s| ==> r[i] == s[|s| - 1 - i]
  {
    if s == [] then [] else [s[|s| - 1]] + Reversed(s[..|s| - 1])
  }

  lemma ReversedCons<T>(x: T, s: seq<T>)
    ensures Reversed([x] + s) == Reversed(s) + [x]
  {
  }

  function Only(keep: bool, m: Message): seq<Message> {
    if keep then [m] else []
  }

  function ForAddress(ms: seq<OutgoingMessage>, a: Address): seq<Message> {
    if ms == [] then [] else
      ForAddress(ms[..|ms| - 1], a) + Only(ms[|ms| - 1].destination == a, ms[|ms| - 1].message)
  }

  function DeliverOne(queues: Queues, m: OutgoingMessage): Queues {
    queues[m.destination := [m.message] + Deque(queues, m.destination)]
  }

  function DeliverAll(queues: Queues, ms: seq<OutgoingMessage>): Queues {
    if ms == [] then queues else DeliverOne(DeliverAll(queues, ms[..|ms| - 1]), ms[|ms| - 1])
  }

  lemma DeliverOneIsFifo(queues: Queues, m: OutgoingMessage, a: Address)
    ensures Waiting(DeliverOne(queues, m), a) == Waiting(queues, a) + Only(m.destination == a, m.message)
  {
    ReversedCons(m.message, Deque(queues, m.destination));
  }

  /** The deques are queues: each address gets its messages at the end, in delivery order. */
  lemma {:induction false} DeliverAllIsFifo(queues: Queues, ms: seq<OutgoingMessage>, a: Address)
    ensures Waiting(DeliverAll(queues, ms), a) == Waiting(queues, a) + ForAddress(ms, a)
  {
    if ms != [] {
      DeliverAllIsFifo(queues, ms[..|ms| - 1], a);
      DeliverOneIsFifo(DeliverAll(queues, ms[..|ms| - 1]), ms[|ms| - 1], a);
    }
  }

  lemma {:induction false} DeliverAllConcat(queues: Queues, x: seq<OutgoingMessage>, y: seq<OutgoingMessage>)
    ensures DeliverAll(queues, x + y) == DeliverAll(DeliverAll(queues, x), y)
  {
    if y == [] {
      assert x + y == x;
    } else {
      DeliverAllConcat(queues, x, y[..|y| - 1]);
      assert (x + y)[..|x + y| - 1] == x + y[..|y| - 1];
    }
  }

  class InMemoryNetwork {
    var queues: Queues

    constructor ()
      ensures queues == map[]
    {
      queues := map[];
    }

    method Deliver(a: Address, m: Message)
      modifies this
      ensures queues == DeliverOne(old(queues), OutgoingMessage(a, m))
    {
      queues := queues[a := [m] + Deque(queues, a)];
    }

    method GetNext(a: Address) returns (m: Option<Message>)
      modifies this
      ensures Waiting(old(queues), a) == [] ==> m == None && forall b :: Waiting(queues, b) == Waiting(old(queues), b)
      ensures Waiting(old(queues), a) != [] ==>
                && m == Some(Waiting(old(queues), a)[0])
                && Waiting(queues, a) == Waiting(old(queues), a)[1..]
                && forall b :: b != a ==> Waiting(queues, b) == Waiting(old(queues), b)
    {
      var deque := Deque(queues, a);
      if deque == [] {
        queues := queues[a := []];
        return None;
      }
      queues := queues[a := deque[..|deque| - 1]];
      assert Waiting(queues, a) == Waiting(old(queues), a)[1..];
      return Some(deque[|deque| - 1]);
    }
  }

  /** The outgoing list of a context under a key; no list counts as the empty one. */
  function ListUnder(items: map<string, Item>, key: string): seq<OutgoingMessage> {
    if key in items && items[key].Outgoing? then items[key].messages else []
  }

  /** A context with the outgoing list its send action refers to. */
  datatype Sender = Sender(ctx: Ctx, outgoing: seq<OutgoingMessage>)

  const SEND_ACTION := Action(SendOutgoing, Done)

  /** Only an empty list registers the action; once completed that registration raises. */
  function SendSpec(s: Sender, m: OutgoingMessage): Sender {
    if s.outgoing == [] && s.ctx.completed then s else
      Sender(if s.outgoing == [] then Apply(s.ctx, Add(Commit, SEND_ACTION)) else s.ctx, s.outgoing + [m])
  }

  /** The list kept in the context, or none. */
  lemma ListIs(items: map<string, Item>, ms: seq<OutgoingMessage>)
    ensures "outgoing_messages" !in items ==> ListUnder(items, OUTGOING_MESSAGES_KEY) == []
    ensures ListUnder(items["outgoing_messages" := Outgoing(ms)], OUTGOING_MESSAGES_KEY) == ms
  {
  }

  /** A first send registers the send action, which on a completed context raises with the message not collected. */
  lemma SendCases(s: Sender, m: OutgoingMessage)
    ensures var r := SendSpec(s, m);
            && (s.outgoing != [] ==> r == Sender(s.ctx, s.outgoing + [m]))
            && (s.outgoing == [] && s.ctx.completed ==> r == s)
            && (s.outgoing == [] && !s.ctx.completed ==>
                  && r.outgoing == [m] && r.ctx.Pending(Commit) == s.ctx.Pending(Commit) + [SEND_ACTION]
                  && forall k: Kind :: k != Commit ==> r.ctx.Pending(k) == s.ctx.Pending(k))
  {
  }

  class InMemoryTransport {
    const address: Address
    const network: InMemoryNetwork

    constructor (address: Address, network: InMemoryNetwork)
      ensures this.address == address && this.network == network
    {
      this.address := address;
      this.network := network;
    }

    method Send(destination: Address, message: Message, ctx: DefaultTransactionContext) returns (o: Outcome)
      modifies ctx`lists, ctx`items
      ensures Sender(ctx.View(), ListUnder(ctx.items, OUTGOING_MESSAGES_KEY))
              == SendSpec(old(Sender(ctx.View(), ListUnder(ctx.items, OUTGOING_MESSAGES_KEY))),
                          OutgoingMessage(destination, message))
      ensures "outgoing_messages" in ctx.items
      ensures ctx.items - {OUTGOING_MESSAGES_KEY} == old(ctx.items) - {OUTGOING_MESSAGES_KEY}
      ensures !o.Done? <==> old(ctx.completed && ListUnder(ctx.items, OUTGOING_MESSAGES_KEY) == [])
    {
      var outgoing := ListUnder(ctx.items, OUTGOING_MESSAGES_KEY);
      if outgoing == [] {
        ctx.items := ctx.items[OUTGOING_MESSAGES_KEY := Outgoing([])];
        o := ctx.Register(Commit, SEND_ACTION);
        if !o.Done? { return; }
      }
      ctx.items := ctx.items[OUTGOING_MESSAGES_KEY := Outgoing(outgoing + [OutgoingMessage(destination, message)])];
      return Done;
    }

    /**
     Pops the next message and registers its requeue, which raises, with the message popped, on a
     completed context.
     */
    method Receive(ctx: DefaultTransactionContext) returns (o: Outcome, m: Option<Message>)
      modifies network, ctx`lists
      ensures old(Waiting(network.queues, address)) == [] ==>
                o == Done && m == None && ctx.View() == old(ctx.View())
                && forall b :: Waiting(network.queues, b) == old(Waiting(network.queues, b))
      ensures old(Waiting(network.queues, address)) != [] ==>
                var next := old(Waiting(network.queues, address))[0];
                && Waiting(network.queues, address) == old(Waiting(network.queues, address))[1..]
                && (forall b :: b != address ==> Waiting(network.queues, b) == old(Waiting(network.queues, b)))
                && ctx.View() == Apply(old(ctx.View()), Add(Nack, Action(Requeue(next), Done)))
                && (o, m) == if ctx.completed then (Raised(InvalidState), None) else (Done, Some(next))
    {
      m := network.GetNext(address);
      if m.None? { return Done, None; }
      o := ctx.Register(Nack, Action(Requeue(m.value), Done));
      if !o.Done? { m := None; }
    }

    method SendOutgoingMessages(outgoing: seq<OutgoingMessage>)
      modifies network
      ensures network.queues == DeliverAll(old(network.queues), outgoing)
    {
      var i := 0;
      while i < |outgoing|
        invariant 0 <= i <= |outgoing|
        invariant network.queues == DeliverAll(old(network.queues), outgoing[..i])
      {
        network.Deliver(outgoing[i].destination, outgoing[i].message);
        assert outgoing[..i + 1][..i] == outgoing[..i];
        i := i + 1;
      }
      assert outgoing[..i] == outgoing;
    }
  }

  /** What the started commit actions put on the network, in order. */
  function Delivered(ran: seq<Action>, outgoing: seq<OutgoingMessage>): seq<OutgoingMessage> {
    if ran == [] then [] else
      Delivered(ran[..|ran| - 1], outgoing) + if ran[|ran| - 1] == SEND_ACTION then outgoing else []
  }

  method RunSendActions(ran: seq<Action>, outgoing: seq<OutgoingMessage>, transport: InMemoryTransport)
    modifies transport.network
    ensures transport.network.queues == DeliverAll(old(transport.network.queues), Delivered(ran, outgoing))
  {
    ghost var network := transport.network.queues;
    var done, rest := [], ran;
    while rest != []
      invariant ran == done + rest
      invariant transport.network.queues == DeliverAll(network, Delivered(done, outgoing))
    {
      if rest[0] == SEND_ACTION { transport.SendOutgoingMessages(outgoing); }
      DeliveredOneMore(network, done, rest[0], outgoing);
      done, rest := done + [rest[0]], rest[1..];
    }
    assert done == ran;
  }

  lemma DeliveredOneMore(network: Queues, ran: seq<Action>, a: Action, outgoing: seq<OutgoingMessage>)
    ensures var before := DeliverAll(network, Delivered(ran, outgoing));
            DeliverAll(network, Delivered(ran + [a], outgoing))
            == if a == SEND_ACTION then DeliverAll(before, outgoing) else before
  {
    DeliveredSnoc(ran, a, outgoing);
    if a == SEND_ACTION {
      DeliverAllConcat(network, Delivered(ran, outgoing), outgoing);
    } else {
      assert Delivered(ran, outgoing) + [] == Delivered(ran, outgoing);
    }
  }

  lemma DeliveredSnoc(ran: seq<Action>, a: Action, outgoing: seq<OutgoingMessage>)
    ensures Delivered(ran + [a], outgoing) == Delivered(ran, outgoing) + if a == SEND_ACTION then outgoing else []
  {
  }

  /** Completes a context; its send action, if it starts, delivers the outgoing list. */
  method CompleteAndDeliver(ctx: DefaultTransactionContext, transport: InMemoryTransport) returns (o: Outcome)
    requires ctx.journal == map[]
    modifies ctx`lists, ctx`journal, ctx`completed, transport.network
    ensures (ctx.View(), o) == CompleteSpec(old(ctx.View()))
    ensures transport.network.queues == DeliverAll(old(transport.network.queues),
              Delivered(ctx.View().Ran(Commit), ListUnder(ctx.items, OUTGOING_MESSAGES_KEY)))
  {
    o := ctx.Complete();
    RunSendActions(ctx.View().Ran(Commit), ListUnder(ctx.items, OUTGOING_MESSAGES_KEY), transport);
  }

  /** A scope whose only commit action is the send delivers its list when it completes. */
  lemma CommitDelivers(c: Ctx, messages: seq<OutgoingMessage>)
    requires c.Pending(Commit) == [SEND_ACTION] && c.verdict == Decided(true, true)
    requires c.journal == map[] && c.Pending(Ack) == []
    ensures CompleteSpec(c).1 == Done && Delivered(CompleteSpec(c).0.Ran(Commit), messages) == messages
  {
  }

  /******* Sends are atomic with the context *******/

  /** What a handler does to its context before the retry step gives the verdict. */
  datatype HandlerOp = Send(message: OutgoingMessage) | Other(kind: Kind, action: Action) | Watch(handler: ErrorAction)

  predicate SendsBySending(op: HandlerOp) { op.Other? ==> !op.action.effect.SendOutgoing? }

  function HandleOne(s: Sender, op: HandlerOp): Sender {
    match op
    case Send(m) => SendSpec(s, m)
    case Other(k, a) => s.(ctx := Apply(s.ctx, Add(k, a)))
    case Watch(h) => s.(ctx := Apply(s.ctx, AddError(h)))
  }

  function Handle(s: Sender, ops: seq<HandlerOp>): Sender {
    if ops == [] then s else HandleOne(Handle(s, ops[..|ops| - 1]), ops[|ops| - 1])
  }

  function Sends(ops: seq<HandlerOp>): seq<OutgoingMessage> {
    if ops == [] then [] else
      Sends(ops[..|ops| - 1]) + if ops[|ops| - 1].Send? then [ops[|ops| - 1].message] else []
  }

  /** The commit actions registered before the first send. */
  function CommitsBeforeFirstSend(ops: seq<HandlerOp>): seq<Action> {
    if ops == [] then [] else
      var before, op := ops[..|ops| - 1], ops[|ops| - 1];
      CommitsBeforeFirstSend(before) + if Sends(before) == [] && op.Other? && op.kind == Commit then [op.action] else []
  }

  predicate NoSendAction(actions: seq<Action>) { forall a :: a in actions ==> !a.effect.SendOutgoing? }

  const NEW_SENDER := Sender(EMPTY_CTX, [])

  /** The context after its verdict, its completion and any number of closes. */
  function JudgedAndClosed(c: Ctx, commit: bool, ack: bool, closes: nat): Ctx {
    if closes == 0 then CompleteSpec(Apply(c, Decide(commit, ack))).0
    else CloseSpec(JudgedAndClosed(c, commit, ack, closes - 1)).0
  }

  lemma JudgedThenClosed(c: Ctx, commit: bool, ack: bool, n: nat)
    ensures JudgedAndClosed(c, commit, ack, 0) == CompleteSpec(c.(verdict := Decided(commit, ack))).0
    ensures JudgedAndClosed(c, commit, ack, n + 1) == CloseSpec(JudgedAndClosed(c, commit, ack, n)).0
  {
  }

  /** A context whose pipeline is still running. */
  predicate Open(c: Ctx) { !c.completed && !c.closed && c.journal == map[] && c.verdict.Undecided? }

  lemma HandleOneCommits(s: Sender, op: HandlerOp)
    requires Open(s.ctx)
    ensures var s' := HandleOne(s, op);
            && Open(s'.ctx)
            && s'.outgoing == s.outgoing + (if op.Send? then [op.message] else [])
            && s'.ctx.Pending(Commit) == s.ctx.Pending(Commit) +
                 if op.Send? && s.outgoing == [] then [SEND_ACTION]
                 else if op.Other? && op.kind == Commit then [op.action] else []
  {
  }

  /** However many sends there are, exactly one send action is registered, where the first send was. */
  lemma {:induction false} OneSendAction(ops: seq<HandlerOp>) returns (tail: seq<Action>)
    requires forall op :: op in ops ==> SendsBySending(op)
    ensures var s := Handle(NEW_SENDER, ops);
            && s.outgoing == Sends(ops) && Open(s.ctx)
            && NoSendAction(CommitsBeforeFirstSend(ops)) && NoSendAction(tail)
            && s.ctx.Pending(Commit) == CommitsBeforeFirstSend(ops)
              + (if Sends(ops) == [] then [] else [SEND_ACTION] + tail)
    ensures Sends(ops) == [] ==> tail == []
  {
    tail := [];
    if ops != [] {
      var before, op := ops[..|ops| - 1], ops[|ops| - 1];
      tail := OneSendAction(before);
      assert SendsBySending(op);
      var s := Handle(NEW_SENDER, before);
      HandleOneCommits(s, op);
      if op.Other? && op.kind == Commit && Sends(before) != [] {
        tail := tail + [op.action];
      }
    }
  }

  lemma {:induction false} NothingDelivered(ran: seq<Action>, outgoing: seq<OutgoingMessage>)
    requires NoSendAction(ran)
    ensures Delivered(ran, outgoing) == []
  {
    if ran != [] { NothingDelivered(ran[..|ran| - 1], outgoing); }
  }

  lemma {:induction false} DeliveredConcat(a: seq<Action>, b: seq<Action>, outgoing: seq<OutgoingMessage>)
    ensures Delivered(a + b, outgoing) == Delivered(a, outgoing) + Delivered(b, outgoing)
  {
    if b == [] {
      assert a + b == a;
    } else {
      assert (a + b)[..|a + b| - 1] == a + b[..|b| - 1];
      DeliveredConcat(a, b[..|b| - 1], outgoing);
    }
  }

  lemma {:induction false} JudgedRan(c: Ctx, commit: bool, ack: bool, closes: nat)
    requires !c.completed && !c.closed && c.journal == map[]
    ensures var c' := JudgedAndClosed(c, commit, ack, closes);
            && c'.verdict == Decided(commit, ack)
            && c'.Ran(Commit) == if commit then Attempted(c.Pending(Commit)) else []
  {
    if closes == 0 {
      var decided := Apply(c, Decide(commit, ack));
      CompleteEffect(decided, Commit);
    } else {
      JudgedRan(c, commit, ack, closes - 1);
      var c' := JudgedAndClosed(c, commit, ack, closes - 1);
      if !c'.closed { CloseEffect(c', Commit); }
    }
  }

  /** The list from the send action on delivers once. */
  lemma DeliveredFromSend(tail: seq<Action>, outgoing: seq<OutgoingMessage>)
    requires NoSendAction(tail)
    ensures Delivered(Attempted([SEND_ACTION] + tail), outgoing) == outgoing
  {
    SingletonList(SEND_ACTION);
    StartedConcat([SEND_ACTION], tail);
    NothingDelivered(Attempted(tail), outgoing);
    DeliveredConcat([SEND_ACTION], Attempted(tail), outgoing);
    DeliveredSnoc([], SEND_ACTION, outgoing);
    assert [] + [SEND_ACTION] == [SEND_ACTION] && [] + outgoing == outgoing == outgoing + [];
  }

  lemma DeliveredByList(first: seq<Action>, tail: seq<Action>, outgoing: seq<OutgoingMessage>)
    requires NoSendAction(first) && NoSendAction(tail)
    ensures Delivered(Attempted(first), outgoing) == []
    ensures Delivered(Attempted(first + ([SEND_ACTION] + tail)), outgoing)
            == if Verdicts(first).Done? then outgoing else []
  {
    var rest := [SEND_ACTION] + tail;
    NothingDelivered(Attempted(first), outgoing);
    StartedConcat(first, rest);
    if Verdicts(first).Done? {
      DeliveredFromSend(tail, outgoing);
      DeliveredConcat(first, Attempted(rest), outgoing);
      assert [] + outgoing == outgoing;
    }
  }

  lemma WhatIsDelivered(ops: seq<HandlerOp>, commit: bool, ack: bool, closes: nat)
    requires forall op :: op in ops ==> SendsBySending(op)
    ensures var s := Handle(NEW_SENDER, ops);
            Delivered(JudgedAndClosed(s.ctx, commit, ack, closes).Ran(Commit), s.outgoing)
            == if commit && Verdicts(CommitsBeforeFirstSend(ops)).Done? then Sends(ops) else []
  {
    var s := Handle(NEW_SENDER, ops);
    var first := CommitsBeforeFirstSend(ops);
    var tail := OneSendAction(ops);
    JudgedRan(s.ctx, commit, ack, closes);
    if commit {
      DeliveredByList(first, tail, s.outgoing);
      assert Sends(ops) == [] ==> s.ctx.Pending(Commit) == first;
    }
  }

  /**
   The whole send sequence is delivered, each destination in send order, exactly when the
   verdict commits and every commit action registered before the first send succeeds;
   otherwise nothing is delivered, whatever else fails and however often the context closes.
   */
  lemma SendsAreAtomic(ops: seq<HandlerOp>, commit: bool, ack: bool, closes: nat, network: Queues, a: Address)
    requires forall op :: op in ops ==> SendsBySending(op)
    ensures var s := Handle(NEW_SENDER, ops);
            var ran := JudgedAndClosed(s.ctx, commit, ack, closes).Ran(Commit);
            var after := DeliverAll(network, Delivered(ran, s.outgoing));
            Waiting(after, a) == Waiting(network, a) +
              if commit && Verdicts(CommitsBeforeFirstSend(ops)).Done? then ForAddress(Sends(ops), a) else []
  {
    WhatIsDelivered(ops, commit, ack, closes);
    DeliverAllIsFifo(network, if commit && Verdicts(CommitsBeforeFirstSend(ops)).Done? then Sends(ops) else [], a);
  }
}

/**
 The in-memory saga storage: a dictionary of private copies with optimistic revisions.
 Saga data are objects that clients keep and change, so what a client does to its object
 must never reach the store.
 */
module SagaStorages {
  import opened Messages

  type SagaId = nat

  /** The user's part of a saga: its type and its attributes. */
  datatype Data = Data(kind: string, fields: map<string, string>)

  datatype Record = Record(id: SagaId, revision: int, data: Data)

  type Store = map<SagaId, Record>

  /** Conflict is the concurrency exception; Rejected any other storage exception. */
  datatype StoreOutcome = Stored | Conflict | Rejected

  function InsertSpec(s: Store, r: Record): (Store, StoreOutcome) {
    if r.id in s || r.revision != 0 then (s, Rejected) else (s[r.id := r], Stored)
  }

  function UpdateSpec(s: Store, r: Record): (Store, StoreOutcome) {
    if r.id !in s then (s, Rejected)
    else if s[r.id].revision != r.revision then (s, Conflict)
    else (s[r.id := r.(revision := r.revision + 1)], Stored)
  }

  function DeleteSpec(s: Store, id: SagaId): Store { s - {id} }

  predicate Matches(r: Record, kind: string, name: string, value: string) {
    r.data.kind == kind && name in r.data.fields && r.data.fields[name] == value
  }

  /** When each call succeeds, and with which exception it fails. */
  lemma StorageOutcomes(s: Store, r: Record)
    ensures r.id !in s && r.revision == 0 ==> InsertSpec(s, r) == (s[r.id := r], Stored)
    ensures r.id in s || r.revision != 0 ==> InsertSpec(s, r) == (s, Rejected)
    ensures r.id in s && s[r.id].revision == r.revision ==>
              UpdateSpec(s, r) == (s[r.id := Record(r.id, r.revision + 1, r.data)], Stored)
    ensures r.id in s && s[r.id].revision != r.revision ==> UpdateSpec(s, r) == (s, Conflict)
    ensures r.id !in s ==> UpdateSpec(s, r) == (s, Rejected)
    ensures r.id !in DeleteSpec(s, r.id) && forall id :: id != r.id ==>
              (id in DeleteSpec(s, r.id) <==> id in s) && (id in s ==> DeleteSpec(s, r.id)[id] == s[id])
  {
  }

  class SagaData {
    var id: SagaId
    var revision: int
    var data: Data

    function Value(): Record
      reads this
    {
      Record(id, revision, data)
    }

    constructor (r: Record)
      ensures Value() == r
    {
      id, revision, data := r.id, r.revision, r.data;
    }
  }

  class InMemorySagaStorage {
    var store: map<SagaId, SagaData>

    ghost predicate Valid()
      reads this, store.Values
    {
      forall id :: id in store ==> store[id].id == id
    }

    function View(): Store
      reads this, store.Values
    {
      map id | id in store :: store[id].Value()
    }

    constructor ()
      ensures Valid() && View() == map[]
    {
      store := map[];
    }

    /** A fresh copy of some stored record with this property, or nothing if there is none. */
    method Find(kind: string, name: string, value: string) returns (r: SagaData?)
      requires Valid()
      ensures r == null ==> forall id :: id in View() && View()[id].data.kind == kind && name in View()[id].data.fields
                                         ==> View()[id].data.fields[name] != value
      ensures r != null ==> fresh(r) && r.id in View() && r.Value() == View()[r.id]
      ensures r != null ==> r.data.kind == kind && name in r.data.fields && r.data.fields[name] == value
    {
      var ids := store.Keys;
      while ids != {}
        invariant ids <= store.Keys
        invariant forall id :: id in store.Keys - ids ==> !Matches(View()[id], kind, name, value)
      {
        var id :| id in ids;
        if Matches(store[id].Value(), kind, name, value) {
          r := new SagaData(store[id].Value());
          return;
        }
        ids := ids - {id};
      }
      return null;
    }

    /** The stored object itself; callers only read it. */
    method FindUsingId(id: SagaId) returns (r: SagaData?)
      requires Valid()
      ensures r == if id in store then store[id] else null
      ensures r != null ==> r.Value() == View()[id]
    {
      r := if id in store then store[id] else null;
    }

    method Insert(d: SagaData) returns (o: StoreOutcome)
      requires Valid()
      modifies this
      ensures Valid() && (View(), o) == InsertSpec(old(View()), d.Value())
      ensures fresh(store.Values - old(store.Values))
    {
      if d.id in store || d.revision != 0 { return Rejected; }
      var copy := new SagaData(d.Value());
      store := store[d.id := copy];
      assert View() == old(View())[d.id := d.Value()];
      return Stored;
    }

    method Update(d: SagaData) returns (o: StoreOutcome)
      requires Valid()
      modifies this, d
      ensures Valid() && (View(), o) == UpdateSpec(old(View()), old(d.Value()))
      ensures d.Value() == if o.Stored? then old(d.Value()).(revision := old(d.revision) + 1) else old(d.Value())
      ensures fresh(store.Values - old(store.Values))
      ensures o.Stored? ==> d !in store.Values
    {
      if d.id !in store { return Rejected; }
      if store[d.id].revision != d.revision { return Conflict; }
      var copy := new SagaData(Record(d.id, d.revision + 1, d.data));
      store := store[d.id := copy];
      d.revision := d.revision + 1;
      assert View() == old(View())[d.id := copy.Value()];
      return Stored;
    }

    method Delete(d: SagaData)
      requires Valid()
      modifies this, d
      ensures Valid() && View() == DeleteSpec(old(View()), old(d.id))
      ensures d.Value() == old(d.Value()).(revision := old(d.revision) + 1)
      ensures store.Values <= old(store.Values) && d !in store.Values
    {
      if d.id in store { store := store - {d.id}; }
      d.revision := d.revision + 1;
    }
  }

  /******* Histories of client calls *******/

  datatype ClientOp = OpInsert(record: Record) | OpUpdate(record: Record) | OpDelete(id: SagaId)

  function Perform(s: Store, op: ClientOp): (Store, StoreOutcome) {
    match op
    case OpInsert(r) => InsertSpec(s, r)
    case OpUpdate(r) => UpdateSpec(s, r)
    case OpDelete(id) => (DeleteSpec(s, id), Stored)
  }

  lemma CallsPerform(s: Store, r: Record)
    ensures Perform(s, OpInsert(r)) == InsertSpec(s, r) && Perform(s, OpUpdate(r)) == UpdateSpec(s, r)
    ensures Perform(s, OpDelete(r.id)) == (DeleteSpec(s, r.id), Stored)
  {
  }

  function PerformAll(s: Store, ops: seq<ClientOp>): Store {
    if ops == [] then s else Perform(PerformAll(s, ops[..|ops| - 1]), ops[|ops| - 1]).0
  }

  /** Call number i updated the record of this id. */
  predicate Updated(s: Store, ops: seq<ClientOp>, i: nat, id: SagaId)
    requires i < |ops|
  {
    ops[i].OpUpdate? && ops[i].record.id == id && Perform(PerformAll(s, ops[..i]), ops[i]).1.Stored?
  }

  predicate Inserted(s: Store, ops: seq<ClientOp>, i: nat, id: SagaId)
    requires i < |ops|
  {
    ops[i].OpInsert? && ops[i].record.id == id && Perform(PerformAll(s, ops[..i]), ops[i]).1.Stored?
  }

  /** Successful updates of an id since it was last inserted. */
  function UpdatesSinceInsert(ops: seq<ClientOp>, id: SagaId): nat {
    if ops == [] then 0 else
      var last := |ops| - 1;
      if Inserted(map[], ops, last, id) then 0
      else UpdatesSinceInsert(ops[..last], id) + if Updated(map[], ops, last, id) then 1 else 0
  }

  /** The revision of a live record counts its successful updates: no update is lost or counted twice. */
  lemma {:induction false} RevisionCountsUpdates(ops: seq<ClientOp>, id: SagaId)
    ensures var s := PerformAll(map[], ops);
            id in s ==> s[id].id == id && s[id].revision == UpdatesSinceInsert(ops, id)
  {
    if ops != [] {
      RevisionCountsUpdates(ops[..|ops| - 1], id);
    }
  }

  /** Between two moments without an insert of the id in between, its revision only grows. */
  lemma {:induction false} RevisionGrows(s: Store, ops: seq<ClientOp>, i: nat, id: SagaId)
    requires i <= |ops|
    requires forall k :: i <= k < |ops| ==> !Inserted(s, ops, k, id)
    ensures var s1, s2 := PerformAll(s, ops[..i]), PerformAll(s, ops);
            id in s2 ==> id in s1 && s1[id].revision <= s2[id].revision
  {
    if i == |ops| {
      assert ops[..i] == ops;
    } else {
      var last := |ops| - 1;
      var before := ops[..last];
      forall k | i <= k < |before|
        ensures !Inserted(s, before, k, id)
      {
        assert before[..k] == ops[..k];
        assert !Inserted(s, ops, k, id);
      }
      RevisionGrows(s, before, i, id);
      assert before[..i] == ops[..i];
      assert !Inserted(s, ops, last, id);
    }
  }

  /** From each revision at most one update succeeds, and later ones start from later revisions. */
  lemma UpdatesAreLinear(s: Store, ops: seq<ClientOp>, i: nat, j: nat, id: SagaId)
    requires i < j < |ops| && Updated(s, ops, i, id) && Updated(s, ops, j, id)
    requires forall k :: i < k < j ==> !Inserted(s, ops, k, id)
    ensures ops[i].record.revision < ops[j].record.revision
  {
    var upto := ops[..j];
    forall k | i + 1 <= k < |upto|
      ensures !Inserted(s, upto, k, id)
    {
      assert upto[..k] == ops[..k];
      assert !Inserted(s, ops, k, id);
    }
    RevisionGrows(s, upto, i + 1, id);
    assert upto[..i + 1] == ops[..i + 1] && ops[..i + 1][..i] == ops[..i];
  }

  /******* Clients keep and change their objects *******/

  /** What a client does: `Mutate` writes anything into an object it keeps, `DoFind` keeps the copy it gets. */
  datatype ClientStep =
    | Make(record: Record)
    | Mutate(i: nat, record: Record)
    | DoInsert(i: nat)
    | DoUpdate(i: nat)
    | DoDelete(i: nat)
    | DoFind(kind: string, name: string, value: string)

  /** A step with what it found, if it is a find that found something. */
  datatype Did = Did(step: ClientStep, found: Option<Record>)

  /** The values of the kept objects, and the calls made, with the values they were given. */
  datatype Scene = Scene(kept: seq<Record>, calls: seq<ClientOp>)

  const NO_SCENE := Scene([], [])

  /** A step with a number that is not kept does nothing. */
  function Play(s: Store, sc: Scene, d: Did): Scene {
    match d.step
    case Make(r) => sc.(kept := sc.kept + [r])
    case Mutate(i, r) => if i < |sc.kept| then sc.(kept := sc.kept[i := r]) else sc
    case DoInsert(i) => if i < |sc.kept| then sc.(calls := sc.calls + [OpInsert(sc.kept[i])]) else sc
    case DoUpdate(i) =>
      if i >= |sc.kept| then sc else
        var r := sc.kept[i];
        var stored := UpdateSpec(PerformAll(s, sc.calls), r).1.Stored?;
        Scene(if stored then sc.kept[i := r.(revision := r.revision + 1)] else sc.kept, sc.calls + [OpUpdate(r)])
    case DoDelete(i) =>
      if i >= |sc.kept| then sc else
        var r := sc.kept[i];
        Scene(sc.kept[i := r.(revision := r.revision + 1)], sc.calls + [OpDelete(r.id)])
    case DoFind(_, _, _) => if d.found.Some? then sc.(kept := sc.kept + [d.found.value]) else sc
  }

  /** What each step does to the kept values and to the calls made. */
  lemma ScenesChange(s: Store, sc: Scene, i: nat, r: Record, kind: string, name: string, value: string)
    ensures Play(s, sc, Did(Make(r), None)) == Scene(sc.kept + [r], sc.calls)
    ensures Play(s, sc, Did(DoFind(kind, name, value), Some(r))) == Scene(sc.kept + [r], sc.calls)
    ensures Play(s, sc, Did(DoFind(kind, name, value), None)) == sc
    ensures i < |sc.kept| ==> Play(s, sc, Did(Mutate(i, r), None)) == Scene(sc.kept[i := r], sc.calls)
    ensures i < |sc.kept| ==> Play(s, sc, Did(DoInsert(i), None)) == Scene(sc.kept, sc.calls + [OpInsert(sc.kept[i])])
    ensures i < |sc.kept| ==>
              var own := sc.kept[i];
              var stored := own.id in PerformAll(s, sc.calls)
                && PerformAll(s, sc.calls)[own.id].revision == own.revision;
              var next := Record(own.id, own.revision + 1, own.data);
              && Play(s, sc, Did(DoUpdate(i), None))
                 == Scene(if stored then sc.kept[i := next] else sc.kept, sc.calls + [OpUpdate(own)])
              && Play(s, sc, Did(DoDelete(i), None)) == Scene(sc.kept[i := next], sc.calls + [OpDelete(own.id)])
    ensures i >= |sc.kept| ==> Play(s, sc, Did(Mutate(i, r), None)) == Play(s, sc, Did(DoInsert(i), None))
                               == Play(s, sc, Did(DoUpdate(i), None)) == Play(s, sc, Did(DoDelete(i), None)) == sc
  {
  }

  function PlayAll(s: Store, dids: seq<Did>): Scene {
    if dids == [] then NO_SCENE else Play(s, PlayAll(s, dids[..|dids| - 1]), dids[|dids| - 1])
  }

  /** A find gives a stored record with the property asked for, or nothing if there is none. */
  predicate FoundRightly(s: Store, d: Did) {
    d.step.DoFind? ==>
      match d.found
      case Some(r) =>
        && r.id in s && s[r.id] == r
        && r.data.kind == d.step.kind && d.step.name in r.data.fields && r.data.fields[d.step.name] == d.step.value
      case None => forall id :: id in s ==> !Matches(s[id], d.step.kind, d.step.name, d.step.value)
  }

  /** The client's objects: distinct, outside the store, with these values. */
  ghost predicate Keeps(storage: InMemorySagaStorage, kept: seq<SagaData>, values: seq<Record>)
    reads storage, storage.store.Values, kept
  {
    && storage.Valid() && |kept| == |values|
    && (forall i :: 0 <= i < |kept| ==> kept[i] !in storage.store.Values && kept[i].Value() == values[i])
    && (forall i, j :: 0 <= i < j < |kept| ==> kept[i] != kept[j])
  }

  lemma PlaySnoc(s: Store, dids: seq<Did>, d: Did)
    ensures PlayAll(s, dids + [d]) == Play(s, PlayAll(s, dids), d)
  {
    assert (dids + [d])[..|dids|] == dids;
  }

  lemma PerformSnoc(s: Store, ops: seq<ClientOp>, op: ClientOp)
    ensures PerformAll(s, ops + [op]) == Perform(PerformAll(s, ops), op).0
  {
    assert (ops + [op])[..|ops|] == ops;
  }

  /** All finds of a history found rightly. */
  predicate AllFoundRightly(s: Store, dids: seq<Did>) {
    dids == [] || (
      && AllFoundRightly(s, dids[..|dids| - 1])
      && FoundRightly(PerformAll(s, PlayAll(s, dids[..|dids| - 1]).calls), dids[|dids| - 1]))
  }

  /**
   Spelt out: a find that found something gave a stored record with the value asked for, and one
   that did not missed none.
   */
  lemma FoundMeans(s: Store, kind: string, name: string, value: string, found: Option<Record>, r: Record)
    requires FoundRightly(s, Did(DoFind(kind, name, value), found))
    ensures found == Some(r) ==>
              && r.id in s && s[r.id] == r
              && r.data.kind == kind && name in r.data.fields && r.data.fields[name] == value
    ensures found == None && r.id in s && s[r.id] == r && r.data.kind == kind && name in r.data.fields
            ==> r.data.fields[name] != value
  {
  }

  /** Every find of a history found rightly at its time. */
  lemma {:induction false} EachFoundRightly(s: Store, dids: seq<Did>, n: nat)
    requires AllFoundRightly(s, dids) && n < |dids|
    ensures FoundRightly(PerformAll(s, PlayAll(s, dids[..n]).calls), dids[n])
  {
    if n < |dids| - 1 {
      EachFoundRightly(s, dids[..|dids| - 1], n);
      assert dids[..|dids| - 1][..n] == dids[..n];
    }
  }

  /**
   No kept object is in the store or kept twice; all have the values of the scene, and the store
   what the calls made.
   */
  lemma PlaysMeans(storage: InMemorySagaStorage, kept: seq<SagaData>, s: Store, sc: Scene, i: nat, j: nat)
    requires Plays(storage, kept, s, sc) && i < |kept|
    ensures storage.View() == PerformAll(s, sc.calls) && |kept| == |sc.kept|
    ensures kept[i] !in storage.store.Values && Record(kept[i].id, kept[i].revision, kept[i].data) == sc.kept[i]
    ensures j < |kept| && j != i ==> kept[i] != kept[j]
    ensures forall id :: id in storage.View() ==> storage.View()[id].id == id
  {
  }

  lemma FoundSnoc(s: Store, dids: seq<Did>, d: Did)
    requires AllFoundRightly(s, dids) && FoundRightly(PerformAll(s, PlayAll(s, dids).calls), d)
    ensures AllFoundRightly(s, dids + [d])
  {
    assert (dids + [d])[..|dids|] == dids;
  }

  predicate OnKept(step: ClientStep, n: nat) {
    match step
    case Mutate(i, _) => i < n
    case DoInsert(i) => i < n
    case DoUpdate(i) => i < n
    case DoDelete(i) => i < n
    case _ => false
  }

  /** The objects and the storage are as the scene says. */
  ghost predicate Plays(storage: InMemorySagaStorage, kept: seq<SagaData>, s: Store, sc: Scene)
    reads storage, storage.store.Values, kept
  {
    Keeps(storage, kept, sc.kept) && storage.View() == PerformAll(s, sc.calls)
  }

  method MutateKept(storage: InMemorySagaStorage, kept: seq<SagaData>, i: nat, r: Record, ghost s: Store,
                    ghost sc: Scene)
    requires Plays(storage, kept, s, sc) && i < |kept|
    modifies kept[i]
    ensures Plays(storage, kept, s, Play(s, sc, Did(Mutate(i, r), None)))
  {
    kept[i].id, kept[i].revision, kept[i].data := r.id, r.revision, r.data;
  }

  method InsertKept(storage: InMemorySagaStorage, kept: seq<SagaData>, i: nat, ghost s: Store, ghost sc: Scene)
    requires Plays(storage, kept, s, sc) && i < |kept|
    modifies storage
    ensures Plays(storage, kept, s, Play(s, sc, Did(DoInsert(i), None)))
  {
    PerformSnoc(s, sc.calls, OpInsert(sc.kept[i]));
    var _ := storage.Insert(kept[i]);
  }

  method UpdateKept(storage: InMemorySagaStorage, kept: seq<SagaData>, i: nat, ghost s: Store, ghost sc: Scene)
    requires Plays(storage, kept, s, sc) && i < |kept|
    modifies storage, kept[i]
    ensures Plays(storage, kept, s, Play(s, sc, Did(DoUpdate(i), None)))
  {
    PerformSnoc(s, sc.calls, OpUpdate(sc.kept[i]));
    var _ := storage.Update(kept[i]);
  }

  method DeleteKept(storage: InMemorySagaStorage, kept: seq<SagaData>, i: nat, ghost s: Store, ghost sc: Scene)
    requires Plays(storage, kept, s, sc) && i < |kept|
    modifies storage, kept[i]
    ensures Plays(storage, kept, s, Play(s, sc, Did(DoDelete(i), None)))
  {
    PerformSnoc(s, sc.calls, OpDelete(sc.kept[i].id));
    storage.Delete(kept[i]);
  }

  /** A call with an object that is kept, or a write into it. */
  method RunOnKept(storage: InMemorySagaStorage, kept: seq<SagaData>, step: ClientStep, ghost s: Store, ghost sc: Scene)
    requires Plays(storage, kept, s, sc) && OnKept(step, |kept|)
    modifies storage, kept
    ensures Plays(storage, kept, s, Play(s, sc, Did(step, None)))
  {
    match step {
      case Mutate(i, r) => MutateKept(storage, kept, i, r, s, sc);
      case DoInsert(i) => InsertKept(storage, kept, i, s, sc);
      case DoUpdate(i) => UpdateKept(storage, kept, i, s, sc);
      case DoDelete(i) => DeleteKept(storage, kept, i, s, sc);
    }
  }

  lemma KeepsOneMore(storage: InMemorySagaStorage, kept: seq<SagaData>, values: seq<Record>, d: SagaData)
    requires Keeps(storage, kept, values) && d !in kept && d !in storage.store.Values
    ensures Keeps(storage, kept + [d], values + [d.Value()])
  {
  }

  /** One step over real objects. */
  method RunStep(storage: InMemorySagaStorage, kept: seq<SagaData>, step: ClientStep, ghost s: Store, ghost sc: Scene)
    returns (kept': seq<SagaData>, ghost found: Option<Record>)
    requires Plays(storage, kept, s, sc)
    modifies storage, kept
    ensures Plays(storage, kept', s, Play(s, sc, Did(step, found)))
    ensures FoundRightly(PerformAll(s, sc.calls), Did(step, found))
    ensures kept <= kept' && forall i :: |kept| <= i < |kept'| ==> fresh(kept'[i])
  {
    kept', found := kept, None;
    if OnKept(step, |kept|) {
      RunOnKept(storage, kept, step, s, sc);
    } else if step.Make? {
      var d := new SagaData(step.record);
      KeepsOneMore(storage, kept, sc.kept, d);
      kept' := kept + [d];
    } else if step.DoFind? {
      var copy := storage.Find(step.kind, step.name, step.value);
      if copy != null {
        found := Some(copy.Value());
        KeepsOneMore(storage, kept, sc.kept, copy);
        kept' := kept + [copy];
      }
    }
  }

  lemma HistoryGrows(s: Store, dids: seq<Did>, d: Did)
    requires AllFoundRightly(s, dids) && FoundRightly(PerformAll(s, PlayAll(s, dids).calls), d)
    ensures AllFoundRightly(s, dids + [d]) && PlayAll(s, dids + [d]) == Play(s, PlayAll(s, dids), d)
  {
    PlaySnoc(s, dids, d);
    FoundSnoc(s, dids, d);
  }

  /**
   Whatever clients do with their objects between calls, the store is what their calls made it,
   with the values they were given at the time: no object that a client made, found, inserted
   or updated is ever part of the store.
   */
  method RunScript(storage: InMemorySagaStorage, script: seq<ClientStep>)
    returns (kept: seq<SagaData>, ghost dids: seq<Did>)
    requires storage.Valid()
    modifies storage
    ensures |dids| == |script| && forall n :: 0 <= n < |script| ==> dids[n].step == script[n]
    ensures AllFoundRightly(old(storage.View()), dids)
    ensures Plays(storage, kept, old(storage.View()), PlayAll(old(storage.View()), dids))
  {
    ghost var s, sc := storage.View(), NO_SCENE;
    kept, dids := [], [];
    var n := 0;
    while n < |script|
      invariant 0 <= n == |dids| <= |script| && forall i :: 0 <= i < |kept| ==> fresh(kept[i])
      invariant forall m :: 0 <= m < n ==> dids[m].step == script[m]
      invariant AllFoundRightly(s, dids) && sc == PlayAll(s, dids)
      invariant Plays(storage, kept, s, sc)
    {
      ghost var found;
      kept, found := RunStep(storage, kept, script[n], s, sc);
      ghost var d := Did(script[n], found);
      HistoryGrows(s, dids, d);
      dids, sc := dids + [d], Play(s, sc, d);
      n := n + 1;
    }
  }
}

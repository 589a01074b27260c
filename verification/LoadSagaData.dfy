/**
 The saga step of the incoming pipeline: find or create the data of each saga, let the
 handlers run, then update, insert and delete, retrying updates that lost a race.
 */
module LoadSagaData {
  import opened Messages
  import opened SagaStorages
  import opened SagaSaving

  class Saga {
    var data: SagaData?
    var isCompleted: bool
    var isUnchanged: bool
    const resolve: Resolver
    const kind: string
    const initiates: bool
    const initial: Record
    const lookups: seq<(string, string)>

    constructor (kind: string, lookups: seq<(string, string)>, initiates: bool, initial: Record, resolve: Resolver)
      ensures data == null && !isCompleted && !isUnchanged
      ensures this.kind == kind && this.lookups == lookups && this.initiates == initiates
      ensures this.initial == initial && this.resolve == resolve
    {
      data, isCompleted, isUnchanged := null, false, false;
      this.kind, this.lookups, this.initiates := kind, lookups, initiates;
      this.initial, this.resolve := initial, resolve;
    }
  }

  datatype Wrapper = Wrapper(data: SagaData, saga: Saga)

  class LoadSagaDataStep {
    const storage: InMemorySagaStorage

    constructor (storage: InMemorySagaStorage)
      ensures this.storage == storage
    {
      this.storage := storage;
    }

    /** Other clients' calls, as they reach the shared storage. */
    method Interfere(ops: seq<ClientOp>)
      requires storage.Valid()
      modifies storage
      ensures storage.Valid() && storage.View() == PerformAll(old(storage.View()), ops)
      ensures fresh(storage.store.Values - old(storage.store.Values))
    {
      var i := 0;
      while i < |ops|
        invariant 0 <= i <= |ops|
        invariant storage.Valid() && storage.View() == PerformAll(old(storage.View()), ops[..i])
        invariant fresh(storage.store.Values - old(storage.store.Values))
      {
        assert ops[..i + 1][..i] == ops[..i];
        match ops[i] {
          case OpInsert(r) =>
            var d := new SagaData(r);
            var _ := storage.Insert(d);
          case OpUpdate(r) =>
            var d := new SagaData(r);
            var _ := storage.Update(d);
          case OpDelete(id) =>
            var d := new SagaData(Record(id, 0, Data("", map[])));
            storage.Delete(d);
        }
        i := i + 1;
      }
      assert ops[..i] == ops;
    }

    method ResolveConflict(d: SagaData, resolve: Resolver) returns (o: Option<SaveOutcome>)
      requires storage.Valid() && d !in storage.store.Values
      modifies d
      ensures d.id == old(d.id)
      ensures storage.Valid()
      ensures Tried(storage.View(), d.Value(), o) == Resolve(old(storage.View()), old(d.Value()), resolve)
    {
      var freshData := storage.FindUsingId(d.id);
      if freshData == null { return Some(Raised); }
      var resolved := resolve(d.data, freshData.data);
      if resolved.None? { return Some(Raised); }
      d.data := resolved.value;
      d.revision := freshData.revision;
      return None;
    }

    method TryToUpdate(d: SagaData, resolve: Resolver, now: Interference) returns (o: Option<SaveOutcome>)
      requires storage.Valid() && d !in storage.store.Values
      modifies storage, d
      ensures d.id == old(d.id)
      ensures storage.Valid() && d !in storage.store.Values
      ensures fresh(storage.store.Values - old(storage.store.Values))
      ensures Tried(storage.View(), d.Value(), o) == Attempt(old(storage.View()), old(d.Value()), resolve, now)
    {
      Interfere(now.before);
      var stored := storage.Update(d);
      if stored.Stored? { return Some(Landed); }
      if stored.Rejected? { return Some(Raised); }
      Interfere(now.between);
      o := ResolveConflict(d, resolve);
    }

    method SaveSagaData(d: SagaData, resolve: Resolver, insert: bool, interference: seq<Interference>)
      returns (o: SaveOutcome)
      requires storage.Valid() && d !in storage.store.Values
      modifies storage, d
      ensures d.id == old(d.id)
      ensures storage.Valid() && d !in storage.store.Values
      ensures fresh(storage.store.Values - old(storage.store.Values))
      ensures Saved(storage.View(), d.Value(), o)
              == SaveSpec(old(storage.View()), old(d.Value()), insert, resolve, interference)
    {
      var attempts, env := 0, interference;
      while attempts < MAX_ATTEMPTS
        invariant 0 <= attempts <= MAX_ATTEMPTS
        invariant storage.Valid() && d !in storage.store.Values && d.id == old(d.id)
        invariant fresh(storage.store.Values - old(storage.store.Values))
        invariant insert ==> attempts == 0 && storage.View() == old(storage.View()) && d.Value() == old(d.Value())
        invariant env == interference || !insert
        invariant !insert ==> UpdateLoop(old(storage.View()), old(d.Value()), resolve, interference, MAX_ATTEMPTS)
                              == UpdateLoop(storage.View(), d.Value(), resolve, env, MAX_ATTEMPTS - attempts)
      {
        attempts := attempts + 1;
        if insert {
          Interfere(Now(env).before);
          var stored := storage.Insert(d);
          return if stored.Stored? then Landed else Raised;
        }
        var tried := TryToUpdate(d, resolve, Now(env));
        if tried.Some? { return tried.value; }
        env := Later(env);
      }
      return GaveUp;
    }

    method SaveOne(w: Wrapper, insert: bool) returns (ok: bool)
      requires storage.Valid() && w.data !in storage.store.Values
      modifies storage, w.data
      ensures storage.Valid() && w.data !in storage.store.Values && w.data.id == old(w.data.id)
      ensures fresh(storage.store.Values - old(storage.store.Values))
      ensures Progress(storage.View(), ok) == SaveOneSpec(old(storage.View()), old(WorkOf(w)), insert)
    {
      ok := true;
      if !w.saga.isCompleted && (insert || !w.saga.isUnchanged) {
        var o := SaveSagaData(w.data, w.saga.resolve, insert, []);
        ok := !o.Raised?;
      }
    }

    method SaveNext(ws: seq<Wrapper>, ghost works: seq<Work>, i: nat, insert: bool) returns (ok: bool)
      requires Separate(ws, storage) && Reflects(ws, works, i) && i < |ws|
      modifies storage, ws[i].data
      ensures Separate(ws, storage) && Reflects(ws, works, i + 1)
      ensures fresh(storage.store.Values - old(storage.store.Values))
      ensures Progress(storage.View(), ok) == SaveOneSpec(old(storage.View()), works[i], insert)
    {
      ok := SaveOne(ws[i], insert);
    }

    method SaveEach(ws: seq<Wrapper>, ghost works: seq<Work>, insert: bool) returns (ok: bool)
      requires Separate(ws, storage) && Reflects(ws, works, 0)
      modifies storage, Datas(ws)
      ensures ok ==> Separate(ws, storage) && Reflects(ws, works, |ws|)
      ensures storage.Valid() && fresh(storage.store.Values - old(storage.store.Values))
      ensures Progress(storage.View(), ok) == SaveInOrder(old(storage.View()), works, insert)
    {
      var i := 0;
      ok := true;
      while i < |ws| && ok
        invariant 0 <= i <= |ws|
        invariant Separate(ws, storage) && Reflects(ws, works, i)
        invariant fresh(storage.store.Values - old(storage.store.Values))
        invariant Progress(storage.View(), ok) == SaveInOrder(old(storage.View()), works[..i], insert)
      {
        assert works[..i + 1][..i] == works[..i] && ws[i] in ws;
        ok := SaveNext(ws, works, i, insert);
        i := i + 1;
      }
      if ok { assert works[..i] == works; } else { StopsSaving(old(storage.View()), works, i, insert); }
    }

    method DeleteEach(ws: seq<Wrapper>, ghost works: seq<Work>)
      requires Separate(ws, storage) && Reflects(ws, works, |ws|)
      modifies storage, Datas(ws)
      ensures storage.Valid() && storage.View() == DeleteCompleted(old(storage.View()), works)
    {
      var i := 0;
      while i < |ws|
        invariant 0 <= i <= |ws|
        invariant storage.Valid() && storage.store.Values <= old(storage.store.Values)
        invariant storage.View() == DeleteCompleted(old(storage.View()), works[..i])
        invariant Reflects(ws, works, |ws|)
      {
        assert works[..i + 1][..i] == works[..i] && ws[i] in ws;
        if ws[i].saga.isCompleted { storage.Delete(ws[i].data); }
        i := i + 1;
      }
      assert works[..i] == works;
    }

    /** The rest of the step once the handlers have run. */
    method SaveAll(loaded: seq<Wrapper>, created: seq<Wrapper>, ghost works: seq<Work>, ghost news: seq<Work>)
      returns (ok: bool)
      requires Separate(loaded + created, storage) && Reflects(loaded, works, 0) && Reflects(created, news, 0)
      modifies storage, Datas(loaded), Datas(created)
      ensures storage.Valid()
      ensures Progress(storage.View(), ok) == SaveAllSpec(old(storage.View()), works, news)
    {
      SeparateParts(loaded, created, storage);
      ok := SaveEach(loaded, works, false);
      if !ok { return; }
      ok := SaveEach(created, news, true);
      if !ok { return; }
      DeleteEach(loaded, works);
    }

    method TryToFindExistingSaga(saga: Saga) returns (d: SagaData?)
      requires storage.Valid()
      ensures d == null ==> !Found(storage.View(), saga)
      ensures d != null ==> fresh(d) && Picks(storage.View(), saga, d.Value())
    {
      var i := 0;
      while i < |saga.lookups|
        invariant 0 <= i <= |saga.lookups|
        invariant forall j :: 0 <= j < i ==> !Hit(storage.View(), saga.kind, saga.lookups[j])
      {
        d := storage.Find(saga.kind, saga.lookups[i].0, saga.lookups[i].1);
        if d != null {
          assert Points(storage.View(), d.Value(), saga.kind, saga.lookups[i]);
          return;
        }
        i := i + 1;
      }
      return null;
    }

    /** Existing data is loaded, else an initiating message creates data, else the saga gets none. */
    method LoadOne(saga: Saga) returns (d: SagaData?, existing: bool)
      requires storage.Valid()
      modifies saga`data
      ensures existing == Found(storage.View(), saga)
      ensures d == null <==> !existing && !saga.initiates
      ensures d != null ==> fresh(d) && saga.data == d
      ensures existing ==> Picks(storage.View(), saga, d.Value())
      ensures d != null && !existing ==> d.Value() == saga.initial
    {
      d := TryToFindExistingSaga(saga);
      existing := d != null;
      if existing { PickedIsFound(storage.View(), saga, d.Value()); }
      if !existing && saga.initiates { d := new SagaData(saga.initial); }
      if d != null { saga.data := d; }
    }

    method LoadNext(saga: Saga, loaded: seq<Wrapper>, created: seq<Wrapper>)
      returns (placed: bool, had: seq<Wrapper>, began: seq<Wrapper>)
      requires Separate(loaded + created, storage)
      modifies saga`data
      ensures placed == (Found(storage.View(), saga) || saga.initiates)
      ensures storage.View() == old(storage.View()) && Separate(had + began, storage)
      ensures fresh(Datas(had) - Datas(loaded)) && fresh(Datas(began) - Datas(created))
      ensures Sagas(had) == Sagas(loaded) + if Found(storage.View(), saga) then [saga] else []
      ensures Sagas(began) == Sagas(created) + if !Found(storage.View(), saga) && saga.initiates then [saga] else []
      ensures forall w :: w in had ==> w in loaded || Picks(storage.View(), w.saga, w.data.Value())
      ensures forall w :: w in began ==> w in created || w.data.Value() == w.saga.initial
    {
      had, began := loaded, created;
      var d, existing := LoadOne(saga);
      placed := d != null;
      if d != null {
        SeparateMore(loaded, created, Wrapper(d, saga), storage);
        if existing { had := had + [Wrapper(d, saga)]; } else { began := began + [Wrapper(d, saga)]; }
      }
    }

    /**
     Partitions the sagas in order: existing data loaded, new data created, or neither. For the
     last the correlation error handler is called; `tolerates` says whether it returns.
     */
    method Load(sagas: seq<Saga>, tolerates: Saga -> bool)
      returns (ok: bool, loaded: seq<Wrapper>, created: seq<Wrapper>)
      requires storage.Valid()
      modifies (set s | s in sagas)`data
      ensures storage.View() == old(storage.View()) && Separate(loaded + created, storage)
      ensures fresh(Datas(loaded)) && fresh(Datas(created))
      ensures ok == forall g :: g in sagas ==> Found(storage.View(), g) || g.initiates || tolerates(g)
      ensures ok ==> Sagas(loaded) == ExistingOf(storage.View(), sagas)
                     && Sagas(created) == StartedOf(storage.View(), sagas)
      ensures forall w :: w in loaded ==> Picks(storage.View(), w.saga, w.data.Value())
      ensures forall w :: w in created ==> w.data.Value() == w.saga.initial
    {
      loaded, created := [], [];
      var i := 0;
      while i < |sagas|
        invariant 0 <= i <= |sagas|
        invariant Separate(loaded + created, storage) && fresh(Datas(loaded)) && fresh(Datas(created))
        invariant storage.View() == old(storage.View()) && Correlates(storage.View(), sagas[..i], tolerates)
        invariant Sagas(loaded) == ExistingOf(storage.View(), sagas[..i])
        invariant Sagas(created) == StartedOf(storage.View(), sagas[..i])
        invariant forall w :: w in loaded ==> Picks(storage.View(), w.saga, w.data.Value())
        invariant forall w :: w in created ==> w.data.Value() == w.saga.initial
      {
        assert sagas[i] in sagas && sagas[..i + 1][..i] == sagas[..i];
        var placed;
        placed, loaded, created := LoadNext(sagas[i], loaded, created);
        if !placed && !tolerates(sagas[i]) { return false, loaded, created; }
        i := i + 1;
      }
      assert sagas[..i] == sagas;
      ok := true;
    }

    method RunHandler(w: Wrapper, d: Data, mark: Saga -> Mark)
      requires storage.Valid() && w.data !in storage.store.Values
      modifies w.data`data, w.saga`isCompleted, w.saga`isUnchanged
      ensures storage.View() == old(storage.View())
      ensures WorkOf(w) == Handled(old(w.data.Value()), w.saga, d, mark)
    {
      w.data.data := d;
      w.saga.isCompleted, w.saga.isUnchanged := mark(w.saga).completed, mark(w.saga).untouched;
    }

    /** The handlers change the sagas' data in place and mark sagas as completed or unchanged. */
    method RunHandlers(ws: seq<Wrapper>, ghost was: seq<Record>, edit: nat -> Data, mark: Saga -> Mark)
      requires Separate(ws, storage) && |was| == |ws|
      requires forall i :: 0 <= i < |ws| ==> ws[i].data.Value() == was[i]
      modifies Datas(ws)`data
      modifies (set w | w in ws :: w.saga)`isCompleted, (set w | w in ws :: w.saga)`isUnchanged
      ensures storage.View() == old(storage.View()) && Separate(ws, storage)
      ensures Reflects(ws, HandledAll(was, ws, edit, mark), 0)
    {
      var i := 0;
      while i < |ws|
        invariant 0 <= i <= |ws|
        invariant storage.View() == old(storage.View())
        invariant forall j :: i <= j < |ws| ==> ws[j].data.Value() == was[j]
        invariant forall j :: 0 <= j < i ==> WorkOf(ws[j]) == Handled(was[j], ws[j].saga, edit(j), mark)
      {
        assert ws[i] in ws;
        RunHandler(ws[i], edit(i), mark);
        i := i + 1;
      }
    }

    /** The step up to the end of the handlers. */
    method LoadAndHandle(sagas: seq<Saga>, tolerates: Saga -> bool, edit: nat -> Data, mark: Saga -> Mark)
      returns (ok: bool, had: seq<Wrapper>, began: seq<Wrapper>, ghost works: seq<Work>)
      requires storage.Valid()
      modifies set s | s in sagas
      ensures storage.View() == old(storage.View()) && Separate(had + began, storage)
      ensures fresh(Datas(had)) && fresh(Datas(began)) && ok == Correlates(storage.View(), sagas, tolerates)
      ensures ok ==> |works| == |had| + |began| && Reflects(had + began, works, 0)
      ensures ok ==> LoadedWorks(works[..|had|], ExistingOf(storage.View(), sagas), storage.View(), edit, mark)
      ensures ok ==> CreatedWorks(works[|had|..], StartedOf(storage.View(), sagas), |had|, edit, mark)
    {
      works := [];
      ok, had, began := Load(sagas, tolerates);
      if !ok { return; }
      WrappedSagas(had, began, sagas, storage.View());
      ghost var all := had + began;
      assert Datas(all) == Datas(had) + Datas(began);
      ghost var was := seq(|all|, i requires 0 <= i < |all| reads if 0 <= i < |all| then {all[i].data} else {} =>
                           all[i].data.Value());
      works := HandledAll(was, all, edit, mark);
      HandledParts(was, had, began, storage.View(), edit, mark);
      RunHandlers(had + began, was, edit, mark);
    }

    /**
     The whole step. When the correlation error handler or the next step raises, nothing is
     written; otherwise the store changes as the save, insert and delete phases say, from what
     was loaded and handled. With fresh ids and resolvers that do not raise it succeeds, and
     leaves the final store that revisions, completions and creations call for.
     */
    method Call(sagas: seq<Saga>, tolerates: Saga -> bool, edit: nat -> Data, mark: Saga -> Mark, nextOk: bool)
      returns (ok: bool, ghost loaded: seq<Work>, ghost created: seq<Work>)
      requires storage.Valid()
      modifies storage, set s | s in sagas
      ensures storage.Valid()
      ensures !nextOk || !Correlates(old(storage.View()), sagas, tolerates)
              ==> !ok && storage.View() == old(storage.View())
      ensures nextOk && Correlates(old(storage.View()), sagas, tolerates) ==>
                && Progress(storage.View(), ok) == SaveAllSpec(old(storage.View()), loaded, created)
                && LoadedWorks(loaded, ExistingOf(old(storage.View()), sagas), old(storage.View()), edit, mark)
                && CreatedWorks(created, StartedOf(old(storage.View()), sagas), |loaded|, edit, mark)
                && (Resolving(sagas) && FreshIds(created, old(storage.View())) ==>
                      ok && FinalStore(old(storage.View()), storage.View(), loaded, created))
    {
      loaded, created := [], [];
      var had, began;
      ghost var works;
      ok, had, began, works := LoadAndHandle(sagas, tolerates, edit, mark);
      if !ok || !nextOk { return false, loaded, created; }
      loaded, created := works[..|had|], works[|had|..];
      ReflectsParts(had, began, works);
      ok := SaveAll(had, began, loaded, created);
      if Resolving(sagas) { StepOverStore(old(storage.View()), sagas, loaded, created, edit, mark); }
    }
  }

  /** Every saga finds its data, starts with this message, or is let pass by the correlation error handler. */
  predicate Correlates(s: Store, sagas: seq<Saga>, tolerates: Saga -> bool) {
    forall g :: g in sagas ==> Found(s, g) || g.initiates || tolerates(g)
  }

  /** No saga's `resolve_conflict` raises. */
  ghost predicate Resolving(sagas: seq<Saga>) { forall g :: g in sagas ==> NeverRaises(g.resolve) }

  ghost predicate NeverRaises(resolve: Resolver) { forall own, other :: resolve(own, other).Some? }

  /** What the step loads starts from the store at its current revisions. */
  lemma LoadedWorksAreLoadedFrom(ws: seq<Work>, sagas: seq<Saga>, s: Store, edit: nat -> Data, mark: Saga -> Mark)
    requires LoadedWorks(ws, sagas, s, edit, mark) && Resolving(sagas)
    ensures forall w :: w in ws ==> LoadedFrom(w, s)
  {
    forall w | w in ws
      ensures LoadedFrom(w, s)
    {
      var i :| 0 <= i < |ws| && ws[i] == w;
      assert HandledFrom(ws[i], sagas[i], s, edit(i), mark) && NeverRaises(sagas[i].resolve);
      var r :| Picks(s, sagas[i], r) && w == Handled(r, sagas[i], edit(i), mark);
      PickedIsFound(s, sagas[i], r);
    }
  }

  lemma StepOverStore(s: Store, sagas: seq<Saga>, loaded: seq<Work>, created: seq<Work>, edit: nat -> Data,
                      mark: Saga -> Mark)
    requires LoadedWorks(loaded, ExistingOf(s, sagas), s, edit, mark) && Resolving(sagas)
    ensures FreshIds(created, s) ==>
              var done := SaveAllSpec(s, loaded, created); done.ok && FinalStore(s, done.store, loaded, created)
  {
    PartsAreSagas(s, sagas);
    LoadedWorksAreLoadedFrom(loaded, ExistingOf(s, sagas), s, edit, mark);
    if FreshIds(created, s) { SagaStepFinalStore(s, loaded, created); }
  }

  datatype Mark = Mark(completed: bool, untouched: bool)

  /** What the handlers make of a record. */
  function Handled(r: Record, saga: Saga, d: Data, mark: Saga -> Mark): Work {
    Work(r.(data := d), mark(saga).completed, mark(saga).untouched, saga.resolve)
  }

  function HandledAll(was: seq<Record>, ws: seq<Wrapper>, edit: nat -> Data, mark: Saga -> Mark): seq<Work>
    requires |was| == |ws|
  {
    seq(|ws|, i requires 0 <= i < |ws| => Handled(was[i], ws[i].saga, edit(i), mark))
  }

  /** Handlers change a saga's data and its marks, not its id or revision. */
  lemma HandledIs(r: Record, saga: Saga, d: Data, mark: Saga -> Mark)
    ensures var w := Handled(r, saga, d, mark);
            && w.record == Record(r.id, r.revision, d) && w.resolve == saga.resolve
            && w.completed == mark(saga).completed && w.untouched == mark(saga).untouched
  {
  }

  /** Loaded and created work is what the handlers made of each saga's record, one by one. */
  lemma WorksAreHandled(ws: seq<Work>, sagas: seq<Saga>, s: Store, n: nat, edit: nat -> Data, mark: Saga -> Mark,
                        i: nat)
    requires i < |sagas|
    ensures LoadedWorks(ws, sagas, s, edit, mark) ==>
              && |ws| == |sagas| && ws[i].record.id in s && ws[i].record.revision == s[ws[i].record.id].revision
              && Picks(s, sagas[i], s[ws[i].record.id]) && ws[i].record.data == edit(i)
              && ws[i].completed == mark(sagas[i]).completed
    ensures CreatedWorks(ws, sagas, n, edit, mark) ==>
              && |ws| == |sagas| && ws[i].completed == mark(sagas[i]).completed
              && ws[i].record == Record(sagas[i].initial.id, sagas[i].initial.revision, edit(n + i))
  {
    if LoadedWorks(ws, sagas, s, edit, mark) { assert HandledFrom(ws[i], sagas[i], s, edit(i), mark); }
  }

  lemma HandledParts(was: seq<Record>, had: seq<Wrapper>, began: seq<Wrapper>,
                     s: Store, edit: nat -> Data, mark: Saga -> Mark)
    requires |was| == |had| + |began|
    requires forall i :: 0 <= i < |had| ==> Picks(s, had[i].saga, was[i])
    requires forall i :: 0 <= i < |began| ==> was[|had| + i] == began[i].saga.initial
    ensures var works := HandledAll(was, had + began, edit, mark);
            && LoadedWorks(works[..|had|], Sagas(had), s, edit, mark)
            && CreatedWorks(works[|had|..], Sagas(began), |had|, edit, mark)
  {
    var works := HandledAll(was, had + began, edit, mark);
    forall i | 0 <= i < |had|
      ensures HandledFrom(works[..|had|][i], Sagas(had)[i], s, edit(i), mark)
    {
      assert Picks(s, Sagas(had)[i], was[i]);
    }
    forall i | 0 <= i < |began|
      ensures works[|had|..][i] == Handled(Sagas(began)[i].initial, Sagas(began)[i], edit(|had| + i), mark)
    {
      assert (had + began)[|had| + i] == began[i];
    }
  }

  ghost predicate HandledFrom(w: Work, saga: Saga, s: Store, d: Data, mark: Saga -> Mark) {
    exists r :: Picks(s, saga, r) && w == Handled(r, saga, d, mark)
  }

  /** Each loaded work started from the record its saga picks from the store. */
  ghost predicate LoadedWorks(ws: seq<Work>, sagas: seq<Saga>, s: Store, edit: nat -> Data, mark: Saga -> Mark) {
    && |ws| == |sagas|
    && forall i :: 0 <= i < |ws| ==> HandledFrom(ws[i], sagas[i], s, edit(i), mark)
  }

  ghost predicate CreatedWorks(ws: seq<Work>, sagas: seq<Saga>, n: nat, edit: nat -> Data, mark: Saga -> Mark) {
    && |ws| == |sagas|
    && forall i :: 0 <= i < |ws| ==> ws[i] == Handled(sagas[i].initial, sagas[i], edit(n + i), mark)
  }

  /** This stored record has the property that the lookup asks for. */
  predicate Points(s: Store, r: Record, kind: string, lookup: (string, string)) {
    r.id in s && s[r.id] == r && Matches(r, kind, lookup.0, lookup.1)
  }

  predicate Hit(s: Store, kind: string, lookup: (string, string)) {
    exists id :: id in s && Matches(s[id], kind, lookup.0, lookup.1)
  }

  /** Some correlation property of the message points at a stored record of the saga's type. */
  predicate Found(s: Store, saga: Saga) {
    exists i :: 0 <= i < |saga.lookups| && Hit(s, saga.kind, saga.lookups[i])
  }

  /** The record comes from the first correlation property that points at any. */
  predicate Picks(s: Store, saga: Saga, r: Record) {
    exists i :: && 0 <= i < |saga.lookups| && Points(s, r, saga.kind, saga.lookups[i])
                && forall j :: 0 <= j < i ==> !Hit(s, saga.kind, saga.lookups[j])
  }

  lemma PickedIsFound(s: Store, saga: Saga, r: Record)
    requires Picks(s, saga, r)
    ensures Found(s, saga) && r.id in s && s[r.id] == r
  {
  }

  /** A message whose correlation values no stored saga of the type has loads nothing. */
  lemma NothingToLoad(s: Store, saga: Saga)
    requires forall id, i :: id in s && s[id].data.kind == saga.kind && 0 <= i < |saga.lookups| ==>
               saga.lookups[i].0 !in s[id].data.fields || s[id].data.fields[saga.lookups[i].0] != saga.lookups[i].1
    ensures !Found(s, saga) && forall r :: !Picks(s, saga, r)
  {
  }

  /**
   One that has a value which exactly one stored saga of the type has loads that saga, if no earlier
   property finds any.
   */
  lemma TheOneSagaIsLoaded(s: Store, saga: Saga, i: nat, r: Record)
    requires i < |saga.lookups| && r.id in s && s[r.id] == r && r.data.kind == saga.kind
    requires saga.lookups[i].0 in r.data.fields && r.data.fields[saga.lookups[i].0] == saga.lookups[i].1
    requires forall id :: id in s && id != r.id && s[id].data.kind == saga.kind ==>
               saga.lookups[i].0 !in s[id].data.fields || s[id].data.fields[saga.lookups[i].0] != saga.lookups[i].1
    requires forall id, j :: id in s && s[id].data.kind == saga.kind && 0 <= j < i ==>
               saga.lookups[j].0 !in s[id].data.fields || s[id].data.fields[saga.lookups[j].0] != saga.lookups[j].1
    ensures Found(s, saga) && Picks(s, saga, r) && forall o :: Picks(s, saga, o) ==> o == r
  {
    assert Hit(s, saga.kind, saga.lookups[i]) && Points(s, r, saga.kind, saga.lookups[i]);
    assert forall j :: 0 <= j < i ==> !Hit(s, saga.kind, saga.lookups[j]);
    forall o | Picks(s, saga, o)
      ensures o == r
    {
      var k :| 0 <= k < |saga.lookups| && Points(s, o, saga.kind, saga.lookups[k])
               && forall j :: 0 <= j < k ==> !Hit(s, saga.kind, saga.lookups[j]);
      assert Hit(s, saga.kind, saga.lookups[k]) && k == i;
    }
  }

  function ExistingOf(s: Store, sagas: seq<Saga>): seq<Saga> {
    if sagas == [] then [] else
      var before, g := ExistingOf(s, sagas[..|sagas| - 1]), sagas[|sagas| - 1];
      if Found(s, g) then before + [g] else before
  }

  function StartedOf(s: Store, sagas: seq<Saga>): seq<Saga> {
    if sagas == [] then [] else
      var before, g := StartedOf(s, sagas[..|sagas| - 1]), sagas[|sagas| - 1];
      if !Found(s, g) && g.initiates then before + [g] else before
  }

  /**
   Sagas that find data are the existing ones, the other ones that may start with the message start;
   both in order.
   */
  lemma SplitSnoc(s: Store, sagas: seq<Saga>, g: Saga)
    ensures ExistingOf(s, []) == StartedOf(s, []) == []
    ensures ExistingOf(s, sagas + [g]) == ExistingOf(s, sagas) + if Found(s, g) then [g] else []
    ensures StartedOf(s, sagas + [g]) == StartedOf(s, sagas) + if !Found(s, g) && g.initiates then [g] else []
  {
    assert (sagas + [g])[..|sagas|] == sagas;
  }

  function Sagas(ws: seq<Wrapper>): seq<Saga> { seq(|ws|, i requires 0 <= i < |ws| => ws[i].saga) }

  lemma {:induction false} PartsAreSagas(s: Store, sagas: seq<Saga>)
    ensures forall g :: g in ExistingOf(s, sagas) ==> g in sagas
    ensures forall g :: g in StartedOf(s, sagas) ==> g in sagas
  {
    if sagas != [] {
      PartsAreSagas(s, sagas[..|sagas| - 1]);
    }
  }

  lemma WrappedSagas(had: seq<Wrapper>, began: seq<Wrapper>, sagas: seq<Saga>, s: Store)
    requires Sagas(had) == ExistingOf(s, sagas) && Sagas(began) == StartedOf(s, sagas)
    ensures forall w :: w in had + began ==> w.saga in sagas
  {
    PartsAreSagas(s, sagas);
    forall w | w in had + began
      ensures w.saga in sagas
    {
      var i :| 0 <= i < |had + began| && (had + began)[i] == w;
      assert if i < |had| then Sagas(had)[i] == w.saga else Sagas(began)[i - |had|] == w.saga;
    }
  }

  lemma SeparateSnoc(all: seq<Wrapper>, w: Wrapper, storage: InMemorySagaStorage)
    requires Separate(all, storage)
    requires w.data !in Datas(all) && w.data !in storage.store.Values
    ensures Separate(all + [w], storage)
  {
  }

  lemma SeparateMore(loaded: seq<Wrapper>, created: seq<Wrapper>, w: Wrapper, storage: InMemorySagaStorage)
    requires Separate(loaded + created, storage)
    requires w.data !in Datas(loaded) + Datas(created) && w.data !in storage.store.Values
    ensures Separate(loaded + [w] + created, storage) && Separate(loaded + (created + [w]), storage)
    ensures Datas(loaded + [w]) == Datas(loaded) + {w.data} && Datas(created + [w]) == Datas(created) + {w.data}
    ensures Sagas(loaded + [w]) == Sagas(loaded) + [w.saga] && Sagas(created + [w]) == Sagas(created) + [w.saga]
  {
    var all := loaded + created;
    assert Datas(all) == Datas(loaded) + Datas(created);
    SeparateSnoc(all, w, storage);
    assert loaded + (created + [w]) == all + [w];
    var x := loaded + [w] + created;
    assert forall i :: 0 <= i < |x| ==>
        x[i] == (all + [w])[if i < |loaded| then i else if i == |loaded| then |all| else i - 1];
  }

  lemma SeparateParts(loaded: seq<Wrapper>, created: seq<Wrapper>, storage: InMemorySagaStorage)
    requires Separate(loaded + created, storage)
    ensures Separate(loaded, storage) && Separate(created, storage)
    ensures Datas(loaded) !! Datas(created)
  {
    var all := loaded + created;
    assert forall i :: 0 <= i < |loaded| ==> all[i] == loaded[i];
    assert forall i :: 0 <= i < |created| ==> all[|loaded| + i] == created[i];
  }

  /** The wrapped objects are pairwise distinct and the storage holds none of them. */
  ghost predicate Separate(ws: seq<Wrapper>, storage: InMemorySagaStorage)
    reads storage, storage.store.Values
  {
    && storage.Valid()
    && (forall w :: w in ws ==> w.data !in storage.store.Values)
    && (forall i, j :: 0 <= i < j < |ws| ==> ws[i].data != ws[j].data)
  }

  lemma SeparateMeans(ws: seq<Wrapper>, storage: InMemorySagaStorage, i: nat, j: nat)
    requires Separate(ws, storage) && i < |ws|
    ensures storage.Valid() && ws[i].data !in storage.store.Values
    ensures j < |ws| && j != i ==> ws[i].data != ws[j].data
  {
    assert ws[i] in ws;
  }

  function Datas(ws: seq<Wrapper>): set<SagaData> { set w | w in ws :: w.data }

  function WorkOf(w: Wrapper): Work
    reads w.data, w.saga
  {
    Work(w.data.Value(), w.saga.isCompleted, w.saga.isUnchanged, w.saga.resolve)
  }

  /** The works describe the wrapped sagas; of the first n, already saved, only id and marks. */
  ghost predicate Reflects(ws: seq<Wrapper>, works: seq<Work>, n: nat)
    reads set w | w in ws :: w.data, set w | w in ws :: w.saga
  {
    && |works| == |ws|
    && (forall i :: 0 <= i < |ws| ==>
          ws[i].data.id == works[i].record.id && ws[i].saga.isCompleted == works[i].completed)
    && (forall i :: n <= i < |ws| ==> WorkOf(ws[i]) == works[i])
  }

  lemma ReflectsMeans(ws: seq<Wrapper>, works: seq<Work>, n: nat, i: nat)
    requires Reflects(ws, works, n) && i < |ws|
    ensures |ws| == |works| && ws[i].data.id == works[i].record.id && ws[i].saga.isCompleted == works[i].completed
    ensures i >= n ==> works[i] == Work(ws[i].data.Value(), ws[i].saga.isCompleted, ws[i].saga.isUnchanged,
                                        ws[i].saga.resolve)
  {
  }

  lemma ReflectsParts(had: seq<Wrapper>, began: seq<Wrapper>, works: seq<Work>)
    requires Reflects(had + began, works, 0)
    ensures Reflects(had, works[..|had|], 0) && Reflects(began, works[|had|..], 0)
  {
  }
}

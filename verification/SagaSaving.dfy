/**
 Saving saga data: what one save does under interference by other clients, and the store
 that a whole saga step leaves behind.
 */
module SagaSaving {
  import opened Messages
  import opened SagaStorages

  const MAX_ATTEMPTS := 5

  /** `resolve_conflict`: the saga's data after it has seen the fresh data, or None if it raises. */
  type Resolver = (Data, Data) -> Option<Data>

  /** What other clients do before an attempt, and between its conflict and the fresh read. */
  datatype Interference = Interference(before: seq<ClientOp>, between: seq<ClientOp>)

  const CALM := Interference([], [])

  function Now(env: seq<Interference>): Interference { if env == [] then CALM else env[0] }

  function Later(env: seq<Interference>): seq<Interference> { if env == [] then [] else env[1..] }

  datatype SaveOutcome = Landed | GaveUp | Raised

  datatype Saved = Saved(store: Store, record: Record, outcome: SaveOutcome)

  /** Window by window, and none after the last. */
  lemma WindowsInOrder(now: Interference, later: seq<Interference>)
    ensures Now([now] + later) == now && Later([now] + later) == later
    ensures Now([]) == Interference([], []) && Later([]) == []
  {
  }

  function InsertOnce(s: Store, r: Record, env: seq<Interference>): Saved {
    var ins := InsertSpec(PerformAll(s, Now(env).before), r);
    Saved(ins.0, r, if ins.1.Stored? then Landed else Raised)
  }

  /** An insert is tried once, after what others did before it. */
  lemma InsertsAreTriedOnce(s: Store, r: Record, resolve: Resolver, env: seq<Interference>)
    ensures var saved := SaveSpec(s, r, true, resolve, env);
            var met := if env == [] then s else PerformAll(s, env[0].before);
            && (r.id !in met && r.revision == 0 ==> saved == Saved(met[r.id := r], r, Landed))
            && (r.id in met || r.revision != 0 ==> saved == Saved(met, r, Raised))
  {
    assert PerformAll(s, []) == s;
  }

  /** One attempt: None means that it conflicted and the record is ready for the next. */
  datatype Tried = Tried(store: Store, record: Record, outcome: Option<SaveOutcome>)

  function Attempt(s: Store, r: Record, resolve: Resolver, now: Interference): Tried {
    var s1 := PerformAll(s, now.before);
    var upd := UpdateSpec(s1, r);
    match upd.1
    case Stored => Tried(upd.0, r.(revision := r.revision + 1), Some(Landed))
    case Rejected => Tried(s1, r, Some(Raised))
    case Conflict => Resolve(PerformAll(s1, now.between), r, resolve)
  }

  function Resolve(s: Store, r: Record, resolve: Resolver): Tried {
    if r.id !in s then Tried(s, r, Some(Raised)) else
      match resolve(r.data, s[r.id].data)
      case None => Tried(s, r, Some(Raised))
      case Some(d) => Tried(s, Record(r.id, s[r.id].revision, d), None)
  }

  function UpdateLoop(s: Store, r: Record, resolve: Resolver, env: seq<Interference>, left: nat): Saved
    decreases left
  {
    if left == 0 then Saved(s, r, GaveUp) else
      var t := Attempt(s, r, resolve, Now(env));
      if t.outcome.Some? then Saved(t.store, t.record, t.outcome.value)
      else UpdateLoop(t.store, t.record, resolve, Later(env), left - 1)
  }

  function SaveSpec(s: Store, r: Record, insert: bool, resolve: Resolver, env: seq<Interference>): Saved {
    if insert then InsertOnce(s, r, env) else UpdateLoop(s, r, resolve, env, MAX_ATTEMPTS)
  }

  /** A wrapped saga as the handlers left it. */
  datatype Work = Work(record: Record, completed: bool, untouched: bool, resolve: Resolver)

  datatype Progress = Progress(store: Store, ok: bool)

  /** Completed sagas are not saved, unchanged ones are not updated. */
  predicate Skips(w: Work, insert: bool) { w.completed || (!insert && w.untouched) }

  function SaveOneSpec(s: Store, w: Work, insert: bool): Progress {
    if Skips(w, insert) then Progress(s, true) else
      var saved := SaveSpec(s, w.record, insert, w.resolve, []);
      Progress(saved.store, !saved.outcome.Raised?)
  }

  /** Saves in order; an exception stops the step, a save that gives up does not. */
  function SaveInOrder(s: Store, ws: seq<Work>, insert: bool): Progress {
    if ws == [] then Progress(s, true) else
      var p := SaveInOrder(s, ws[..|ws| - 1], insert);
      if p.ok then SaveOneSpec(p.store, ws[|ws| - 1], insert) else p
  }

  function DeleteCompleted(s: Store, ws: seq<Work>): Store {
    if ws == [] then s else
      var before, w := DeleteCompleted(s, ws[..|ws| - 1]), ws[|ws| - 1];
      if w.completed then DeleteSpec(before, w.record.id) else before
  }

  function SaveAllSpec(s: Store, loaded: seq<Work>, created: seq<Work>): Progress {
    var updated := SaveInOrder(s, loaded, false);
    if !updated.ok then updated else
      var inserted := SaveInOrder(updated.store, created, true);
      if !inserted.ok then inserted else Progress(DeleteCompleted(inserted.store, loaded), true)
  }

  /** Updates, then inserts, then deletions; the first exception ends that. */
  lemma PhasesInOrder(s: Store, loaded: seq<Work>, created: seq<Work>)
    ensures var done, updated := SaveAllSpec(s, loaded, created), SaveInOrder(s, loaded, false);
            var inserted := SaveInOrder(updated.store, created, true);
            && (!updated.ok ==> done == updated)
            && (updated.ok && !inserted.ok ==> done == inserted)
            && (updated.ok && inserted.ok ==> done == Progress(DeleteCompleted(inserted.store, loaded), true))
  {
  }

  /** One more save, unless an exception came before; completed sagas, and unchanged loaded ones, are not saved. */
  lemma SavesOneByOne(s: Store, ws: seq<Work>, w: Work, insert: bool)
    ensures SaveInOrder(s, [], insert) == Progress(s, true)
    ensures var p, p' := SaveInOrder(s, ws, insert), SaveInOrder(s, ws + [w], insert);
            && (!p.ok || w.completed || (!insert && w.untouched) ==> p' == p)
            && (p.ok && !w.completed && (insert || !w.untouched) ==>
                  var saved := SaveSpec(p.store, w.record, insert, w.resolve, []);
                  p' == Progress(saved.store, saved.outcome != Raised))
  {
    assert (ws + [w])[..|ws|] == ws;
  }

  /** Each completed saga's record is deleted. */
  lemma DeletesCompleted(s: Store, ws: seq<Work>, w: Work)
    ensures DeleteCompleted(s, []) == s
    ensures DeleteCompleted(s, ws + [w]) == DeleteCompleted(s, ws) - if w.completed then {w.record.id} else {}
  {
    assert (ws + [w])[..|ws|] == ws && DeleteCompleted(s, ws) - {} == DeleteCompleted(s, ws);
  }

  lemma {:induction false} StopsSaving(s: Store, ws: seq<Work>, i: nat, insert: bool)
    requires i <= |ws| && !SaveInOrder(s, ws[..i], insert).ok
    ensures SaveInOrder(s, ws, insert) == SaveInOrder(s, ws[..i], insert)
  {
    if i == |ws| {
      assert ws[..i] == ws;
    } else {
      assert ws[..|ws| - 1][..i] == ws[..i];
      StopsSaving(s, ws[..|ws| - 1], i, insert);
    }
  }

  /******* Saving under interference *******/

  /** How many of these calls update the record of this id. */
  function Updates(s: Store, ops: seq<ClientOp>, id: SagaId): nat {
    if ops == [] then 0 else
      Updates(s, ops[..|ops| - 1], id) + if Updated(s, ops, |ops| - 1, id) then 1 else 0
  }

  predicate Deletes(ops: seq<ClientOp>, id: SagaId) { OpDelete(id) in ops }

  predicate NobodyDeletes(env: seq<Interference>, id: SagaId) {
    forall e :: e in env ==> !Deletes(e.before, id) && !Deletes(e.between, id)
  }

  lemma OneCallMovesRevision(s: Store, op: ClientOp, id: SagaId)
    requires id in s && op != OpDelete(id)
    ensures var after := Perform(s, op);
            && id in after.0
            && after.0[id].revision == s[id].revision
                 + if op.OpUpdate? && op.record.id == id && after.1.Stored? then 1 else 0
  {
  }

  lemma {:induction false} UpdatesMoveRevision(s: Store, ops: seq<ClientOp>, id: SagaId)
    requires id in s && !Deletes(ops, id)
    ensures var s' := PerformAll(s, ops); id in s' && s'[id].revision == s[id].revision + Updates(s, ops, id)
  {
    if ops != [] {
      var before := ops[..|ops| - 1];
      assert ops == before + [ops[|ops| - 1]];
      UpdatesMoveRevision(s, before, id);
      OneCallMovesRevision(PerformAll(s, before), ops[|ops| - 1], id);
    }
  }

  /** The store after the other clients' calls of one round. */
  function AfterRound(s: Store, now: Interference): Store { PerformAll(PerformAll(s, now.before), now.between) }

  /** The store as the other clients alone leave it after n rounds. */
  function Others(s: Store, env: seq<Interference>, n: nat): Store
    decreases n
  {
    if n == 0 then s else Others(AfterRound(s, Now(env)), Later(env), n - 1)
  }

  /** Their updates of this id in one round. */
  function RoundHits(s: Store, now: Interference, id: SagaId): nat {
    Updates(s, now.before, id) + Updates(PerformAll(s, now.before), now.between, id)
  }

  /** Their updates of this id over n rounds. */
  function Hits(s: Store, env: seq<Interference>, id: SagaId, n: nat): nat
    decreases n
  {
    if n == 0 then 0 else RoundHits(s, Now(env), id) + Hits(AfterRound(s, Now(env)), Later(env), id, n - 1)
  }

  /** The first of the rounds in which nobody updates the record before our attempt; `rounds` if there is none. */
  function FreeRound(s: Store, env: seq<Interference>, id: SagaId, rounds: nat): (n: nat)
    ensures n <= rounds
    decreases rounds
  {
    if rounds == 0 || Updates(s, Now(env).before, id) == 0 then 0
    else 1 + FreeRound(AfterRound(s, Now(env)), Later(env), id, rounds - 1)
  }

  /** What the others did when our attempt of round n starts. */
  function AtAttempt(s: Store, env: seq<Interference>, n: nat): Store
    decreases n
  {
    if n == 0 then PerformAll(s, Now(env).before) else AtAttempt(AfterRound(s, Now(env)), Later(env), n - 1)
  }

  /** Data d of record id after n conflicting rounds, each resolved against the data met there. */
  function ResolvedOver(s: Store, d: Data, id: SagaId, resolve: Resolver, env: seq<Interference>, n: nat): Data
    decreases n
  {
    if n == 0 then d else
      var met := AfterRound(s, Now(env));
      var resolved := if id in met then resolve(d, met[id].data).GetOr(d) else d;
      ResolvedOver(met, resolved, id, resolve, Later(env), n - 1)
  }

  lemma OneRound(s: Store, r: Record, resolve: Resolver, now: Interference)
    requires r.id in s && s[r.id].revision == r.revision
    requires !Deletes(now.before, r.id) && !Deletes(now.between, r.id)
    requires forall own, other :: resolve(own, other).Some?
    ensures var t := Attempt(s, r, resolve, now);
            if Updates(s, now.before, r.id) == 0 then
              && t.outcome == Some(Landed)
              && r.id in t.store && t.store[r.id] == t.record == r.(revision := r.revision + 1)
              && t.store - {r.id} == PerformAll(s, now.before) - {r.id}
            else
              && t.outcome == None && t.store == AfterRound(s, now)
              && t.record.id == r.id && r.id in t.store
              && t.store[r.id].revision == t.record.revision == r.revision + RoundHits(s, now, r.id)
              && resolve(r.data, t.store[r.id].data) == Some(t.record.data)
  {
    UpdatesMoveRevision(s, now.before, r.id);
    UpdatesMoveRevision(PerformAll(s, now.before), now.between, r.id);
  }

  /**
   A conflict over a record that is gone by then, or that the resolver raises on, ends the save,
   with nothing written.
   */
  lemma ConflictsThatRaise(s: Store, r: Record, resolve: Resolver, env: seq<Interference>, now: Interference)
    requires env != [] && env[0] == now
    requires var before := PerformAll(s, now.before); r.id in before && before[r.id].revision != r.revision
    requires var met := PerformAll(PerformAll(s, now.before), now.between);
             r.id !in met || resolve(r.data, met[r.id].data).None?
    ensures var saved := SaveSpec(s, r, false, resolve, env);
            saved.outcome == Raised && saved.store == PerformAll(PerformAll(s, now.before), now.between)
  {
  }

  /** So does a record that is gone before the first attempt. */
  lemma MissingRecordsRaise(s: Store, r: Record, resolve: Resolver, env: seq<Interference>)
    requires env != [] && r.id !in PerformAll(s, env[0].before)
    ensures var saved := SaveSpec(s, r, false, resolve, env);
            saved.outcome == Raised && saved.store == PerformAll(s, env[0].before)
  {
  }

  lemma CalmerLater(env: seq<Interference>, id: SagaId)
    requires NobodyDeletes(env, id)
    ensures NobodyDeletes(Later(env), id) && !Deletes(Now(env).before, id) && !Deletes(Now(env).between, id)
  {
  }

  /** How a save of at most so many rounds ends. */
  ghost predicate SaveEnds(s: Store, r: Record, resolve: Resolver, env: seq<Interference>, rounds: nat, saved: Saved) {
    var n := FreeRound(s, env, r.id, rounds);
    if n < rounds then
      && saved.outcome == Landed
      && r.id in saved.store
      && saved.store[r.id] == Record(r.id, r.revision + Hits(s, env, r.id, n) + 1,
                                     ResolvedOver(s, r.data, r.id, resolve, env, n))
      && saved.record == saved.store[r.id]
      && saved.store - {r.id} == AtAttempt(s, env, n) - {r.id}
    else saved.outcome == GaveUp && saved.store == Others(s, env, rounds)
  }

  lemma ConflictsOnce(s: Store, r: Record, resolve: Resolver, env: seq<Interference>, rounds: nat, t: Tried,
                      saved: Saved)
    requires rounds > 0 && Updates(s, Now(env).before, r.id) > 0
    requires t.store == AfterRound(s, Now(env)) && r.id in t.store
    requires t.record == Record(r.id, r.revision + RoundHits(s, Now(env), r.id), t.record.data)
    requires resolve(r.data, t.store[r.id].data) == Some(t.record.data)
    requires SaveEnds(t.store, t.record, resolve, Later(env), rounds - 1, saved)
    ensures SaveEnds(s, r, resolve, env, rounds, saved)
  {
  }

  lemma {:induction false} SaveRounds(s: Store, r: Record, resolve: Resolver, env: seq<Interference>, rounds: nat)
    requires r.id in s && s[r.id].revision == r.revision
    requires NobodyDeletes(env, r.id) && forall own, other :: resolve(own, other).Some?
    ensures SaveEnds(s, r, resolve, env, rounds, UpdateLoop(s, r, resolve, env, rounds))
    decreases rounds
  {
    if rounds > 0 {
      CalmerLater(env, r.id);
      OneRound(s, r, resolve, Now(env));
      if Updates(s, Now(env).before, r.id) > 0 {
        var t := Attempt(s, r, resolve, Now(env));
        SaveRounds(t.store, t.record, resolve, Later(env), rounds - 1);
        ConflictsOnce(s, r, resolve, env, rounds, t, UpdateLoop(t.store, t.record, resolve, Later(env), rounds - 1));
      }
    }
  }

  /**
   An update lands in the first round whose window before the attempt is free of updates of
   the record; it moves the revision on by one from all that went before and touches nothing
   else. What lands is the record's own data in the first round, and otherwise what resolving
   made of it, against the data met at each conflict in turn. It gives up, with nothing
   written, exactly when all the rounds conflict.
   */
  lemma SaveUnderInterference(s: Store, r: Record, resolve: Resolver, env: seq<Interference>, rounds: nat)
    requires r.id in s && s[r.id].revision == r.revision
    requires NobodyDeletes(env, r.id) && forall own, other :: resolve(own, other).Some?
    ensures var saved := UpdateLoop(s, r, resolve, env, rounds);
            var n := FreeRound(s, env, r.id, rounds);
            if n < rounds then
              && saved.outcome == Landed
              && r.id in saved.store
              && saved.store[r.id] == Record(r.id, r.revision + Hits(s, env, r.id, n) + 1,
                                             ResolvedOver(s, r.data, r.id, resolve, env, n))
              && saved.record == saved.store[r.id]
              && saved.store - {r.id} == AtAttempt(s, env, n) - {r.id}
            else saved.outcome == GaveUp && saved.store == Others(s, env, rounds)
  {
    SaveRounds(s, r, resolve, env, rounds);
  }

  /** Every conflicting round costs the others at least one update. */
  lemma {:induction false} RoundsCostUpdates(s: Store, env: seq<Interference>, id: SagaId, rounds: nat)
    ensures Hits(s, env, id, FreeRound(s, env, id, rounds)) >= FreeRound(s, env, id, rounds)
    ensures FreeRound(s, env, id, rounds) == rounds ==> Hits(s, env, id, rounds) >= rounds
    decreases rounds
  {
    if rounds > 0 && Updates(s, Now(env).before, id) > 0 {
      RoundsCostUpdates(AfterRound(s, Now(env)), Later(env), id, rounds - 1);
    }
  }

  /** Five attempts, and no more. */
  lemma SavesTryFiveTimes(s: Store, r: Record, resolve: Resolver, env: seq<Interference>)
    requires r.id in s && s[r.id].revision == r.revision
    requires NobodyDeletes(env, r.id) && forall own, other :: resolve(own, other).Some?
    ensures SaveSpec(s, r, false, resolve, env).outcome == if FreeRound(s, env, r.id, 5) < 5 then Landed else GaveUp
  {
    SaveUnderInterference(s, r, resolve, env, 5);
  }

  /** Fewer than five updates by others in five rounds never keep a save from landing. */
  lemma FewUpdatesAreSurvived(s: Store, r: Record, resolve: Resolver, env: seq<Interference>)
    requires r.id in s && s[r.id].revision == r.revision
    requires NobodyDeletes(env, r.id) && forall own, other :: resolve(own, other).Some?
    requires Hits(s, env, r.id, 5) < 5
    ensures var n := FreeRound(s, env, r.id, 5);
            var saved := SaveSpec(s, r, false, resolve, env);
            && n < 5 && saved.outcome == Landed && r.id in saved.store
            && saved.store[r.id] == Record(r.id, r.revision + Hits(s, env, r.id, n) + 1,
                                           ResolvedOver(s, r.data, r.id, resolve, env, n))
  {
    RoundsCostUpdates(s, env, r.id, MAX_ATTEMPTS);
    SaveUnderInterference(s, r, resolve, env, MAX_ATTEMPTS);
  }

  /******* The store after a saga step without interference *******/

  /** The loaded wrappers of one id that are saved: neither completed nor unchanged. */
  function Saves(ws: seq<Work>, id: SagaId): nat {
    if ws == [] then 0 else
      var w := ws[|ws| - 1];
      Saves(ws[..|ws| - 1], id) + if w.record.id == id && !w.completed && !w.untouched then 1 else 0
  }

  ghost predicate CompletedIn(ws: seq<Work>, id: SagaId) { exists w :: w in ws && w.record.id == id && w.completed }

  /** The first save stores its own data; each later one resolves its conflict with what is stored. */
  function Merged(id: SagaId, r: Record, ws: seq<Work>): Record {
    if ws == [] then r else
      var before, w := Merged(id, r, ws[..|ws| - 1]), ws[|ws| - 1];
      if w.record.id != id || Skips(w, false) then before
      else if before.revision == r.revision then Record(id, r.revision + 1, w.record.data)
      else Record(id, before.revision + 1, w.resolve(w.record.data, before.data).GetOr(w.record.data))
  }

  lemma {:induction false} MergedRevision(id: SagaId, r: Record, ws: seq<Work>)
    ensures Merged(id, r, ws).revision == r.revision + Saves(ws, id)
  {
    if ws != [] { MergedRevision(id, r, ws[..|ws| - 1]); }
  }

  ghost predicate LoadedFrom(w: Work, s: Store) {
    && w.record.id in s && w.record.revision == s[w.record.id].revision
    && forall own, other :: w.resolve(own, other).Some?
  }

  /** Without interference a save meets at most one conflict, and then it lands. */
  lemma CalmUpdate(s: Store, w: Work)
    requires w.record.id in s && forall own, other :: w.resolve(own, other).Some?
    ensures var id, saved := w.record.id, UpdateLoop(s, w.record, w.resolve, [], MAX_ATTEMPTS);
            && saved.outcome == Landed
            && saved.store == s[id := Record(id, s[id].revision + 1,
                 if s[id].revision == w.record.revision then w.record.data
                 else w.resolve(w.record.data, s[id].data).value)]
  {
  }

  lemma {:induction false} LoadedAreMerged(s: Store, ws: seq<Work>)
    requires forall w :: w in ws ==> LoadedFrom(w, s)
    ensures SaveInOrder(s, ws, false) == Progress(map id | id in s :: Merged(id, s[id], ws), true)
  {
    if ws == [] {
      assert (map id | id in s :: Merged(id, s[id], ws)) == s;
    } else {
      var before, w := ws[..|ws| - 1], ws[|ws| - 1];
      LoadedAreMerged(s, before);
      var s1 := SaveInOrder(s, before, false).store;
      var id := w.record.id;
      assert LoadedFrom(w, s);
      if !Skips(w, false) {
        MergedRevision(id, s[id], before);
        CalmUpdate(s1, w);
        assert s1[id := Merged(id, s[id], ws)] == map k | k in s :: Merged(k, s[k], ws);
      } else {
        assert s1 == map k | k in s :: Merged(k, s[k], ws);
      }
    }
  }

  /** New sagas that are not completed have ids that are neither stored nor shared. */
  predicate FreshIds(ws: seq<Work>, s: Store) {
    && (forall i :: 0 <= i < |ws| && !ws[i].completed ==> ws[i].record.id !in s && ws[i].record.revision == 0)
    && (forall i, j :: 0 <= i < j < |ws| && !ws[i].completed && !ws[j].completed ==> ws[i].record.id != ws[j].record.id)
  }

  lemma FreshWhen(ws: seq<Work>, s: Store)
    requires forall w :: w in ws && !w.completed ==> w.record.id !in s && w.record.revision == 0
    requires forall i, j :: 0 <= i < j < |ws| && !ws[i].completed && !ws[j].completed ==>
               ws[i].record.id != ws[j].record.id
    ensures FreshIds(ws, s)
  {
  }

  function Inserts(ws: seq<Work>): Store {
    if ws == [] then map[] else
      var before, w := Inserts(ws[..|ws| - 1]), ws[|ws| - 1];
      if w.completed then before else before[w.record.id := w.record]
  }

  lemma LastIdIsNew(ws: seq<Work>, s: Store)
    requires ws != [] && FreshIds(ws, s) && !ws[|ws| - 1].completed
    ensures forall v :: v in ws[..|ws| - 1] && !v.completed ==> v.record.id != ws[|ws| - 1].record.id
  {
  }

  lemma {:induction false} InsertsHold(ws: seq<Work>, s: Store)
    requires FreshIds(ws, s)
    ensures forall w :: w in ws && !w.completed ==> w.record.id in Inserts(ws) && Inserts(ws)[w.record.id] == w.record
    ensures forall id :: id in Inserts(ws) ==> exists w :: w in ws && !w.completed && w.record.id == id
  {
    if ws != [] {
      var before, w := ws[..|ws| - 1], ws[|ws| - 1];
      assert ws == before + [w];
      InsertsHold(before, s);
      if !w.completed { LastIdIsNew(ws, s); }
    }
  }

  lemma InsertLands(s: Store, w: Work)
    requires w.completed || (w.record.id !in s && w.record.revision == 0)
    ensures SaveOneSpec(s, w, true) == Progress(if w.completed then s else s[w.record.id := w.record], true)
  {
  }

  lemma {:induction false} CreatedAreInserted(s: Store, ws: seq<Work>)
    requires FreshIds(ws, s)
    ensures SaveInOrder(s, ws, true) == Progress(s + Inserts(ws), true)
  {
    if ws != [] {
      var before, w := ws[..|ws| - 1], ws[|ws| - 1];
      CreatedAreInserted(s, before);
      InsertsHold(before, s);
      if !w.completed {
        LastIdIsNew(ws, s);
        assert w.record.id !in Inserts(before);
        assert (s + Inserts(before))[w.record.id := w.record] == s + Inserts(before)[w.record.id := w.record];
      }
      InsertLands(s + Inserts(before), w);
    }
  }

  lemma {:induction false} CompletedAreDeleted(s: Store, ws: seq<Work>)
    ensures DeleteCompleted(s, ws) == map id | id in s && !CompletedIn(ws, id) :: s[id]
  {
    if ws == [] {
      assert (map id | id in s && !CompletedIn(ws, id) :: s[id]) == s;
    } else {
      var before, w := ws[..|ws| - 1], ws[|ws| - 1];
      assert ws == before + [w];
      CompletedAreDeleted(s, before);
      forall id
        ensures CompletedIn(ws, id) <==> CompletedIn(before, id) || (w.completed && w.record.id == id)
      {
        assert forall v :: v in before ==> v in ws;
        assert w in ws;
      }
    }
  }

  /**
   What a saga step makes of the store: of each stored id nothing if one of its loaded wrappers
   completed, else a record moved on by one revision per saved wrapper; each created and
   uncompleted saga as it is; and everything else untouched.
   */
  ghost predicate FinalStore(s: Store, s': Store, loaded: seq<Work>, created: seq<Work>) {
    && (forall id :: id in s && CompletedIn(loaded, id) ==> id !in s')
    && (forall id :: id in s && !CompletedIn(loaded, id) ==>
          && id in s' && s'[id] == Merged(id, s[id], loaded)
          && s'[id].revision == s[id].revision + Saves(loaded, id))
    && (forall w :: w in created && !w.completed ==>
          w.record.id in s' && s'[w.record.id] == w.record && w.record.revision == 0)
    && (forall id :: id in s' && id !in s ==> exists w :: w in created && !w.completed && w.record.id == id)
  }

  /** Spelt out for one stored record, one created saga, and one record of the new store. */
  lemma FinalStoreMeans(s: Store, s': Store, loaded: seq<Work>, created: seq<Work>, id: SagaId, w: Work)
    requires FinalStore(s, s', loaded, created)
    ensures id in s && (exists v :: v in loaded && v.record.id == id && v.completed) ==> id !in s'
    ensures id in s && (forall v :: v in loaded && v.record.id == id ==> !v.completed) ==>
              && id in s' && s'[id] == Merged(id, s[id], loaded)
              && s'[id].revision == s[id].revision + Saves(loaded, id)
    ensures w in created && !w.completed ==>
              w.record.id in s' && s'[w.record.id] == w.record && w.record.revision == 0
    ensures id in s' && id !in s ==> exists v :: v in created && !v.completed && v.record.id == id
  {
  }

  /** A step whose handlers succeeded and that nobody interfered with leaves that store. */
  lemma SagaStepFinalStore(s: Store, loaded: seq<Work>, created: seq<Work>)
    requires forall w :: w in loaded ==> LoadedFrom(w, s)
    requires FreshIds(created, s)
    ensures var done := SaveAllSpec(s, loaded, created); done.ok && FinalStore(s, done.store, loaded, created)
  {
    LoadedAreMerged(s, loaded);
    var s1 := SaveInOrder(s, loaded, false).store;
    assert FreshIds(created, s1);
    CreatedAreInserted(s1, created);
    InsertsHold(created, s1);
    CompletedAreDeleted(s1 + Inserts(created), loaded);
    forall id | id in s
      ensures Merged(id, s[id], loaded).revision == s[id].revision + Saves(loaded, id)
    {
      MergedRevision(id, s[id], loaded);
    }
    forall w | w in created && !w.completed
      ensures !CompletedIn(loaded, w.record.id) && w.record.id !in s && w.record.revision == 0
    {
      var i :| 0 <= i < |created| && created[i] == w;
    }
  }
}

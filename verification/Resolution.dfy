/** Memoised resolution agrees with plain recursive evaluation, and runs each callable once. */
module Resolution {
  import opened Messages
  import opened DependencyResolvers
  import opened RankedResolution

  /******* Plain evaluation: no memory, no state; an exception where there is no value *******/

  /** The decorators folded in registration order over the resolver's instance. */
  function Eval(c: Config, rank: Rank, t: Ty): Got<Instance>
    requires Ranked(c, rank)
    decreases rank(t), 2, 0
  {
    if t in c.resolvers then DecoratedTo(c, rank, t, |c.Decorators(t)|) else Missing
  }

  /** The resolver's instance, for k = 0, and what the first k decorators make of it. */
  function DecoratedTo(c: Config, rank: Rank, t: Ty, k: nat): Got<Instance>
    requires Ranked(c, rank) && t in c.resolvers && k <= |c.Decorators(t)|
    decreases rank(t), 1, k
  {
    if k == 0 then Made(c.resolvers[t], Answers(c, rank, t, c.resolvers[t], None, c.resolvers[t].limit)) else
      var before, d := DecoratedTo(c, rank, t, k - 1), c.Decorators(t)[k - 1];
      if !before.Have? then before else Made(d, Answers(c, rank, t, d, Some(before.value), d.limit))
  }

  function Answers(c: Config, rank: Rank, t: Ty, r: Recipe, own: Option<Instance>, n: nat): seq<Got<Instance>>
    requires Ranked(c, rank) && AsksBelow(r, t, rank)
    decreases rank(t), 0, n
  {
    if n == 0 then [] else
      var before := Answers(c, rank, t, r, own, n - 1);
      match r.request(before)
      case None => before
      case Some(u) => before + [AnswerTo(c, rank, t, u, own)]
  }

  /** A type's own instance so far, or another type's value. */
  function AnswerTo(c: Config, rank: Rank, t: Ty, u: Ty, own: Option<Instance>): Got<Instance>
    requires Ranked(c, rank) && (u == t || rank(u) < rank(t))
    decreases rank(t), 0, 0
  {
    if u != t then Eval(c, rank, u) else if own.Some? then Have(own.value) else Missing
  }

  /** Once a decorator raises, the later ones do not run. */
  lemma {:induction false} DecoratedStepwise(c: Config, rank: Rank, t: Ty, j: nat, k: nat)
    requires Ranked(c, rank) && t in c.resolvers && j <= k <= |c.Decorators(t)|
    ensures !DecoratedTo(c, rank, t, j).Have? ==> DecoratedTo(c, rank, t, k) == DecoratedTo(c, rank, t, j)
  {
    if j < k { DecoratedStepwise(c, rank, t, j, k - 1); }
  }

  lemma MadeBy(c: Config, rank: Rank, t: Ty, k: nat)
    requires Ranked(c, rank) && t in c.resolvers && k <= |c.Decorators(t)| && DecoratedTo(c, rank, t, k).Have?
    ensures CanReturn(Maker(c, t, k), DecoratedTo(c, rank, t, k).value.truthy)
  {
  }

  /******* When memoised resolution can agree with it *******/

  /** The instance in place when a decorator raises, if the resolver made one: what the first n decorators left. */
  function Leftover(c: Config, rank: Rank, t: Ty, n: nat): Got<Instance>
    requires Ranked(c, rank) && t in c.resolvers && n <= |c.Decorators(t)|
  {
    if n == 0 || DecoratedTo(c, rank, t, n).Have? then DecoratedTo(c, rank, t, n) else Leftover(c, rank, t, n - 1)
  }

  lemma {:induction false} LeftoverIs(c: Config, rank: Rank, t: Ty, k: nat, n: nat)
    requires Ranked(c, rank) && t in c.resolvers && k < n <= |c.Decorators(t)|
    requires DecoratedTo(c, rank, t, k).Have? && !DecoratedTo(c, rank, t, k + 1).Have?
    ensures Leftover(c, rank, t, n) == DecoratedTo(c, rank, t, k)
  {
    DecoratedStepwise(c, rank, t, k + 1, n);
    if k + 1 < n { LeftoverIs(c, rank, t, k, n - 1); }
  }

  lemma {:induction false} NothingLeft(c: Config, rank: Rank, t: Ty, n: nat)
    requires Ranked(c, rank) && t in c.resolvers && n <= |c.Decorators(t)| && !DecoratedTo(c, rank, t, 0).Have?
    ensures !Leftover(c, rank, t, n).Have?
  {
    DecoratedStepwise(c, rank, t, 0, n);
    if n > 0 { NothingLeft(c, rank, t, n - 1); }
  }

  /** No decorator raises, or what is in place by then is falsy or nothing. */
  ghost predicate GoodAt(c: Config, rank: Rank, t: Ty)
    requires Ranked(c, rank) && t in c.resolvers
  {
    var left := Leftover(c, rank, t, |c.Decorators(t)|);
    Eval(c, rank, t).Have? || !left.Have? || !left.value.truthy
  }

  ghost predicate SoundBelow(c: Config, rank: Rank, bound: nat)
    requires Ranked(c, rank)
  {
    forall t :: t in c.resolvers && rank(t) < bound ==> GoodAt(c, rank, t)
  }

  ghost predicate Sound(c: Config, rank: Rank)
    requires Ranked(c, rank)
  {
    forall t :: t in c.resolvers ==> GoodAt(c, rank, t)
  }

  /** Every registered type can be evaluated. */
  ghost predicate Complete(c: Config, rank: Rank)
    requires Ranked(c, rank)
  {
    forall t :: t in c.resolvers ==> Eval(c, rank, t).Have?
  }

  /******* What a resolution adds to the state *******/

  ghost predicate Truthy(c: Config) {
    && (forall t :: t in c.resolvers ==> !CanReturn(c.resolvers[t], false))
    && (forall t, d :: t in c.resolvers && d in c.Decorators(t) ==> !CanReturn(d, false))
  }

  /** Nothing is falsy and nothing fails: then nothing needs to run twice. */
  ghost predicate Once(c: Config, rank: Rank)
    requires Ranked(c, rank)
  {
    Truthy(c) && Complete(c, rank)
  }

  function Count(journal: seq<Run>, run: Run): nat { multiset(journal)[run] }

  /** Each type that became final ran its resolver and decorators once; nothing else ran. */
  ghost predicate Accounted(c: Config, s: State, s': State) {
    forall u, k: nat ::
      Count(s'.journal, (u, k)) == Count(s.journal, (u, k)) + if RunsOnce(c, s, s', u, k) then 1 else 0
  }

  predicate RunsOnce(c: Config, s: State, s': State, u: Ty, k: nat) {
    u in s'.final && u !in s.final && k <= |c.Decorators(u)|
  }

  ghost predicate Sane(c: Config, rank: Rank, s: State)
    requires Ranked(c, rank)
  {
    forall u :: u in s.final ==> Eval(c, rank, u) == Have(s.final[u])
  }

  /** No such type is found half done, and none is half done at all if nothing can fail. */
  ghost predicate QuietAt(c: Config, rank: Rank, s: State, u: Ty)
    requires Ranked(c, rank)
  {
    !s.Ready(u) && (Complete(c, rank) ==> u !in s.temp && u !in s.running)
  }

  ghost predicate QuietUpTo(c: Config, rank: Rank, s: State, bound: nat)
    requires Ranked(c, rank)
  {
    forall u :: rank(u) < bound ==> QuietAt(c, rank, s, u)
  }

  ghost predicate Calm(c: Config, rank: Rank, s: State)
    requires Ranked(c, rank)
  {
    forall u :: QuietAt(c, rank, s, u)
  }

  /** Finals were added, all of rank below the bound, and nothing there is found half done. */
  ghost predicate Grown(c: Config, rank: Rank, s: State, s': State, bound: nat)
    requires Ranked(c, rank)
  {
    && Sane(c, rank, s') && QuietUpTo(c, rank, s', bound)
    && (forall u :: rank(u) >= bound ==> s'.SameAt(s, u))
    && s.final.Keys <= s'.final.Keys
    && (Once(c, rank) ==> Accounted(c, s, s'))
  }

  lemma GrownTrans(c: Config, rank: Rank, s: State, s1: State, s2: State, bound: nat)
    requires Ranked(c, rank) && Grown(c, rank, s, s1, bound) && Grown(c, rank, s1, s2, bound)
    ensures Grown(c, rank, s, s2, bound)
  {
  }

  lemma GrownRefl(c: Config, rank: Rank, s: State, bound: nat)
    requires Ranked(c, rank) && Sane(c, rank, s) && QuietUpTo(c, rank, s, bound)
    ensures Grown(c, rank, s, s, bound)
  {
  }

  lemma GrownWider(c: Config, rank: Rank, s: State, s': State, low: nat, bound: nat)
    requires Ranked(c, rank) && Grown(c, rank, s, s', low) && low <= bound && QuietUpTo(c, rank, s, bound)
    ensures Grown(c, rank, s, s', bound)
  {
    forall u | rank(u) < bound
      ensures QuietAt(c, rank, s', u)
    {
      if rank(u) >= low { assert QuietAt(c, rank, s, u) && s'.SameAt(s, u); }
    }
  }

  lemma GrownCalm(c: Config, rank: Rank, s: State, s': State, bound: nat)
    requires Ranked(c, rank) && Grown(c, rank, s, s', bound) && Calm(c, rank, s)
    ensures Calm(c, rank, s')
  {
    forall u
      ensures QuietAt(c, rank, s', u)
    {
      if rank(u) >= bound { assert QuietAt(c, rank, s, u) && s'.SameAt(s, u); }
    }
  }

  /******* Agreement, by induction on the rank *******/

  /** A final instance of the type does not hide the one being decorated. */
  predicate Open(s: State, t: Ty) { t in s.final ==> !s.final[t].truthy }

  lemma {:induction false} AskOneAgrees(c: Config, rank: Rank, s: State, t: Ty, u: Ty, own: Option<Instance>)
    returns (s': State)
    requires Ranked(c, rank) && Decorable(c) && SoundBelow(c, rank, rank(t)) && Sane(c, rank, s)
    requires QuietUpTo(c, rank, s, rank(t))
    requires rank(u) < rank(t) || (u == t && s.Ready(t) && Open(s, t) && own == Some(s.temp[t]))
    ensures AskOne(c, rank, s, t, u) == (s', AnswerTo(c, rank, t, u, own)) && Grown(c, rank, s, s', rank(t))
    decreases rank(t), 0, 0
  {
    if s.Lookup(u).None? && u in c.resolvers {
      assert GoodAt(c, rank, u);
      s' := ResolveAgrees(c, rank, s, u);
      GrownWider(c, rank, s, s', rank(u) + 1, rank(t));
    } else {
      if u != t { assert QuietAt(c, rank, s, u); }
      GrownRefl(c, rank, s, rank(t));
      s' := s;
    }
  }

  lemma AskUnfolds(c: Config, rank: Rank, s: State, t: Ty, r: Recipe, n: nat, s1: State, answers: seq<Got<Instance>>)
    requires Ranked(c, rank) && Decorable(c) && MayRequest(s, rank, t, r)
    requires Ask(c, rank, s, t, r, n) == (s1, answers)
    ensures match r.request(answers)
            case None => Ask(c, rank, s, t, r, n + 1) == (s1, answers)
            case Some(u) =>
              && (rank(u) < rank(t) || (u == t && s1.Ready(t)))
              && var got := AskOne(c, rank, s1, t, u); Ask(c, rank, s, t, r, n + 1) == (got.0, answers + [got.1])
  {
    assert s1.SameAt(s, t);
  }

  /** The recipe may ask, and what it finds of its own type is `own`. */
  ghost predicate MayAsk(c: Config, rank: Rank, s: State, t: Ty, r: Recipe, own: Option<Instance>)
    requires Ranked(c, rank)
  {
    && AsksBelow(r, t, rank) && Sane(c, rank, s) && QuietUpTo(c, rank, s, rank(t)) && MayRequest(s, rank, t, r)
    && (s.Ready(t) ==> Open(s, t) && own == Some(s.temp[t]))
  }

  lemma GrownMayAsk(c: Config, rank: Rank, s: State, s1: State, t: Ty, r: Recipe, own: Option<Instance>)
    requires Ranked(c, rank) && MayAsk(c, rank, s, t, r, own) && Grown(c, rank, s, s1, rank(t))
    ensures MayAsk(c, rank, s1, t, r, own)
  {
    assert s1.SameAt(s, t);
  }

  lemma {:induction false} AskNextAgrees(c: Config, rank: Rank, s: State, s1: State, t: Ty, r: Recipe,
                                         own: Option<Instance>, n: nat)
    returns (s': State)
    requires Ranked(c, rank) && Decorable(c) && SoundBelow(c, rank, rank(t)) && MayAsk(c, rank, s, t, r, own)
    requires Ask(c, rank, s, t, r, n) == (s1, Answers(c, rank, t, r, own, n)) && Grown(c, rank, s, s1, rank(t))
    ensures Ask(c, rank, s, t, r, n + 1) == (s', Answers(c, rank, t, r, own, n + 1)) && Grown(c, rank, s, s', rank(t))
    decreases rank(t), 0, 1
  {
    var answers := Answers(c, rank, t, r, own, n);
    AskUnfolds(c, rank, s, t, r, n, s1, answers);
    s' := s1;
    if r.request(answers).Some? {
      GrownMayAsk(c, rank, s, s1, t, r, own);
      s' := AskOneAgrees(c, rank, s1, t, r.request(answers).value, own);
      GrownTrans(c, rank, s, s1, s', rank(t));
    }
  }

  lemma {:induction false} AskAgrees(c: Config, rank: Rank, s: State, t: Ty, r: Recipe, own: Option<Instance>, n: nat)
    returns (s': State)
    requires Ranked(c, rank) && Decorable(c) && SoundBelow(c, rank, rank(t)) && MayAsk(c, rank, s, t, r, own)
    ensures Ask(c, rank, s, t, r, n) == (s', Answers(c, rank, t, r, own, n)) && Grown(c, rank, s, s', rank(t))
    decreases rank(t), 1, n
  {
    if n == 0 {
      GrownRefl(c, rank, s, rank(t));
      s' := s;
    } else {
      var s1 := AskAgrees(c, rank, s, t, r, own, n - 1);
      s' := AskNextAgrees(c, rank, s, s1, t, r, own, n - 1);
    }
  }

  /** Like Grown, for a state in which decorator k of t and all later ones are still to run. */
  ghost predicate Completed(c: Config, rank: Rank, s: State, s': State, t: Ty, k: nat)
    requires Ranked(c, rank)
  {
    && Sane(c, rank, s') && QuietUpTo(c, rank, s', rank(t)) && t !in s'.temp && t !in s'.running
    && (forall u :: rank(u) >= rank(t) && u != t ==> s'.SameAt(s, u))
    && s.final.Keys + {t} <= s'.final.Keys
    && (Once(c, rank) ==> CompletedRuns(c, s, s', t, k))
  }

  /** A decorator of t raised: the type stays marked, with what the earlier ones made in place. */
  ghost predicate LeftUndone(c: Config, rank: Rank, s: State, s': State, t: Ty)
    requires Ranked(c, rank) && t in c.resolvers
  {
    && Sane(c, rank, s') && QuietUpTo(c, rank, s', rank(t))
    && t in s'.running && t in s'.temp && Leftover(c, rank, t, |c.Decorators(t)|) == Have(s'.temp[t])
    && (forall u :: rank(u) >= rank(t) && u != t ==> s'.SameAt(s, u))
    && s.final.Keys <= s'.final.Keys && (t in s'.final <==> t in s.final)
  }

  predicate StillRuns(c: Config, s: State, s': State, t: Ty, k: nat, u: Ty, j: nat) {
    if u == t then k < j <= |c.Decorators(t)| else RunsOnce(c, s, s', u, j)
  }

  ghost predicate CompletedRuns(c: Config, s: State, s': State, t: Ty, k: nat) {
    forall u, j: nat ::
      Count(s'.journal, (u, j)) == Count(s.journal, (u, j)) + if StillRuns(c, s, s', t, k, u, j) then 1 else 0
  }

  lemma RunsStep(c: Config, s: State, s1: State, s2: State, s': State, t: Ty, k: nat)
    requires Accounted(c, s.Log(t, k + 1), s1) && s2.journal == s1.journal && s2.final == s1.final
    requires CompletedRuns(c, s2, s', t, k + 1)
    requires k < |c.Decorators(t)| && t !in s1.final && s.final.Keys <= s1.final.Keys <= s'.final.Keys
    ensures CompletedRuns(c, s, s', t, k)
  {
  }

  lemma RunsOfResolve(c: Config, s: State, s1: State, s2: State, s': State, t: Ty)
    requires Accounted(c, s.Log(t, 0), s1) && s2.journal == s1.journal && s2.final == s1.final
    requires CompletedRuns(c, s2, s', t, 0)
    requires t !in s1.final && t in s'.final && s.final.Keys <= s1.final.Keys <= s'.final.Keys
    ensures Accounted(c, s, s')
  {
  }

  /** Running decorator k and then all later ones. */
  lemma CompletedStep(c: Config, rank: Rank, s: State, s1: State, v: Instance, s': State, t: Ty, k: nat)
    requires Ranked(c, rank) && (Once(c, rank) ==> t !in s.final) && k < |c.Decorators(t)|
    requires Grown(c, rank, s.Log(t, k + 1), s1, rank(t))
    requires Completed(c, rank, s1.(temp := s1.temp[t := v]), s', t, k + 1)
    ensures Completed(c, rank, s, s', t, k)
  {
    var s2 := s1.(temp := s1.temp[t := v]);
    forall u | rank(u) >= rank(t) && u != t
      ensures s'.SameAt(s, u)
    {
      assert s'.SameAt(s2, u) && s1.SameAt(s.Log(t, k + 1), u);
    }
    if Once(c, rank) {
      assert s1.SameAt(s.Log(t, k + 1), t);
      RunsStep(c, s, s1, s2, s', t, k);
    }
  }

  lemma LeftStep(c: Config, rank: Rank, s: State, s1: State, v: Instance, s': State, t: Ty, k: nat)
    requires Ranked(c, rank) && t in c.resolvers && Grown(c, rank, s.Log(t, k), s1, rank(t))
    requires LeftUndone(c, rank, s1.(temp := s1.temp[t := v]), s', t)
    ensures LeftUndone(c, rank, s, s', t)
  {
    var s2 := s1.(temp := s1.temp[t := v]);
    assert s1.SameAt(s.Log(t, k), t);
    forall u | rank(u) >= rank(t) && u != t
      ensures s'.SameAt(s, u)
    {
      assert s'.SameAt(s2, u) && s1.SameAt(s.Log(t, k), u);
    }
  }

  lemma FinishRuns(c: Config, s: State, t: Ty, v: Instance)
    ensures CompletedRuns(c, s, s.Finish(t, v), t, |c.Decorators(t)|)
  {
  }

  lemma FinishIsQuiet(c: Config, rank: Rank, s: State, t: Ty, v: Instance)
    requires Ranked(c, rank) && QuietUpTo(c, rank, s, rank(t))
    ensures QuietUpTo(c, rank, s.Finish(t, v), rank(t))
  {
    forall u | rank(u) < rank(t)
      ensures QuietAt(c, rank, s.Finish(t, v), u)
    {
      assert QuietAt(c, rank, s, u);
    }
  }

  lemma FinishCompletes(c: Config, rank: Rank, s: State, t: Ty, v: Instance)
    requires Ranked(c, rank) && Sane(c, rank, s) && QuietUpTo(c, rank, s, rank(t))
    requires t in c.resolvers && Eval(c, rank, t) == Have(v)
    ensures Completed(c, rank, s, s.Finish(t, v), t, |c.Decorators(t)|)
  {
    FinishIsQuiet(c, rank, s, t, v);
    FinishRuns(c, s, t, v);
  }

  /** Type t is being decorated: v, its instance after k decorators, is what it reads of itself. */
  ghost predicate Decorating(c: Config, rank: Rank, s: State, t: Ty, k: nat, v: Instance)
    requires Ranked(c, rank)
  {
    && t in c.resolvers && k <= |c.Decorators(t)| && DecoratedTo(c, rank, t, k) == Have(v) && InHand(c, s, t, k)
    && Sane(c, rank, s) && QuietUpTo(c, rank, s, rank(t)) && s.temp[t] == v && Open(s, t)
    && (Once(c, rank) ==> t !in s.final)
  }

  lemma DecoratingNext(c: Config, rank: Rank, s: State, t: Ty, k: nat, v: Instance, s1: State, v': Instance)
    requires Ranked(c, rank) && k < |c.Decorators(t)| && Decorating(c, rank, s, t, k, v)
    requires Grown(c, rank, s.Log(t, k + 1), s1, rank(t)) && DecoratedTo(c, rank, t, k + 1) == Have(v')
    ensures Decorating(c, rank, s1.(temp := s1.temp[t := v']), t, k + 1, v')
  {
    var s2 := s1.(temp := s1.temp[t := v']);
    assert s1.SameAt(s.Log(t, k + 1), t);
    MadeBy(c, rank, t, k + 1);
    forall u | rank(u) < rank(t)
      ensures QuietAt(c, rank, s2, u)
    {
      assert QuietAt(c, rank, s1, u);
    }
  }

  /** What decorator k asks for is what the plain evaluation answers. */
  lemma {:induction false} DecoratorAsks(c: Config, rank: Rank, s: State, t: Ty, k: nat, v: Instance)
    returns (s1: State)
    requires Ranked(c, rank) && Decorable(c) && SoundBelow(c, rank, rank(t)) && k < |c.Decorators(t)|
    requires Decorating(c, rank, s, t, k, v)
    ensures Grown(c, rank, s.Log(t, k + 1), s1, rank(t))
    ensures var made := DecoratedTo(c, rank, t, k + 1);
            if made.Have? then
              var s2 := s1.(temp := s1.temp[t := made.value]);
              InHand(c, s2, t, k + 1) && Decorate(c, rank, s, t, k, v) == Decorate(c, rank, s2, t, k + 1, made.value)
            else Decorate(c, rank, s, t, k, v) == (s1, made)
    decreases rank(t), 2, |c.Decorators(t)| - k, 0, 0
  {
    var d, log := c.Decorators(t)[k], s.Log(t, k + 1);
    assert d in c.Decorators(t);
    DecoratorMayRequest(c, rank, s, t, k);
    LogIsQuiet(c, rank, s, t, k + 1, rank(t));
    s1 := AskAgrees(c, rank, log, t, d, Some(v), d.limit);
    DecorateNext(c, rank, s, t, k, v, s1, DecoratedTo(c, rank, t, k + 1));
  }

  lemma LogIsQuiet(c: Config, rank: Rank, s: State, t: Ty, k: nat, bound: nat)
    requires Ranked(c, rank) && Sane(c, rank, s) && QuietUpTo(c, rank, s, bound)
    ensures Sane(c, rank, s.Log(t, k)) && QuietUpTo(c, rank, s.Log(t, k), bound)
  {
    forall u | rank(u) < bound
      ensures QuietAt(c, rank, s.Log(t, k), u)
    {
      assert QuietAt(c, rank, s, u);
    }
  }

  lemma LeftHere(c: Config, rank: Rank, s: State, t: Ty, k: nat, v: Instance, s1: State)
    requires Ranked(c, rank) && k < |c.Decorators(t)| && Decorating(c, rank, s, t, k, v)
    requires Grown(c, rank, s.Log(t, k + 1), s1, rank(t)) && !DecoratedTo(c, rank, t, k + 1).Have?
    ensures LeftUndone(c, rank, s, s1, t)
  {
    LeftoverIs(c, rank, t, k, |c.Decorators(t)|);
    assert s1.SameAt(s.Log(t, k + 1), t);
    forall u | rank(u) >= rank(t) && u != t
      ensures s1.SameAt(s, u)
    {
      assert s1.SameAt(s.Log(t, k + 1), u);
    }
  }

  ghost predicate DecorationEnds(c: Config, rank: Rank, s: State, s': State, t: Ty, k: nat)
    requires Ranked(c, rank) && t in c.resolvers
  {
    if Eval(c, rank, t).Have? then Completed(c, rank, s, s', t, k) else LeftUndone(c, rank, s, s', t)
  }

  /** Decoration from decorator k on ends in s' with the plain value, or with the exception of the first that raises. */
  ghost predicate Ends(c: Config, rank: Rank, s: State, t: Ty, k: nat, v: Instance, s': State) {
    && Ranked(c, rank) && Decorable(c) && t in c.resolvers && k <= |c.Decorators(t)| && InHand(c, s, t, k)
    && Decorate(c, rank, s, t, k, v) == (s', Eval(c, rank, t)) && DecorationEnds(c, rank, s, s', t, k)
  }

  /** Decorator k made an instance or raised. */
  ghost predicate Stepped(c: Config, rank: Rank, s: State, t: Ty, k: nat, v: Instance, s1: State, s2: State) {
    && Ranked(c, rank) && Decorable(c) && Decorating(c, rank, s, t, k, v) && k < |c.Decorators(t)|
    && Grown(c, rank, s.Log(t, k + 1), s1, rank(t))
    && var made := DecoratedTo(c, rank, t, k + 1);
       if made.Have? then
         && s2 == s1.(temp := s1.temp[t := made.value]) && Decorating(c, rank, s2, t, k + 1, made.value)
         && Decorate(c, rank, s, t, k, v) == Decorate(c, rank, s2, t, k + 1, made.value)
       else Decorate(c, rank, s, t, k, v) == (s1, made)
  }

  lemma EndsStep(c: Config, rank: Rank, s: State, t: Ty, k: nat, v: Instance, s1: State, s2: State, s': State)
    requires Stepped(c, rank, s, t, k, v, s1, s2)
    requires var made := DecoratedTo(c, rank, t, k + 1);
             if made.Have? then Ends(c, rank, s2, t, k + 1, made.value, s') else s' == s1
    ensures Ends(c, rank, s, t, k, v, s')
  {
    var made := DecoratedTo(c, rank, t, k + 1);
    if !made.Have? {
      FailedHere(c, rank, s, t, k, v, s1);
    } else if Eval(c, rank, t).Have? {
      CompletedStep(c, rank, s, s1, made.value, s', t, k);
    } else {
      LeftStep(c, rank, s, s1, made.value, s', t, k + 1);
    }
  }

  lemma FailedHere(c: Config, rank: Rank, s: State, t: Ty, k: nat, v: Instance, s1: State)
    requires Ranked(c, rank) && Decorable(c) && k < |c.Decorators(t)| && Decorating(c, rank, s, t, k, v)
    requires Grown(c, rank, s.Log(t, k + 1), s1, rank(t)) && !DecoratedTo(c, rank, t, k + 1).Have?
    requires Decorate(c, rank, s, t, k, v) == (s1, DecoratedTo(c, rank, t, k + 1))
    ensures Ends(c, rank, s, t, k, v, s1)
  {
    DecoratedStepwise(c, rank, t, k + 1, |c.Decorators(t)|);
    LeftHere(c, rank, s, t, k, v, s1);
  }

  lemma {:induction false} DecorateStep(c: Config, rank: Rank, s: State, t: Ty, k: nat, v: Instance,
                                        made: Got<Instance>)
    returns (s1: State, s2: State)
    requires Ranked(c, rank) && Decorable(c) && SoundBelow(c, rank, rank(t)) && k < |c.Decorators(t)|
    requires Decorating(c, rank, s, t, k, v) && made == DecoratedTo(c, rank, t, k + 1)
    ensures Stepped(c, rank, s, t, k, v, s1, s2)
    decreases rank(t), 2, |c.Decorators(t)| - k, 0, 1
  {
    s1 := DecoratorAsks(c, rank, s, t, k, v);
    s2 := s1;
    if made.Have? {
      s2 := s1.(temp := s1.temp[t := made.value]);
      DecoratingNext(c, rank, s, t, k, v, s1, made.value);
    }
  }

  lemma {:induction false} DecorateAgrees(c: Config, rank: Rank, s: State, t: Ty, k: nat, v: Instance)
    returns (s': State)
    requires Ranked(c, rank) && Decorable(c) && SoundBelow(c, rank, rank(t)) && Decorating(c, rank, s, t, k, v)
    ensures Ends(c, rank, s, t, k, v, s')
    decreases rank(t), 2, |c.Decorators(t)| - k, 2
  {
    if k == |c.Decorators(t)| {
      s' := FinishAgrees(c, rank, s, t, v);
    } else {
      var made := DecoratedTo(c, rank, t, k + 1);
      var s1, s2 := DecorateStep(c, rank, s, t, k, v, made);
      s' := s1;
      if made.Have? { s' := RestAgrees(c, rank, s, t, k, v, s1, s2, made.value); }
      EndsStep(c, rank, s, t, k, v, s1, s2, s');
    }
  }

  lemma {:induction false} RestAgrees(c: Config, rank: Rank, s: State, t: Ty, k: nat, v: Instance, s1: State, s2: State,
                                      v': Instance)
    returns (s': State)
    requires Ranked(c, rank) && SoundBelow(c, rank, rank(t)) && Stepped(c, rank, s, t, k, v, s1, s2)
    requires DecoratedTo(c, rank, t, k + 1) == Have(v')
    ensures Ends(c, rank, s2, t, k + 1, v', s')
    decreases rank(t), 2, |c.Decorators(t)| - k, 1
  {
    s' := DecorateAgrees(c, rank, s2, t, k + 1, v');
  }

  lemma FinishAgrees(c: Config, rank: Rank, s: State, t: Ty, v: Instance) returns (s': State)
    requires Ranked(c, rank) && Decorable(c) && Decorating(c, rank, s, t, |c.Decorators(t)|, v)
    ensures Ends(c, rank, s, t, |c.Decorators(t)|, v, s')
  {
    s' := s.Finish(t, v);
    FinishCompletes(c, rank, s, t, v);
  }

  lemma CompletedResolve(c: Config, rank: Rank, s: State, s1: State, v: Instance, s': State, t: Ty)
    requires Ranked(c, rank) && QuietUpTo(c, rank, s, rank(t) + 1) && (Once(c, rank) ==> t !in s.final)
    requires Grown(c, rank, s.Log(t, 0), s1, rank(t))
    requires Completed(c, rank, s1.StartDecorating(t, v), s', t, 0)
    ensures Grown(c, rank, s, s', rank(t) + 1)
  {
    SameBeyond(c, rank, s, s1, v, s', t);
    if Once(c, rank) {
      assert s1.SameAt(s.Log(t, 0), t);
      RunsOfResolve(c, s, s1, s1.StartDecorating(t, v), s', t);
    }
  }

  /** Other types of the same rank, and all higher ones, are as they were. */
  lemma SameBeyond(c: Config, rank: Rank, s: State, s1: State, v: Instance, s': State, t: Ty)
    requires Ranked(c, rank) && Grown(c, rank, s.Log(t, 0), s1, rank(t)) && QuietUpTo(c, rank, s, rank(t) + 1)
    requires forall u :: rank(u) >= rank(t) && u != t ==> s'.SameAt(s1.StartDecorating(t, v), u)
    requires QuietUpTo(c, rank, s', rank(t))
    ensures forall u :: rank(u) >= rank(t) + 1 ==> s'.SameAt(s, u)
    ensures QuietAt(c, rank, s', t) ==> QuietUpTo(c, rank, s', rank(t) + 1)
  {
    forall u | rank(u) >= rank(t) && u != t
      ensures s'.SameAt(s, u)
    {
      assert s'.SameAt(s1.StartDecorating(t, v), u) && s1.SameAt(s.Log(t, 0), u);
    }
    if QuietAt(c, rank, s', t) {
      forall u | rank(u) < rank(t) + 1
        ensures QuietAt(c, rank, s', u)
      {
        if rank(u) == rank(t) && u != t { assert QuietAt(c, rank, s, u) && s'.SameAt(s, u); }
      }
    }
  }

  lemma LeftResolve(c: Config, rank: Rank, s: State, s1: State, v: Instance, s': State, t: Ty)
    requires Ranked(c, rank) && t in c.resolvers && !Eval(c, rank, t).Have? && QuietUpTo(c, rank, s, rank(t) + 1)
    requires Grown(c, rank, s.Log(t, 0), s1, rank(t)) && LeftUndone(c, rank, s1.StartDecorating(t, v), s', t)
    ensures if GoodAt(c, rank, t) then Grown(c, rank, s, s', rank(t) + 1) else Found(c, rank, s, s', t)
  {
    assert s1.SameAt(s.Log(t, 0), t) && !Complete(c, rank);
    SameBeyond(c, rank, s, s1, v, s', t);
  }

  /** What a failed resolution leaves is found by the next lookup, unless there was a final instance before. */
  ghost predicate Found(c: Config, rank: Rank, s: State, s': State, t: Ty)
    requires Ranked(c, rank) && t in c.resolvers
  {
    s'.Lookup(t).Some? && (t !in s.final ==> Leftover(c, rank, t, |c.Decorators(t)|) == Have(s'.Lookup(t).value))
  }

  lemma ResolveUnfolds(c: Config, rank: Rank, s: State, t: Ty, s1: State, made: Got<Instance>)
    requires Ranked(c, rank) && Decorable(c) && t in c.resolvers && MayRequest(s.Log(t, 0), rank, t, c.resolvers[t])
    requires var asked := Ask(c, rank, s.Log(t, 0), t, c.resolvers[t], c.resolvers[t].limit);
             asked.0 == s1 && Made(c.resolvers[t], asked.1) == made
    ensures if made.Have? then
              var s2 := s1.StartDecorating(t, made.value);
              InHand(c, s2, t, 0) && Resolve(c, rank, s, t) == Decorate(c, rank, s2, t, 0, made.value)
            else Resolve(c, rank, s, t) == (s1, made)
  {
  }

  lemma StartsDecorating(c: Config, rank: Rank, s: State, t: Ty, s1: State, v: Instance)
    requires Ranked(c, rank) && t in c.resolvers && s.Lookup(t).None? && Sane(c, rank, s)
    requires Grown(c, rank, s.Log(t, 0), s1, rank(t)) && DecoratedTo(c, rank, t, 0) == Have(v)
    ensures Decorating(c, rank, s1.StartDecorating(t, v), t, 0, v) && (Once(c, rank) ==> t !in s.final)
  {
    var s2 := s1.StartDecorating(t, v);
    assert s1.SameAt(s.Log(t, 0), t);
    MadeBy(c, rank, t, 0);
    forall u | rank(u) < rank(t)
      ensures QuietAt(c, rank, s2, u)
    {
      assert QuietAt(c, rank, s1, u);
    }
    if Once(c, rank) { EvalTruth(c, rank, t); }
  }

  /** If no callable returns anything falsy, no plain value is falsy. */
  lemma EvalTruth(c: Config, rank: Rank, t: Ty)
    requires Ranked(c, rank) && Truthy(c) && t in c.resolvers && Eval(c, rank, t).Have?
    ensures Eval(c, rank, t).value.truthy
  {
    var ds := c.Decorators(t);
    MadeBy(c, rank, t, |ds|);
    if ds != [] { assert ds[|ds| - 1] in ds; }
  }

  /** A base instance that cannot be had leaves only what was resolved on the way. */
  lemma FailedBase(c: Config, rank: Rank, s: State, t: Ty, s1: State)
    requires Ranked(c, rank) && t in c.resolvers && !DecoratedTo(c, rank, t, 0).Have?
    requires Grown(c, rank, s.Log(t, 0), s1, rank(t)) && QuietUpTo(c, rank, s, rank(t) + 1)
    ensures Grown(c, rank, s, s1, rank(t) + 1) && GoodAt(c, rank, t) && Eval(c, rank, t) == DecoratedTo(c, rank, t, 0)
  {
    DecoratedStepwise(c, rank, t, 0, |c.Decorators(t)|);
    NothingLeft(c, rank, t, |c.Decorators(t)|);
    assert !Complete(c, rank);
    forall u | rank(u) < rank(t) + 1
      ensures QuietAt(c, rank, s1, u)
    {
      if rank(u) == rank(t) { assert QuietAt(c, rank, s, u) && s1.SameAt(s.Log(t, 0), u); }
    }
    forall u | rank(u) >= rank(t) + 1
      ensures s1.SameAt(s, u)
    {
      assert s1.SameAt(s.Log(t, 0), u);
    }
  }

  /**
   A registered type that is not found resolves to its plain evaluation. What that leaves is in
   order, unless a decorator raised with a truthy instance in place, which is then found.
   */
  lemma {:induction false} ResolveAgrees(c: Config, rank: Rank, s: State, t: Ty) returns (s': State)
    requires Ranked(c, rank) && Decorable(c) && SoundBelow(c, rank, rank(t))
    requires Sane(c, rank, s) && QuietUpTo(c, rank, s, rank(t) + 1)
    requires t in c.resolvers && s.Lookup(t).None?
    ensures Resolve(c, rank, s, t) == (s', Eval(c, rank, t)) && (Eval(c, rank, t).Have? ==> t in s'.final)
    ensures if GoodAt(c, rank, t) then Grown(c, rank, s, s', rank(t) + 1) else Found(c, rank, s, s', t)
    decreases rank(t), 3, 0
  {
    var r, made := c.resolvers[t], DecoratedTo(c, rank, t, 0);
    LogIsQuiet(c, rank, s, t, 0, rank(t));
    var s1 := AskAgrees(c, rank, s.Log(t, 0), t, r, None, r.limit);
    ResolveUnfolds(c, rank, s, t, s1, made);
    if made.Have? {
      StartsDecorating(c, rank, s, t, s1, made.value);
      s' := DecorateAgrees(c, rank, s1.StartDecorating(t, made.value), t, 0, made.value);
      if Eval(c, rank, t).Have? {
        CompletedResolve(c, rank, s, s1, made.value, s', t);
      } else {
        LeftResolve(c, rank, s, s1, made.value, s', t);
      }
    } else {
      s' := s1;
      FailedBase(c, rank, s, t, s1);
    }
  }

  /******* The main results *******/

  lemma CompleteIsSound(c: Config, rank: Rank)
    requires Ranked(c, rank) && Complete(c, rank)
    ensures Sound(c, rank)
  {
  }

  lemma GetAgrees(c: Config, rank: Rank, s: State, t: Ty) returns (s': State)
    requires Ranked(c, rank) && Decorable(c) && Sound(c, rank) && Sane(c, rank, s) && Calm(c, rank, s)
    ensures Get(c, rank, s, t) == (s', Eval(c, rank, t)) && Grown(c, rank, s, s', rank(t) + 1)
    ensures t in c.resolvers && Eval(c, rank, t).Have? ==> t in s'.final
  {
    if s.Lookup(t).None? && t in c.resolvers {
      s' := ResolveAgrees(c, rank, s, t);
    } else {
      s' := s;
      assert QuietAt(c, rank, s, t);
      GrownRefl(c, rank, s, rank(t) + 1);
    }
  }

  /** From the fresh state: types were resolved, and nothing is found half done. */
  ghost predicate Reached(c: Config, rank: Rank, s: State, bound: nat)
    requires Ranked(c, rank)
  {
    Grown(c, rank, FRESH_STATE, s, bound)
  }

  lemma ReachedIsCalm(c: Config, rank: Rank, s: State, bound: nat)
    requires Ranked(c, rank) && Reached(c, rank, s, bound)
    ensures Sane(c, rank, s) && Calm(c, rank, s)
  {
    GrownCalm(c, rank, FRESH_STATE, s, bound);
  }

  lemma FreshIsReached(c: Config, rank: Rank)
    requires Ranked(c, rank)
    ensures Reached(c, rank, FRESH_STATE, 0)
  {
    GrownRefl(c, rank, FRESH_STATE, 0);
  }

  lemma ReachedMore(c: Config, rank: Rank, s: State, s': State, bound: nat, t: Ty)
    requires Ranked(c, rank) && Reached(c, rank, s, bound) && Grown(c, rank, s, s', rank(t) + 1)
    ensures Reached(c, rank, s', bound + rank(t) + 1)
  {
    var wide := bound + rank(t) + 1;
    ReachedIsCalm(c, rank, s, bound);
    GrownWider(c, rank, FRESH_STATE, s, bound, wide);
    GrownWider(c, rank, s, s', rank(t) + 1, wide);
    GrownTrans(c, rank, FRESH_STATE, s, s', wide);
  }

  /** How the loop over the first n registered types should end. */
  function Loop(c: Config, rank: Rank, n: nat): Got<nat>
    requires Ranked(c, rank) && n <= |c.order|
  {
    if n == 0 then Have(0) else
      var before, v := Loop(c, rank, n - 1), Eval(c, rank, c.order[n - 1]);
      if !before.Have? then before else if v.Have? then Have(n) else v.Failing()
  }

  lemma MakeFinalAgrees(c: Config, rank: Rank, s: State, n: nat, bound: nat) returns (s': State)
    requires Ranked(c, rank) && Decorable(c) && Sound(c, rank) && Reached(c, rank, s, bound)
    requires n < |c.order| && Loop(c, rank, n).Have?
    ensures MakeFinal(c, rank, s, n) == (s', Loop(c, rank, n + 1)) && Reached(c, rank, s', bound + rank(c.order[n]) + 1)
    ensures s.final.Keys <= s'.final.Keys
    ensures c.order[n] in c.resolvers && Eval(c, rank, c.order[n]).Have? ==> c.order[n] in s'.final
  {
    var t := c.order[n];
    ReachedIsCalm(c, rank, s, bound);
    if t in s.final {
      s' := s;
      GrownWider(c, rank, FRESH_STATE, s, bound, bound + rank(t) + 1);
    } else {
      s' := GetAgrees(c, rank, s, t);
      ReachedMore(c, rank, s, s', bound, t);
    }
  }

  predicate AllFinal(ts: seq<Ty>, s: State) { forall t :: t in ts ==> t in s.final }

  lemma OneMoreFinal(ts: seq<Ty>, n: nat, s: State, s': State)
    requires n < |ts| && AllFinal(ts[..n], s) && s.final.Keys <= s'.final.Keys && ts[n] in s'.final
    ensures AllFinal(ts[..n + 1], s')
  {
    assert ts[..n + 1] == ts[..n] + [ts[n]];
  }

  /** From state s0 the loop over the first n types ended as it should, with these final. */
  ghost predicate LoopedTo(c: Config, rank: Rank, s0: State, n: nat, s: State, bound: nat)
    requires Ranked(c, rank) && Decorable(c) && n <= |c.order|
  {
    && ResolveAll(c, rank, s0, n) == (s, Loop(c, rank, n)) && Reached(c, rank, s, bound)
    && (Loop(c, rank, n).Have? ==> AllFinal(c.order[..n], s))
  }

  lemma LoopStarts(c: Config, rank: Rank, s0: State, low: nat)
    requires Ranked(c, rank) && Decorable(c) && Reached(c, rank, s0, low)
    ensures LoopedTo(c, rank, s0, 0, s0, low)
  {
  }

  lemma LoopOnce(c: Config, rank: Rank, s0: State, n: nat, s: State, bound: nat) returns (s': State)
    requires Ranked(c, rank) && Decorable(c) && Sound(c, rank) && n < |c.order| && c.order[n] in c.resolvers
    requires LoopedTo(c, rank, s0, n, s, bound) && Loop(c, rank, n).Have?
    ensures LoopedTo(c, rank, s0, n + 1, s', bound + rank(c.order[n]) + 1)
  {
    s' := MakeFinalAgrees(c, rank, s, n, bound);
    if Loop(c, rank, n + 1).Have? { OneMoreFinal(c.order, n, s, s'); }
  }

  lemma LoopStopped(c: Config, rank: Rank, s0: State, n: nat, s: State, bound: nat)
    requires Ranked(c, rank) && Decorable(c) && n < |c.order|
    requires LoopedTo(c, rank, s0, n, s, bound) && !Loop(c, rank, n).Have?
    ensures LoopedTo(c, rank, s0, n + 1, s, bound)
  {
  }

  lemma LoopNext(c: Config, rank: Rank, s0: State, n: nat, s: State, bound: nat) returns (bound': nat, s': State)
    requires Ranked(c, rank) && Decorable(c) && Sound(c, rank) && n < |c.order| && c.order[n] in c.resolvers
    requires LoopedTo(c, rank, s0, n, s, bound)
    ensures LoopedTo(c, rank, s0, n + 1, s', bound')
  {
    if Loop(c, rank, n).Have? {
      s' := LoopOnce(c, rank, s0, n, s, bound);
      bound' := bound + rank(c.order[n]) + 1;
    } else {
      bound', s' := bound, s;
      LoopStopped(c, rank, s0, n, s, bound);
    }
  }

  /** From any state reached, the loop ends as the plain evaluation of the registered types, in their order, says. */
  lemma {:induction false} ResolveAllAgrees(c: Config, rank: Rank, s0: State, low: nat, n: nat)
    returns (bound: nat, s: State)
    requires Ranked(c, rank) && Decorable(c) && Sound(c, rank) && n <= |c.order| && Reached(c, rank, s0, low)
    requires forall t :: t in c.order ==> t in c.resolvers
    ensures LoopedTo(c, rank, s0, n, s, bound)
  {
    if n == 0 {
      bound, s := low, s0;
      LoopStarts(c, rank, s0, low);
    } else {
      bound, s := ResolveAllAgrees(c, rank, s0, low, n - 1);
      bound, s := LoopNext(c, rank, s0, n - 1, s, bound);
    }
  }

  lemma {:induction false} CompleteLoops(c: Config, rank: Rank, n: nat)
    requires Ranked(c, rank) && Complete(c, rank) && n <= |c.order| && forall t :: t in c.order ==> t in c.resolvers
    ensures Loop(c, rank, n) == Have(n)
  {
    if n > 0 { CompleteLoops(c, rank, n - 1); }
  }

  lemma {:induction false} LoopEvaluates(c: Config, rank: Rank, n: nat, i: nat)
    requires Ranked(c, rank) && i < n <= |c.order| && Loop(c, rank, n).Have?
    ensures Eval(c, rank, c.order[i]).Have?
  {
    if i < n - 1 { LoopEvaluates(c, rank, n - 1, i); }
  }

  /** Every resolver and decorator ran once. */
  ghost predicate RanOnce(c: Config, journal: seq<Run>) {
    forall t, k: nat :: Count(journal, (t, k)) == if t in c.resolvers && k <= |c.Decorators(t)| then 1 else 0
  }

  lemma JournalFrom(c: Config, s: State)
    requires Accounted(c, FRESH_STATE, s) && s.final.Keys == c.resolvers.Keys
    ensures RanOnce(c, s.journal)
  {
    forall t, k: nat
      ensures Count(s.journal, (t, k)) == if t in c.resolvers && k <= |c.Decorators(t)| then 1 else 0
    {
      assert Count(FRESH_STATE.journal, (t, k)) == 0;
    }
  }

  lemma CompleteIsClean(c: Config, rank: Rank, s: State)
    requires Ranked(c, rank) && Complete(c, rank) && Calm(c, rank, s)
    ensures s.temp == map[] && s.running == {}
  {
    forall u
      ensures u !in s.temp && u !in s.running
    {
      assert QuietAt(c, rank, s, u);
    }
  }

  lemma AllAreFinal(c: Config, rank: Rank, s: State)
    requires Ranked(c, rank) && Sane(c, rank, s) && AllFinal(c.order[..|c.order|], s)
    requires forall t :: t in c.resolvers ==> t in c.order && Eval(c, rank, t).Have?
    ensures s.final == map t | t in c.resolvers :: Eval(c, rank, t).value
  {
    assert c.order[..|c.order|] == c.order;
    forall t | t in s.final
      ensures t in c.resolvers
    {
      assert Eval(c, rank, t).Have?;
    }
  }

  /** The state after a series of lookups, whether they succeed or not. */
  function After(c: Config, rank: Rank, ts: seq<Ty>): State
    requires Ranked(c, rank) && Decorable(c)
  {
    if ts == [] then FRESH_STATE else Get(c, rank, After(c, rank, ts[..|ts| - 1]), ts[|ts| - 1]).0
  }

  /** After any series of lookups, a lookup gives the plain value, or the same exception. */
  ghost predicate AlwaysAgrees(c: Config, rank: Rank)
    requires Ranked(c, rank) && Decorable(c)
  {
    forall ts, t :: Get(c, rank, After(c, rank, ts), t).1 == Eval(c, rank, t)
  }

  lemma {:induction false} AfterIsReached(c: Config, rank: Rank, ts: seq<Ty>) returns (bound: nat)
    requires Ranked(c, rank) && Decorable(c) && Sound(c, rank)
    ensures Reached(c, rank, After(c, rank, ts), bound)
  {
    if ts == [] {
      bound := 0;
      FreshIsReached(c, rank);
    } else {
      var before, t := ts[..|ts| - 1], ts[|ts| - 1];
      var low := AfterIsReached(c, rank, before);
      ReachedIsCalm(c, rank, After(c, rank, before), low);
      var s' := GetAgrees(c, rank, After(c, rank, before), t);
      ReachedMore(c, rank, After(c, rank, before), s', low, t);
      bound := low + rank(t) + 1;
    }
  }

  /**
   When every registered type can be evaluated, `resolve_remaining`, after any series of
   lookups, ends without an error, leaves each type with its plain evaluation, and, if no
   instance is falsy, every resolver and decorator has run exactly once by then.
   */
  lemma MemoisedResolutionIsEvaluation(c: Config, rank: Rank, ts: seq<Ty>)
    requires Ranked(c, rank) && Decorable(c) && Complete(c, rank)
    requires forall t :: t in c.order <==> t in c.resolvers
    ensures var all := ResolveAll(c, rank, After(c, rank, ts), |c.order|);
            && all.1.Have?
            && all.0.final == (map t | t in c.resolvers :: Eval(c, rank, t).value)
            && all.0.temp == map[] && all.0.running == {}
            && (Truthy(c) ==> RanOnce(c, all.0.journal))
  {
    CompleteIsSound(c, rank);
    CompleteLoops(c, rank, |c.order|);
    var low := AfterIsReached(c, rank, ts);
    var bound, end := ResolveAllAgrees(c, rank, After(c, rank, ts), low, |c.order|);
    ReachedIsCalm(c, rank, end, bound);
    CompleteIsClean(c, rank, end);
    AllAreFinal(c, rank, end);
    if Truthy(c) { JournalFrom(c, end); }
  }

  /** A type of lowest rank among those with a decorator that raises once a truthy instance is in place. */
  lemma {:induction false} LowestBad(c: Config, rank: Rank, t: Ty) returns (low: Ty)
    requires Ranked(c, rank) && t in c.resolvers && !GoodAt(c, rank, t)
    ensures low in c.resolvers && !GoodAt(c, rank, low) && SoundBelow(c, rank, rank(low))
    decreases rank(t)
  {
    if u :| u in c.resolvers && rank(u) < rank(t) && !GoodAt(c, rank, u) {
      low := LowestBad(c, rank, u);
    } else {
      low := t;
    }
  }

  /** Looking such a type up raises; looking it up again gives what the decorators before the failure made. */
  lemma TheSecondLookupHidesTheError(c: Config, rank: Rank, t: Ty)
    requires Ranked(c, rank) && Decorable(c) && t in c.resolvers && !GoodAt(c, rank, t) && SoundBelow(c, rank, rank(t))
    ensures var first := Get(c, rank, FRESH_STATE, t);
            && first.1 == Eval(c, rank, t) && !first.1.Have?
            && Get(c, rank, first.0, t).1 == Leftover(c, rank, t, |c.Decorators(t)|)
  {
    var _ := ResolveAgrees(c, rank, FRESH_STATE, t);
  }

  /**
   Lookups agree with plain evaluation over every series of lookups, failing ones included, if
   and only if no registered type has a decorator that raises once a truthy instance is in place.
   */
  lemma LookupsAgreeIffSound(c: Config, rank: Rank)
    requires Ranked(c, rank) && Decorable(c)
    ensures AlwaysAgrees(c, rank) <==> Sound(c, rank)
  {
    if Sound(c, rank) {
      forall ts, t
        ensures Get(c, rank, After(c, rank, ts), t).1 == Eval(c, rank, t)
      {
        AfterAgrees(c, rank, ts, t);
      }
    } else {
      var bad :| bad in c.resolvers && !GoodAt(c, rank, bad);
      var low := LowestBad(c, rank, bad);
      TheSecondLookupHidesTheError(c, rank, low);
      assert After(c, rank, [low]) == Get(c, rank, FRESH_STATE, low).0 by { assert [low][..0] == []; }
      assert Get(c, rank, After(c, rank, [low]), low).1 != Eval(c, rank, low);
    }
  }

  lemma AfterAgrees(c: Config, rank: Rank, ts: seq<Ty>, t: Ty)
    requires Ranked(c, rank) && Decorable(c) && Sound(c, rank)
    ensures Get(c, rank, After(c, rank, ts), t).1 == Eval(c, rank, t)
  {
    var bound := AfterIsReached(c, rank, ts);
    ReachedIsCalm(c, rank, After(c, rank, ts), bound);
    var _ := GetAgrees(c, rank, After(c, rank, ts), t);
  }

  /** The same series of lookups as the code makes it. */
  function AfterFinds(c: Config, depth: nat, ts: seq<Ty>): State {
    if ts == [] then FRESH_STATE else Find(c, depth, AfterFinds(c, depth, ts[..|ts| - 1]), ts[|ts| - 1]).0
  }

  lemma {:induction false} AfterFindsIsAfter(c: Config, rank: Rank, depth: nat, ts: seq<Ty>)
    requires Ranked(c, rank) && Decorable(c) && forall t :: t in ts ==> depth > rank(t)
    ensures AfterFinds(c, depth, ts) == After(c, rank, ts)
  {
    if ts != [] {
      var before, t := ts[..|ts| - 1], ts[|ts| - 1];
      AfterFindsIsAfter(c, rank, depth, before);
      FindIsGet(c, rank, depth, After(c, rank, before), t);
    }
  }

  /** In a sound configuration the code's lookups give the plain evaluation, whatever was looked up before. */
  lemma FindAgrees(c: Config, rank: Rank, depth: nat, ts: seq<Ty>, t: Ty)
    requires Ranked(c, rank) && Decorable(c) && Sound(c, rank)
    requires forall u :: u in ts + [t] ==> depth > rank(u)
    ensures Find(c, depth, AfterFinds(c, depth, ts), t).1 == Eval(c, rank, t)
  {
    assert t in ts + [t] && forall u :: u in ts ==> u in ts + [t];
    AfterFindsIsAfter(c, rank, depth, ts);
    AfterAgrees(c, rank, ts, t);
    FindIsGet(c, rank, depth, After(c, rank, ts), t);
  }

  /******* When resolving what remains raises *******/

  /** In a sound configuration it raises exactly when some registered type cannot be evaluated, whatever came before. */
  lemma RaisesIffIncomplete(c: Config, rank: Rank, ts: seq<Ty>)
    requires Ranked(c, rank) && Decorable(c) && Sound(c, rank)
    requires forall t :: t in c.order <==> t in c.resolvers
    ensures ResolveAll(c, rank, After(c, rank, ts), |c.order|).1.Have? <==> Complete(c, rank)
  {
    var low := AfterIsReached(c, rank, ts);
    var _, _ := ResolveAllAgrees(c, rank, After(c, rank, ts), low, |c.order|);
    if Complete(c, rank) { CompleteLoops(c, rank, |c.order|); }
    if Loop(c, rank, |c.order|).Have? {
      forall t | t in c.resolvers
        ensures Eval(c, rank, t).Have?
      {
        var i :| 0 <= i < |c.order| && c.order[i] == t;
        LoopEvaluates(c, rank, |c.order|, i);
      }
    }
  }

  /** The callable got what it asked for of the registered types, and a KeyError for others. */
  ghost predicate Given(c: Config, r: Recipe, answers: seq<Got<Instance>>) {
    forall i :: 0 <= i < |answers| ==>
      && r.request(answers[..i]).Some?
      && if r.request(answers[..i]).value in c.resolvers then answers[i].Have? else answers[i].Missing?
  }

  /** Then it returns an instance. */
  ghost predicate ClosedRecipe(c: Config, r: Recipe) {
    forall answers :: Given(c, r, answers) ==> r.ending(answers).Returns?
  }

  /** No callable raises by itself, or for want of a type that is not registered. */
  ghost predicate Closed(c: Config) {
    && (forall t :: t in c.resolvers ==> ClosedRecipe(c, c.resolvers[t]))
    && (forall t, d :: t in c.resolvers && d in c.Decorators(t) ==> ClosedRecipe(c, d))
  }

  lemma GivenOneMore(c: Config, r: Recipe, answers: seq<Got<Instance>>, answer: Got<Instance>)
    requires Given(c, r, answers) && r.request(answers).Some?
    requires if r.request(answers).value in c.resolvers then answer.Have? else answer.Missing?
    ensures Given(c, r, answers + [answer])
  {
    var more := answers + [answer];
    forall i | 0 <= i < |more|
      ensures r.request(more[..i]).Some?
      ensures if r.request(more[..i]).value in c.resolvers then more[i].Have? else more[i].Missing?
    {
      assert more[..i] == answers[..i];
      assert i == |answers| ==> more[..i] == answers;
    }
  }

  lemma AnswerIsGiven(c: Config, rank: Rank, t: Ty, u: Ty, own: Option<Instance>)
    requires Ranked(c, rank) && (if u == t then own.Some? && t in c.resolvers else rank(u) < rank(t))
    requires u != t && u in c.resolvers ==> DecoratedTo(c, rank, u, |c.Decorators(u)|).Have?
    ensures var answer := AnswerTo(c, rank, t, u, own); if u in c.resolvers then answer.Have? else answer.Missing?
  {
  }

  lemma {:induction false} ClosedAnswers(c: Config, rank: Rank, t: Ty, r: Recipe, own: Option<Instance>, n: nat)
    requires Ranked(c, rank) && Closed(c) && t in c.resolvers && AsksBelow(r, t, rank)
    requires own.Some? || AsksLower(r, t, rank)
    ensures Given(c, r, Answers(c, rank, t, r, own, n))
    decreases rank(t), 0, n
  {
    if n > 0 {
      ClosedAnswers(c, rank, t, r, own, n - 1);
      var before := Answers(c, rank, t, r, own, n - 1);
      if r.request(before).Some? {
        var u := r.request(before).value;
        if u != t && u in c.resolvers { ClosedEvaluates(c, rank, u, |c.Decorators(u)|); }
        AnswerIsGiven(c, rank, t, u, own);
        GivenOneMore(c, r, before, AnswerTo(c, rank, t, u, own));
      }
    }
  }

  lemma {:induction false} ClosedEvaluates(c: Config, rank: Rank, t: Ty, k: nat)
    requires Ranked(c, rank) && Closed(c) && t in c.resolvers && k <= |c.Decorators(t)|
    ensures DecoratedTo(c, rank, t, k).Have?
    decreases rank(t), 1, k
  {
    if k == 0 {
      ClosedAnswers(c, rank, t, c.resolvers[t], None, c.resolvers[t].limit);
    } else {
      var d := c.Decorators(t)[k - 1];
      assert d in c.Decorators(t);
      assert ClosedRecipe(c, d);
      ClosedEvaluates(c, rank, t, k - 1);
      ClosedAnswers(c, rank, t, d, Some(DecoratedTo(c, rank, t, k - 1).value), d.limit);
    }
  }

  /** So a configuration without missing dependencies and exceptions is complete, and hence sound. */
  lemma ClosedIsComplete(c: Config, rank: Rank)
    requires Ranked(c, rank) && Closed(c)
    ensures Complete(c, rank) && Sound(c, rank)
  {
    forall t | t in c.resolvers
      ensures Eval(c, rank, t).Have?
    {
      ClosedEvaluates(c, rank, t, |c.Decorators(t)|);
    }
  }
}

/**
 For configurations without cyclic requests the lookup needs no bound on its depth: the rank of
 a type bounds the recursion, and this is the form that the results about lookups are about.
 Any stack deeper than the rank makes the code behave like it.
 */
module RankedResolution {
  import opened Messages
  import opened DependencyResolvers

  type Rank = Ty -> nat

  ghost predicate AsksLower(r: Recipe, t: Ty, rank: Rank) {
    forall answers :: r.request(answers).Some? ==> rank(r.request(answers).value) < rank(t)
  }

  ghost predicate AsksBelow(r: Recipe, t: Ty, rank: Rank) {
    forall answers :: r.request(answers).Some? ==>
      r.request(answers).value == t || rank(r.request(answers).value) < rank(t)
  }

  /** Resolvers ask for lower-ranked types only, decorators for their own type or lower ones. */
  ghost predicate Ranked(c: Config, rank: Rank) {
    && (forall t :: t in c.resolvers ==> AsksLower(c.resolvers[t], t, rank))
    && (forall t, d :: d in c.Decorators(t) ==> AsksBelow(d, t, rank))
  }

  /** The callable whose instance decorator k gets when it asks for its own type. */
  function Maker(c: Config, t: Ty, k: nat): Recipe
    requires t in c.resolvers && k <= |c.Decorators(t)|
  {
    if k == 0 then c.resolvers[t] else c.Decorators(t)[k - 1]
  }

  ghost predicate AsksFor(r: Recipe, t: Ty) { exists answers :: r.request(answers) == Some(t) }

  ghost predicate CanReturn(r: Recipe, truthy: bool) { exists answers :: r.ending(answers) == Returns(truthy) }

  /** A decorator that asks for its own type does not find a falsy instance: that would start all over again. */
  ghost predicate Decorable(c: Config) {
    forall t, k: nat :: t in c.resolvers && k < |c.Decorators(t)| && AsksFor(c.Decorators(t)[k], t) ==>
      !CanReturn(Maker(c, t, k), false)
  }

  /******* Lookups, state in, state and answer out *******/

  function Get(c: Config, rank: Rank, s: State, t: Ty): (r: (State, Got<Instance>))
    requires Ranked(c, rank) && Decorable(c)
    ensures forall u :: rank(u) > rank(t) ==> r.0.SameAt(s, u)
    decreases rank(t), 3, 0
  {
    if s.Lookup(t).Some? then (s, Have(s.Lookup(t).value)) else Resolve(c, rank, s, t)
  }

  function Resolve(c: Config, rank: Rank, s: State, t: Ty): (r: (State, Got<Instance>))
    requires Ranked(c, rank) && Decorable(c)
    ensures forall u :: rank(u) > rank(t) ==> r.0.SameAt(s, u)
    decreases rank(t), 2, 0
  {
    if t !in c.resolvers then (s, Missing) else
      var built := Ask(c, rank, s.Log(t, 0), t, c.resolvers[t], c.resolvers[t].limit);
      var made := Made(c.resolvers[t], built.1);
      if !made.Have? then (built.0, made)
      else Decorate(c, rank, built.0.StartDecorating(t, made.value), t, 0, made.value)
  }

  /** Type t is being decorated, and what decorator k finds was made by the callable before it. */
  ghost predicate InHand(c: Config, s: State, t: Ty, k: nat)
    requires t in c.resolvers && k <= |c.Decorators(t)|
  {
    t in s.running && t in s.temp && CanReturn(Maker(c, t, k), s.temp[t].truthy)
  }

  /** A recipe may ask for lower types, and for its own only while that is being decorated. */
  ghost predicate MayRequest(s: State, rank: Rank, t: Ty, r: Recipe) {
    forall answers :: r.request(answers).Some? ==>
      rank(r.request(answers).value) < rank(t) || (r.request(answers).value == t && s.Ready(t))
  }

  lemma DecoratorMayRequest(c: Config, rank: Rank, s: State, t: Ty, k: nat)
    requires Ranked(c, rank) && Decorable(c) && t in c.resolvers && k < |c.Decorators(t)| && InHand(c, s, t, k)
    ensures MayRequest(s.Log(t, k + 1), rank, t, c.Decorators(t)[k])
  {
    var d := c.Decorators(t)[k];
    assert d in c.Decorators(t) && AsksBelow(d, t, rank);
    forall answers | d.request(answers).Some?
      ensures rank(d.request(answers).value) < rank(t) || (d.request(answers).value == t && s.Ready(t))
    {
      if d.request(answers).value == t { assert d.request(answers) == Some(t) && AsksFor(d, t); }
    }
  }

  function Decorate(c: Config, rank: Rank, s: State, t: Ty, k: nat, v: Instance): (r: (State, Got<Instance>))
    requires Ranked(c, rank) && Decorable(c)
    requires t in c.resolvers && k <= |c.Decorators(t)| && InHand(c, s, t, k)
    ensures forall u :: rank(u) > rank(t) ==> r.0.SameAt(s, u)
    decreases rank(t), 1, |c.Decorators(t)| - k
  {
    if k == |c.Decorators(t)| then (s.Finish(t, v), Have(v)) else
      var d := c.Decorators(t)[k];
      DecoratorMayRequest(c, rank, s, t, k);
      var built := Ask(c, rank, s.Log(t, k + 1), t, d, d.limit);
      var made := Made(d, built.1);
      if !made.Have? then (built.0, made) else
        assert built.0.SameAt(s.Log(t, k + 1), t);
        Decorate(c, rank, built.0.(temp := built.0.temp[t := made.value]), t, k + 1, made.value)
  }

  /** The answers to the first n requests of a recipe of type t, or to all if there are fewer. */
  function Ask(c: Config, rank: Rank, s: State, t: Ty, r: Recipe, n: nat): (a: (State, seq<Got<Instance>>))
    requires Ranked(c, rank) && Decorable(c) && MayRequest(s, rank, t, r)
    ensures forall u :: rank(u) >= rank(t) ==> a.0.SameAt(s, u)
    decreases rank(t), 0, n
  {
    if n == 0 then (s, []) else
      var before := Ask(c, rank, s, t, r, n - 1);
      match r.request(before.1)
      case None => before
      case Some(u) => var got := AskOne(c, rank, before.0, t, u); (got.0, before.1 + [got.1])
  }

  function AskOne(c: Config, rank: Rank, s: State, t: Ty, u: Ty): (a: (State, Got<Instance>))
    requires Ranked(c, rank) && Decorable(c)
    requires rank(u) < rank(t) || (u == t && s.Ready(t))
    ensures forall o :: rank(o) >= rank(t) ==> a.0.SameAt(s, o)
    decreases rank(t), 0, 0
  {
    var found := s.Lookup(u);
    if found.Some? then (s, Have(found.value)) else Resolve(c, rank, s, u)
  }

  /** The loop of `resolve_remaining` over the first n registered types. */
  function ResolveAll(c: Config, rank: Rank, s: State, n: nat): (State, Got<nat>)
    requires Ranked(c, rank) && Decorable(c) && n <= |c.order|
  {
    if n == 0 then (s, Have(0)) else
      var before := ResolveAll(c, rank, s, n - 1);
      if !before.1.Have? then before else MakeFinal(c, rank, before.0, n - 1)
  }

  /** One pass of it. */
  function MakeFinal(c: Config, rank: Rank, s: State, n: nat): (State, Got<nat>)
    requires Ranked(c, rank) && Decorable(c) && n < |c.order|
  {
    if c.order[n] in s.final then (s, Have(n + 1)) else Counted(Get(c, rank, s, c.order[n]), n + 1)
  }

  /** After one more decorator, which raised or made an instance. */
  lemma DecorateNext(c: Config, rank: Rank, s: State, t: Ty, k: nat, v: Instance, s1: State, made: Got<Instance>)
    requires Ranked(c, rank) && Decorable(c) && t in c.resolvers && k < |c.Decorators(t)| && InHand(c, s, t, k)
    requires var d := c.Decorators(t)[k];
             && MayRequest(s.Log(t, k + 1), rank, t, d)
             && var asked := Ask(c, rank, s.Log(t, k + 1), t, d, d.limit);
                asked.0 == s1 && Made(d, asked.1) == made
    ensures if made.Have? then
              var s2 := s1.(temp := s1.temp[t := made.value]);
              InHand(c, s2, t, k + 1) && Decorate(c, rank, s, t, k, v) == Decorate(c, rank, s2, t, k + 1, made.value)
            else Decorate(c, rank, s, t, k, v) == (s1, made)
  {
    assert s1.SameAt(s.Log(t, k + 1), t);
  }

  /******* The code behaves like this form wherever its stack is deep enough *******/

  lemma {:induction false} FindIsGet(c: Config, rank: Rank, depth: nat, s: State, t: Ty)
    requires Ranked(c, rank) && Decorable(c) && depth > rank(t)
    ensures Find(c, depth, s, t) == Get(c, rank, s, t)
    decreases rank(t), 3, 0
  {
    if s.Lookup(t).None? { BuildIsResolve(c, rank, depth, s, t); }
  }

  lemma {:induction false} BuildIsResolve(c: Config, rank: Rank, depth: nat, s: State, t: Ty)
    requires Ranked(c, rank) && Decorable(c) && depth > rank(t)
    ensures Build(c, depth, s, t) == Resolve(c, rank, s, t)
    decreases rank(t), 2, 0
  {
    if t in c.resolvers {
      var r := c.resolvers[t];
      var built := Ask(c, rank, s.Log(t, 0), t, r, r.limit);
      QueryIsAsk(c, rank, depth, s.Log(t, 0), t, r, r.limit);
      var made := Made(r, built.1);
      if made.Have? {
        AdornIsDecorate(c, rank, depth, built.0.StartDecorating(t, made.value), t, 0, made.value);
      }
    }
  }

  lemma {:induction false} AdornIsDecorate(c: Config, rank: Rank, depth: nat, s: State, t: Ty, k: nat, v: Instance)
    requires Ranked(c, rank) && Decorable(c) && depth > rank(t)
    requires t in c.resolvers && k <= |c.Decorators(t)| && InHand(c, s, t, k)
    ensures Adorn(c, depth, s, t, k, v) == Decorate(c, rank, s, t, k, v)
    decreases rank(t), 1, |c.Decorators(t)| - k
  {
    if k < |c.Decorators(t)| {
      var d := c.Decorators(t)[k];
      DecoratorMayRequest(c, rank, s, t, k);
      var asked := Ask(c, rank, s.Log(t, k + 1), t, d, d.limit);
      var made := Made(d, asked.1);
      QueryIsAsk(c, rank, depth, s.Log(t, k + 1), t, d, d.limit);
      AdornNext(c, depth, s, t, k, v, asked.0, made);
      DecorateNext(c, rank, s, t, k, v, asked.0, made);
      if made.Have? {
        AdornIsDecorate(c, rank, depth, asked.0.(temp := asked.0.temp[t := made.value]), t, k + 1, made.value);
      }
    }
  }

  lemma AdornNext(c: Config, depth: nat, s: State, t: Ty, k: nat, v: Instance, s1: State, made: Got<Instance>)
    requires k < |c.Decorators(t)|
    requires var d := c.Decorators(t)[k];
             var asked := Query(c, depth, s.Log(t, k + 1), d, d.limit); asked.0 == s1 && Made(d, asked.1) == made
    ensures Adorn(c, depth, s, t, k, v) ==
              if made.Have? then Adorn(c, depth, s1.(temp := s1.temp[t := made.value]), t, k + 1, made.value)
              else (s1, made)
  {
  }

  lemma {:induction false} QueryIsAsk(c: Config, rank: Rank, depth: nat, s: State, t: Ty, r: Recipe, n: nat)
    requires Ranked(c, rank) && Decorable(c) && depth > rank(t) && MayRequest(s, rank, t, r)
    ensures Query(c, depth, s, r, n) == Ask(c, rank, s, t, r, n)
    decreases rank(t), 0, n
  {
    if n > 0 {
      var before := Ask(c, rank, s, t, r, n - 1);
      QueryIsAsk(c, rank, depth, s, t, r, n - 1);
      assert before.0.SameAt(s, t);
      if r.request(before.1).Some? { QueryOneIsAskOne(c, rank, depth, before.0, t, r.request(before.1).value); }
    }
  }

  lemma {:induction false} QueryOneIsAskOne(c: Config, rank: Rank, depth: nat, s: State, t: Ty, u: Ty)
    requires Ranked(c, rank) && Decorable(c) && depth > rank(t)
    requires rank(u) < rank(t) || (u == t && s.Ready(t))
    ensures QueryOne(c, depth, s, u) == AskOne(c, rank, s, t, u)
    decreases rank(t), 0, 0
  {
    if s.Lookup(u).None? { FindIsGet(c, rank, depth - 1, s, u); }
  }

  /** The loop too. */
  lemma {:induction false} RemainingIsResolveAll(c: Config, rank: Rank, depth: nat, s: State, n: nat)
    requires Ranked(c, rank) && Decorable(c) && n <= |c.order| && forall t :: t in c.order ==> depth > rank(t)
    ensures Remaining(c, depth, s, n) == ResolveAll(c, rank, s, n)
  {
    if n > 0 {
      RemainingIsResolveAll(c, rank, depth, s, n - 1);
      FindIsGet(c, rank, depth, ResolveAll(c, rank, s, n - 1).0, c.order[n - 1]);
    }
  }
}

/**
 The dependency resolver: memoised, re-entrant resolution in which a decorator that asks for
 its own type sees the instance decorated so far. Resolvers and decorators are the user's
 callables; here they are recipes that ask for one type after the other, seeing how each lookup
 ended, and then return an instance or raise.
 */
module DependencyResolvers {
  import opened Messages

  type Ty = string

  /** How a lookup ends: with a value, in a KeyError, or in any other exception, a RecursionError among them. */
  datatype Got<T> = Have(value: T) | Missing | Broken {
    /** The exception, where another value was expected. */
    function Failing<U>(): (r: Got<U>)
      requires !Have?
      ensures (r.Missing? <==> Missing?) && (r.Broken? <==> Broken?)
    {
      if Missing? then Got.Missing else Got.Broken
    }
  }

  /** An instance records which recipe built it, from which answers, and its truth value. */
  datatype Instance = Instance(recipe: nat, answers: seq<Got<Instance>>, truthy: bool)

  /** What a callable does after its requests: it returns an instance, or raises an exception. */
  datatype Ending = Returns(truthy: bool) | RaisesKeyError | RaisesOther

  /**
   A callable makes at most `limit` requests. What it asks for next and how it ends depend on
   how its lookups ended so far; so it may catch their exceptions, or pass them on.
   */
  datatype Recipe = Recipe(
    id: nat, limit: nat, request: seq<Got<Instance>> -> Option<Ty>, ending: seq<Got<Instance>> -> Ending)

  datatype Config = Config(order: seq<Ty>, resolvers: map<Ty, Recipe>, decorators: map<Ty, seq<Recipe>>) {
    /** Those registered for the type, in order; none if none was. */
    function Decorators(t: Ty): (ds: seq<Recipe>)
      ensures t in decorators ==> ds == decorators[t]
      ensures t !in decorators ==> |ds| == 0
    {
      if t in decorators then decorators[t] else []
    }
  }

  /** Recipe 0 of a type is its resolver, recipe k + 1 its decorator number k. */
  type Run = (Ty, nat)

  datatype State = State(temp: map<Ty, Instance>, final: map<Ty, Instance>, running: set<Ty>, journal: seq<Run>) {
    function Log(t: Ty, k: nat): State { this.(journal := journal + [(t, k)]) }

    /** The two early returns of a lookup. */
    function Lookup(t: Ty): Option<Instance> {
      if t in final && final[t].truthy then Some(final[t])
      else if t in running && t in temp && temp[t].truthy then Some(temp[t])
      else None
    }

    /** The value of a type is its final instance, or the one being decorated. */
    predicate Holds(t: Ty, v: Instance) {
      (t in final && final[t] == v) || (t in running && t in temp && temp[t] == v)
    }

    /** The type is final, and nothing of it is half done. */
    predicate Settled(t: Ty, v: Instance) { t in final && final[t] == v && t !in temp && t !in running }

    predicate Ready(t: Ty) { t in running && t in temp && temp[t].truthy }

    /** Nothing happened to this type. */
    predicate SameAt(s: State, t: Ty) {
      && (t in running <==> t in s.running) && (t in final <==> t in s.final)
      && (t in temp <==> t in s.temp) && (t in temp ==> temp[t] == s.temp[t])
    }

    function StartDecorating(t: Ty, v: Instance): State { this.(temp := temp[t := v], running := running + {t}) }

    function Finish(t: Ty, v: Instance): State {
      this.(temp := temp - {t}, running := running - {t}, final := final[t := v])
    }
  }

  const FRESH_STATE := State(map[], map[], {}, [])

  /** What a callable makes of the answers to its requests. */
  function Made(r: Recipe, answers: seq<Got<Instance>>): (made: Got<Instance>)
    ensures match made
            case Have(v) => v.recipe == r.id && v.answers == answers && r.ending(answers) == Returns(v.truthy)
            case Missing => r.ending(answers).RaisesKeyError?
            case Broken => r.ending(answers).RaisesOther?
  {
    match r.ending(answers)
    case Returns(truthy) => Have(Instance(r.id, answers, truthy))
    case RaisesKeyError => Missing
    case RaisesOther => Broken
  }

  /******* The code's meaning: state in, state and answer out *******/

  /** `depth` is how many more lookups fit on the stack inside this one. */
  function Find(c: Config, depth: nat, s: State, t: Ty): (r: (State, Got<Instance>))
    ensures s.journal <= r.0.journal
    ensures r.1.Have? ==> r.0.Holds(t, r.1.value)
    decreases depth, 2, 0
  {
    if s.Lookup(t).Some? then (s, Have(s.Lookup(t).value)) else Build(c, depth, s, t)
  }

  /** The resolver runs first. */
  function Build(c: Config, depth: nat, s: State, t: Ty): (r: (State, Got<Instance>))
    ensures s.journal + (if t in c.resolvers then [(t, 0)] else []) <= r.0.journal
    ensures r.1.Have? ==> r.0.Settled(t, r.1.value)
    decreases depth, 1, |c.Decorators(t)| + 1
  {
    if t !in c.resolvers then (s, Missing) else
      var built := Query(c, depth, s.Log(t, 0), c.resolvers[t], c.resolvers[t].limit);
      var made := Made(c.resolvers[t], built.1);
      if !made.Have? then (built.0, made)
      else Adorn(c, depth, built.0.StartDecorating(t, made.value), t, 0, made.value)
  }

  /** Decorator k runs next, if there is one. */
  function Adorn(c: Config, depth: nat, s: State, t: Ty, k: nat, v: Instance): (r: (State, Got<Instance>))
    requires k <= |c.Decorators(t)|
    ensures s.journal + (if k < |c.Decorators(t)| then [(t, k + 1)] else []) <= r.0.journal
    ensures r.1.Have? ==> r.0.Settled(t, r.1.value)
    decreases depth, 1, |c.Decorators(t)| - k
  {
    if k == |c.Decorators(t)| then (s.Finish(t, v), Have(v)) else
      var d := c.Decorators(t)[k];
      var built := Query(c, depth, s.Log(t, k + 1), d, d.limit);
      var made := Made(d, built.1);
      if !made.Have? then (built.0, made)
      else Adorn(c, depth, built.0.(temp := built.0.temp[t := made.value]), t, k + 1, made.value)
  }

  /** The answers to the first n requests of a recipe, or to all if there are fewer. */
  function Query(c: Config, depth: nat, s: State, r: Recipe, n: nat): (a: (State, seq<Got<Instance>>))
    ensures s.journal <= a.0.journal
    decreases depth, 0, n
  {
    if n == 0 then (s, []) else
      var before := Query(c, depth, s, r, n - 1);
      match r.request(before.1)
      case None => before
      case Some(t) => var got := QueryOne(c, depth, before.0, t); (got.0, before.1 + [got.1])
  }

  /** Without room on the stack the lookup raises, and nothing has happened. */
  function QueryOne(c: Config, depth: nat, s: State, t: Ty): (a: (State, Got<Instance>))
    ensures s.journal <= a.0.journal
    ensures depth == 0 ==> a == (s, Broken)
    decreases depth, 0, 0
  {
    if depth == 0 then (s, Broken) else Find(c, depth - 1, s, t)
  }

  /** The loop of `resolve_remaining` over the first n registered types. */
  function Remaining(c: Config, depth: nat, s: State, n: nat): (State, Got<nat>)
    requires n <= |c.order|
  {
    if n == 0 then (s, Have(0)) else
      var before := Remaining(c, depth, s, n - 1);
      if !before.1.Have? then before
      else if c.order[n - 1] in before.0.final then (before.0, Have(n))
      else Counted(Find(c, depth, before.0, c.order[n - 1]), n)
  }

  function Counted(got: (State, Got<Instance>), n: nat): (State, Got<nat>) {
    (got.0, if got.1.Have? then Have(n) else got.1.Failing())
  }

  lemma {:induction false} QueryStops(c: Config, depth: nat, s: State, r: Recipe, n: nat, m: nat)
    requires n <= m && r.request(Query(c, depth, s, r, n).1).None?
    ensures Query(c, depth, s, r, m) == Query(c, depth, s, r, n)
  {
    if n < m { QueryStops(c, depth, s, r, n, m - 1); }
  }

  lemma {:induction false} RemainingStops(c: Config, depth: nat, s: State, n: nat)
    requires n <= |c.order| && !Remaining(c, depth, s, n).1.Have?
    ensures Remaining(c, depth, s, |c.order|) == Remaining(c, depth, s, n)
    decreases |c.order| - n
  {
    if n < |c.order| { RemainingStops(c, depth, s, n + 1); }
  }

  class DependencyResolver {
    var order: seq<Ty>
    var resolvers: map<Ty, Recipe>
    var decorators: map<Ty, seq<Recipe>>
    var temp: map<Ty, Instance>
    var final: map<Ty, Instance>
    var running: set<Ty>
    var journal: seq<Run>

    function Settings(): Config
      reads this
    {
      Config(order, resolvers, decorators)
    }

    function View(): State
      reads this
    {
      State(temp, final, running, journal)
    }

    constructor ()
      ensures View() == FRESH_STATE && Settings() == Config([], map[], map[])
    {
      order, resolvers, decorators := [], map[], map[];
      temp, final, running, journal := map[], map[], {}, [];
    }

    /** A dictionary assignment: a new key goes last, an old one keeps its place. */
    method Register(t: Ty, r: Recipe)
      modifies this`order, this`resolvers
      ensures resolvers == old(resolvers)[t := r]
      ensures order == if t in old(resolvers) then old(order) else old(order) + [t]
    {
      if t !in resolvers { order := order + [t]; }
      resolvers := resolvers[t := r];
    }

    method AddDecorator(t: Ty, r: Recipe)
      modifies this`decorators
      ensures Settings().Decorators(t) == old(Settings()).Decorators(t) + [r]
      ensures forall u :: u != t ==> Settings().Decorators(u) == old(Settings()).Decorators(u)
    {
      decorators := decorators[t := Settings().Decorators(t) + [r]];
    }

    method GetItem(t: Ty, depth: nat) returns (o: Got<Instance>)
      modifies this`temp, this`final, this`running, this`journal
      ensures (View(), o) == Find(Settings(), depth, old(View()), t)
      ensures o.Have? ==> (t in final && final[t] == o.value) || (t in running && t in temp && temp[t] == o.value)
      decreases depth, 3, 0
    {
      var found := View().Lookup(t);
      if found.Some? { return Have(found.value); }
      o := ResolveItem(t, depth);
    }

    method ResolveItem(t: Ty, depth: nat) returns (o: Got<Instance>)
      modifies this`temp, this`final, this`running, this`journal
      ensures (View(), o) == Build(Settings(), depth, old(View()), t)
      ensures o.Have? ==> t in final && final[t] == o.value && t !in temp && t !in running
      decreases depth, 2, 0
    {
      if t !in resolvers { return Missing; }
      journal := journal + [(t, 0)];
      o := Call(resolvers[t], depth);
      if !o.Have? { return; }
      temp := temp[t := o.value];
      running := running + {t};
      o := RunDecorators(t, o.value, depth);
    }

    method RunDecorators(t: Ty, base: Instance, depth: nat) returns (o: Got<Instance>)
      modifies this`temp, this`final, this`running, this`journal
      ensures (View(), o) == Adorn(Settings(), depth, old(View()), t, 0, base)
      ensures o.Have? ==> t in final && final[t] == o.value && t !in temp && t !in running
      decreases depth, 1, 0
    {
      ghost var c, s := Settings(), View();
      var ds, k, instance := Settings().Decorators(t), 0, base;
      while k < |ds|
        invariant 0 <= k <= |ds| && Settings() == c
        invariant Adorn(c, depth, s, t, 0, base) == Adorn(c, depth, View(), t, k, instance)
      {
        journal := journal + [(t, k + 1)];
        o := Call(ds[k], depth);
        if !o.Have? { return; }
        instance := o.value;
        temp := temp[t := instance];
        k := k + 1;
      }
      running := running - {t};
      temp := temp - {t};
      final := final[t := instance];
      return Have(instance);
    }

    /** A user's resolver or decorator: it asks for one type after the other, and then ends its own way. */
    method Call(r: Recipe, depth: nat) returns (o: Got<Instance>)
      modifies this`temp, this`final, this`running, this`journal
      ensures var asked := Query(Settings(), depth, old(View()), r, r.limit);
              View() == asked.0 && o == Made(r, asked.1)
      decreases depth, 0, 1
    {
      var answers := [];
      var n := 0;
      ghost var c, s := Settings(), View();
      while n < r.limit && r.request(answers).Some?
        invariant 0 <= n <= r.limit && Settings() == c
        invariant (View(), answers) == Query(c, depth, s, r, n)
      {
        var answer := Answer(r.request(answers).value, depth);
        answers := answers + [answer];
        n := n + 1;
      }
      if n < r.limit { QueryStops(c, depth, s, r, n, r.limit); }
      o := Made(r, answers);
    }

    method Answer(t: Ty, depth: nat) returns (answer: Got<Instance>)
      modifies this`temp, this`final, this`running, this`journal
      ensures (View(), answer) == QueryOne(Settings(), depth, old(View()), t)
      decreases depth, 0, 0
    {
      if depth == 0 { return Broken; }
      answer := GetItem(t, depth - 1);
    }

    method ResolveRemaining(depth: nat) returns (o: Got<nat>)
      modifies this`temp, this`final, this`running, this`journal
      ensures (View(), o) == Remaining(Settings(), depth, old(View()), |order|)
    {
      var n := 0;
      ghost var c, s := Settings(), View();
      while n < |order|
        invariant 0 <= n <= |order| && Settings() == c
        invariant Remaining(c, depth, s, n).0 == View() && Remaining(c, depth, s, n).1 == Have(n)
      {
        if order[n] !in final {
          var got := GetItem(order[n], depth);
          if !got.Have? {
            RemainingStops(c, depth, s, n + 1);
            return got.Failing();
          }
        }
        n := n + 1;
      }
      return Have(n);
    }
  }
}

/**
 The two pipeline invokers. A step gets the state and a way to call the rest of the pipeline;
 it may call that never, once or many times, and may catch what it raises.
 */
module PipelineInvocation {
  import opened TransactionContexts

  /** The state after a call and how the call ended. */
  datatype Ended<S> = Ended(state: S, outcome: Outcome)

  type Next<!S> = S -> Ended<S>
  type PipelineStep<!S> = (S, Next<S>) -> Ended<S>

  /** A step sees the rest of the pipeline only by calling it. */
  ghost predicate OnlyCalls<S(!new)>(step: PipelineStep<S>) {
    forall s, f: Next<S>, g: Next<S> :: (forall x :: f(x) == g(x)) ==> step(s, f) == step(s, g)
  }

  /** The recursive invoker: recursion on the step index. */
  function InvokeStep<S>(steps: seq<PipelineStep<S>>, index: nat, s: S): Ended<S>
    requires index <= |steps|
    decreases |steps| - index
  {
    if index == |steps| then Ended(s, Done)
    else steps[index](s, x => InvokeStep(steps, index + 1, x))
  }

  lemma EmptyPipeline<S>(s: S)
    ensures InvokeStep<S>([], 0, s) == Ended(s, Done)
  {
  }

  /** From any index on, the invoker runs the pipeline of the steps from there. */
  lemma {:induction false} SameRest<S(!new)>(all: seq<PipelineStep<S>>, i: nat, rest: seq<PipelineStep<S>>, j: nat,
                                           s: S)
    requires i <= |all| && j <= |rest| && all[i..] == rest[j..]
    requires forall step :: step in all ==> OnlyCalls(step)
    ensures InvokeStep(all, i, s) == InvokeStep(rest, j, s)
    decreases |all| - i
  {
    assert |all| - i == |rest| - j;
    if i < |all| {
      assert all[i] == all[i..][0] == rest[j] && all[i] in all;
      assert all[i + 1..] == all[i..][1..] && rest[j + 1..] == rest[j..][1..];
      var i', j' := i + 1, j + 1;
      forall x
        ensures InvokeStep(all, i', x) == InvokeStep(rest, j', x)
      {
        SameRest(all, i', rest, j', x);
      }
      CallsAgree(all[i], s, x => InvokeStep(all, i', x), x => InvokeStep(rest, j', x));
    }
  }

  /** Every step runs, with the pipeline of all later steps as the rest it may call. */
  lemma FirstStepAndRest<S(!new)>(first: PipelineStep<S>, rest: seq<PipelineStep<S>>, s: S)
    requires OnlyCalls(first) && forall step :: step in rest ==> OnlyCalls(step)
    ensures InvokeStep([first] + rest, 0, s) == first(s, x => InvokeStep(rest, 0, x))
  {
    var all := [first] + rest;
    forall x
      ensures InvokeStep(all, 1, x) == InvokeStep(rest, 0, x)
    {
      SameRest(all, 1, rest, 0, x);
    }
    CallsAgree(first, s, x => InvokeStep(all, 1, x), x => InvokeStep(rest, 0, x));
  }

  /** A pipeline of one step. */
  lemma OneStep<S(!new)>(step: PipelineStep<S>, s: S)
    requires OnlyCalls(step)
    ensures InvokeStep([step], 0, s) == step(s, x => Ended(x, Done))
  {
    CallsAgree(step, s, x => InvokeStep([step], 1, x), x => Ended(x, Done));
  }

  /** Records its number, calls the rest unless it is the one that stops, and records its number again. */
  function Recording(n: nat, stop: nat): PipelineStep<seq<nat>> {
    (s, next: Next<seq<nat>>) =>
      if n == stop then Ended(s + [n], Cancelled)
      else var r := next(s + [n]); Ended(r.state + [n], r.outcome)
  }

  function Recordings(n: nat, stop: nat): seq<PipelineStep<seq<nat>>> {
    seq<PipelineStep<seq<nat>>>(n, i requires 0 <= i < n => Recording(i, stop))
  }

  /** The numbers from i up to n, without n, and then down again, the middle left out where a step stops. */
  function Trace(i: nat, n: nat, stop: nat): seq<nat>
    decreases n - i
  {
    if i >= n then [] else if i == stop then [i] else [i] + Trace(i + 1, n, stop) + [i]
  }

  /** Steps run in order, each around all later ones; a step that does not call leaves out exactly the later ones. */
  lemma {:induction false} StepsNest(n: nat, stop: nat, i: nat, s: seq<nat>)
    requires i <= n && (i <= stop || n <= stop)
    ensures InvokeStep(Recordings(n, stop), i, s) == Ended(s + Trace(i, n, stop), if stop < n then Cancelled else Done)
    decreases n - i
  {
    if i == n {
      assert s + [] == s;
    } else if i != stop {
      StepsNest(n, stop, i + 1, s + [i]);
      assert s + [i] + Trace(i + 1, n, stop) + [i] == s + ([i] + Trace(i + 1, n, stop) + [i]);
    }
  }

  /** Spelt out for a pipeline in which every step calls next: 0 up to n - 1, then n - 1 down to 0. */
  lemma {:induction false} TraceUpAndDown(i: nat, n: nat, k: nat)
    requires i <= n && k < 2 * (n - i)
    ensures |Trace(i, n, n)| == 2 * (n - i)
    ensures Trace(i, n, n)[k] == if k < n - i then i + k else n - 1 - (k - (n - i))
    decreases n - i
  {
    if i + 1 < n { TraceUpAndDown(i + 1, n, if 0 < k < 2 * (n - i) - 1 then k - 1 else 0); }
  }

  /** The iterative invoker: a chain of closures built backwards computes the same. */
  method InvokeIteratively<S(!new)>(steps: seq<PipelineStep<S>>, s: S) returns (r: Ended<S>)
    requires forall step :: step in steps ==> OnlyCalls(step)
    ensures r == InvokeStep(steps, 0, s)
  {
    var step: Next<S> := x => Ended(x, Done);
    var i := |steps|;
    while i > 0
      invariant 0 <= i <= |steps|
      invariant forall x :: step(x) == InvokeStep(steps, i, x)
    {
      i := i - 1;
      var nextStep, current := step, steps[i];
      assert current in steps;
      step := x => current(x, nextStep);
      forall x
        ensures step(x) == InvokeStep(steps, i, x)
      {
        CallsAgree(current, x, nextStep, y => InvokeStep(steps, i + 1, y));
      }
    }
    r := step(s);
  }

  lemma CallsAgree<S(!new)>(step: PipelineStep<S>, s: S, f: Next<S>, g: Next<S>)
    requires OnlyCalls(step) && forall x :: f(x) == g(x)
    ensures step(s, f) == step(s, g)
  {
  }

  /******* Steps as code: parts between calls of the rest *******/

  /** What a part decides, seeing how the call before it ended. */
  datatype Choice<S> = Return(result: Ended<S>) | CallNext(state: S)

  type Part<!S> = Ended<S> -> Choice<S>

  /** A step of n parts calls the rest up to n times; after its last part it returns. */
  function Play<S>(parts: seq<Part<S>>, sofar: Ended<S>, next: Next<S>): Ended<S> {
    if parts == [] then sofar else
      match parts[0](sofar)
      case Return(r) => r
      case CallNext(s) => Play(parts[1..], next(s), next)
  }

  /** Each part decides, seeing how the last call ended: to return, or to call the rest and let the next part see. */
  lemma PartsInOrder<S>(part: Part<S>, rest: seq<Part<S>>, sofar: Ended<S>, next: Next<S>)
    ensures Play([], sofar, next) == sofar
    ensures part(sofar).Return? ==> Play([part] + rest, sofar, next) == part(sofar).result
    ensures part(sofar).CallNext? ==> Play([part] + rest, sofar, next) == Play(rest, next(part(sofar).state), next)
  {
    assert ([part] + rest)[1..] == rest;
  }

  function Scripted<S>(parts: seq<Part<S>>): PipelineStep<S> {
    (s, next: Next<S>) => Play(parts, Ended(s, Done), next)
  }

  lemma {:induction false} PlayAgrees<S(!new)>(parts: seq<Part<S>>, sofar: Ended<S>, f: Next<S>, g: Next<S>)
    requires forall x :: f(x) == g(x)
    ensures Play(parts, sofar, f) == Play(parts, sofar, g)
  {
    if parts != [] && parts[0](sofar).CallNext? {
      PlayAgrees(parts[1..], f(parts[0](sofar).state), f, g);
    }
  }

  /** Whatever its parts do, a scripted step sees the rest only by calling it. */
  lemma ScriptedOnlyCalls<S(!new)>(parts: seq<Part<S>>)
    ensures OnlyCalls(Scripted(parts))
  {
    forall s, f: Next<S>, g: Next<S> | forall x :: f(x) == g(x)
      ensures Scripted(parts)(s, f) == Scripted(parts)(s, g)
    {
      PlayAgrees(parts, Ended(s, Done), f, g);
    }
  }
}

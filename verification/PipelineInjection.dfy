/** Pipeline injectors: steps prepended, appended and injected around the steps of some type. */
module PipelineInjection {
  import TransactionContexts

  type StepType = string

  datatype Step = Step(kind: StepType, id: nat)

  datatype Position = Before | After

  /** The injections by anchor type, in the order they were made. */
  type Injections = map<StepType, seq<(Position, Step)>>

  function At(inject: Injections, kind: StepType): seq<(Position, Step)> {
    if kind in inject then inject[kind] else []
  }

  lemma AtIs(inject: Injections, kind: StepType)
    ensures kind in inject ==> At(inject, kind) == inject[kind]
    ensures kind !in inject ==> At(inject, kind) == []
  {
  }

  function AtPosition(entries: seq<(Position, Step)>, p: Position): seq<Step> {
    if entries == [] then [] else
      var before, e := AtPosition(entries[..|entries| - 1], p), entries[|entries| - 1];
      if e.0 == p then before + [e.1] else before
  }

  /** The injections at a position are those made there, in the order they were made. */
  lemma AtPositionSnoc(entries: seq<(Position, Step)>, p: Position, q: Position, x: Step)
    ensures AtPosition([], p) == []
    ensures AtPosition(entries + [(q, x)], p) == AtPosition(entries, p) + if q == p then [x] else []
  {
  }

  function Around(inject: Injections, step: Step): seq<Step> {
    AtPosition(At(inject, step.kind), Before) + [step] + AtPosition(At(inject, step.kind), After)
  }

  function Expand(inject: Injections, steps: seq<Step>): seq<Step> {
    if steps == [] then [] else Expand(inject, steps[..|steps| - 1]) + Around(inject, steps[|steps| - 1])
  }

  class PipelineInjector {
    var prepend: seq<Step>
    var append: seq<Step>
    var inject: Injections

    constructor ()
      ensures prepend == [] && append == [] && inject == map[]
    {
      prepend, append, inject := [], [], map[];
    }

    method PrependStep(step: Step)
      modifies this`prepend
      ensures prepend == [step] + old(prepend)
    {
      prepend := [step] + prepend;
    }

    method AppendStep(step: Step)
      modifies this`append
      ensures append == old(append) + [step]
    {
      append := append + [step];
    }

    method InjectStep(step: Step, position: Position, relativeTo: StepType)
      modifies this`inject
      ensures inject == old(inject)[relativeTo := At(old(inject), relativeTo) + [(position, step)]]
      ensures forall k :: k != relativeTo ==> At(inject, k) == At(old(inject), k)
    {
      inject := inject[relativeTo := At(inject, relativeTo) + [(position, step)]];
    }

    /** `inner` is what the wrapped pipeline returned. */
    method Call(inner: seq<Step>) returns (results: seq<Step>)
      ensures results == Expand(inject, prepend + inner + append)
    {
      var steps := prepend + inner + append;
      results := [];
      for i := 0 to |steps|
        invariant results == Expand(inject, steps[..i])
      {
        assert steps[..i + 1][..i] == steps[..i];
        results := AddWithInjections(steps[i], At(inject, steps[i].kind), results);
      }
      assert steps[..|steps|] == steps;
    }

    method AddWithInjections(step: Step, injections: seq<(Position, Step)>, results: seq<Step>)
      returns (extended: seq<Step>)
      ensures extended == results + (AtPosition(injections, Before) + [step] + AtPosition(injections, After))
    {
      var befores := Select(injections, Before);
      var afters := Select(injections, After);
      extended := results + befores + [step] + afters;
    }

    method Select(injections: seq<(Position, Step)>, p: Position) returns (steps: seq<Step>)
      ensures steps == AtPosition(injections, p)
    {
      steps := [];
      for i := 0 to |injections|
        invariant steps == AtPosition(injections[..i], p)
      {
        assert injections[..i + 1][..i] == injections[..i];
        if injections[i].0 == p { steps := steps + [injections[i].1]; }
      }
      assert injections[..|injections|] == injections;
    }
  }

  /******* Stacks of injectors *******/

  /** The innermost injector first. */
  function Stacked(stack: seq<Injections>, base: seq<Step>): seq<Step> {
    if stack == [] then base else Expand(stack[|stack| - 1], Stacked(stack[..|stack| - 1], base))
  }

  /** Nothing that `other` injects is of a type that `inject` anchors anything to. */
  ghost predicate Independent(inject: Injections, other: Injections) {
    forall k, e :: e in At(other, k) ==> At(inject, e.1.kind) == []
  }

  /** No injector of the stack anchors anything to a step that another injects. */
  ghost predicate NoInjectedAnchor(stack: seq<Injections>) {
    forall i, j :: 0 <= i < |stack| && 0 <= j < |stack| && i != j ==> Independent(stack[i], stack[j])
  }

  /** All that stacked injectors put before a step, the innermost first. */
  function AllBefore(stack: seq<Injections>, kind: StepType): seq<Step> {
    if stack == [] then [] else
      AllBefore(stack[..|stack| - 1], kind) + AtPosition(At(stack[|stack| - 1], kind), Before)
  }

  /** All that stacked injectors put after a step, the innermost last. */
  function AllAfter(stack: seq<Injections>, kind: StepType): seq<Step> {
    if stack == [] then [] else
      AtPosition(At(stack[|stack| - 1], kind), After) + AllAfter(stack[..|stack| - 1], kind)
  }

  function WovenAround(stack: seq<Injections>, b: Step): seq<Step> {
    AllBefore(stack, b.kind) + [b] + AllAfter(stack, b.kind)
  }

  function Woven(stack: seq<Injections>, base: seq<Step>): seq<Step> {
    if base == [] then [] else Woven(stack, base[..|base| - 1]) + WovenAround(stack, base[|base| - 1])
  }

  lemma {:induction false} ExpandConcat(inject: Injections, a: seq<Step>, b: seq<Step>)
    ensures Expand(inject, a + b) == Expand(inject, a) + Expand(inject, b)
  {
    if b == [] {
      assert a + b == a;
    } else {
      assert (a + b)[..|a + b| - 1] == a + b[..|b| - 1];
      ExpandConcat(inject, a, b[..|b| - 1]);
    }
  }

  predicate NotAnchors(inject: Injections, steps: seq<Step>) { forall s :: s in steps ==> At(inject, s.kind) == [] }

  lemma AroundPlain(inject: Injections, step: Step)
    requires At(inject, step.kind) == []
    ensures Around(inject, step) == [step]
  {
  }

  lemma {:induction false} ExpandPlain(inject: Injections, steps: seq<Step>)
    requires NotAnchors(inject, steps)
    ensures Expand(inject, steps) == steps
  {
    if steps != [] {
      var before, last := steps[..|steps| - 1], steps[|steps| - 1];
      assert steps == before + [last] && last in steps;
      AroundPlain(inject, last);
      ExpandPlain(inject, before);
    }
  }

  lemma {:induction false} AtPositionFrom(entries: seq<(Position, Step)>, p: Position)
    ensures forall s :: s in AtPosition(entries, p) ==> (p, s) in entries
  {
    if entries != [] { AtPositionFrom(entries[..|entries| - 1], p); }
  }

  lemma {:induction false} WovenAreNotAnchors(stack: seq<Injections>, inject: Injections, kind: StepType)
    requires forall other :: other in stack ==> Independent(inject, other)
    ensures NotAnchors(inject, AllBefore(stack, kind)) && NotAnchors(inject, AllAfter(stack, kind))
  {
    if stack != [] {
      assert Independent(inject, stack[|stack| - 1]);
      WovenAreNotAnchors(stack[..|stack| - 1], inject, kind);
      AtPositionFrom(At(stack[|stack| - 1], kind), Before);
      AtPositionFrom(At(stack[|stack| - 1], kind), After);
    }
  }

  lemma ExpandOne(inject: Injections, b: Step)
    ensures Expand(inject, [b]) == Around(inject, b)
  {
  }

  lemma AllSnoc(stack: seq<Injections>, inject: Injections, kind: StepType)
    ensures AllBefore(stack + [inject], kind) == AllBefore(stack, kind) + AtPosition(At(inject, kind), Before)
    ensures AllAfter(stack + [inject], kind) == AtPosition(At(inject, kind), After) + AllAfter(stack, kind)
  {
  }

  lemma ExpandThree(inject: Injections, before: seq<Step>, b: Step, after: seq<Step>)
    requires NotAnchors(inject, before) && NotAnchors(inject, after)
    ensures Expand(inject, before + [b] + after) == before + Around(inject, b) + after
  {
    ExpandConcat(inject, before + [b], after);
    ExpandConcat(inject, before, [b]);
    ExpandPlain(inject, before);
    ExpandPlain(inject, after);
    ExpandOne(inject, b);
  }

  lemma Regroup(x: seq<Step>, p: seq<Step>, b: Step, q: seq<Step>, y: seq<Step>)
    ensures x + (p + [b] + q) + y == (x + p) + [b] + (q + y)
  {
  }

  lemma ExpandAround(stack: seq<Injections>, inject: Injections, b: Step)
    requires forall other :: other in stack ==> Independent(inject, other)
    ensures Expand(inject, WovenAround(stack, b)) == WovenAround(stack + [inject], b)
  {
    WovenAreNotAnchors(stack, inject, b.kind);
    ExpandThree(inject, AllBefore(stack, b.kind), b, AllAfter(stack, b.kind));
    AllSnoc(stack, inject, b.kind);
    var entries := At(inject, b.kind);
    Regroup(AllBefore(stack, b.kind), AtPosition(entries, Before), b, AtPosition(entries, After),
             AllAfter(stack, b.kind));
  }

  /** One more injector around a woven list weaves its own steps in. */
  lemma {:induction false} ExpandWoven(stack: seq<Injections>, inject: Injections, base: seq<Step>)
    requires forall other :: other in stack ==> Independent(inject, other)
    ensures Expand(inject, Woven(stack, base)) == Woven(stack + [inject], base)
  {
    if base != [] {
      ExpandWoven(stack, inject, base[..|base| - 1]);
      ExpandAround(stack, inject, base[|base| - 1]);
      ExpandConcat(inject, Woven(stack, base[..|base| - 1]), WovenAround(stack, base[|base| - 1]));
    }
  }

  /**
   What a stack builds, whatever it injects where: around each base step, the steps injected
   before it from the innermost injector out, and after it from the outermost in.
   */
  lemma {:induction false} StackIsWoven(stack: seq<Injections>, base: seq<Step>)
    requires NoInjectedAnchor(stack)
    ensures Stacked(stack, base) == Woven(stack, base)
  {
    if stack == [] {
      NothingWoven(base);
    } else {
      var inner, last := stack[..|stack| - 1], stack[|stack| - 1];
      assert stack == inner + [last];
      OutermostApart(inner, last);
      StackIsWoven(inner, base);
      ExpandWoven(inner, last, base);
    }
  }

  lemma OutermostApart(inner: seq<Injections>, last: Injections)
    requires NoInjectedAnchor(inner + [last])
    ensures NoInjectedAnchor(inner) && forall other :: other in inner ==> Independent(last, other)
  {
    var stack := inner + [last];
    assert forall i :: 0 <= i < |inner| ==> stack[i] == inner[i];
    assert forall i :: 0 <= i < |inner| ==> Independent(stack[|inner|], stack[i]);
  }

  lemma {:induction false} NothingWoven(base: seq<Step>)
    ensures Woven([], base) == base
  {
    if base != [] { NothingWoven(base[..|base| - 1]); }
  }

  /** At each anchor and position at most one injector of the stack injects anything. */
  ghost predicate SingleInjector(stack: seq<Injections>) {
    forall i, j, k, p :: 0 <= i < j < |stack| ==>
      AtPosition(At(stack[i], k), p) == [] || AtPosition(At(stack[j], k), p) == []
  }

  function AllAt(stack: seq<Injections>, kind: StepType, p: Position): seq<Step> {
    if p == Before then AllBefore(stack, kind) else AllAfter(stack, kind)
  }

  lemma {:induction false} OneContributor(stack: seq<Injections>, kind: StepType, p: Position)
    requires SingleInjector(stack)
    ensures forall inject :: inject in stack && AtPosition(At(inject, kind), p) != [] ==>
              AllAt(stack, kind, p) == AtPosition(At(inject, kind), p)
    ensures (forall inject :: inject in stack ==> AtPosition(At(inject, kind), p) == []) ==> AllAt(stack, kind, p) == []
  {
    if stack != [] {
      var inner, last := stack[..|stack| - 1], stack[|stack| - 1];
      assert stack == inner + [last];
      assert forall i :: 0 <= i < |inner| ==> inner[i] == stack[i];
      OneContributor(inner, kind, p);
    }
  }

  lemma {:induction false} WovenBySame(s1: seq<Injections>, s2: seq<Injections>, base: seq<Step>)
    requires forall k, p :: AllAt(s1, k, p) == AllAt(s2, k, p)
    ensures Woven(s1, base) == Woven(s2, base)
  {
    if base != [] {
      var k := base[|base| - 1].kind;
      assert AllAt(s1, k, Before) == AllAt(s2, k, Before) && AllAt(s1, k, After) == AllAt(s2, k, After);
      WovenBySame(s1, s2, base[..|base| - 1]);
    }
  }

  /** Stacking the same injectors in any order builds the same pipeline. */
  lemma StackedInjectionsCommute(s1: seq<Injections>, s2: seq<Injections>, base: seq<Step>)
    requires NoInjectedAnchor(s1) && NoInjectedAnchor(s2) && SingleInjector(s1) && SingleInjector(s2)
    requires forall inject :: inject in s1 <==> inject in s2
    ensures Stacked(s1, base) == Stacked(s2, base)
  {
    StackIsWoven(s1, base);
    StackIsWoven(s2, base);
    forall k, p
      ensures AllAt(s1, k, p) == AllAt(s2, k, p)
    {
      OneContributor(s1, k, p);
      OneContributor(s2, k, p);
    }
    WovenBySame(s1, s2, base);
  }

  function InjectedCopies(stack: seq<Injections>, kind: StepType, x: Step): nat {
    if stack == [] then 0 else
      var last := At(stack[|stack| - 1], kind);
      InjectedCopies(stack[..|stack| - 1], kind, x) + multiset(last)[(Before, x)] + multiset(last)[(After, x)]
  }

  function CopiesIn(stack: seq<Injections>, base: seq<Step>, x: Step): nat {
    if base == [] then 0 else
      var b := base[|base| - 1];
      CopiesIn(stack, base[..|base| - 1], x) + (if b == x then 1 else 0) + InjectedCopies(stack, b.kind, x)
  }

  lemma {:induction false} AtPositionCopies(entries: seq<(Position, Step)>, p: Position, x: Step)
    ensures multiset(AtPosition(entries, p))[x] == multiset(entries)[(p, x)]
  {
    if entries != [] {
      assert entries == entries[..|entries| - 1] + [entries[|entries| - 1]];
      AtPositionCopies(entries[..|entries| - 1], p, x);
    }
  }

  lemma {:induction false} AroundCopies(stack: seq<Injections>, kind: StepType, x: Step)
    ensures multiset(AllBefore(stack, kind))[x] + multiset(AllAfter(stack, kind))[x] == InjectedCopies(stack, kind, x)
  {
    if stack != [] {
      AroundCopies(stack[..|stack| - 1], kind, x);
      AtPositionCopies(At(stack[|stack| - 1], kind), Before, x);
      AtPositionCopies(At(stack[|stack| - 1], kind), After, x);
    }
  }

  lemma {:induction false} SubsequenceConcat(a: seq<Step>, b: seq<Step>, before: seq<Step>, x: Step, after: seq<Step>)
    requires TransactionContexts.Subsequence(a, b)
    ensures TransactionContexts.Subsequence(a + [x], b + (before + [x] + after))
    decreases |before| + |after|
  {
    if after != [] {
      SubsequenceConcat(a, b, before, x, after[..|after| - 1]);
      var longer := b + (before + [x] + after);
      assert longer[..|longer| - 1] == b + (before + [x] + after[..|after| - 1]);
    } else {
      SubsequenceAppend(a, b, before);
      TransactionContexts.SubsequenceSnoc(a, b + before, x);
      assert b + before + [x] == b + (before + [x] + after);
    }
  }

  lemma {:induction false} SubsequenceAppend(a: seq<Step>, b: seq<Step>, more: seq<Step>)
    requires TransactionContexts.Subsequence(a, b)
    ensures TransactionContexts.Subsequence(a, b + more)
    decreases |more|
  {
    if more == [] {
      assert b + more == b;
    } else {
      SubsequenceAppend(a, b, more[..|more| - 1]);
      assert (b + more)[..|b + more| - 1] == b + more[..|more| - 1];
    }
  }

  lemma AroundContents(stack: seq<Injections>, b: Step, x: Step)
    ensures multiset(WovenAround(stack, b))[x] == (if b == x then 1 else 0) + InjectedCopies(stack, b.kind, x)
  {
    AroundCopies(stack, b.kind, x);
  }

  lemma {:induction false} WovenCopies(stack: seq<Injections>, base: seq<Step>, x: Step)
    ensures multiset(Woven(stack, base))[x] == CopiesIn(stack, base, x)
  {
    if base != [] {
      WovenCopies(stack, base[..|base| - 1], x);
      AroundContents(stack, base[|base| - 1], x);
    }
  }

  lemma {:induction false} WovenOrder(stack: seq<Injections>, base: seq<Step>)
    ensures TransactionContexts.Subsequence(base, Woven(stack, base))
  {
    if base != [] {
      var inner, b := base[..|base| - 1], base[|base| - 1];
      WovenOrder(stack, inner);
      SubsequenceConcat(inner, Woven(stack, inner), AllBefore(stack, b.kind), b, AllAfter(stack, b.kind));
      assert base == inner + [b];
    }
  }

  /** Base steps stay, in order; each injection appears exactly once for each step of its anchor type. */
  lemma StackContents(stack: seq<Injections>, base: seq<Step>, x: Step)
    requires NoInjectedAnchor(stack)
    ensures TransactionContexts.Subsequence(base, Stacked(stack, base))
    ensures multiset(Stacked(stack, base))[x] == CopiesIn(stack, base, x)
  {
    StackIsWoven(stack, base);
    WovenOrder(stack, base);
    WovenCopies(stack, base, x);
  }

  /******* Stacks of injectors that also prepend and append *******/

  datatype Layer = Layer(prepend: seq<Step>, append: seq<Step>, inject: Injections)

  function Injecting(layers: seq<Layer>): seq<Injections> {
    if layers == [] then [] else [layers[0].inject] + Injecting(layers[1..])
  }

  /** The innermost layer first. */
  function Layered(layers: seq<Layer>, base: seq<Step>): seq<Step> {
    if layers == [] then base else
      var inner, last := layers[..|layers| - 1], layers[|layers| - 1];
      Expand(last.inject, last.prepend + Layered(inner, base) + last.append)
  }

  /** All prepended steps, those of the outermost layer first, each woven by its own layer and those outside it. */
  function Fronts(layers: seq<Layer>): seq<Step> {
    if layers == [] then [] else Fronts(layers[1..]) + Woven(Injecting(layers), layers[0].prepend)
  }

  /** All appended steps, those of the outermost layer last, woven likewise. */
  function Backs(layers: seq<Layer>): seq<Step> {
    if layers == [] then [] else Woven(Injecting(layers), layers[0].append) + Backs(layers[1..])
  }

  lemma {:induction false} InjectingSnoc(layers: seq<Layer>, last: Layer)
    ensures Injecting(layers + [last]) == Injecting(layers) + [last.inject]
  {
    if layers != [] {
      assert (layers + [last])[1..] == layers[1..] + [last];
      InjectingSnoc(layers[1..], last);
    }
  }

  lemma StackedSnoc(stack: seq<Injections>, inject: Injections, base: seq<Step>)
    ensures Stacked(stack + [inject], base) == Expand(inject, Stacked(stack, base))
  {
    assert (stack + [inject])[..|stack|] == stack;
  }

  /** Stacks that only inject are the special case without own steps. */
  lemma {:induction false} OnlyInjecting(layers: seq<Layer>, base: seq<Step>)
    requires forall l :: l in layers ==> l.prepend == [] && l.append == []
    ensures Layered(layers, base) == Stacked(Injecting(layers), base)
  {
    if layers != [] {
      var inner, last := layers[..|layers| - 1], layers[|layers| - 1];
      assert layers == inner + [last] && last in layers;
      assert [] + Layered(inner, base) + [] == Layered(inner, base);
      OnlyInjecting(inner, base);
      InjectingSnoc(inner, last);
      StackedSnoc(Injecting(inner), last.inject, base);
    }
  }

  /** Nothing that the layers inject is an anchor of `inject`. */
  ghost predicate Apart(inject: Injections, layers: seq<Layer>) {
    forall other :: other in Injecting(layers) ==> Independent(inject, other)
  }

  lemma ExpandAlone(inject: Injections, steps: seq<Step>)
    ensures Expand(inject, steps) == Woven([inject], steps)
  {
    NothingWoven(steps);
    ExpandWoven([], inject, steps);
    assert [] + [inject] == [inject];
  }

  lemma WovenMore(layers: seq<Layer>, last: Layer, steps: seq<Step>)
    requires Apart(last.inject, layers)
    ensures Expand(last.inject, Woven(Injecting(layers), steps)) == Woven(Injecting(layers + [last]), steps)
  {
    ExpandWoven(Injecting(layers), last.inject, steps);
    InjectingSnoc(layers, last);
  }

  lemma FrontsOf(first: Layer, rest: seq<Layer>)
    ensures var layers := [first] + rest; Fronts(layers) == Fronts(rest) + Woven(Injecting(layers), first.prepend)
  {
    assert ([first] + rest)[1..] == rest;
  }

  lemma BacksOf(first: Layer, rest: seq<Layer>)
    ensures var layers := [first] + rest; Backs(layers) == Woven(Injecting(layers), first.append) + Backs(rest)
  {
    assert ([first] + rest)[1..] == rest;
  }

  lemma ApartFromRest(inject: Injections, first: Layer, rest: seq<Layer>)
    requires Apart(inject, [first] + rest)
    ensures Apart(inject, rest)
  {
    assert ([first] + rest)[1..] == rest;
  }

  lemma Assoc(a: seq<Step>, b: seq<Step>, c: seq<Step>)
    ensures a + b + c == a + (b + c)
  {
  }

  lemma {:induction false} FrontsSnoc(layers: seq<Layer>, last: Layer)
    requires Apart(last.inject, layers)
    ensures Fronts(layers + [last]) == Expand(last.inject, last.prepend) + Expand(last.inject, Fronts(layers))
  {
    if layers == [] {
      ExpandAlone(last.inject, last.prepend);
      assert [] + [last] == [last] && Injecting([last]) == [last.inject];
    } else {
      var first, rest := layers[0], layers[1..];
      assert layers == [first] + rest && layers + [last] == [first] + (rest + [last]);
      ApartFromRest(last.inject, first, rest);
      FrontsSnoc(rest, last);
      FrontsOf(first, rest);
      FrontsOf(first, rest + [last]);
      WovenMore(layers, last, first.prepend);
      var own := Woven(Injecting(layers), first.prepend);
      ExpandConcat(last.inject, Fronts(rest), own);
      Assoc(Expand(last.inject, last.prepend), Expand(last.inject, Fronts(rest)), Expand(last.inject, own));
    }
  }

  lemma {:induction false} BacksSnoc(layers: seq<Layer>, last: Layer)
    requires Apart(last.inject, layers)
    ensures Backs(layers + [last]) == Expand(last.inject, Backs(layers)) + Expand(last.inject, last.append)
  {
    if layers == [] {
      ExpandAlone(last.inject, last.append);
      assert [] + [last] == [last] && Injecting([last]) == [last.inject];
    } else {
      var first, rest := layers[0], layers[1..];
      assert layers == [first] + rest && layers + [last] == [first] + (rest + [last]);
      ApartFromRest(last.inject, first, rest);
      BacksSnoc(rest, last);
      BacksOf(first, rest);
      BacksOf(first, rest + [last]);
      WovenMore(layers, last, first.append);
      var own := Woven(Injecting(layers), first.append);
      ExpandConcat(last.inject, own, Backs(rest));
      Assoc(Expand(last.inject, own), Expand(last.inject, Backs(rest)), Expand(last.inject, last.append));
    }
  }

  lemma ExpandThreeParts(inject: Injections, a: seq<Step>, b: seq<Step>, c: seq<Step>)
    ensures Expand(inject, a + b + c) == Expand(inject, a) + Expand(inject, b) + Expand(inject, c)
  {
    ExpandConcat(inject, a + b, c);
    ExpandConcat(inject, a, b);
  }

  lemma RegroupFive(a: seq<Step>, b: seq<Step>, c: seq<Step>, d: seq<Step>, e: seq<Step>)
    ensures a + (b + c + d) + e == (a + b) + c + (d + e)
  {
  }

  lemma OneLayerMore(inner: seq<Layer>, last: Layer, base: seq<Step>)
    requires Layered(inner, base) == Fronts(inner) + Woven(Injecting(inner), base) + Backs(inner)
    ensures Expand(last.inject, last.prepend + Layered(inner, base) + last.append)
            == Expand(last.inject, last.prepend) + Expand(last.inject, Fronts(inner))
               + Expand(last.inject, Woven(Injecting(inner), base))
               + (Expand(last.inject, Backs(inner)) + Expand(last.inject, last.append))
  {
    var inject, woven := last.inject, Woven(Injecting(inner), base);
    ExpandThreeParts(inject, last.prepend, Layered(inner, base), last.append);
    ExpandThreeParts(inject, Fronts(inner), woven, Backs(inner));
    RegroupFive(Expand(inject, last.prepend), Expand(inject, Fronts(inner)), Expand(inject, woven),
                Expand(inject, Backs(inner)), Expand(inject, last.append));
  }

  /**
   What any stack builds: the prepended steps from the outermost injector in, the base steps,
   and the appended steps from the innermost out, each with what its own injector and those
   outside it inject around it.
   */
  lemma {:induction false} LayersAreWoven(layers: seq<Layer>, base: seq<Step>)
    requires NoInjectedAnchor(Injecting(layers))
    ensures Layered(layers, base) == Fronts(layers) + Woven(Injecting(layers), base) + Backs(layers)
  {
    if layers == [] {
      NothingWoven(base);
      assert [] + base + [] == base;
    } else {
      var inner, last := layers[..|layers| - 1], layers[|layers| - 1];
      assert layers == inner + [last];
      InjectingSnoc(inner, last);
      OutermostApart(Injecting(inner), last.inject);
      LayersAreWoven(inner, base);
      FrontsSnoc(inner, last);
      BacksSnoc(inner, last);
      WovenMore(inner, last, base);
      OneLayerMore(inner, last, base);
    }
  }
}

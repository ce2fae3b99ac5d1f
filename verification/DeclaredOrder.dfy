/** The declared-order linearization: recursive first-visit pre-order as the meaning,
    and the stack-based walk that computes it. */
module DeclaredOrder {
  import opened Collections
  import opened C3
  import opened Ancestry
  import opened Lineage
  import opened Traversal

  ghost function Left(u: set<Class>, seen: seq<Class>): nat {
    |u - set x | x in seen|
  }

  lemma LeftShrinks(u: set<Class>, seen: seq<Class>, more: seq<Class>)
    requires seen <= more
    ensures Left(u, more) <= Left(u, seen)
    ensures forall n :: n in u && n !in seen && n in more ==> Left(u, more) < Left(u, seen)
  {
    var a, b := u - (set x | x in seen), u - (set x | x in more);
    assert b <= a;
    SubsetSize(b, a);
    forall n | n in u && n !in seen && n in more ensures Left(u, more) < Left(u, seen) {
      assert b <= a - {n};
      SubsetSize(b, a - {n});
    }
  }

  /** Visits `n` and then, depth first, its parents, leaving out what was `seen`. */
  ghost function Visit(g: Graph, u: set<Class>, n: Class, seen: seq<Class>): (r: seq<Class>)
    ensures seen <= r
    decreases Left(u, seen), 0
  {
    if n in seen || n !in u then seen
    else
      LeftShrinks(u, seen, seen + [n]);
      VisitAll(g, u, Parents(g, n), seen + [n])
  }

  ghost function VisitAll(g: Graph, u: set<Class>, ps: seq<Class>, seen: seq<Class>): (r: seq<Class>)
    ensures seen <= r
    decreases Left(u, seen), 1, |ps|
  {
    if ps == [] then seen
    else
      var first := Visit(g, u, ps[0], seen);
      LeftShrinks(u, seen, first);
      VisitAll(g, u, ps[1..], first)
  }

  /** Recursive first-visit pre-order from `root`. */
  ghost function PreOrder(g: Graph, root: Class): seq<Class> {
    Visit(g, Ancestors(g, root), root, [])
  }

  lemma {:induction false} VisitAllAppend(g: Graph, u: set<Class>, ps: seq<Class>, qs: seq<Class>, seen: seq<Class>)
    ensures VisitAll(g, u, ps + qs, seen) == VisitAll(g, u, qs, VisitAll(g, u, ps, seen))
    decreases |ps|
  {
    if ps == [] {
      assert ps + qs == qs;
    } else {
      assert (ps + qs)[1..] == ps[1..] + qs;
      VisitAllAppend(g, u, ps[1..], qs, Visit(g, u, ps[0], seen));
    }
  }

  /** The parents of everything in `r` that was not in `seen` are in `r`. */
  ghost predicate NewClosed(g: Graph, seen: seq<Class>, r: seq<Class>) {
    forall x, p :: x in r && x !in seen && p in Parents(g, x) ==> p in r
  }

  lemma {:induction false} VisitClosed(g: Graph, u: set<Class>, n: Class, seen: seq<Class>)
    requires ParentClosed(g, u) && n in u && NoRepeats(seen) && forall x :: x in seen ==> x in u
    ensures var r := Visit(g, u, n, seen);
      n in r && NoRepeats(r) && (forall x :: x in r ==> x in u) && NewClosed(g, seen, r)
    decreases Left(u, seen), 0
  {
    if n !in seen {
      LeftShrinks(u, seen, seen + [n]);
      VisitAllClosed(g, u, Parents(g, n), seen + [n]);
      assert n in seen + [n];
    }
  }

  lemma ClosedTwice(g: Graph, seen: seq<Class>, first: seq<Class>, r: seq<Class>)
    requires NewClosed(g, seen, first) && NewClosed(g, first, r) && forall x :: x in first ==> x in r
    ensures NewClosed(g, seen, r)
  {
  }

  lemma {:induction false} VisitAllClosed(g: Graph, u: set<Class>, ps: seq<Class>, seen: seq<Class>)
    requires ParentClosed(g, u) && NoRepeats(seen)
    requires (forall x :: x in seen ==> x in u) && forall p :: p in ps ==> p in u
    ensures var r := VisitAll(g, u, ps, seen);
      && (forall p :: p in ps ==> p in r) && NoRepeats(r)
      && (forall x :: x in r ==> x in u) && NewClosed(g, seen, r)
    decreases Left(u, seen), 1, |ps|
  {
    if ps != [] {
      var first := Visit(g, u, ps[0], seen);
      hide NoRepeats;
      VisitClosed(g, u, ps[0], seen);
      LeftShrinks(u, seen, first);
      VisitAllClosed(g, u, ps[1..], first);
      var r := VisitAll(g, u, ps, seen);
      assert r == VisitAll(g, u, ps[1..], first) && first <= r;
      hide *;
      assert ps == [ps[0]] + ps[1..];
      assert forall x :: x in first ==> x in r;
      ClosedTwice(g, seen, first, r);
    }
  }

  /** Pre-order starts with the root and lists every ancestor exactly once. */
  lemma PreOrderSound(g: Graph, root: Class)
    ensures var lin := PreOrder(g, root);
      lin != [] && lin[0] == root && NoRepeats(lin) && forall x :: x in lin <==> x in Ancestors(g, root)
  {
    hide Ancestors, NoRepeats;
    var u, lin := Ancestors(g, root), PreOrder(g, root);
    AncestorsClosed(g, root);
    NothingRepeats();
    VisitClosed(g, u, root, []);
    assert [] + [root] == [root] && [root] <= lin;
    var elements := set x | x in lin;
    assert ParentClosed(g, elements);
    AncestorsLeast(g, root, elements);
  }

  lemma NothingRepeats()
    ensures NoRepeats<Class>([])
  {
  }

  // ---------- locality ----------

  lemma SameAncestors(g: Graph, g': Graph, root: Class)
    requires forall x :: x in Ancestors(g, root) ==> Parents(g', x) == Parents(g, x)
    ensures Ancestors(g', root) == Ancestors(g, root)
  {
    hide Ancestors;
    AncestorsClosed(g, root);
    AncestorsClosed(g', root);
    AncestorsLeast(g', root, Ancestors(g, root));
    AncestorsLeast(g, root, Ancestors(g', root));
  }

  lemma {:induction false} VisitLocal(g: Graph, g': Graph, u: set<Class>, n: Class, seen: seq<Class>)
    requires forall x :: x in u ==> Parents(g', x) == Parents(g, x)
    ensures Visit(g', u, n, seen) == Visit(g, u, n, seen)
    decreases Left(u, seen), 0
  {
    if n !in seen && n in u {
      LeftShrinks(u, seen, seen + [n]);
      VisitAllLocal(g, g', u, Parents(g, n), seen + [n]);
    }
  }

  lemma {:induction false} VisitAllLocal(g: Graph, g': Graph, u: set<Class>, ps: seq<Class>, seen: seq<Class>)
    requires forall x :: x in u ==> Parents(g', x) == Parents(g, x)
    ensures VisitAll(g', u, ps, seen) == VisitAll(g, u, ps, seen)
    decreases Left(u, seen), 1, |ps|
  {
    if ps != [] {
      VisitLocal(g, g', u, ps[0], seen);
      LeftShrinks(u, seen, Visit(g, u, ps[0], seen));
      VisitAllLocal(g, g', u, ps[1..], Visit(g, u, ps[0], seen));
    }
  }

  lemma PreOrderLocal(g: Graph, g': Graph, root: Class)
    requires forall x :: x in Ancestors(g, root) ==> Parents(g', x) == Parents(g, x)
    ensures PreOrder(g', root) == PreOrder(g, root) && Ancestors(g', root) == Ancestors(g, root)
  {
    SameAncestors(g, g', root);
    VisitLocal(g, g', Ancestors(g, root), root, []);
  }

  // ---------- repeated parents ----------

  lemma {:induction false} VisitAllContains(g: Graph, u: set<Class>, ps: seq<Class>, seen: seq<Class>, p: Class)
    requires p in ps && p in u
    ensures p in VisitAll(g, u, ps, seen)
    decreases |ps|
  {
    var front, last := ps[..|ps| - 1], ps[|ps| - 1];
    assert ps == front + [last];
    VisitAllAppend(g, u, front, [last], seen);
    var r := VisitAll(g, u, front, seen);
    assert [last][1..] == [];
    assert VisitAll(g, u, ps, seen) == Visit(g, u, last, r);
    if p in front {
      VisitAllContains(g, u, front, seen, p);
    } else if p !in r {
      assert r + [p] <= VisitAll(g, u, Parents(g, p), r + [p]) && p in r + [p];
    }
  }

  /** Visiting a parent again adds nothing. */
  lemma {:induction false} VisitAllFirsts(g: Graph, u: set<Class>, ps: seq<Class>, seen: seq<Class>)
    ensures VisitAll(g, u, Firsts(ps), seen) == VisitAll(g, u, ps, seen)
    decreases |ps|
  {
    if ps != [] {
      var front, last := ps[..|ps| - 1], ps[|ps| - 1];
      assert ps == front + [last] && [last][1..] == [];
      VisitAllFirsts(g, u, front, seen);
      VisitAllAppend(g, u, front, [last], seen);
      if last in front {
        if last in u { VisitAllContains(g, u, front, seen, last); }
      } else {
        VisitAllAppend(g, u, Firsts(front), [last], seen);
      }
    }
  }

  ghost predicate SameFirsts(g: Graph, g': Graph) {
    forall x :: Firsts(Parents(g', x)) == Firsts(Parents(g, x))
  }

  lemma {:induction false} VisitRepeated(g: Graph, g': Graph, u: set<Class>, n: Class, seen: seq<Class>)
    requires SameFirsts(g, g')
    ensures Visit(g', u, n, seen) == Visit(g, u, n, seen)
    decreases Left(u, seen), 0
  {
    if n !in seen && n in u {
      LeftShrinks(u, seen, seen + [n]);
      VisitAllFirsts(g', u, Parents(g', n), seen + [n]);
      VisitAllFirsts(g', u, Parents(g, n), seen + [n]);
      VisitAllRepeated(g, g', u, Parents(g, n), seen + [n]);
    }
  }

  lemma {:induction false} VisitAllRepeated(g: Graph, g': Graph, u: set<Class>, ps: seq<Class>, seen: seq<Class>)
    requires SameFirsts(g, g')
    ensures VisitAll(g', u, ps, seen) == VisitAll(g, u, ps, seen)
    decreases Left(u, seen), 1, |ps|
  {
    if ps != [] {
      VisitRepeated(g, g', u, ps[0], seen);
      var first := Visit(g, u, ps[0], seen);
      LeftShrinks(u, seen, first);
      VisitAllRepeated(g, g', u, ps[1..], first);
    }
  }

  /** Repeating declared parents changes nothing in declared order. */
  lemma RepeatedParents(g: Graph, g': Graph, root: Class, lin: seq<Class>)
    requires SameFirsts(g, g') && DeclaredOf(g, root, lin)
    ensures DeclaredOf(g', root, lin)
  {
    hide Visit, VisitAll;
    forall x, p ensures p in Parents(g', x) <==> p in Parents(g, x) {
      FirstsElements(Parents(g', x), p);
      FirstsElements(Parents(g, x), p);
    }
    var u := Ancestors(g, root);
    assert u == Ancestors(g', root) by {
      AncestorsClosed(g, root);
      AncestorsClosed(g', root);
      AncestorsLeast(g, root, Ancestors(g', root));
      AncestorsLeast(g', root, u);
    }
    VisitRepeated(g, g', u, root, []);
    forall path | IsCycle(g', path) ensures path[0] !in Ancestors(g', root) {
      assert IsCycle(g, path);
    }
  }

  // ---------- the bounded computation ----------

  ghost predicate Acyclic(g: Graph, root: Class) {
    forall path :: IsCycle(g, path) ==> path[0] !in Ancestors(g, root)
  }

  /** `lin` is the declared-order linearization of `root`. */
  ghost predicate DeclaredOf(g: Graph, root: Class, lin: seq<Class>) {
    Acyclic(g, root) && lin == PreOrder(g, root)
  }

  /** The work it takes: the traversal, and one unit for the root and each declared parent. */
  ghost function EnoughForBoth(g: Graph, root: Class): nat {
    LoadAtLeast(g, Ancestors(g, root));
    2 + 2 * Load(g, Ancestors(g, root)) - |Ancestors(g, root)|
  }

  /** The walk so far: finishing the stack completes the pre-order. */
  ghost predicate Stepping(g: Graph, root: Class, result: seq<Class>, stack: seq<Class>, steps: nat) {
    var u := Ancestors(g, root);
    && NoRepeats(result) && (forall x :: x in result ==> x in u) && (forall x :: x in stack ==> x in u)
    && VisitAll(g, u, stack, result) == PreOrder(g, root)
    && steps + |stack| + |result| == 1 + Load(g, Elements(result))
  }

  method DeclaredLinearize(g: Graph, root: Class, budget: Budget) returns (r: Result<seq<Class>>)
    ensures r.Ok? ==> DeclaredOf(g, root, r.value) && |Ancestors(g, root)| <= budget.nodes && EnoughForBoth(g, root) <= budget.work
    ensures r.Err? ==> match r.error
              case WorkBudgetExhausted(limit, performed) =>
                limit == performed == budget.work && budget.work < EnoughForBoth(g, root)
              case _ => Justified(g, root, budget, r.error)
  {
    hide Stepping, Ancestors, Load, Complete, IsCycle, Acyclic, PreOrder, Visit;
    LoadAtLeast(g, Ancestors(g, root));
    var visited, used := Postorder(g, root, budget);
    if visited.Err? { return Err(visited.error); }
    var parents := visited.value.parents;
    TraversedAcyclic(g, root, visited.value);
    var result, stack := [], [root];
    var work: nat := used;
    FirstStep(g, root);
    while stack != []
      invariant used <= work <= budget.work
      invariant Stepping(g, root, result, stack, work - used)
      decreases budget.work - work
    {
      if work == budget.work {
        StepsBound(g, root, result, stack, work - used);
        return Err(WorkBudgetExhausted(budget.work, work));
      }
      work := work + 1;
      var node := stack[0];
      OnStack(g, root, visited.value, result, stack, work - 1 - used);
      if node in result {
        SkipVisited(g, root, result, stack, work - 1 - used);
        stack := stack[1..];
      } else {
        VisitNext(g, root, result, stack, work - 1 - used);
        result := result + [node];
        stack := parents[node] + stack[1..];
      }
    }
    LastStep(g, root, result, work - used);
    r := Ok(result);
  }

  lemma TraversedAcyclic(g: Graph, root: Class, v: Visited)
    requires Complete(g, root, v)
    ensures Acyclic(g, root)
  {
    forall path | IsCycle(g, path) ensures path[0] !in Ancestors(g, root) {
      TopologicalAcyclic(g, v.order, path);
    }
  }

  lemma FirstStep(g: Graph, root: Class)
    ensures Stepping(g, root, [], [root], 0)
  {
    hide Ancestors;
    AncestorsClosed(g, root);
    assert Elements<Class>([]) == {};
    var u := Ancestors(g, root);
    assert [root][1..] == [];
    assert VisitAll(g, u, [root], []) == VisitAll(g, u, [], Visit(g, u, root, []));
  }

  lemma LastStep(g: Graph, root: Class, result: seq<Class>, steps: nat)
    requires Stepping(g, root, result, [], steps)
    ensures result == PreOrder(g, root) && steps + |Ancestors(g, root)| == 1 + Load(g, Ancestors(g, root))
  {
    hide Ancestors, Load;
    PreOrderSound(g, root);
    assert Elements(result) == Ancestors(g, root);
    OnceEach(result);
  }

  lemma {:induction false} OnceEach(s: seq<Class>)
    requires NoRepeats(s)
    ensures |Elements(s)| == |s|
    decreases |s|
  {
    if s != [] {
      NoRepeatsLast(s);
      OnceEach(s[..|s| - 1]);
      assert Elements(s) == Elements(s[..|s| - 1]) + {s[|s| - 1]};
    }
  }

  lemma OnStack(g: Graph, root: Class, v: Visited, result: seq<Class>, stack: seq<Class>, steps: nat)
    requires Complete(g, root, v) && Stepping(g, root, result, stack, steps) && stack != []
    ensures stack[0] in v.parents && v.parents[stack[0]] == Parents(g, stack[0])
  {
    hide Ancestors, PreOrder, Load;
  }

  lemma StepsBound(g: Graph, root: Class, result: seq<Class>, stack: seq<Class>, steps: nat)
    requires Stepping(g, root, result, stack, steps) && stack != []
    ensures steps + |Ancestors(g, root)| < 1 + Load(g, Ancestors(g, root))
  {
    hide Ancestors, PreOrder, Load;
    LoadSpreads(g, Elements(result), Ancestors(g, root));
    OnceEach(result);
  }

  /** Each further class is at least one more unit. */
  lemma LoadSpreads(g: Graph, s: set<Class>, t: set<Class>)
    requires s <= t
    ensures Load(g, s) + |t| <= Load(g, t) + |s|
    decreases |t - s|
  {
    hide Load;
    if x :| x in t - s {
      LoadAdd(g, s, x);
      assert t - (s + {x}) == (t - s) - {x};
      LoadSpreads(g, s + {x}, t);
    } else {
      assert s == t;
    }
  }

  lemma SkipVisited(g: Graph, root: Class, result: seq<Class>, stack: seq<Class>, steps: nat)
    requires Stepping(g, root, result, stack, steps) && stack != [] && stack[0] in result
    ensures Stepping(g, root, result, stack[1..], steps + 1)
  {
    hide Ancestors, PreOrder, Load;
    var u := Ancestors(g, root);
    assert VisitAll(g, u, stack, result) == VisitAll(g, u, stack[1..], Visit(g, u, stack[0], result));
  }

  lemma VisitNext(g: Graph, root: Class, result: seq<Class>, stack: seq<Class>, steps: nat)
    requires Stepping(g, root, result, stack, steps) && stack != [] && stack[0] !in result
    ensures Stepping(g, root, result + [stack[0]], Parents(g, stack[0]) + stack[1..], steps + 1)
  {
    hide Ancestors, PreOrder, Load;
    var u, n := Ancestors(g, root), stack[0];
    assert n in stack;
    assert forall x :: x in Parents(g, n) + stack[1..] ==> x in Parents(g, n) || x in stack;
    AncestorsClosed(g, root);
    VisitAllAppend(g, u, Parents(g, n), stack[1..], result + [n]);
    assert VisitAll(g, u, stack, result) == VisitAll(g, u, stack[1..], Visit(g, u, n, result));
    assert Visit(g, u, n, result) == VisitAll(g, u, Parents(g, n), result + [n]);
    assert Elements(result + [n]) == Elements(result) + {n};
    LoadAdd(g, Elements(result), n);
  }

  /** Given enough budget, declared order succeeds exactly when no cycle is reachable. */
  lemma DeclaredExact(g: Graph, root: Class, budget: Budget, r: Result<seq<Class>>)
    requires budget.nodes >= |Ancestors(g, root)| && budget.work >= EnoughForBoth(g, root)
    requires r.Ok? ==> DeclaredOf(g, root, r.value)
    requires r.Err? ==> match r.error
               case WorkBudgetExhausted(_, _) => budget.work < EnoughForBoth(g, root)
               case _ => Justified(g, root, budget, r.error)
    ensures forall lin :: DeclaredOf(g, root, lin) <==> r == Ok(lin)
  {
    hide Ancestors, PreOrder, Load;
    if r.Err? {
      assert r.error.Cycle? && IsCycle(g, r.error.path) && r.error.path[0] in Ancestors(g, root);
      assert !Acyclic(g, root);
    }
  }
}

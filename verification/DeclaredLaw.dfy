/** Declared order told without a walk: a class, then what its parents' orders add one after
    the other. */
module DeclaredLaw {
  import opened Collections
  import opened C3
  import opened Ancestry
  import opened DeclaredOrder

  /** The orders of these classes one after the other. */
  ghost function Joined(g: Graph, ps: seq<Class>): seq<Class> {
    if ps == [] then [] else PreOrder(g, ps[0]) + Joined(g, ps[1..])
  }

  // ---------- first occurrences and left-out elements ----------

  lemma {:induction false} FirstsWithout(s: seq<Class>, gone: set<Class>)
    ensures Firsts(Without(s, gone)) == Without(Firsts(s), gone)
    decreases |s|
  {
    hide Firsts, Without;
    if s == [] {
      WithoutNothing<Class>(gone);
    } else {
      var n := |s| - 1;
      var front, x := s[..n], s[n];
      assert s == front + [x];
      FirstsWithout(front, gone);
      FirstsLast(front, x);
      WithoutLast(front, gone, x);
      WithoutElements(front, gone, x);
      if x in gone {
        assert Without(s, gone) == Without(front, gone);
        if x !in front { WithoutLast(Firsts(front), gone, x); }
      } else {
        FirstsLast(Without(front, gone), x);
        if x !in front { WithoutLast(Firsts(front), gone, x); }
      }
      assert x in front ==> Firsts(s) == Firsts(front);
    }
  }

  lemma {:induction false} FirstsSame(s: seq<Class>)
    requires NoRepeats(s)
    ensures Firsts(s) == s
    decreases |s|
  {
    hide Firsts;
    if s == [] {
      WithoutNothing<Class>({});
    } else {
      NoRepeatsLast(s);
      FirstsSame(s[..|s| - 1]);
      FirstsLast(s[..|s| - 1], s[|s| - 1]);
    }
  }

  lemma {:induction false} WithoutAll(s: seq<Class>, gone: set<Class>)
    requires forall x :: x in s ==> x in gone
    ensures Without(s, gone) == []
    decreases |s|
  {
    if s != [] {
      assert s[|s| - 1] in s && forall x :: x in s[..|s| - 1] ==> x in s;
      WithoutAll(s[..|s| - 1], gone);
    }
  }

  // ---------- ancestors of parents ----------

  lemma ParentAncestors(g: Graph, n: Class, p: Class)
    requires p in Parents(g, n)
    ensures Ancestors(g, p) <= Ancestors(g, n)
  {
    hide Ancestors;
    AncestorsClosed(g, n);
    AncestorsLeast(g, p, Ancestors(g, n));
  }

  lemma AncestorAncestors(g: Graph, n: Class, x: Class)
    requires x in Ancestors(g, n)
    ensures Ancestors(g, x) <= Ancestors(g, n)
  {
    hide Ancestors;
    AncestorsClosed(g, n);
    AncestorsLeast(g, x, Ancestors(g, n));
  }

  ghost predicate Climbs(g: Graph, path: seq<Class>) {
    path != [] && forall i :: 0 <= i < |path| - 1 ==> path[i + 1] in Parents(g, path[i])
  }

  ghost predicate HasPath(g: Graph, p: Class, x: Class) {
    exists path :: Climbs(g, path) && path[0] == p && path[|path| - 1] == x
  }

  lemma PathToAncestor(g: Graph, p: Class, x: Class)
    requires x in Ancestors(g, p)
    ensures HasPath(g, p, x)
  {
    hide Ancestors;
    AncestorsClosed(g, p);
    var s := set y | y in Ancestors(g, p) && HasPath(g, p, y);
    assert Climbs(g, [p]);
    assert HasPath(g, p, p) by { assert [p][0] == p; }
    forall y, q | y in s && q in Parents(g, y) ensures q in s {
      var path :| Climbs(g, path) && path[0] == p && path[|path| - 1] == y;
      var longer := path + [q];
      assert Climbs(g, longer) && longer[0] == p && longer[|longer| - 1] == q;
    }
    AncestorsLeast(g, p, s);
  }

  /** In an acyclic graph no class is an ancestor of its parents. */
  lemma NotAbove(g: Graph, n: Class, p: Class)
    requires Acyclic(g, n) && p in Parents(g, n)
    ensures n !in Ancestors(g, p) && Acyclic(g, p) && |Ancestors(g, p)| < |Ancestors(g, n)|
  {
    hide Ancestors;
    AncestorsClosed(g, n);
    ParentAncestors(g, n, p);
    if n in Ancestors(g, p) {
      PathToAncestor(g, p, n);
      var path :| Climbs(g, path) && path[0] == p && path[|path| - 1] == n;
      var cycle := [n] + path;
      forall i | 0 <= i < |cycle| - 1 ensures cycle[i + 1] in Parents(g, cycle[i]) {
        if i > 0 { assert path[i - 1 + 1] in Parents(g, path[i - 1]); }
      }
      assert IsCycle(g, cycle);
    }
    SubsetSize(Ancestors(g, p), Ancestors(g, n) - {n});
  }

  // ---------- visiting ----------

  /** The universe does not matter as long as it is closed. */
  lemma {:induction false} VisitInside(g: Graph, u: set<Class>, v: set<Class>, n: Class, seen: seq<Class>)
    requires ParentClosed(g, u) && ParentClosed(g, v) && n in u && n in v
    ensures Visit(g, u, n, seen) == Visit(g, v, n, seen)
    decreases Left(u, seen), 0
  {
    if n !in seen {
      LeftShrinks(u, seen, seen + [n]);
      VisitAllInside(g, u, v, Parents(g, n), seen + [n]);
    }
  }

  lemma {:induction false} VisitAllInside(g: Graph, u: set<Class>, v: set<Class>, ps: seq<Class>, seen: seq<Class>)
    requires ParentClosed(g, u) && ParentClosed(g, v) && forall p :: p in ps ==> p in u && p in v
    ensures VisitAll(g, u, ps, seen) == VisitAll(g, v, ps, seen)
    decreases Left(u, seen), 1, |ps|
  {
    if ps != [] {
      var first := Visit(g, u, ps[0], seen);
      VisitInside(g, u, v, ps[0], seen);
      LeftShrinks(u, seen, first);
      assert forall p :: p in ps[1..] ==> p in ps;
      VisitAllInside(g, u, v, ps[1..], first);
    }
  }

  lemma VisitIsPreOrder(g: Graph, u: set<Class>, n: Class)
    requires ParentClosed(g, u) && n in u
    ensures Visit(g, u, n, []) == PreOrder(g, n)
  {
    hide Visit;
    AncestorsClosed(g, n);
    VisitInside(g, u, Ancestors(g, n), n, []);
  }

  /** What has been seen of the ancestors of `n` has been seen with all their ancestors. */
  ghost predicate ClosedBelow(g: Graph, seen: seq<Class>, n: Class) {
    forall x, y :: x in seen && x in Ancestors(g, n) && y in Ancestors(g, x) ==> y in seen
  }

  /** Visiting adds what the order of the class has and was not seen. */
  lemma {:induction false} VisitAdds(g: Graph, u: set<Class>, n: Class, seen: seq<Class>)
    requires ParentClosed(g, u) && n in u && Acyclic(g, n) && ClosedBelow(g, seen, n)
    ensures Visit(g, u, n, seen) == seen + Without(PreOrder(g, n), Elements(seen))
    decreases |Ancestors(g, n)|, 1, 0
  {
    hide Ancestors, PreOrder, Without, Firsts, VisitAll, Acyclic, Joined;
    PreOrderSound(g, n);
    AncestorsClosed(g, n);
    if n in seen {
      WithoutAll(PreOrder(g, n), Elements(seen));
    } else {
      var ps := Parents(g, n);
      VisitIsPreOrder(g, u, n);
      forall p | p in ps ensures p in u && Acyclic(g, p) && |Ancestors(g, p)| < |Ancestors(g, n)| && ClosedBelow(g, seen + [n], p) && ClosedBelow(g, [n], p) {
        NotAbove(g, n, p);
        ParentAncestors(g, n, p);
      }
      VisitAllAdds(g, u, ps, seen + [n], |Ancestors(g, n)|);
      VisitAllAdds(g, u, ps, [n], |Ancestors(g, n)|);
      assert [] + [n] == [n] && Visit(g, u, n, []) == VisitAll(g, u, ps, [n]);
      AddedAfter(n, seen, Firsts(Joined(g, ps)));
    }
  }

  lemma AddedAfter(n: Class, seen: seq<Class>, all: seq<Class>)
    requires n !in seen
    ensures seen + [n] + Without(all, Elements(seen + [n])) == seen + Without([n] + Without(all, Elements([n])), Elements(seen))
  {
    hide Without;
    WithoutAppend([n], Without(all, Elements([n])), Elements(seen));
    WithoutTwice(all, Elements([n]), Elements(seen));
    assert Elements([n]) + Elements(seen) == Elements(seen + [n]);
    WithoutLast([], Elements(seen), n);
    WithoutNothing<Class>(Elements(seen));
    assert [] + [n] == [n];
  }

  lemma {:induction false} VisitAllAdds(g: Graph, u: set<Class>, ps: seq<Class>, seen: seq<Class>, bound: nat)
    requires ParentClosed(g, u)
    requires forall p :: p in ps ==> p in u && Acyclic(g, p) && |Ancestors(g, p)| < bound && ClosedBelow(g, seen, p)
    ensures VisitAll(g, u, ps, seen) == seen + Without(Firsts(Joined(g, ps)), Elements(seen))
    decreases bound, 0, |ps|
  {
    hide Ancestors, PreOrder, Without, Firsts, Visit, Acyclic, ClosedBelow;
    if ps == [] {
      WithoutNothing<Class>(Elements(seen));
    } else {
      assert ps[0] in ps && forall p :: p in ps[1..] ==> p in ps;
      var first := Visit(g, u, ps[0], seen);
      VisitAdds(g, u, ps[0], seen);
      forall p | p in ps[1..] ensures ClosedBelow(g, first, p) { ClosedAfter(g, seen, first, ps[0], p); }
      VisitAllAdds(g, u, ps[1..], first, bound);
      PreOrderSound(g, ps[0]);
      AddedBoth(seen, PreOrder(g, ps[0]), Joined(g, ps[1..]));
    }
  }

  lemma ClosedAfter(g: Graph, seen: seq<Class>, first: seq<Class>, n: Class, p: Class)
    requires ClosedBelow(g, seen, p) && first == seen + Without(PreOrder(g, n), Elements(seen))
    ensures ClosedBelow(g, first, p)
  {
    hide Ancestors, PreOrder, Without;
    PreOrderSound(g, n);
    forall x, y | x in first && x in Ancestors(g, p) && y in Ancestors(g, x) ensures y in first {
      WithoutElements(PreOrder(g, n), Elements(seen), x);
      WithoutElements(PreOrder(g, n), Elements(seen), y);
      if x !in seen { AncestorAncestors(g, n, x); }
    }
  }

  lemma AddedBoth(seen: seq<Class>, one: seq<Class>, more: seq<Class>)
    requires NoRepeats(one)
    ensures var first := seen + Without(one, Elements(seen));
      first + Without(Firsts(more), Elements(first)) == seen + Without(Firsts(one + more), Elements(seen))
  {
    hide Firsts, Without;
    var first, s := seen + Without(one, Elements(seen)), Elements(seen);
    FirstsAppend(one, more);
    FirstsSame(one);
    FirstsWithout(more, Elements(one));
    WithoutAppend(one, Without(Firsts(more), Elements(one)), s);
    WithoutTwice(Firsts(more), Elements(one), s);
    forall x ensures x in first <==> x in one || x in seen { WithoutElements(one, s, x); }
    assert Elements(first) == Elements(one) + s;
  }

  /** Declared order: the class, then the orders of its parents one after the other, each
      class where it comes first. */
  lemma PreOrderJoins(g: Graph, n: Class)
    requires Acyclic(g, n)
    ensures PreOrder(g, n) == Firsts([n] + Joined(g, Parents(g, n)))
  {
    hide Ancestors, Without, Firsts, Visit, VisitAll, Acyclic, Joined, PreOrder;
    var u, ps := Ancestors(g, n), Parents(g, n);
    AncestorsClosed(g, n);
    forall p | p in ps ensures p in u && Acyclic(g, p) && |Ancestors(g, p)| < |u| && ClosedBelow(g, [n], p) { NotAbove(g, n, p); }
    VisitAllAdds(g, u, ps, [n], |u|);
    StartsVisiting(g, n);
    FirstsAppend([n], Joined(g, ps));
    FirstsWithout(Joined(g, ps), Elements([n]));
    OneFirst(n);
  }

  lemma StartsVisiting(g: Graph, n: Class)
    ensures PreOrder(g, n) == VisitAll(g, Ancestors(g, n), Parents(g, n), [n])
  {
    hide Ancestors;
    AncestorsClosed(g, n);
    assert [] + [n] == [n];
  }

  lemma OneFirst(n: Class)
    ensures Firsts([n]) == [n]
  {
    FirstsLast([], n);
    assert [] + [n] == [n];
  }
}

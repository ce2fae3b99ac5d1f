/** Where the class cache stops being right: what a replacement of declared parents that
    runs into the edge cap does to later hits, and a declared parent that was collected to
    lookups. */
module CacheBoundaries {
  import opened Collections
  import opened C3
  import opened Ancestry
  import opened Lineage
  import opened Linearization
  import opened DeclaredOrder
  import opened Policies
  import opened CacheModel
  import opened Currency
  import opened ClassCaches
  import opened Tracing
  import Arena
  import CacheSessions

  // ---------- the property ----------

  /** If an access to `d` would be a hit, it shows what the policy gives now. */
  ghost predicate HitRight<M>(objects: CacheObjects<M>, policy: Policy, d: Id) {
    CurrentIn(objects, d) ==>
      && LinearizedBy(policy, GraphOf(objects), d, ViewOf(objects, d).linearization)
      && ViewOf(objects, d).members == Gather(ViewOf(objects, d).linearization, MembersOf(objects))
  }

  ghost predicate HitsRight<M>(objects: CacheObjects<M>, policy: Policy) {
    forall d :: HitRight(objects, policy, d)
  }

  /** In a valid cache every hit is right. */
  lemma ValidHits<M(!new)>(objects: CacheObjects<M>, manager: Id, hist: History<M>, policy: Policy, nextId: nat)
    requires CacheInv(objects, manager, hist, policy, nextId)
    ensures HitsRight(objects, policy)
  {
    hide CacheInv, LinearizedBy, Gather;
    forall d ensures HitRight(objects, policy, d) {
      if CurrentIn(objects, d) { HitUpToDate(objects, manager, hist, policy, nextId, d); }
    }
  }

  // ---------- after a replacement that did not fit ----------

  /** A class without a cached view, and more parents for it than fit. */
  ghost predicate Overflows<M>(objects: CacheObjects<M>, c: Id, parents: seq<Id>) {
    IsClass(objects, c) && objects[c].payload.cached.None? && |parents| > EDGE_CAP
  }

  /** The failed replacement leaves the same accesses to be hits, with the same views. */
  lemma SameHits<M>(objects: CacheObjects<M>, c: Id, parents: seq<Id>, d: Id)
    requires Overflows(objects, c, parents)
    ensures var objects' := Overflowed(objects, c, parents);
      && (CurrentIn(objects', d) <==> CurrentIn(objects, d))
      && (CurrentIn(objects, d) ==> ViewOf(objects', d) == ViewOf(objects, d))
      && GraphOf(objects') == GraphOf(objects)[c := parents[..EDGE_CAP]] && MembersOf(objects') == MembersOf(objects)
  {
    OverflowDeclares(objects, c, parents);
    hide GraphOf, MembersOf, RevisionsOf;
  }

  lemma OverflowDeclares<M>(objects: CacheObjects<M>, c: Id, parents: seq<Id>)
    requires Overflows(objects, c, parents)
    ensures var objects' := Overflowed(objects, c, parents);
      && RevisionsOf(objects') == RevisionsOf(objects) && MembersOf(objects') == MembersOf(objects)
      && GraphOf(objects') == GraphOf(objects)[c := parents[..EDGE_CAP]]
  {
    hide GraphOf, MembersOf, RevisionsOf;
    var slot := ClassSlot<M>(parents[..EDGE_CAP], objects[c].payload.members, objects[c].payload.revisions);
    Redeclared(objects, c, slot);
    MembersStay(objects, c);
    RevisionsStay(objects, c, slot);
  }

  lemma RevisionsStay<M>(objects: CacheObjects<M>, c: Id, slot: Arena.Slot<Payload<M>>)
    requires IsClass(objects, c) && slot.payload.ClassObject? && slot.payload.revisions == objects[c].payload.revisions
    ensures RevisionsOf(objects[c := slot]) == RevisionsOf(objects)
  {
  }

  /** Every hit is still right if the parents that fit are the declared ones, or if no view
      that would be a hit lists the class. */
  lemma OverflowHarmless<M(!new)>(objects: CacheObjects<M>, manager: Id, hist: History<M>, policy: Policy, nextId: nat, c: Id, parents: seq<Id>)
    requires CacheInv(objects, manager, hist, policy, nextId) && Overflows(objects, c, parents)
    requires || parents[..EDGE_CAP] == objects[c].payload.parents
             || forall d :: CurrentIn(objects, d) ==> c !in ViewOf(objects, d).linearization
    ensures HitsRight(Overflowed(objects, c, parents), policy)
  {
    hide CacheInv, LinearizedBy, Gather, CurrentIn, Overflowed, GraphOf, MembersOf;
    ValidHits(objects, manager, hist, policy, nextId);
    forall d ensures HitRight(Overflowed(objects, c, parents), policy, d) {
      SameHits(objects, c, parents, d);
      assert HitRight(objects, policy, d);
      if CurrentIn(objects, d) {
        var lin := ViewOf(objects, d).linearization;
        forall x | x in lin ensures Parents(GraphOf(objects)[c := parents[..EDGE_CAP]], x) == Parents(GraphOf(objects), x) {
          ParentsNow(objects, c);
        }
        LinearizedLocal(policy, GraphOf(objects), GraphOf(objects)[c := parents[..EDGE_CAP]], d, lin);
      }
    }
  }

  lemma ParentsNow<M>(objects: CacheObjects<M>, c: Id)
    requires IsClass(objects, c)
    ensures Parents(GraphOf(objects), c) == objects[c].payload.parents
  {
  }

  /** A hit is wrong if its view lists the class but misses a parent it now has. */
  lemma OverflowMisses<M(!new)>(objects: CacheObjects<M>, manager: Id, hist: History<M>, policy: Policy, nextId: nat,
                                c: Id, parents: seq<Id>, d: Id, p: Id)
    requires CacheInv(objects, manager, hist, policy, nextId) && Overflows(objects, c, parents)
    requires CurrentIn(objects, d) && c in ViewOf(objects, d).linearization
    requires p in parents[..EDGE_CAP] && p !in ViewOf(objects, d).linearization
    ensures !HitRight(Overflowed(objects, c, parents), policy, d)
  {
    hide CacheInv, LinearizedBy, Gather, CurrentIn, Overflowed, Ancestors;
    SameHits(objects, c, parents, d);
    var g', lin := GraphOf(objects)[c := parents[..EDGE_CAP]], ViewOf(objects, d).linearization;
    assert p in Parents(g', c);
    AncestorsClosed(g', d);
    if LinearizedBy(policy, g', d, lin) { LinearizedSound(policy, g', d, lin); }
  }

  /** Where the view lists all the parents that fit, C3 still makes it wrong if one of them
      is repeated or does not come after the class. */
  lemma OverflowDisorders<M(!new)>(objects: CacheObjects<M>, manager: Id, hist: History<M>, nextId: nat, c: Id, parents: seq<Id>, d: Id)
    requires CacheInv(objects, manager, hist, C3Policy, nextId) && Overflows(objects, c, parents)
    requires CurrentIn(objects, d) && c in ViewOf(objects, d).linearization
    requires !NoRepeats(parents[..EDGE_CAP]) || exists p :: p in parents[..EDGE_CAP] && !Precedes(ViewOf(objects, d).linearization, c, p)
    ensures !HitRight(Overflowed(objects, c, parents), C3Policy, d)
  {
    hide CacheInv, Gather, CurrentIn, Overflowed, C3Table, Precedes, NoRepeats, Merge;
    SameHits(objects, c, parents, d);
    var g', lin := GraphOf(objects)[c := parents[..EDGE_CAP]], ViewOf(objects, d).linearization;
    assert Parents(g', c) == parents[..EDGE_CAP];
    if C3Of(g', d, lin) {
      var t :| C3Table(g', t) && d in t && t[d] == lin;
      ParentsFollow(g', t, d, c);
    }
  }

  /** In a C3 linearization the parents of a listed class are distinct and come after it. */
  lemma ParentsFollow(g: Graph, t: Table, n: Class, c: Class)
    requires C3Table(g, t) && n in t && c in t[n]
    ensures NoRepeats(Parents(g, c)) && forall p :: p in Parents(g, c) ==> Precedes(t[n], c, p)
  {
    hide C3Table, Merge, Ancestors;
    C3Monotone(g, t, n, c);
    C3Sound(g, t, c);
    SubsequenceNoRepeats(Parents(g, c), t[c]);
    HeadNotInTail(g, t, c);
    forall p | p in Parents(g, c) ensures Precedes(t[n], c, p) {
      SubsequenceElements(Parents(g, c), t[c], p);
      C3Sound(g, t, p);
      assert c !in t[p] by { NotItsOwn(g, t, c, p); }
      var q :| 0 <= q < |t[c]| && t[c][q] == p;
      assert q > 0;
      SubsequenceOrder(t[c], t[n], 0, q);
    }
  }

  lemma NotItsOwn(g: Graph, t: Table, c: Class, p: Class)
    requires C3Table(g, t) && c in t && p in Parents(g, c)
    ensures p in t && c !in t[p]
  {
    hide Row, Merge;
    RowOf(g, t, c);
    RowRespects(g, t, c, p);
    if c in t[p] { RowContains(g, t, p, c); }
  }

  /** In declared order it stays right if the parents that fit are, repetitions aside, the
      declared ones: so a view that lists all of them may or may not be right. */
  lemma OverflowRepeats<M(!new)>(objects: CacheObjects<M>, manager: Id, hist: History<M>, nextId: nat, c: Id, parents: seq<Id>)
    requires CacheInv(objects, manager, hist, DeclaredOrderPolicy, nextId) && Overflows(objects, c, parents)
    requires Firsts(parents[..EDGE_CAP]) == Firsts(objects[c].payload.parents)
    ensures HitsRight(Overflowed(objects, c, parents), DeclaredOrderPolicy)
  {
    hide CacheInv, Gather, CurrentIn, Overflowed, DeclaredOf, Firsts;
    ValidHits(objects, manager, hist, DeclaredOrderPolicy, nextId);
    var g, g' := GraphOf(objects), GraphOf(objects)[c := parents[..EDGE_CAP]];
    forall x ensures Firsts(Parents(g', x)) == Firsts(Parents(g, x)) { ParentsNow(objects, c); }
    forall d ensures HitRight(Overflowed(objects, c, parents), DeclaredOrderPolicy, d) {
      SameHits(objects, c, parents, d);
      assert HitRight(objects, DeclaredOrderPolicy, d);
      if CurrentIn(objects, d) { RepeatedParents(g, g', d, ViewOf(objects, d).linearization); }
    }
  }

  // ---------- every list that does not fit breaks some cache ----------

  /** A class below another that has no parents. */
  lemma TwoInLine(policy: Policy, g: Graph, d: Class, c: Class)
    requires d != c && Parents(g, d) == [c] && Parents(g, c) == []
    ensures LinearizedBy(policy, g, d, [d, c])
  {
    hide Ancestors, Visit, VisitAll, Merge;
    if policy == C3Policy {
      var t: Table := map[c := [c], d := [d, c]];
      assert Row(g, t, c) by {
        assert Inputs(g, t, c) == [[]];
        MergeNothing();
      }
      assert Row(g, t, d) by {
        assert Inputs(g, t, d) == [[c], [c]];
        MergeOne(c);
      }
    } else {
      TwoPreOrder(g, d, c);
      TwoAcyclic(g, d, c);
    }
  }

  lemma MergeNothing()
    ensures Merge([[]]) == Some([])
  {
    assert NonEmpty([[]]) == [];
    MergeUnfolds([[]]);
  }

  lemma MergeOne(c: Class)
    ensures Merge([[c], [c]]) == Some([c])
  {
    hide Merge;
    var lists: seq<seq<Class>>, last: seq<seq<Class>>, none: seq<seq<Class>> := [[c], [c]], [[c]], [];
    assert NonEmpty(lists) == lists by {
      assert lists[1..] == last && last[1..] == none;
      assert NonEmpty(none) == [] && NonEmpty(last) == last;
    }
    assert lists[0][1..] == [] && lists[1][1..] == [];
    assert !Blocked(lists, c) && FirstFree(lists, 0) == Some(0);
    MergeUnfolds(lists);
    var rest := Advance(lists, c);
    var empty: seq<seq<Class>> := [[]];
    assert NonEmpty(rest) == [] by {
      assert rest == [[], []] && rest[1..] == empty && empty[1..] == none;
      assert NonEmpty(none) == [] && NonEmpty(empty) == [];
    }
    MergeUnfolds(rest);
    assert [c] + [] == [c];
  }

  lemma TwoAncestors(g: Graph, d: Class, c: Class)
    requires d != c && Parents(g, d) == [c] && Parents(g, c) == []
    ensures Ancestors(g, d) == {d, c}
  {
    hide Ancestors;
    AncestorsLeast(g, d, {d, c});
    AncestorsClosed(g, d);
    assert c in Parents(g, d);
  }

  lemma TwoPreOrder(g: Graph, d: Class, c: Class)
    requires d != c && Parents(g, d) == [c] && Parents(g, c) == []
    ensures PreOrder(g, d) == [d, c]
  {
    hide Ancestors;
    TwoAncestors(g, d, c);
    var u := {d, c};
    assert VisitAll(g, u, [], [d, c]) == [d, c];
    assert Visit(g, u, c, [d]) == [d, c] by { assert [d] + [c] == [d, c]; }
    assert [c][1..] == [];
    assert VisitAll(g, u, [c], [d]) == [d, c];
    assert Visit(g, u, d, []) == [d, c] by { assert [] + [d] == [d]; }
  }

  lemma TwoAcyclic(g: Graph, d: Class, c: Class)
    requires d != c && Parents(g, d) == [c] && Parents(g, c) == []
    ensures Acyclic(g, d)
  {
    hide Ancestors;
    TwoAncestors(g, d, c);
    forall path | IsCycle(g, path) ensures path[0] !in Ancestors(g, d) {
      assert path[0 + 1] in Parents(g, path[0]);
      if |path| > 2 { assert path[1 + 1] in Parents(g, path[1]); }
    }
  }

  lemma TwoSufficient(policy: Policy, g: Graph, d: Class, c: Class)
    requires d != c && Parents(g, d) == [c] && Parents(g, c) == []
    ensures Sufficient(policy, g, d, Budget(2, 10))
  {
    hide Ancestors, Load;
    TwoAncestors(g, d, c);
    NothingLoaded(g);
    LoadAdd(g, {}, c);
    LoadAdd(g, {c}, d);
    assert {} + {c} == {c} && {c} + {d} == {d, c};
  }

  lemma NothingLoaded(g: Graph)
    ensures Load(g, {}) == 0
  {
  }

  /** Nothing but the manager and unrelated classes, none of them with a view. */
  ghost predicate Plain<M(!new)>(cache: ClassCache<M>)
    reads cache, cache.arena
  {
    && cache.Valid() && cache.manager == 0 && Entered(cache.arena.objects, 0) == 0
    && |cache.arena.objects| == cache.arena.nextId >= 1
    && (forall id: Id :: id in cache.arena.objects <==> id < cache.arena.nextId)
    && (forall id: Id :: 0 < id < cache.arena.nextId ==> cache.arena.objects[id] == ClassSlot([], [], Revisions(0, 0)))
  }

  lemma NewPlain<M(!new)>(cache: ClassCache<M>)
    requires cache.Valid() && cache.manager == 0 && cache.arena.nextId == 1 && cache.arena.objects == map[0 := Arena.Slot(Manager, [], 0)]
    ensures Plain(cache)
  {
    hide CacheInv, RootsOk, Arena.Sane;
  }

  /** Allocates classes without parents until the next identity is `top` or more. */
  method Populate<M(!new)>(cache: ClassCache<M>, top: nat)
    requires Plain(cache) && cache.arena.cap >= top + 1
    modifies cache, cache.arena
    ensures Plain(cache) && top <= cache.arena.nextId && (old(cache.arena.nextId) <= top + 1 ==> cache.arena.nextId <= top + 1)
  {
    hide CacheInv, RootsOk, Arena.Sane, GraphOf, MembersOf;
    while cache.arena.nextId < top
      invariant Plain(cache) && (old(cache.arena.nextId) <= top + 1 ==> cache.arena.nextId <= top + 1)
      decreases top - cache.arena.nextId
    {
      AllLiveNone(cache.arena.objects);
      var r := cache.AllocateClass([], []);
    }
  }

  lemma AllLiveNone<M>(objects: CacheObjects<M>)
    ensures AllLive(objects, [])
  {
  }

  method Declare<M(!new)>(cache: ClassCache<M>) returns (c: Id, d: Id)
    requires Plain(cache) && cache.arena.cap >= cache.arena.nextId + 3
    modifies cache, cache.arena
    ensures cache.Valid() && c == old(cache.arena.nextId) && d == c + 1 && IsClass(cache.arena.objects, d)
    ensures |cache.arena.objects| < cache.arena.cap && Entered(cache.arena.objects, cache.manager) == 0
    ensures c in cache.arena.objects && cache.arena.objects[c] == ClassSlot([], [], Revisions(0, 0))
    ensures Parents(cache.DeclaredGraph(), d) == [c] && Parents(cache.DeclaredGraph(), c) == []
    ensures forall id: Id :: 0 < id < c ==> IsClass(cache.arena.objects, id)
  {
    hide CacheInv, RootsOk, Arena.Sane, MembersOf, GraphOf;
    AllLiveNone(cache.arena.objects);
    var made := cache.AllocateClass([], []);
    c := made.value.id;
    made := cache.AllocateClass([c], []);
    d := made.value.id;
  }

  /** Allocates `c` and `d` that declares it, and accesses `d`. */
  method Inherit<M(!new)>(cache: ClassCache<M>) returns (c: Id, d: Id)
    requires Plain(cache) && cache.arena.cap >= cache.arena.nextId + 3
    modifies cache, cache.arena
    ensures cache.Valid() && c == old(cache.arena.nextId) && d == c + 1 && cache.Current(d)
    ensures IsClass(cache.arena.objects, c) && cache.arena.objects[c].payload.cached.None?
    ensures Parents(cache.DeclaredGraph(), d) == [c] && Parents(cache.DeclaredGraph(), c) == []
    ensures forall id: Id :: 0 < id < c ==> IsClass(cache.arena.objects, id)
  {
    hide CacheInv, RootsOk, Arena.Sane, LinearizedBy, Gather, CurrentIn, Sufficient, MembersOf, GraphOf, Plain;
    c, d := Declare(cache);
    ghost var g := cache.DeclaredGraph();
    TwoInLine(cache.policy, g, d, c);
    TwoSufficient(cache.policy, g, d, c);
    ghost var objects := cache.arena.objects;
    var access := cache.DerivedView(d, Budget(2, 10));
    assert IsClass(objects, c);
    forall id: Id | 0 < id < c ensures IsClass(cache.arena.objects, id) { assert IsClass(objects, id); }
  }

  /** Replacing parents is right in every cache exactly when they fit: whatever list of
      classes does not fit, this run of a new cache ends with a hit that is wrong. The
      classes are allocated, `d` that declares `c` is accessed, and the parents of `c` are
      replaced. */
  method OverflowUnsafe<M(!new)>(policy: Policy, parents: seq<Id>) returns (cache: ClassCache<M>, d: Id, r: ClassCaches.Result<()>)
    requires |parents| > EDGE_CAP && 0 !in parents
    ensures fresh(cache) && cache.policy == policy && AllLive(cache.arena.objects, parents)
    ensures r == ClassCaches.Err(EdgesExhausted(EDGE_CAP)) && cache.Current(d) && !HitRight(cache.arena.objects, policy, d)
  {
    hide CacheInv, RootsOk, Arena.Sane, LinearizedBy, Gather, Overflowed, HitRight, Discarded, CurrentIn, Plain, GraphOf, MembersOf;
    var top := Above(parents);
    cache := new ClassCache<M>(policy, top + 5);
    NewPlain(cache);
    Populate(cache, top);
    var c;
    c, d := Inherit(cache);
    WrongAfterwards(cache.arena.objects, cache.manager, cache.hist, policy, cache.arena.nextId, c, d, parents);
    r := cache.ReplaceParents(c, parents);
  }

  lemma WrongAfterwards<M(!new)>(objects: CacheObjects<M>, manager: Id, hist: History<M>, policy: Policy, nextId: nat, c: Id, d: Id, parents: seq<Id>)
    requires CacheInv(objects, manager, hist, policy, nextId) && IsClass(objects, c) && objects[c].payload.cached.None? && CurrentIn(objects, d)
    requires d != c && Parents(GraphOf(objects), d) == [c] && Parents(GraphOf(objects), c) == []
    requires |parents| > EDGE_CAP && AllLive(objects, parents) && c !in parents && d !in parents
    ensures Discarded(objects, manager, c) == objects && AllLive(Overflowed(objects, c, parents), parents)
    ensures CurrentIn(Overflowed(objects, c, parents), d) && !HitRight(Overflowed(objects, c, parents), policy, d)
  {
    hide CacheInv, LinearizedBy, Gather, CurrentIn, Parents, GraphOf;
    ValidHits(objects, manager, hist, policy, nextId);
    assert HitRight(objects, policy, d);
    TwoInLine(policy, GraphOf(objects), d, c);
    LinearizedUnique(policy, GraphOf(objects), d, ViewOf(objects, d).linearization, [d, c]);
    assert parents[0] in parents[..EDGE_CAP] && parents[0] in parents;
    OverflowMisses(objects, manager, hist, policy, nextId, c, parents, d, parents[0]);
    SameHits(objects, c, parents, d);
  }

  // ---------- a parent that was collected ----------

  /** A class that declares one parent, which is gone, still has a linearization; the
      revision and the members of the parent, which an access looks up next, are not there. */
  lemma LookupFails<M>(policy: Policy, objects: CacheObjects<M>, c: Id, p: Id)
    requires IsClass(objects, c) && objects[c].payload.parents == [p] && !IsClass(objects, p)
    ensures LinearizedBy(policy, GraphOf(objects), c, [c, p])
    ensures p in [c, p] && p !in RevisionsOf(objects) && p !in MembersOf(objects)
  {
    hide LinearizedBy;
    TwoInLine(policy, GraphOf(objects), c, p);
  }

  lemma NothingInherited<M(!new)>(cache: ClassCache<M>, p: Id)
    requires cache.Valid() && cache.arena.roots == map[cache.managerRoot := cache.manager]
    ensures !cache.Inherited(p)
  {
    hide CacheInv, Arena.Sane, Ancestors;
    ManagerThere(cache);
  }

  /** With no class rooted there is little to collect: these limits do. */
  lemma NoRootLeft<M(!new)>(cache: ClassCache<M>, refusal: Refusal)
    requires cache.Valid() && cache.arena.roots == map[cache.managerRoot := cache.manager]
    requires |cache.arena.objects| == 2 && Entered(cache.arena.objects, cache.manager) == 0
    ensures refusal.Limit? ==>
              !Justified(Arena.HeapOf(cache.arena.objects), Members(cache.arena.Entries()), |cache.arena.Entries()|, Limits(2, 0, 1, 3, 0, 0), refusal)
  {
    hide CacheInv, Arena.Sane, Ancestors, Justified, Load;
    ManagerThere(cache);
    if refusal.Limit? && Justified(Arena.HeapOf(cache.arena.objects), Members(cache.arena.Entries()), |cache.arena.Entries()|, Limits(2, 0, 1, 3, 0, 0), refusal) {
      CacheSessions.LimitOverran(cache, Limits(2, 0, 1, 3, 0, 0), refusal);
      var w := CacheSessions.Abstracted(cache);
      assert CacheSessions.Inherited(w) == {};
      NothingLoaded(w.parents);
    }
  }

  /** Allocates a class, releases it and collects it. */
  method Lose<M(!new)>(cache: ClassCache<M>) returns (p: Id)
    requires Plain(cache) && cache.arena.nextId == 1 && cache.arena.cap >= 2 && cache.arena.roots == map[cache.managerRoot := cache.manager]
    modifies cache, cache.arena
    ensures cache.Valid() && p < cache.arena.nextId && !IsClass(cache.arena.objects, p) && |cache.arena.objects| <= 2
  {
    hide CacheInv, RootsOk, Arena.Sane, GraphOf, MembersOf, Justified, InheritedByRoot, CurrentIn;
    AllLiveNone(cache.arena.objects);
    var made := cache.AllocateClass([], []);
    p := made.value.id;
    RootsApart(cache);
    var released := cache.Release(made.value);
    assert cache.arena.roots == map[cache.managerRoot := cache.manager];
    forall refusal: Refusal ensures refusal.Limit? ==>
      !Justified(Arena.HeapOf(cache.arena.objects), Members(cache.arena.Entries()), |cache.arena.Entries()|, Limits(2, 0, 1, 3, 0, 0), refusal)
    {
      NoRootLeft(cache, refusal);
    }
    NothingInherited(cache, p);
    assert IsClass(cache.arena.objects, p);
    var collected := cache.Collect(Limits(2, 0, 1, 3, 0, 0));
    assert collected.Ok?;
  }

  lemma RootsApart<M(!new)>(cache: ClassCache<M>)
    requires cache.Valid()
    ensures cache.managerRoot in cache.arena.roots
  {
    hide CacheInv, Arena.Sane;
  }

  /** It comes to that if a class is released, collected, and then named as a parent: the
      declaration is accepted. */
  method LostParent<M(!new)>(policy: Policy) returns (cache: ClassCache<M>, c: Id, p: Id)
    ensures fresh(cache) && cache.policy == policy && IsClass(cache.arena.objects, c) && cache.arena.objects[c].payload.parents == [p]
    ensures LinearizedBy(policy, cache.DeclaredGraph(), c, [c, p]) && p !in RevisionsOf(cache.arena.objects)
  {
    hide CacheInv, RootsOk, Arena.Sane, LinearizedBy, RevisionsOf, GraphOf, MembersOf, Plain;
    cache := new ClassCache<M>(policy, 5);
    NewPlain(cache);
    p := Lose(cache);
    var made := cache.AllocateClass([p], []);
    c := made.value.id;
    LookupFails(policy, cache.arena.objects, c, p);
  }

  /** A number above all the listed ones. */
  function Above(s: seq<nat>): (n: nat)
    ensures forall x :: x in s ==> x < n
  {
    if s == [] then 0
    else
      assert s == s[..|s| - 1] + [s[|s| - 1]];
      var rest := Above(s[..|s| - 1]);
      if s[|s| - 1] < rest then rest else s[|s| - 1] + 1
  }
}

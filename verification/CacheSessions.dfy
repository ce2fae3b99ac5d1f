/** Whole runs of the class cache, explained by a world without any cache: declared
    parents, declared members and roots, and nothing else. */
module CacheSessions {
  import opened Collections
  import opened CacheModel
  import opened Currency
  import opened ClassCaches
  import opened Ancestry
  import opened Policies
  import opened Tracing
  import Lineage
  import Arena
  import Collector

  datatype Operation<M> =
    | Allocate(parents: seq<Id>, members: seq<M>)
    | DeclareParents(class_: Id, parents: seq<Id>)
    | DeclareMembers(class_: Id, members: seq<M>)
    | Derive(class_: Id, budget: Lineage.Budget)
    | ReleaseRoot(handle: ClassRoot)
    | CollectGarbage(limits: Limits)

  /** What the caller sees of an operation: its result, or that it was not attempted. */
  datatype Event<M> =
    | Skipped
    | Made(made: Result<ClassRoot>)
    | Done(done: Result<()>)
    | Saw(saw: Result<Access<M>>)
    | Swept(swept: Result<Collector.Collection>)

  /** The world without a cache: what classes declare and which are rooted; and of the cache
      only how full it is, with views and entries counted in, and which classes were accessed
      since anything their answer lists declared something new, with what it lists. */
  datatype World<M> = World(
    parents: Graph, members: map<Id, seq<M>>, roots: map<nat, Id>, stored: nat, links: nat, cap: nat, standing: map<Id, seq<Id>>)

  ghost predicate Reachable(parents: Graph, roots: map<nat, Id>, id: Id) {
    exists r :: r in roots && id in Ancestors(parents, roots[r])
  }

  predicate Known<M>(w: World<M>, ids: seq<Id>) {
    forall id :: id in ids ==> id in w.parents
  }

  ghost predicate SameDeclarations<M>(w: World<M>, w': World<M>) {
    w'.parents == w.parents && w'.members == w.members && w'.roots == w.roots
  }

  ghost predicate NoClass<M>(w: World<M>, c: Id, e: CacheError) {
    c !in w.parents && (e == WrongObject(c) || e == ArenaFailure(Arena.StaleHandle(c)))
  }

  /** What one operation does, said without mentioning cached views. Each result is
      determined by the world but for the classes' names, for room that cached views take,
      and for the limits of a collection; an access shows what the policy computes from the
      declarations, and a collection drops exactly the classes no root inherits from. Only
      operations that name a class that is gone as a parent, and replacements with more
      parents than fit, are not attempted. */
  ghost predicate Step<M>(policy: Policy, w: World<M>, op: Operation<M>, event: Event<M>, w': World<M>) {
    && w'.cap == w.cap
    && match op
       case Allocate(parents, members) =>
         if !Known(w, parents) then event.Skipped? && w' == w
         else event.Made? && AllocateStep(w, parents, members, event.made, w')
       case DeclareParents(c, parents) =>
         if !Known(w, parents) || (c in w.parents && |parents| > EDGE_CAP) then event.Skipped? && w' == w
         else event.Done? && DeclareStep(w, c, event.done, w.parents[c := parents], w.members, w')
       case DeclareMembers(c, members) => event.Done? && DeclareStep(w, c, event.done, w.parents, w.members[c := members], w')
       case Derive(c, budget) => event.Saw? && SameDeclarations(w, w') && DeriveStep(policy, w, c, budget, event.saw, w')
       case ReleaseRoot(c) =>
         if c.root in w.roots && w.roots[c.root] == c.id then event == Done(Ok(())) && w' == w.(roots := w.roots - {c.root})
         else w' == w && (event.Skipped? || event == Done(Err(ArenaFailure(Arena.StaleRoot(c.root)))))
       case CollectGarbage(limits) => event.Swept? && CollectStep(w, limits, event.swept, w')
  }

  ghost predicate AllocateStep<M>(w: World<M>, parents: seq<Id>, members: seq<M>, r: Result<ClassRoot>, w': World<M>) {
    if |parents| > EDGE_CAP then r == Err(EdgesExhausted(EDGE_CAP)) && w' == w
    else if w.stored >= w.cap then r == Err(ArenaFailure(Arena.CapacityExceeded(w.cap))) && w' == w
    else
      && r.Ok? && r.value.id !in w.parents && r.value.root !in w.roots
      && w' == World(w.parents[r.value.id := parents], w.members[r.value.id := members], w.roots[r.value.root := r.value.id],
                     w.stored + 1, w.links, w.cap, w.standing)
  }

  ghost predicate DeclareStep<M>(w: World<M>, c: Id, r: Result<()>, parents: Graph, members: map<Id, seq<M>>, w': World<M>) {
    if c in w.parents
    then r.Ok? && w'.parents == parents && w'.members == members && w'.roots == w.roots && Fuller(w, w', 0, 0) && w'.standing == Apart(w.standing, c)
    else r.Err? && NoClass(w, c, r.error) && w' == w
  }

  /** At most one stored object went, and at most so many objects and links came. */
  ghost predicate Fuller<M>(w: World<M>, w': World<M>, stored: nat, links: nat) {
    w.stored <= w'.stored + 1 && w'.stored <= w.stored + stored && w'.links <= w.links + links
  }

  ghost predicate DeriveStep<M>(policy: Policy, w: World<M>, c: Id, budget: Lineage.Budget, r: Result<Access<M>>, w': World<M>) {
    && (r.Err? ==> w'.standing == w.standing)
    && match r
    case Ok(access) =>
      && (access.kind == Hit <==> c in w.standing) && w'.standing == w.standing[c := access.view.linearization]
      && LinearizedBy(policy, w.parents, c, access.view.linearization)
      && ListsMembers(access.view.linearization, w.members, access.view.members)
      && (if access.kind == Hit then w' == w else Fuller(w, w', 1, 1) && Affords(policy, w.parents, c, budget))
    case Err(e) =>
      || (NoClass(w, c, e) && w' == w)
      || (e == ArenaFailure(Arena.CapacityExceeded(w.cap)) && w'.stored == w.cap && Fuller(w, w', 0, 0))
      || (e == EdgesExhausted(EDGE_CAP) && w'.links >= EDGE_CAP && Fuller(w, w', 1, 0))
      || (e.LineageFailure? && Evident(policy, w.parents, c, budget, e.lineage) && Fuller(w, w', 1, 0))
  }

  ghost predicate CollectStep<M>(w: World<M>, limits: Limits, r: Result<Collector.Collection>, w': World<M>) {
    match r
    case Ok(c) =>
      && Sufficed(w, limits, c)
      && w'.roots == w.roots && |w'.parents| < w'.stored <= w.stored && w'.links <= w.links
      && (forall id :: id in w'.parents <==> id in w.parents && Reachable(w.parents, w.roots, id))
      && (forall id :: id in w'.members <==> id in w.members && Reachable(w.parents, w.roots, id))
      && w'.standing == (map c | c in w.standing && c in w'.parents :: w.standing[c])
      && (forall id :: id in w'.parents ==> w'.parents[id] == w.parents[id])
      && (forall id :: id in w'.members ==> w'.members[id] == w.members[id])
    case Err(e) => w' == w && e.CollectionFailure? && Overran(w, limits, e.refusal)
  }

  /** What the collection took, which is what the world called for, was within the limits. */
  ghost predicate Sufficed<M>(w: World<M>, limits: Limits, c: Collector.Collection) {
    && w.stored <= limits.objects && c.edges == Lines(w) <= limits.edges && |w.roots| + 1 <= limits.stack
    && |w.roots| + 1 + w.stored + Lines(w) <= c.work <= limits.work
    && |c.mutation.weak| + |c.mutation.ephemerons| <= limits.clears
  }

  /** The classes some root inherits from. */
  ghost function Inherited<M>(w: World<M>): set<Id> {
    set id | id in w.parents && Reachable(w.parents, w.roots, id)
  }

  /** The parents those declare and the entries of the cache: every edge there is to follow. */
  ghost function Lines<M>(w: World<M>): int {
    Load(w.parents, Inherited(w)) - |Inherited(w)| + w.links
  }

  /** One of the limits, and more than it allows, though no more than the world calls for. */
  ghost predicate Overran<M>(w: World<M>, limits: Limits, refusal: Refusal) {
    && refusal.Limit? && refusal.required > refusal.limit && Lines(w) >= 0
    && match refusal.kind
       case ObjectLimit => refusal.limit == limits.objects && refusal.required == w.stored
       case EdgeLimit => refusal.limit == limits.edges && refusal.required <= Lines(w)
       case StackLimit => refusal.limit == limits.stack && refusal.required <= |w.roots| + 1 + Lines(w)
       case WorkLimit => refusal.limit == limits.work && refusal.required <= Needed(|w.roots| + 1, w.stored, Lines(w))
       case ClearLimit => refusal.limit == limits.clears && refusal.required <= Lines(w)
       case FinalizerLimit => false
  }

  /** The cache as that world sees it. */
  ghost function Abstracted<M(!new)>(cache: ClassCache<M>): World<M>
    reads cache, cache.arena
  {
    World(GraphOf(cache.arena.objects), MembersOf(cache.arena.objects), cache.arena.roots - {cache.managerRoot},
          |cache.arena.objects|, Entered(cache.arena.objects, cache.manager), cache.arena.cap, Standing(cache.arena.objects))
  }

  predicate AllClasses<M>(objects: CacheObjects<M>, ids: seq<Id>) {
    forall i :: 0 <= i < |ids| ==> IsClass(objects, ids[i])
  }

  lemma AllClassesKnown<M>(objects: CacheObjects<M>, ids: seq<Id>, c: Id)
    ensures AllClasses(objects, ids) <==> AllLive(objects, ids)
    ensures AllClasses(objects, ids) <==> forall id :: id in ids ==> id in GraphOf(objects)
    ensures IsClass(objects, c) <==> c in GraphOf(objects)
  {
    assert AllClasses(objects, ids) ==> AllLive(objects, ids);
    forall id ensures IsClass(objects, id) <==> id in GraphOf(objects) {}
    assert (forall id :: id in ids ==> id in GraphOf(objects)) ==> AllLive(objects, ids);
  }

  // ---------- the edges a collection follows ----------

  /** The classes among these objects. */
  ghost function ClassesIn<M>(objects: CacheObjects<M>, s: set<Id>): set<Id> {
    set id | id in s && IsClass(objects, id)
  }

  /** Classes own an edge for each declared parent, the manager its entries, views nothing. */
  lemma {:induction false} DegreeOf<M(!new)>(objects: CacheObjects<M>, manager: Id, hist: History<M>, policy: Policy, nextId: nat, s: set<Id>)
    requires CacheInv(objects, manager, hist, policy, nextId) && s <= objects.Keys
    ensures Degree(Arena.HeapOf(objects), s) + |ClassesIn(objects, s)| ==
            Load(GraphOf(objects), ClassesIn(objects, s)) + if manager in s then Entered(objects, manager) else 0
    decreases |s|
  {
    hide Degree, Load, CacheInv;
    if s == {} {
      NothingCounted(Arena.HeapOf(objects), GraphOf(objects));
      assert ClassesIn(objects, s) == {};
    } else {
      var y :| y in s;
      var rest := s - {y};
      assert s == rest + {y};
      DegreeOf(objects, manager, hist, policy, nextId, rest);
      DegreeAdd(Arena.HeapOf(objects), rest, y);
      OwnEdges(objects, manager, hist, policy, nextId, y);
      if IsClass(objects, y) {
        assert ClassesIn(objects, s) == ClassesIn(objects, rest) + {y};
        LoadAdd(GraphOf(objects), ClassesIn(objects, rest), y);
      } else {
        assert ClassesIn(objects, s) == ClassesIn(objects, rest);
      }
    }
  }

  lemma NothingCounted(h: Heap, g: Graph)
    ensures Degree(h, {}) == 0 && Load(g, {}) == 0
  {
  }

  lemma OwnEdges<M(!new)>(objects: CacheObjects<M>, manager: Id, hist: History<M>, policy: Policy, nextId: nat, y: Id)
    requires CacheInv(objects, manager, hist, policy, nextId) && y in objects
    ensures |Edges(Arena.HeapOf(objects), y)| ==
            if IsClass(objects, y) then |Parents(GraphOf(objects), y)| else if y == manager then Entered(objects, manager) else 0
    ensures IsClass(objects, y) ==> y != manager
  {
    hide Computed, Declared, HistoryOk;
    assert ObjectOk(objects, manager, hist, policy, y);
  }

  /** What a collection of the cache may be refused for, in terms of the world. */
  lemma LimitOverran<M(!new)>(cache: ClassCache<M>, limits: Limits, refusal: Refusal)
    requires cache.Valid() && refusal.Limit?
    requires Justified(Arena.HeapOf(cache.arena.objects), Members(cache.arena.Entries()), |cache.arena.Entries()|, limits, refusal)
    ensures Overran(Abstracted(cache), limits, refusal)
  {
    hide CacheInv, Live, Degree, Ancestors, Load, Arena.Sane, RootsOk, GraphOf, MembersOf;
    HeapSize(cache.arena.objects);
    LiveLines(cache);
    EntriesCount(cache);
  }

  lemma LiveLines<M(!new)>(cache: ClassCache<M>)
    requires cache.Valid()
    ensures Degree(Arena.HeapOf(cache.arena.objects), Live(Arena.HeapOf(cache.arena.objects), Members(cache.arena.Entries()))) == Lines(Abstracted(cache))
  {
    hide CacheInv, Live, Degree, Ancestors, Load, Arena.Sane, Reachable, InheritedByRoot;
    var objects, start, w := cache.arena.objects, Members(cache.arena.Entries()), Abstracted(cache);
    var live := Live(Arena.HeapOf(objects), start);
    OnlyClassesRooted(cache);
    ManagerThere(cache);
    NothingStale(objects, cache.manager, cache.hist, cache.policy, cache.arena.nextId, start);
    LiveClosed(Arena.HeapOf(objects), start);
    DegreeOf(objects, cache.manager, cache.hist, cache.policy, cache.arena.nextId, live);
    forall id | IsClass(objects, id) ensures id in live <==> Reachable(w.parents, w.roots, id) {
      ViewsRetainNoClass(objects, cache.manager, cache.hist, cache.policy, cache.arena.nextId, start, id);
      SameRoots(objects, cache.arena.roots, cache.manager, cache.managerRoot, id);
      FromRoots(objects, cache.arena.roots, start, id);
    }
    assert ClassesIn(objects, live) == Inherited(w);
  }

  lemma FromRoots<M>(objects: CacheObjects<M>, roots: map<nat, Id>, start: set<Id>, id: Id)
    requires forall x :: x in start <==> x in roots.Values
    ensures InheritedByRoot(objects, roots, id) <==> exists r :: r in start && IsClass(objects, r) && id in Ancestors(GraphOf(objects), r)
  {
    hide Ancestors;
    if r :| r in start && IsClass(objects, r) && id in Ancestors(GraphOf(objects), r) {
      var k :| k in roots && roots[k] == r;
    }
    if k :| k in roots && IsClass(objects, roots[k]) && id in Ancestors(GraphOf(objects), roots[k]) {
      assert roots[k] in roots.Values;
    }
  }

  lemma EntriesCount<M(!new)>(cache: ClassCache<M>)
    requires cache.Valid()
    ensures |cache.arena.Entries()| == |Abstracted(cache).roots| + 1
  {
    hide CacheInv, GraphOf, MembersOf;
    var roots, bound := cache.arena.roots, cache.arena.nextRoot;
    Arena.RootTargetsCount(roots, bound);
    Arena.AscendingCount(roots.Keys, bound);
    Arena.KeptBound(cache.arena.keptAlive, cache.arena.epoch, cache.arena.nextId);
    CountWithout(roots.Keys, cache.managerRoot);
    assert (roots - {cache.managerRoot}).Keys == roots.Keys - {cache.managerRoot};
    assert |roots| == |roots.Keys| && |roots - {cache.managerRoot}| == |(roots - {cache.managerRoot}).Keys|;
  }

  lemma HeapSize<M>(objects: CacheObjects<M>)
    ensures |Arena.HeapOf(objects)| == |objects|
  {
    var h := Arena.HeapOf(objects);
    assert h.Keys == objects.Keys && |h| == |h.Keys| && |objects| == |objects.Keys|;
  }

  // ---------- runs ----------

  method Attempt<M(!new)>(cache: ClassCache<M>, op: Operation<M>) returns (event: Event<M>)
    requires cache.Valid()
    modifies cache, cache.arena
    ensures cache.Valid() && Step(cache.policy, old(Abstracted(cache)), op, event, Abstracted(cache))
  {
    if op.Allocate? || op.DeclareParents? || op.DeclareMembers? {
      event := AttemptDeclaring(cache, op);
    } else if op.CollectGarbage? {
      event := AttemptCollecting(cache, op.limits);
    } else {
      event := AttemptUsing(cache, op);
    }
  }

  /** Declaring classes, their parents and their members. */
  method AttemptDeclaring<M(!new)>(cache: ClassCache<M>, op: Operation<M>) returns (event: Event<M>)
    requires cache.Valid() && (op.Allocate? || op.DeclareParents? || op.DeclareMembers?)
    modifies cache, cache.arena
    ensures cache.Valid() && Step(cache.policy, old(Abstracted(cache)), op, event, Abstracted(cache))
  {
    hide CacheInv, RootsOk, Ancestors, Arena.Sane, GraphOf, MembersOf, AllClasses, AllLive, Discarded, CollectStep, DeriveStep, Overflowed, Standing;
    ghost var objects, roots := cache.arena.objects, cache.arena.roots;
    ManagerThere(cache);
    match op
    case Allocate(parents, members) =>
      AllClassesKnown(objects, parents, 0);
      if !AllClasses(cache.arena.objects, parents) { return Skipped; }
      WithinCap(cache);
      var r := cache.AllocateClass(parents, members);
      if r.Ok? { RootApart(objects, roots, cache.manager, cache.managerRoot, r.value.root, r.value.id); }
      event := Made(r);
    case DeclareParents(c, parents) =>
      AllClassesKnown(objects, parents, c);
      if !AllClasses(cache.arena.objects, parents) { return Skipped; }
      if c in cache.arena.objects && cache.arena.objects[c].payload.ClassObject? && |parents| > EDGE_CAP { return Skipped; }
      var r := cache.ReplaceParents(c, parents);
      event := Done(r);
    case DeclareMembers(c, members) =>
      AllClassesKnown(objects, [], c);
      var r := cache.ReplaceMembers(c, members);
      event := Done(r);
  }

  /** Accesses and releases. */
  method AttemptUsing<M(!new)>(cache: ClassCache<M>, op: Operation<M>) returns (event: Event<M>)
    requires cache.Valid() && (op.Derive? || op.ReleaseRoot?)
    modifies cache.arena
    ensures cache.Valid() && Step(cache.policy, old(Abstracted(cache)), op, event, Abstracted(cache))
  {
    hide CacheInv, RootsOk, LinearizedBy, Gather, ListsMembers, CurrentIn, Sufficient, Affords, Evident, Arena.Sane, GraphOf, MembersOf, CollectStep, AllClasses,
      AllLive, OthersKept, Standing;
    ghost var objects, roots := cache.arena.objects, cache.arena.roots;
    ManagerThere(cache);
    match op
    case Derive(c, budget) =>
      AllClassesKnown(objects, [], c);
      StandsIf(objects, c);
      var r := cache.DerivedView(c, budget);
      event := Saw(r);
    case ReleaseRoot(handle) =>
      if handle.root == cache.managerRoot { return Skipped; }
      var r := cache.Release(handle);
      RootApart(objects, roots, cache.manager, cache.managerRoot, handle.root, handle.id);
      event := Done(r);
  }

  method AttemptCollecting<M(!new)>(cache: ClassCache<M>, limits: Limits) returns (event: Event<M>)
    requires cache.Valid()
    modifies cache.arena
    ensures cache.Valid() && Step(cache.policy, old(Abstracted(cache)), CollectGarbage(limits), event, Abstracted(cache))
  {
    hide CacheInv, RootsOk, CurrentIn, Ancestors, Arena.Sane, GraphOf, MembersOf, InheritedByRoot, Justified, Reachable, Overran, DeriveStep, Lines,
      Degree, Live, Sufficed, Collector.Exact, Collector.WithinLimits, Standing;
    ghost var objects, entries, w := cache.arena.objects, cache.arena.Entries(), Abstracted(cache);
    ManagerThere(cache);
    LiveLines(cache);
    EntriesCount(cache);
    var r := cache.Collect(limits);
    if r.Ok? {
      LimitsSufficed(objects, entries, r.value, cache.arena.objects, limits, w);
      CollectedStep(cache, objects);
      ClassesStored(cache);
      StandingAmong(cache.arena.objects, Standing(objects));
    } else {
      LimitOverran(cache, limits, r.error.refusal);
    }
    event := Swept(r);
  }

  lemma StandingAmong<M>(objects: CacheObjects<M>, standing: map<Id, seq<Id>>)
    ensures (map d | d in standing && IsClass(objects, d) :: standing[d]) == map d | d in standing && d in GraphOf(objects) :: standing[d]
  {
  }

  lemma StandsIf<M>(objects: CacheObjects<M>, c: Id)
    ensures c in Standing(objects) <==> CurrentIn(objects, c)
  {
  }

  lemma LimitsSufficed<M(!new)>(objects: CacheObjects<M>, entries: seq<Id>, c: Collector.Collection, objects': CacheObjects<M>, limits: Limits, w: World<M>)
    requires Collector.Exact(objects, entries, c, objects') && Collector.WithinLimits(objects, entries, c, limits, 0)
    requires w.stored == |objects| && |entries| == |w.roots| + 1
    requires Degree(Arena.HeapOf(objects), Live(Arena.HeapOf(objects), Members(entries))) == Lines(w)
    ensures Sufficed(w, limits, c)
  {
    hide Degree, Live, Lines, Needed, Collector.Survived, Collector.NoDangling;
  }

  lemma ClassesStored<M(!new)>(cache: ClassCache<M>)
    requires cache.Valid()
    ensures |GraphOf(cache.arena.objects)| < |cache.arena.objects|
  {
    hide CacheInv, Arena.Sane, RootsOk;
    ManagerThere(cache);
    var g, objects := GraphOf(cache.arena.objects), cache.arena.objects;
    SubsetSize(g.Keys, objects.Keys - {cache.manager});
    assert |g| == |g.Keys| && |objects| == |objects.Keys|;
  }

  lemma WithinCap<M(!new)>(cache: ClassCache<M>)
    requires cache.Valid()
    ensures |cache.arena.objects| <= cache.arena.cap
  {
    hide CacheInv, Arena.Sane;
  }

  /** The manager's root is no class root, so the worlds' roots change as the arena's do. */
  lemma RootApart<M>(objects: CacheObjects<M>, roots: map<nat, Id>, manager: Id, managerRoot: nat, root: nat, id: Id)
    requires RootsOk(objects, roots, manager, managerRoot)
    ensures (roots - {root}) - {managerRoot} == (roots - {managerRoot}) - {root}
    ensures root !in roots ==> roots[root := id] - {managerRoot} == (roots - {managerRoot})[root := id]
    ensures id !in objects ==> id !in GraphOf(objects)
  {
  }

  lemma CollectedStep<M(!new)>(cache: ClassCache<M>, objects: CacheObjects<M>)
    requires cache.Valid() && RootsOk(objects, cache.arena.roots, cache.manager, cache.managerRoot)
    requires cache.manager in objects && objects[cache.manager].payload.Manager?
    requires forall id :: IsClass(objects, id) ==> (IsClass(cache.arena.objects, id) <==> InheritedByRoot(objects, cache.arena.roots, id))
    requires forall id :: id in cache.arena.objects && id != cache.manager ==> id in objects && cache.arena.objects[id] == objects[id]
    ensures var parents, members, roots := GraphOf(objects), MembersOf(objects), cache.arena.roots - {cache.managerRoot};
      var parents', members' := GraphOf(cache.arena.objects), MembersOf(cache.arena.objects);
      && (forall id :: id in parents' <==> id in parents && Reachable(parents, roots, id))
      && (forall id :: id in members' <==> id in members && Reachable(parents, roots, id))
      && (forall id :: id in parents' ==> parents'[id] == parents[id])
      && (forall id :: id in members' ==> members'[id] == members[id])
  {
    hide Ancestors, CacheInv, Arena.Sane, Reachable, InheritedByRoot;
    ManagerThere(cache);
    var roots := cache.arena.roots;
    forall id ensures Reachable(GraphOf(objects), roots - {cache.managerRoot}, id) <==> InheritedByRoot(objects, roots, id) {
      SameRoots(objects, roots, cache.manager, cache.managerRoot, id);
    }
    assert forall id :: IsClass(cache.arena.objects, id) ==> id != cache.manager && IsClass(objects, id);
  }

  lemma SameRoots<M>(objects: CacheObjects<M>, roots: map<nat, Id>, manager: Id, managerRoot: nat, id: Id)
    requires RootsOk(objects, roots, manager, managerRoot) && manager in objects && objects[manager].payload.Manager?
    ensures Reachable(GraphOf(objects), roots - {managerRoot}, id) <==> InheritedByRoot(objects, roots, id)
  {
    hide Ancestors;
    if r :| r in roots && IsClass(objects, roots[r]) && id in Ancestors(GraphOf(objects), roots[r]) {
      assert r in roots - {managerRoot};
    }
  }

  /** Every run of the cache is a run of the world without it. */
  method Perform<M(!new)>(cache: ClassCache<M>, script: seq<Operation<M>>) returns (events: seq<Event<M>>, ghost worlds: seq<World<M>>)
    requires cache.Valid()
    modifies cache, cache.arena
    ensures cache.Valid() && |events| == |script| && |worlds| == |script| + 1
    ensures worlds[0] == old(Abstracted(cache)) && worlds[|script|] == Abstracted(cache)
    ensures forall i :: 0 <= i < |script| ==> Step(cache.policy, worlds[i], script[i], events[i], worlds[i + 1])
  {
    hide Step, Abstracted, CacheInv, RootsOk, Arena.Sane;
    events, worlds := [], [Abstracted(cache)];
    for i := 0 to |script|
      invariant cache.Valid() && |events| == i && |worlds| == i + 1
      invariant worlds[0] == old(Abstracted(cache)) && worlds[i] == Abstracted(cache)
      invariant forall k :: 0 <= k < i ==> Step(cache.policy, worlds[k], script[k], events[k], worlds[k + 1])
    {
      var event := Attempt(cache, script[i]);
      events := events + [event];
      worlds := worlds + [Abstracted(cache)];
    }
  }
}

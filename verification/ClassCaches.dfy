/** The class cache: classes and their derived views in one managed arena, with the views
    held only by ephemerons keyed on their classes. */
module ClassCaches {
  import opened Collections
  import opened CacheModel
  import opened Currency
  import opened Ancestry
  import opened Policies
  import opened Tracing
  import Arena
  import Collector
  import Lineage

  datatype CacheError =
    | ArenaFailure(arena: Arena.ArenaError)
    | EdgesExhausted(cap: nat)
    | LineageFailure(lineage: Lineage.Error)
    | CollectionFailure(refusal: Refusal)
    | WrongObject(id: Id)

  datatype Result<+T> = Ok(value: T) | Err(error: CacheError)

  datatype AccessKind = Hit | Recomputed

  datatype Access<M> = Access(kind: AccessKind, view: View<M>)

  datatype ClassRoot = ClassRoot(root: nat, id: Id)

  function ClassSlot<M>(parents: seq<Id>, members: seq<M>, revisions: Revisions): Arena.Slot<Payload<M>> {
    Arena.Slot(ClassObject(parents, members, revisions, None), ParentEdges(parents), |parents|)
  }

  ghost predicate AllLive<M>(objects: CacheObjects<M>, ids: seq<Id>) {
    forall id :: id in ids ==> IsClass(objects, id)
  }

  // ---------- snapshots ----------

  /** The immutable graph a policy works on. */
  datatype Snapshot<M> = Snapshot(parents: Graph, members: map<Id, seq<M>>, revisions: map<Id, Revisions>)

  ghost predicate Covers<M>(objects: CacheObjects<M>, ids: seq<Id>, s: Snapshot<M>) {
    && (forall id :: id in s.parents <==> id in ids && IsClass(objects, id))
    && (forall id :: id in s.members <==> id in ids && IsClass(objects, id))
    && (forall id :: id in s.revisions <==> id in ids && IsClass(objects, id))
    && (forall id :: id in ids && IsClass(objects, id) ==>
          && s.parents[id] == objects[id].payload.parents && s.members[id] == objects[id].payload.members
          && s.revisions[id] == objects[id].payload.revisions)
  }

  method SnapshotGraph<M>(objects: CacheObjects<M>, ids: seq<Id>) returns (s: Snapshot<M>)
    requires forall id :: id in ids <==> id in objects
    ensures s == Snapshot(GraphOf(objects), MembersOf(objects), RevisionsOf(objects))
  {
    hide Covers;
    s := Snapshot(map[], map[], map[]);
    CoversNothing(objects);
    for i := 0 to |ids|
      invariant Covers(objects, ids[..i], s)
    {
      var id := ids[i];
      assert ids[..i + 1] == ids[..i] + [id] && id in ids;
      CoversMore(objects, ids[..i], s, id);
      if objects[id].payload.ClassObject? {
        var c := objects[id].payload;
        s := Snapshot(s.parents[id := c.parents], s.members[id := c.members], s.revisions[id := c.revisions]);
      }
    }
    assert ids[..|ids|] == ids;
    CoversAll(objects, ids, s);
  }

  lemma CoversNothing<M>(objects: CacheObjects<M>)
    ensures Covers(objects, [], Snapshot(map[], map[], map[]))
  {
  }

  lemma CoversMore<M>(objects: CacheObjects<M>, ids: seq<Id>, s: Snapshot<M>, id: Id)
    requires Covers(objects, ids, s) && id in objects
    ensures var c := objects[id].payload;
      Covers(objects, ids + [id], if c.ClassObject?
        then Snapshot(s.parents[id := c.parents], s.members[id := c.members], s.revisions[id := c.revisions]) else s)
  {
  }

  lemma CoversAll<M>(objects: CacheObjects<M>, ids: seq<Id>, s: Snapshot<M>)
    requires Covers(objects, ids, s) && forall id :: id in ids <==> id in objects
    ensures s == Snapshot(GraphOf(objects), MembersOf(objects), RevisionsOf(objects))
  {
    assert s.parents == GraphOf(objects);
    assert s.members == MembersOf(objects);
    assert s.revisions == RevisionsOf(objects);
  }

  // ---------- what the operations rely on ----------

  /** Every ancestor of a live class is a live class, so each lookup is defined. */
  lemma AncestorsLive<M(!new)>(objects: CacheObjects<M>, manager: Id, hist: History<M>, policy: Policy, nextId: nat, c: Id)
    requires CacheInv(objects, manager, hist, policy, nextId) && IsClass(objects, c)
    ensures Ancestors(GraphOf(objects), c) <= GraphOf(objects).Keys
  {
    hide Ancestors, ManagerOk, HistoryOk, CachedOk;
    var g := GraphOf(objects);
    forall n, p | n in g.Keys && p in Parents(g, n) ensures p in g.Keys {
      assert ObjectOk(objects, manager, hist, policy, n);
    }
    AncestorsLeast(g, c, g.Keys);
  }

  function StampsOf(lin: seq<Id>, revisions: map<Id, Revisions>): (r: seq<Stamp>)
    requires forall x :: x in lin ==> x in revisions
    ensures |r| == |lin| && forall i :: 0 <= i < |lin| ==> r[i] == Stamp(lin[i], revisions[lin[i]])
  {
    seq(|lin|, i requires 0 <= i < |lin| => Stamp(lin[i], revisions[lin[i]]))
  }

  lemma FreshView<M(!new)>(objects: CacheObjects<M>, manager: Id, hist: History<M>, policy: Policy, nextId: nat, c: Id, lin: seq<Id>)
    requires CacheInv(objects, manager, hist, policy, nextId) && IsClass(objects, c)
    requires LinearizedBy(policy, GraphOf(objects), c, lin)
    ensures forall x :: x in lin ==> x in RevisionsOf(objects) && x in MembersOf(objects)
    ensures lin != [] && lin[0] == c
    ensures Computed(policy, hist, StampsOf(lin, RevisionsOf(objects)), View(lin, Gather(lin, MembersOf(objects))))
    ensures Matches(StampsOf(lin, RevisionsOf(objects)), RevisionsOf(objects))
  {
    hide LinearizedBy, Gather, Ancestors, ManagerOk, HistoryOk, CachedOk;
    LinearizedSound(policy, GraphOf(objects), c, lin);
    AncestorsLive(objects, manager, hist, policy, nextId, c);
    assert forall x :: x in lin ==> x in GraphOf(objects);
    var stamps, view := StampsOf(lin, RevisionsOf(objects)), View(lin, Gather(lin, MembersOf(objects)));
    forall s | s in stamps
      ensures s.id in GraphOf(objects) && Declared(hist, s, GraphOf(objects)[s.id], MembersOf(objects)[s.id])
    {
      assert s.id in lin;
      assert ObjectOk(objects, manager, hist, policy, s.id);
    }
    assert From(policy, hist, stamps, view, GraphOf(objects), MembersOf(objects));
  }

  lemma ParentEdgesNumbered(parents: seq<Id>)
    ensures Arena.Numbered(ParentEdges(parents), |parents|)
  {
  }

  /** Nothing live points outside the cache's own objects. */
  lemma NothingStale<M(!new)>(objects: CacheObjects<M>, manager: Id, hist: History<M>, policy: Policy, nextId: nat, start: set<Id>)
    requires CacheInv(objects, manager, hist, policy, nextId) && start <= objects.Keys
    ensures Live(Arena.HeapOf(objects), start) <= objects.Keys
  {
    hide Live, HistoryOk, Computed, Declared;
    var h := Arena.HeapOf(objects);
    forall id, e | id in objects.Keys && e in Edges(h, id) ensures Retained(e, objects.Keys) {
      if IsClass(objects, id) {
        assert ObjectOk(objects, manager, hist, policy, id);
        assert e.Strong? && e.target in objects[id].payload.parents;
        assert IsClass(objects, e.target);
      } else {
        OtherEdge(objects, manager, hist, policy, nextId, id, e);
      }
    }
    LiveLeast(h, start, objects.Keys);
  }

  // ---------- the cache ----------

  class ClassCache<M(!new)> {
    const arena: Arena.ManagedArena<Payload<M>>
    const manager: Id
    const managerRoot: nat
    const policy: Policy
    ghost var hist: History<M>

    ghost predicate Valid()
      reads this, arena
    {
      && arena.Valid() && CacheInv(arena.objects, manager, hist, policy, arena.nextId)
      && RootsOk(arena.objects, arena.roots, manager, managerRoot) && arena.keptAlive == map[]
    }

    /** What the classes declare: their parents and their members. */
    ghost function DeclaredGraph(): Graph
      reads this, arena
    {
      GraphOf(arena.objects)
    }

    ghost function DeclaredMembers(): map<Id, seq<M>>
      reads this, arena
    {
      MembersOf(arena.objects)
    }

    /** The cached view of `c` still matches every revision it was computed from. */
    ghost predicate Current(c: Id)
      reads this, arena
    {
      CurrentIn(arena.objects, c)
    }

    /** The arena is full, or the manager has as many entries as it may have. */
    ghost predicate OutOfRoom(e: CacheError)
      reads this, arena
    {
      || (e == ArenaFailure(Arena.CapacityExceeded(arena.cap)) && |arena.objects| == arena.cap)
      || (e == EdgesExhausted(EDGE_CAP) && manager in arena.objects && |arena.objects[manager].edges| >= EDGE_CAP)
    }

    constructor (policy: Policy, cap: nat)
      requires cap > 0
      ensures Valid() && fresh(arena) && DeclaredGraph() == map[] && DeclaredMembers() == map[] && this.policy == policy
      ensures arena.cap == cap && manager == 0 && arena.nextId == 1 && arena.objects == map[0 := Arena.Slot(Manager, [], 0)]
      ensures arena.roots == map[managerRoot := 0]
    {
      hide CacheInv, RootsOk, Arena.Sane, GraphOf, MembersOf;
      var a := new Arena.ManagedArena<Payload<M>>(cap);
      NoEdges();
      var m := a.Allocate(Arena.Slot(Manager, [], 0));
      assert m.Ok?;
      var root := a.Root(m.value);
      arena, manager, managerRoot, this.policy := a, m.value, root.value, policy;
      hist := History(map[], map[]);
      OnlyManager<M>(m.value, root.value, policy);
    }

    /** Allocates and roots a class. Whether the parents are still there is not looked at;
        the cache stays valid if they are. */
    method AllocateClass(parents: seq<Id>, members: seq<M>) returns (r: Result<ClassRoot>)
      requires Valid()
      modifies this, arena
      ensures r.Err? || AllLive(old(arena.objects), parents) ==> Valid()
      ensures r.Ok? <==> |parents| <= EDGE_CAP && |old(arena.objects)| < arena.cap
      ensures match r
              case Ok(c) =>
                && c.id == old(arena.nextId) && arena.nextId == c.id + 1
                && c.id !in old(arena.objects) && arena.objects == old(arena.objects)[c.id := ClassSlot(parents, members, Revisions(0, 0))]
                && DeclaredGraph() == old(DeclaredGraph())[c.id := parents] && Standing(arena.objects) == Standing(old(arena.objects))
                && DeclaredMembers() == old(DeclaredMembers())[c.id := members]
                && c.root !in old(arena.roots) && arena.roots == old(arena.roots)[c.root := c.id]
              case Err(e) =>
                && arena.objects == old(arena.objects) && arena.roots == old(arena.roots)
                && if |parents| > EDGE_CAP then e == EdgesExhausted(EDGE_CAP)
                   else e == ArenaFailure(Arena.CapacityExceeded(arena.cap)) && |arena.objects| == arena.cap
    {
      hide CacheInv, Arena.Sane, RootsOk, GraphOf, MembersOf, Standing;
      if |parents| > EDGE_CAP { return Err(EdgesExhausted(EDGE_CAP)); }
      var slot := ClassSlot(parents, members, Revisions(0, 0));
      ParentEdgesNumbered(parents);
      var id := arena.nextId;
      StandingAdded(arena.objects, manager, hist, policy, id, slot);
      var made := arena.Allocate(slot);
      if made.Err? { return Err(ArenaFailure(made.error)); }
      if AllLive(old(arena.objects), parents) { NewlyWritten(old(arena.objects), manager, hist, policy, id, parents, members); }
      hist := Declaring(hist, id, Revisions(0, 0), parents, members);
      RootsGrow(old(arena.objects), arena.objects, arena.roots, manager, managerRoot, id);
      Redeclared(old(arena.objects), id, slot);
      var rooted := arena.Root(id);
      RootAdded(arena.objects, old(arena.roots), manager, managerRoot, rooted.value, id);
      r := Ok(ClassRoot(rooted.value, id));
    }

    /** Drops the cached view of a class; on a live class it cannot fail. */
    method DiscardCached(c: Id) returns (r: Result<()>)
      requires Valid()
      modifies arena
      ensures Valid() && arena.roots == old(arena.roots) && arena.nextId == old(arena.nextId)
      ensures r == if c !in old(arena.objects) then Err(ArenaFailure(Arena.StaleHandle(c)))
                   else if !IsClass(old(arena.objects), c) then Err(WrongObject(c))
                   else Ok(())
      ensures r.Err? ==> arena.objects == old(arena.objects)
      ensures r.Ok? ==> arena.objects == Discarded(old(arena.objects), manager, c) && Standing(arena.objects) == Standing(old(arena.objects)) - {c}
      ensures Grown(old(arena.objects), arena.objects, manager, 0, 0) && OthersKept(old(arena.objects), arena.objects, c)
    {
      hide CacheInv, Arena.Sane, RootsOk, Arena.Keep, Arena.Numbered, Discarded, Standing;
      if c !in arena.objects { return Err(ArenaFailure(Arena.StaleHandle(c))); }
      if !arena.objects[c].payload.ClassObject? { return Err(WrongObject(c)); }
      ghost var objects := arena.objects;
      DiscardedInv(objects, manager, hist, policy, arena.nextId, c);
      StandingDiscarded(objects, manager, hist, policy, arena.nextId, c);
      DiscardedKeeps(objects, manager, hist, policy, arena.nextId, c);
      SlotsNumbered(arena);
      DiscardedIs(objects, manager, c);
      if arena.objects[c].payload.cached.None? { return Ok(()); }
      CachedThere(objects, manager, hist, policy, arena.nextId, c, arena.roots, managerRoot);
      var ref := arena.objects[c].payload.cached.value;
      var m := arena.objects[manager];
      Arena.KeepNumbered(m.edges, {Ephemeron(ref.edge, c, ref.value)}, m.nextEdge);
      var updated := arena.Update(manager, m.(edges := Arena.Keep(m.edges, {Ephemeron(ref.edge, c, ref.value)})));
      var removed := arena.Remove(ref.value);
      var slot := arena.objects[c];
      updated := arena.Update(c, slot.(payload := slot.payload.(cached := None)));
      assert arena.objects == Discarded(objects, manager, c);
      DiscardedSize(objects, manager, hist, policy, arena.nextId, c);
      RootsStay(objects, arena.objects, arena.roots, manager, managerRoot);
      r := Ok(());
    }

    /** Replaces what a class declares as its parents. More parents than a class may have
        fail part of the way: the class is left with as many as fit under its old
        revision. Whether the parents are still there is not looked at; the cache stays
        valid if they are and if they fit. */
    method ReplaceParents(c: Id, parents: seq<Id>) returns (r: Result<()>)
      requires Valid()
      modifies this, arena
      ensures (|parents| <= EDGE_CAP && AllLive(old(arena.objects), parents)) || !IsClass(old(arena.objects), c) ==> Valid()
      ensures arena.roots == old(arena.roots)
      ensures r.Ok? <==> IsClass(old(arena.objects), c) && |parents| <= EDGE_CAP
      ensures !IsClass(old(arena.objects), c) ==>
                arena.objects == old(arena.objects) &&
                r == Err(if c in old(arena.objects) then WrongObject(c) else ArenaFailure(Arena.StaleHandle(c)))
      ensures IsClass(old(arena.objects), c) && |parents| > EDGE_CAP ==>
                && r == Err(EdgesExhausted(EDGE_CAP)) && hist == old(hist)
                && IsClass(Discarded(old(arena.objects), manager, c), c)
                && arena.objects == Overflowed(Discarded(old(arena.objects), manager, c), c, parents)
      ensures r.Ok? ==> DeclaredGraph() == old(DeclaredGraph())[c := parents] && DeclaredMembers() == old(DeclaredMembers())
      // exactly the views that list the class fall
      ensures r.Ok? ==> Standing(arena.objects) == Apart(Standing(old(arena.objects)), c)
      ensures Grown(old(arena.objects), arena.objects, manager, 0, 0)
    {
      hide CacheInv, Arena.Sane, RootsOk, Discarded, Overflowed, GraphOf, MembersOf, RevisionsOf, Standing;
      ghost var objects := arena.objects;
      ApartTwice(Standing(objects), c);
      r := DiscardCached(c);
      if r.Err? { return; }
      DiscardedKeeps(objects, manager, hist, policy, arena.nextId, c);
      SameClasses(objects, arena.objects);
      if |parents| > EDGE_CAP {
        Truncate(c, parents);
        r := Err(EdgesExhausted(EDGE_CAP));
      } else {
        Redeclare(c, parents);
      }
    }

    /** Stores the parents that fit and stops before the revision is raised. */
    method Truncate(c: Id, parents: seq<Id>)
      requires Valid() && IsClass(arena.objects, c) && |parents| > EDGE_CAP
      modifies arena
      ensures arena.roots == old(arena.roots) && arena.objects == Overflowed(old(arena.objects), c, parents)
      ensures |arena.objects| == |old(arena.objects)| && Entered(arena.objects, manager) == Entered(old(arena.objects), manager)
    {
      hide CacheInv, Arena.Sane, RootsOk;
      ManagerApart(this, c);
      ParentEdgesNumbered(parents[..EDGE_CAP]);
      var previous := arena.objects[c].payload;
      var failed := arena.Update(c, ClassSlot(parents[..EDGE_CAP], previous.members, previous.revisions));
    }

    /** Stores the parents under the next revision. */
    method Redeclare(c: Id, parents: seq<Id>)
      requires Valid() && IsClass(arena.objects, c) && arena.objects[c].payload.cached.None?
      modifies this, arena
      ensures AllLive(old(arena.objects), parents) ==> Valid()
      ensures arena.roots == old(arena.roots) && Standing(arena.objects) == Apart(Standing(old(arena.objects)), c)
      ensures DeclaredGraph() == old(DeclaredGraph())[c := parents] && DeclaredMembers() == old(DeclaredMembers())
      ensures |arena.objects| == |old(arena.objects)| && Entered(arena.objects, manager) == Entered(old(arena.objects), manager)
    {
      hide CacheInv, Arena.Sane, RootsOk, GraphOf, MembersOf, Standing;
      ManagerApart(this, c);
      ghost var objects := arena.objects;
      var previous := arena.objects[c].payload;
      var revisions := previous.revisions.(parents := previous.revisions.parents + 1);
      var slot := ClassSlot(parents, previous.members, revisions);
      ParentEdgesNumbered(parents);
      StandingRewritten(objects, manager, hist, policy, arena.nextId, c, slot);
      var updated := arena.Update(c, slot);
      if AllLive(objects, parents) { ReplacedParents(objects, manager, hist, policy, arena.nextId, c, parents); }
      hist := Declaring(hist, c, revisions, parents, previous.members);
      RootsGrow(objects, arena.objects, arena.roots, manager, managerRoot, c);
      Redeclared(objects, c, slot);
      MembersStay(objects, c);
    }

    /** Replaces what a class declares as its members. */
    method ReplaceMembers(c: Id, members: seq<M>) returns (r: Result<()>)
      requires Valid()
      modifies this, arena
      ensures Valid() && arena.roots == old(arena.roots)
      ensures r.Ok? <==> IsClass(old(arena.objects), c)
      ensures r.Err? ==>
                arena.objects == old(arena.objects) &&
                r == Err(if c in old(arena.objects) then WrongObject(c) else ArenaFailure(Arena.StaleHandle(c)))
      ensures r.Ok? ==> DeclaredGraph() == old(DeclaredGraph()) && DeclaredMembers() == old(DeclaredMembers())[c := members]
      ensures r.Ok? ==> Standing(arena.objects) == Apart(Standing(old(arena.objects)), c)
      ensures Grown(old(arena.objects), arena.objects, manager, 0, 0)
    {
      hide CacheInv, Arena.Sane, RootsOk, Discarded, Arena.Numbered, Standing, GraphOf, MembersOf, RevisionsOf;
      ghost var objects := arena.objects;
      ApartTwice(Standing(objects), c);
      r := DiscardCached(c);
      if r.Err? { return; }
      DiscardedKeeps(objects, manager, hist, policy, arena.nextId, c);
      RedeclareMembers(c, members);
    }

    /** Stores the members under the next revision. */
    method RedeclareMembers(c: Id, members: seq<M>)
      requires Valid() && IsClass(arena.objects, c) && arena.objects[c].payload.cached.None?
      modifies this, arena
      ensures Valid() && arena.roots == old(arena.roots) && Standing(arena.objects) == Apart(Standing(old(arena.objects)), c)
      ensures DeclaredGraph() == old(DeclaredGraph()) && DeclaredMembers() == old(DeclaredMembers())[c := members]
      ensures |arena.objects| == |old(arena.objects)| && Entered(arena.objects, manager) == Entered(old(arena.objects), manager)
    {
      hide CacheInv, Arena.Sane, RootsOk, Arena.Numbered, Standing;
      ghost var objects := arena.objects;
      ManagerApart(this, c);
      SlotsNumbered(arena);
      var previous := arena.objects[c];
      var revisions := previous.payload.revisions.(members := previous.payload.revisions.members + 1);
      var slot := previous.(payload := previous.payload.(members := members, revisions := revisions));
      StandingRewritten(objects, manager, hist, policy, arena.nextId, c, slot);
      var updated := arena.Update(c, slot);
      ReplacedMembers(objects, manager, hist, policy, arena.nextId, c, members);
      hist := Declaring(hist, c, revisions, previous.payload.parents, members);
      RootsGrow(objects, arena.objects, arena.roots, manager, managerRoot, c);
      Redeclared(objects, c, slot);
      assert GraphOf(objects)[c] == previous.payload.parents && GraphOf(objects)[c := previous.payload.parents] == GraphOf(objects);
    }

    /** Stores a view and links it to its class through the manager. */
    method Install(c: Id, stamps: seq<Stamp>, view: View<M>) returns (r: Result<()>)
      requires Valid() && IsClass(arena.objects, c) && arena.objects[c].payload.cached.None?
      requires Computed(policy, hist, stamps, view) && view.linearization != [] && view.linearization[0] == c
      requires Matches(stamps, RevisionsOf(arena.objects))
      modifies arena
      ensures Valid() && arena.roots == old(arena.roots) && RevisionsOf(arena.objects) == old(RevisionsOf(arena.objects))
      ensures DeclaredGraph() == old(DeclaredGraph()) && DeclaredMembers() == old(DeclaredMembers())
      ensures match r
              case Ok(_) => IsClass(arena.objects, c) && Holds(arena.objects, c, stamps, view)
              case Err(e) => OutOfRoom(e) && Entered(arena.objects, manager) == Entered(old(arena.objects), manager)
      ensures Standing(arena.objects) == if r.Ok? then Standing(old(arena.objects))[c := view.linearization] else Standing(old(arena.objects))
      ensures |arena.objects| == |old(arena.objects)| + if r.Err? && r.error.ArenaFailure? then 0 else 1
      ensures Entered(arena.objects, manager) <= Entered(old(arena.objects), manager) + 1 && OthersKept(old(arena.objects), arena.objects, c)
    {
      hide CacheInv, Arena.Sane, RootsOk, Computed, Arena.Numbered, Installed, GraphOf, MembersOf, RevisionsOf, Holds, Standing, Matches;
      ghost var objects := arena.objects;
      var value := arena.nextId;
      NoEdges();
      SlotsBelow(objects, manager, hist, policy, arena.nextId);
      DerivedAdded(objects, manager, hist, policy, arena.nextId, stamps, view);
      StandingAdded(objects, manager, hist, policy, arena.nextId, Arena.Slot(Derived(stamps, view), [], 0));
      AddedKeeps(objects, value, Arena.Slot(Derived(stamps, view), [], 0));
      var made := arena.Allocate(Arena.Slot(Derived(stamps, view), [], 0));
      if made.Err? { return Err(ArenaFailure(made.error)); }
      ghost var added := arena.objects;
      RootsStay(objects, added, arena.roots, manager, managerRoot);
      SlotsBelow(added, manager, hist, policy, arena.nextId);
      ManagerThere(this);
      if |arena.objects[manager].edges| >= EDGE_CAP { return Err(EdgesExhausted(EDGE_CAP)); }
      ManagerApart(this, c);
      StandingInstalled(added, manager, hist, policy, arena.nextId, c, value);
      Enlist(c, value);
      InstalledKeeps(added, manager, c, value);
      r := Ok(());
    }

    /** Enters a stored view of `c` with the manager and has the class refer to it. */
    method Enlist(c: Id, value: Id)
      requires Valid() && IsClass(arena.objects, c) && arena.objects[c].payload.cached.None?
      requires value in arena.objects && arena.objects[value].payload.Derived?
      requires arena.objects[value].payload.view.linearization != [] && arena.objects[value].payload.view.linearization[0] == c
      modifies arena
      ensures Valid() && arena.roots == old(arena.roots)
      ensures manager in old(arena.objects) && arena.objects == Installed(old(arena.objects), manager, c, value)
      ensures |arena.objects| == |old(arena.objects)| && Entered(arena.objects, manager) == Entered(old(arena.objects), manager) + 1
      ensures OthersKept(old(arena.objects), arena.objects, c)
    {
      hide CacheInv, Arena.Sane, RootsOk, Arena.Numbered, GraphOf, MembersOf, RevisionsOf;
      ghost var objects := arena.objects;
      ManagerThere(this);
      ManagerApart(this, c);
      SlotsNumbered(arena);
      var m := arena.objects[manager];
      InstalledInv(objects, manager, hist, policy, arena.nextId, c, value);
      EdgeAppended(m.edges, m.nextEdge, c, value);
      var updated := arena.Update(manager, m.(edges := m.edges + [Ephemeron(m.nextEdge, c, value)], nextEdge := m.nextEdge + 1));
      var slot := arena.objects[c];
      updated := arena.Update(c, slot.(payload := slot.payload.(cached := Some(CachedRef(m.nextEdge, value)))));
      assert arena.objects == Installed(objects, manager, c, value);
      InstalledKeeps(objects, manager, c, value);
      RootsStay(objects, arena.objects, arena.roots, manager, managerRoot);
    }

    /** Returns the cached view if every revision it was computed from still stands, and
        otherwise computes, stores and returns a new one. */
    method DerivedView(c: Id, budget: Lineage.Budget) returns (r: Result<Access<M>>)
      requires Valid()
      modifies arena
      ensures Valid() && arena.roots == old(arena.roots)
      ensures DeclaredGraph() == old(DeclaredGraph()) && DeclaredMembers() == old(DeclaredMembers())
      ensures r.Ok? ==>
                && LinearizedBy(policy, DeclaredGraph(), c, r.value.view.linearization)
                && r.value.view.members == Gather(r.value.view.linearization, DeclaredMembers())
                && ListsMembers(r.value.view.linearization, DeclaredMembers(), r.value.view.members)
                && Current(c) && (r.value.kind == Hit <==> old(Current(c)))
                && (r.value.kind == Recomputed ==> Affords(policy, DeclaredGraph(), c, budget))
      ensures old(Current(c)) ==> r.Ok? && arena.objects == old(arena.objects)
      ensures !IsClass(old(arena.objects), c) ==> arena.objects == old(arena.objects)
      ensures Standing(arena.objects) ==
              if r.Ok? then Standing(old(arena.objects))[c := r.value.view.linearization] else Standing(old(arena.objects))
      ensures OthersKept(old(arena.objects), arena.objects, c)
      ensures Grown(old(arena.objects), arena.objects, manager, if r.Err? && r.error.ArenaFailure? then 0 else 1, if r.Ok? then 1 else 0)
      ensures r.Err? ==>
                || (r.error == ArenaFailure(Arena.StaleHandle(c)) && c !in old(arena.objects))
                || (r.error == WrongObject(c) && c in old(arena.objects) && !IsClass(old(arena.objects), c))
                || OutOfRoom(r.error)
                || (r.error.LineageFailure? && Evident(policy, DeclaredGraph(), c, budget, r.error.lineage) &&
                    (Sufficient(policy, DeclaredGraph(), c, budget) ==> forall lin :: !LinearizedBy(policy, DeclaredGraph(), c, lin)))
    {
      hide CacheInv, Arena.Sane, RootsOk, Computed, GraphOf, MembersOf, RevisionsOf, Discarded, LinearizedBy, Sufficient, Affords, Evident, Gather, OthersKept, Entered,
        ListsMembers, Standing;
      ghost var objects := arena.objects;
      OthersSame(objects, c);
      var ids := Arena.Ascending(arena.objects.Keys, arena.nextId);
      SlotsBelow(objects, manager, hist, policy, arena.nextId);
      var graph := SnapshotGraph(arena.objects, ids);
      if c !in arena.objects { return Err(ArenaFailure(Arena.StaleHandle(c))); }
      if !arena.objects[c].payload.ClassObject? { return Err(WrongObject(c)); }
      if arena.objects[c].payload.cached.Some? {
        var value := arena.objects[c].payload.cached.value.value;
        HitUpToDate(objects, manager, hist, policy, arena.nextId, c);
        var derived := arena.objects[value].payload;
        GatherLists(derived.view.linearization, MembersOf(objects), derived.view.members);
        if Matches(derived.stamps, graph.revisions) {
          StandsAlready(objects, c);
          return Ok(Access(Hit, derived.view));
        }
      }
      assert !Current(c);
      NoneToDrop(objects, c);
      var discarded := DiscardCached(c);
      DiscardedKeeps(objects, manager, hist, policy, arena.nextId, c);
      ghost var emptied := arena.objects;
      r := Recompute(c, budget, graph);
      GrownThen(objects, emptied, arena.objects, manager, c, if r.Err? && r.error.ArenaFailure? then 0 else 1, if r.Ok? then 1 else 0);
    }

    /** Computes the view of a class that has none, and stores it. */
    method Recompute(c: Id, budget: Lineage.Budget, graph: Snapshot<M>) returns (r: Result<Access<M>>)
      requires Valid() && IsClass(arena.objects, c) && arena.objects[c].payload.cached.None?
      requires graph == Snapshot(GraphOf(arena.objects), MembersOf(arena.objects), RevisionsOf(arena.objects))
      modifies arena
      ensures Valid() && arena.roots == old(arena.roots)
      ensures DeclaredGraph() == old(DeclaredGraph()) && DeclaredMembers() == old(DeclaredMembers())
      ensures OthersKept(old(arena.objects), arena.objects, c) && |old(arena.objects)| <= |arena.objects|
      ensures |arena.objects| <= |old(arena.objects)| + if r.Err? && r.error.ArenaFailure? then 0 else 1
      ensures Entered(arena.objects, manager) <= Entered(old(arena.objects), manager) + if r.Ok? then 1 else 0
      ensures Standing(arena.objects) ==
              if r.Ok? then Standing(old(arena.objects))[c := r.value.view.linearization] else Standing(old(arena.objects))
      ensures r.Ok? ==>
                && LinearizedBy(policy, DeclaredGraph(), c, r.value.view.linearization)
                && r.value.view.members == Gather(r.value.view.linearization, DeclaredMembers())
                && ListsMembers(r.value.view.linearization, DeclaredMembers(), r.value.view.members)
                && r.value.kind == Recomputed && Current(c) && Affords(policy, DeclaredGraph(), c, budget)
      ensures r.Err? ==>
                || OutOfRoom(r.error)
                || (r.error.LineageFailure? && Evident(policy, DeclaredGraph(), c, budget, r.error.lineage) &&
                    (Sufficient(policy, DeclaredGraph(), c, budget) ==> forall lin :: !LinearizedBy(policy, DeclaredGraph(), c, lin)))
    {
      hide CacheInv, Arena.Sane, RootsOk, Computed, GraphOf, MembersOf, RevisionsOf, Holds, LinearizedBy, Sufficient, Affords, Evident, Gather, OthersKept, CurrentIn,
        ListsMembers, Standing, Matches;
      OthersSame(arena.objects, c);
      var linearized := Linearize(policy, graph.parents, c, budget);
      if linearized.Err? { return Err(LineageFailure(linearized.error)); }
      var lin := linearized.value;
      FreshView(arena.objects, manager, hist, policy, arena.nextId, c, lin);
      var stamps, view := StampsOf(lin, graph.revisions), View(lin, Gather(lin, graph.members));
      GatherLists(lin, graph.members, view.members);
      var installed := Install(c, stamps, view);
      if installed.Err? { return Err(installed.error); }
      HeldCurrent(this, c, stamps, view);
      r := Ok(Access(Recomputed, view));
    }

    method Release(c: ClassRoot) returns (r: Result<()>)
      requires Valid() && c.root != managerRoot
      modifies arena
      ensures Valid() && arena.objects == old(arena.objects) && arena.nextId == old(arena.nextId)
      ensures r == if c.root in old(arena.roots) && old(arena.roots)[c.root] == c.id then Ok(()) else Err(ArenaFailure(Arena.StaleRoot(c.root)))
      ensures arena.roots == if r.Ok? then old(arena.roots) - {c.root} else old(arena.roots)
    {
      hide CacheInv, RootsOk, Arena.Sane;
      RootReleased(arena.objects, arena.roots, manager, managerRoot, c.root);
      var released := arena.ReleaseRoot(c.root, c.id);
      if released.Err? { return Err(ArenaFailure(released.error)); }
      r := Ok(());
    }

    /** Keeps exactly the ancestors of rooted classes, each with what it declares and with
        its cached view; fails only on a limit. */
    method Collect(limits: Limits) returns (r: Result<Collector.Collection>)
      requires Valid()
      modifies arena
      ensures Valid() && arena.roots == old(arena.roots)
      ensures r.Err? ==> arena.objects == old(arena.objects) && arena.Entries() == old(arena.Entries())
      ensures r.Err? ==> r.error.CollectionFailure? && r.error.refusal.Limit?
      ensures r.Ok? ==> Collector.Exact(old(arena.objects), old(arena.Entries()), r.value, arena.objects)
      ensures r.Ok? ==> Collector.WithinLimits(old(arena.objects), old(arena.Entries()), r.value, limits, 0)
      ensures r.Err? ==>
                Justified(Arena.HeapOf(arena.objects), Members(old(arena.Entries())), |old(arena.Entries())|, limits, r.error.refusal)
      ensures r.Ok? ==> forall id :: IsClass(old(arena.objects), id) ==>
                (IsClass(arena.objects, id) <==> old(Inherited(id)))
      ensures r.Ok? ==> forall id :: id in arena.objects && id != manager ==> id in old(arena.objects) && arena.objects[id] == old(arena.objects)[id]
      ensures r.Ok? ==> forall id :: IsClass(arena.objects, id) ==> (Current(id) <==> old(Current(id)))
      ensures |arena.objects| <= |old(arena.objects)| && Entered(arena.objects, manager) <= Entered(old(arena.objects), manager)
      ensures arena.nextId == old(arena.nextId)
      ensures r.Ok? ==>
                Standing(arena.objects) == map d | d in Standing(old(arena.objects)) && IsClass(arena.objects, d) :: Standing(old(arena.objects))[d]
    {
      hide Standing;
      hide CacheInv, Arena.Sane, RootsOk, Live, Collector.Exact, Collector.WithinLimits, Justified, InheritedByRoot, CurrentIn;
      ghost var objects, entries := arena.objects, arena.Entries();
      OnlyClassesRooted(this);
      var outcome := Collector.Collect(arena, limits);
      if outcome.Failed? {
        NeverStale(objects, manager, hist, policy, arena.nextId, Members(entries), |entries|, limits, outcome.refusal);
        return Err(CollectionFailure(outcome.refusal));
      }
      CacheCollected(objects, manager, hist, policy, arena.nextId, arena.roots, managerRoot, entries, outcome.collection, arena.objects);
      CollectedSize(objects, entries, outcome.collection, arena.objects, manager);
      ManagerWas(objects, manager, hist, policy, arena.nextId);
      ManagerWas(arena.objects, manager, hist, policy, arena.nextId);
      StandingCollected(objects, arena.objects, manager);
      r := Ok(outcome.collection);
    }

    /** An ancestor of a rooted class. */
    ghost predicate Inherited(id: Id)
      reads this, arena
    {
      InheritedByRoot(arena.objects, arena.roots, id)
    }
  }

  ghost predicate InheritedByRoot<M>(objects: CacheObjects<M>, roots: map<nat, Id>, id: Id) {
    exists r :: r in roots && IsClass(objects, roots[r]) && id in Ancestors(GraphOf(objects), roots[r])
  }

  /** Whatever an access returns, hit or not, is what a recomputation with enough budget
      gives. */
  method AccessAndRecompute<M(!new)>(cache: ClassCache<M>, c: Id, budget: Lineage.Budget, ample: Lineage.Budget)
      returns (access: Result<Access<M>>, again: Lineage.Result<seq<Id>>)
    requires cache.Valid() && Sufficient(cache.policy, cache.DeclaredGraph(), c, ample)
    modifies cache.arena
    ensures cache.Valid()
    ensures access.Ok? ==>
              && again == Lineage.Ok(access.value.view.linearization)
              && ListsMembers(again.value, cache.DeclaredMembers(), access.value.view.members)
    ensures access.Err? && access.error.LineageFailure? && Sufficient(cache.policy, cache.DeclaredGraph(), c, budget) ==> again.Err?
  {
    hide LinearizedBy, Sufficient, Affords, Evident, CacheInv, RootsOk, CurrentIn, Gather, ListsMembers, Arena.Sane;
    access := cache.DerivedView(c, budget);
    again := Linearize(cache.policy, GraphOf(cache.arena.objects), c, ample);
  }

  // ---------- a replacement that fails part of the way ----------

  /** The class as a replacement with too many parents leaves it. */
  function Overflowed<M>(objects: CacheObjects<M>, c: Id, parents: seq<Id>): CacheObjects<M>
    requires IsClass(objects, c) && |parents| > EDGE_CAP
  {
    objects[c := ClassSlot(parents[..EDGE_CAP], objects[c].payload.members, objects[c].payload.revisions)]
  }

  // ---------- steps of the operations ----------

  lemma OnlyClassesRooted<M(!new)>(cache: ClassCache<M>)
    requires cache.Valid()
    ensures forall x :: x in Members(cache.arena.Entries()) <==> x in cache.arena.roots.Values
    ensures cache.manager in Members(cache.arena.Entries()) && Members(cache.arena.Entries()) <= cache.arena.objects.Keys
    ensures forall x :: x in Members(cache.arena.Entries()) ==> x == cache.manager || IsClass(cache.arena.objects, x)
  {
    hide CacheInv;
    cache.arena.EntriesExactly();
  }

  /** No refusal blames a missing object. */
  lemma NeverStale<M(!new)>(objects: CacheObjects<M>, manager: Id, hist: History<M>, policy: Policy, nextId: nat,
                            start: set<Id>, p: nat, limits: Limits, refusal: Refusal)
    requires CacheInv(objects, manager, hist, policy, nextId) && start <= objects.Keys
    requires Justified(Arena.HeapOf(objects), start, p, limits, refusal)
    ensures refusal.Limit?
  {
    hide CacheInv, Live, Degree;
    NothingStale(objects, manager, hist, policy, nextId, start);
  }

  /** What a collection does to the cache. */
  lemma CacheCollected<M(!new)>(objects: CacheObjects<M>, manager: Id, hist: History<M>, policy: Policy, nextId: nat,
                                roots: map<nat, Id>, managerRoot: nat, entries: seq<Id>, c: Collector.Collection, objects': CacheObjects<M>)
    requires CacheInv(objects, manager, hist, policy, nextId) && RootsOk(objects, roots, manager, managerRoot)
    requires (forall x :: x in Members(entries) <==> x in roots.Values) && Collector.Exact(objects, entries, c, objects')
    ensures CacheInv(objects', manager, hist, policy, nextId) && RootsOk(objects', roots, manager, managerRoot)
    ensures forall id :: id in objects' && id != manager ==> id in objects && objects'[id] == objects[id]
    ensures forall id :: IsClass(objects, id) ==> (IsClass(objects', id) <==> InheritedByRoot(objects, roots, id))
    ensures forall id :: IsClass(objects', id) ==> (CurrentIn(objects', id) <==> CurrentIn(objects, id))
  {
    hide CacheInv, Live, Degree, Ancestors, InheritedByRoot, CurrentIn, IsClass;
    var start := Members(entries);
    SlotsBelow(objects, manager, hist, policy, nextId);
    assert manager in start by { assert roots[managerRoot] in roots.Values; }
    CollectedInv(objects, manager, hist, policy, nextId, start, objects');
    CollectedRoots(objects, roots, manager, managerRoot, start, objects');
    forall id | IsClass(objects, id) ensures IsClass(objects', id) <==> InheritedByRoot(objects, roots, id) {
      CollectedClass(objects, manager, hist, policy, nextId, roots, managerRoot, start, objects', id);
    }
    forall id | IsClass(objects', id) ensures CurrentIn(objects', id) <==> CurrentIn(objects, id) {
      CurrentKept(objects, manager, hist, policy, nextId, start, objects', id);
    }
  }

  /** Collections neither spoil a view nor revive one. */
  lemma CurrentKept<M(!new)>(objects: CacheObjects<M>, manager: Id, hist: History<M>, policy: Policy, nextId: nat,
                             start: set<Id>, objects': CacheObjects<M>, id: Id)
    requires CacheInv(objects, manager, hist, policy, nextId) && CacheInv(objects', manager, hist, policy, nextId)
    requires objects'.Keys == Live(Arena.HeapOf(objects), start) && IsClass(objects', id)
    requires forall x :: x in objects' && x != manager ==> x in objects && objects'[x] == objects[x]
    ensures CurrentIn(objects', id) <==> CurrentIn(objects, id)
  {
    hide CacheInv, Live, Ancestors;
    SlotsBelow(objects, manager, hist, policy, nextId);
    SlotsBelow(objects', manager, hist, policy, nextId);
    assert id != manager && objects'[id] == objects[id];
    if objects[id].payload.cached.Some? {
      HitUpToDate(objects, manager, hist, policy, nextId, id);
      HitUpToDate(objects', manager, hist, policy, nextId, id);
      var value := objects[id].payload.cached.value.value;
      assert objects'[value] == objects[value];
      var stamps := objects[value].payload.stamps;
      if Matches(stamps, RevisionsOf(objects)) {
        StampsKept(objects, manager, hist, policy, nextId, start, objects', id);
      }
      if Matches(stamps, RevisionsOf(objects')) {
        forall s | s in stamps ensures s.id in RevisionsOf(objects) && RevisionsOf(objects)[s.id] == s.revisions {
          assert s.id in RevisionsOf(objects') && s.id != manager;
        }
      }
    }
  }

  lemma StampsKept<M(!new)>(objects: CacheObjects<M>, manager: Id, hist: History<M>, policy: Policy, nextId: nat,
                            start: set<Id>, objects': CacheObjects<M>, id: Id)
    requires CacheInv(objects, manager, hist, policy, nextId) && CurrentIn(objects, id)
    requires objects'.Keys == Live(Arena.HeapOf(objects), start) && id in objects'
    requires forall x :: x in objects' && x != manager ==> x in objects && objects'[x] == objects[x]
    ensures var value := objects[id].payload.cached.value.value; Matches(objects[value].payload.stamps, RevisionsOf(objects'))
  {
    hide CacheInv, Live, Ancestors, LinearizedBy, Gather;
    var value := objects[id].payload.cached.value.value;
    var stamps, lin := objects[value].payload.stamps, objects[value].payload.view.linearization;
    HitUpToDate(objects, manager, hist, policy, nextId, id);
    StampIds(objects, manager, hist, policy, nextId, value);
    LinearizedSound(policy, GraphOf(objects), id, lin);
    LiveParents(objects, manager, hist, policy, nextId, start);
    AncestorsLeast(GraphOf(objects), id, Live(Arena.HeapOf(objects), start));
    SlotsBelow(objects, manager, hist, policy, nextId);
    forall s | s in stamps ensures s.id in RevisionsOf(objects') && RevisionsOf(objects')[s.id] == s.revisions {
      assert s.id in RevisionsOf(objects) && s.id in lin && s.id in objects';
    }
  }

  lemma StampIds<M(!new)>(objects: CacheObjects<M>, manager: Id, hist: History<M>, policy: Policy, nextId: nat, value: Id)
    requires CacheInv(objects, manager, hist, policy, nextId) && value in objects && objects[value].payload.Derived?
    ensures forall s :: s in objects[value].payload.stamps ==> s.id in objects[value].payload.view.linearization
  {
    hide LinearizedBy, Gather, Declared, HistoryOk, ManagerOk;
    assert ObjectOk(objects, manager, hist, policy, value);
    var stamps, view := objects[value].payload.stamps, objects[value].payload.view;
    var g, members :| From(policy, hist, stamps, view, g, members);
  }

  lemma CollectedRoots<M(!new)>(objects: CacheObjects<M>, roots: map<nat, Id>, manager: Id, managerRoot: nat, start: set<Id>, objects': CacheObjects<M>)
    requires RootsOk(objects, roots, manager, managerRoot) && manager in objects && (forall x :: x in start <==> x in roots.Values)
    requires objects'.Keys == Live(Arena.HeapOf(objects), start)
    requires forall id :: id in objects' && id != manager ==> id in objects && objects'[id] == objects[id]
    requires objects[manager].payload.Manager?
    ensures RootsOk(objects', roots, manager, managerRoot)
  {
    hide Live;
    LiveClosed(Arena.HeapOf(objects), start);
    forall r | r in roots && r != managerRoot ensures IsClass(objects', roots[r]) { assert roots[r] in roots.Values; }
  }

  lemma CollectedClass<M(!new)>(objects: CacheObjects<M>, manager: Id, hist: History<M>, policy: Policy, nextId: nat,
                                roots: map<nat, Id>, managerRoot: nat, start: set<Id>, objects': CacheObjects<M>, id: Id)
    requires CacheInv(objects, manager, hist, policy, nextId) && RootsOk(objects, roots, manager, managerRoot)
    requires (forall x :: x in start <==> x in roots.Values) && objects'.Keys == Live(Arena.HeapOf(objects), start)
    requires forall id :: id in objects' && id != manager ==> id in objects && objects'[id] == objects[id]
    requires IsClass(objects, id)
    ensures IsClass(objects', id) <==> InheritedByRoot(objects, roots, id)
  {
    hide Live, Ancestors, HistoryOk, ObjectOk;
    ViewsRetainNoClass(objects, manager, hist, policy, nextId, start, id);
    assert id != manager;
    if r :| r in start && IsClass(objects, r) && id in Ancestors(GraphOf(objects), r) {
      var k :| k in roots && roots[k] == r;
    }
  }

  /** `c` has this view cached. */
  ghost predicate Holds<M>(objects: CacheObjects<M>, c: Id, stamps: seq<Stamp>, view: View<M>)
    requires IsClass(objects, c)
  {
    && objects[c].payload.cached.Some? && objects[c].payload.cached.value.value in objects
    && objects[objects[c].payload.cached.value.value].payload == Derived(stamps, view)
  }

  lemma HeldCurrent<M(!new)>(cache: ClassCache<M>, c: Id, stamps: seq<Stamp>, view: View<M>)
    requires IsClass(cache.arena.objects, c) && Holds(cache.arena.objects, c, stamps, view)
    requires Matches(stamps, RevisionsOf(cache.arena.objects))
    ensures cache.Current(c)
  {
  }

  lemma NoEdges()
    ensures Arena.Numbered([], 0)
  {
  }

  lemma EdgeAppended(edges: seq<Edge>, next: nat, key: Id, value: Id)
    requires Arena.Numbered(edges, next)
    ensures Arena.Numbered(edges + [Ephemeron(next, key, value)], next + 1)
  {
  }

  lemma SlotsBelow<M(!new)>(objects: CacheObjects<M>, manager: Id, hist: History<M>, policy: Policy, nextId: nat)
    requires CacheInv(objects, manager, hist, policy, nextId)
    ensures (forall id :: id in objects ==> id < nextId) && manager in objects && objects[manager].payload.Manager?
  {
  }

  lemma AddedKeeps<M>(objects: CacheObjects<M>, id: Id, slot: Arena.Slot<Payload<M>>)
    requires id !in objects && slot.payload.Derived?
    ensures var objects' := objects[id := slot];
      GraphOf(objects') == GraphOf(objects) && MembersOf(objects') == MembersOf(objects) && RevisionsOf(objects') == RevisionsOf(objects)
  {
    SameDeclarations(objects, objects[id := slot]);
  }

  lemma InstalledKeeps<M>(objects: CacheObjects<M>, manager: Id, c: Id, value: Id)
    requires IsClass(objects, c) && manager in objects && objects[manager].payload.Manager?
    requires value in objects && objects[value].payload.Derived?
    ensures var objects' := Installed(objects, manager, c, value);
      && GraphOf(objects') == GraphOf(objects) && MembersOf(objects') == MembersOf(objects) && RevisionsOf(objects') == RevisionsOf(objects)
      && IsClass(objects', c) && Holds(objects', c, objects[value].payload.stamps, objects[value].payload.view)
  {
    SameDeclarations(objects, Installed(objects, manager, c, value));
  }

  /** The history after `c` declares these parents and members under these revisions. */
  function Declaring<M>(hist: History<M>, c: Id, revisions: Revisions, parents: seq<Id>, members: seq<M>): History<M> {
    History(hist.parents[(c, revisions.parents) := parents], hist.members[(c, revisions.members) := members])
  }

  lemma NewlyWritten<M(!new)>(objects: CacheObjects<M>, manager: Id, hist: History<M>, policy: Policy, nextId: nat,
                              parents: seq<Id>, members: seq<M>)
    requires CacheInv(objects, manager, hist, policy, nextId) && forall p :: p in parents ==> IsClass(objects, p)
    ensures CacheInv(objects[nextId := ClassSlot(parents, members, Revisions(0, 0))], manager,
                     Declaring(hist, nextId, Revisions(0, 0), parents, members), policy, nextId + 1)
  {
    hide ObjectOk, ManagerOk;
    var slot, hist' := ClassSlot(parents, members, Revisions(0, 0)), Declaring(hist, nextId, Revisions(0, 0), parents, members);
    ClassWritten(objects, manager, hist, policy, nextId, nextId, slot, hist', nextId + 1);
  }

  lemma ReplacedParents<M(!new)>(objects: CacheObjects<M>, manager: Id, hist: History<M>, policy: Policy, nextId: nat,
                                 c: Id, parents: seq<Id>)
    requires CacheInv(objects, manager, hist, policy, nextId) && IsClass(objects, c) && objects[c].payload.cached.None?
    requires AllLive(objects, parents)
    ensures var revisions := objects[c].payload.revisions.(parents := objects[c].payload.revisions.parents + 1);
      CacheInv(objects[c := ClassSlot(parents, objects[c].payload.members, revisions)], manager,
               Declaring(hist, c, revisions, parents, objects[c].payload.members), policy, nextId)
  {
    var revisions := objects[c].payload.revisions.(parents := objects[c].payload.revisions.parents + 1);
    var slot := ClassSlot(parents, objects[c].payload.members, revisions);
    assert ClassOk(objects, hist, c) by { assert ObjectOk(objects, manager, hist, policy, c); }
    hide ObjectOk, ManagerOk;
    ClassWritten(objects, manager, hist, policy, nextId, c, slot, Declaring(hist, c, revisions, parents, objects[c].payload.members), nextId);
  }

  lemma ReplacedMembers<M(!new)>(objects: CacheObjects<M>, manager: Id, hist: History<M>, policy: Policy, nextId: nat,
                                 c: Id, members: seq<M>)
    requires CacheInv(objects, manager, hist, policy, nextId) && IsClass(objects, c) && objects[c].payload.cached.None?
    ensures var revisions := objects[c].payload.revisions.(members := objects[c].payload.revisions.members + 1);
      CacheInv(objects[c := objects[c].(payload := objects[c].payload.(members := members, revisions := revisions))], manager,
               Declaring(hist, c, revisions, objects[c].payload.parents, members), policy, nextId)
  {
    var revisions := objects[c].payload.revisions.(members := objects[c].payload.revisions.members + 1);
    var slot := objects[c].(payload := objects[c].payload.(members := members, revisions := revisions));
    assert ClassOk(objects, hist, c) by { assert ObjectOk(objects, manager, hist, policy, c); }
    hide ObjectOk, ManagerOk;
    ClassWritten(objects, manager, hist, policy, nextId, c, slot, Declaring(hist, c, revisions, objects[c].payload.parents, members), nextId);
  }

  /** A cache with no classes. */
  lemma OnlyManager<M(!new)>(manager: Id, managerRoot: nat, policy: Policy)
    ensures var objects: CacheObjects<M> := map[manager := Arena.Slot(Manager, [], 0)];
      && CacheInv(objects, manager, History(map[], map[]), policy, manager + 1)
      && RootsOk(objects, map[managerRoot := manager], manager, managerRoot)
      && GraphOf(objects) == map[] && MembersOf(objects) == map[]
  {
  }

  lemma RootReleased<M>(objects: CacheObjects<M>, roots: map<nat, Id>, manager: Id, managerRoot: nat, root: nat)
    requires RootsOk(objects, roots, manager, managerRoot) && root != managerRoot
    ensures RootsOk(objects, roots - {root}, manager, managerRoot)
  {
  }

  lemma MembersStay<M>(objects: CacheObjects<M>, c: Id)
    requires IsClass(objects, c)
    ensures MembersOf(objects)[c := objects[c].payload.members] == MembersOf(objects)
  {
  }

  lemma SameClasses<M>(objects: CacheObjects<M>, objects': CacheObjects<M>)
    requires GraphOf(objects') == GraphOf(objects)
    ensures forall id :: IsClass(objects', id) <==> IsClass(objects, id)
  {
    forall id ensures IsClass(objects', id) <==> IsClass(objects, id) {
      assert IsClass(objects, id) <==> id in GraphOf(objects);
      assert IsClass(objects', id) <==> id in GraphOf(objects');
    }
  }

  lemma Redeclared<M>(objects: CacheObjects<M>, c: Id, slot: Arena.Slot<Payload<M>>)
    requires slot.payload.ClassObject?
    ensures GraphOf(objects[c := slot]) == GraphOf(objects)[c := slot.payload.parents]
    ensures MembersOf(objects[c := slot]) == MembersOf(objects)[c := slot.payload.members]
  {
  }

  lemma RootsGrow<M>(objects: CacheObjects<M>, objects': CacheObjects<M>, roots: map<nat, Id>, manager: Id, managerRoot: nat, c: Id)
    requires RootsOk(objects, roots, manager, managerRoot)
    requires c in objects' && objects'[c].payload.ClassObject? && objects' == objects[c := objects'[c]]
    ensures RootsOk(objects', roots, manager, managerRoot)
  {
  }

  lemma RootAdded<M>(objects: CacheObjects<M>, roots: map<nat, Id>, manager: Id, managerRoot: nat, root: nat, c: Id)
    requires RootsOk(objects, roots, manager, managerRoot) && root !in roots && IsClass(objects, c)
    ensures RootsOk(objects, roots[root := c], manager, managerRoot)
  {
  }

  lemma RootsStay<M>(objects: CacheObjects<M>, objects': CacheObjects<M>, roots: map<nat, Id>, manager: Id, managerRoot: nat)
    requires RootsOk(objects, roots, manager, managerRoot) && GraphOf(objects') == GraphOf(objects)
    ensures RootsOk(objects', roots, manager, managerRoot)
  {
    forall id | IsClass(objects, id) ensures IsClass(objects', id) { assert id in GraphOf(objects); }
  }

  lemma SlotsNumbered<M(!new)>(arena: Arena.ManagedArena<Payload<M>>)
    requires arena.Valid()
    ensures forall id :: id in arena.objects ==> Arena.Numbered(arena.objects[id].edges, arena.objects[id].nextEdge)
  {
  }

  lemma DiscardedIs<M>(objects: CacheObjects<M>, manager: Id, c: Id)
    requires IsClass(objects, c)
    ensures objects[c].payload.cached.None? ==> Discarded(objects, manager, c) == objects
    ensures objects[c].payload.cached.Some? && manager in objects ==>
              var m, ref := objects[manager], objects[c].payload.cached.value;
              Discarded(objects, manager, c) ==
              (objects[manager := m.(edges := Arena.Keep(m.edges, {Ephemeron(ref.edge, c, ref.value)}))]
               - {ref.value})[c := objects[c].(payload := objects[c].payload.(cached := None))]
  {
  }

  /** Discarding a view takes one object and its entry away. */
  lemma DiscardedSize<M(!new)>(objects: CacheObjects<M>, manager: Id, hist: History<M>, policy: Policy, nextId: nat, c: Id)
    requires CacheInv(objects, manager, hist, policy, nextId) && IsClass(objects, c)
    ensures var objects' := Discarded(objects, manager, c); Grown(objects, objects', manager, 0, 0) && OthersKept(objects, objects', c)
  {
    hide Computed, Declared, HistoryOk;
    assert ObjectOk(objects, manager, hist, policy, c);
    var objects' := Discarded(objects, manager, c);
    if objects[c].payload.cached.Some? {
      var value := objects[c].payload.cached.value.value;
      assert objects'.Keys == objects.Keys - {value};
      assert |objects'| == |objects'.Keys| && |objects| == |objects.Keys|;
    }
  }

  lemma ManagerApart<M(!new)>(cache: ClassCache<M>, c: Id)
    requires cache.Valid() && IsClass(cache.arena.objects, c)
    ensures c != cache.manager
  {
    hide ObjectOk, HistoryOk, Arena.Sane;
  }

  lemma ApartTwice(standing: map<Id, seq<Id>>, c: Id)
    ensures Apart(standing - {c}, c) == Apart(standing, c)
  {
  }

  lemma StandsAlready<M>(objects: CacheObjects<M>, c: Id)
    requires CurrentIn(objects, c)
    ensures Standing(objects)[c := ViewOf(objects, c).linearization] == Standing(objects)
  {
    assert c in objects && Standing(objects)[c] == ViewOf(objects, c).linearization;
  }

  lemma NoneToDrop<M>(objects: CacheObjects<M>, c: Id)
    requires !CurrentIn(objects, c)
    ensures Standing(objects) - {c} == Standing(objects)
  {
    assert c !in Standing(objects);
  }

  lemma ManagerWas<M(!new)>(objects: CacheObjects<M>, manager: Id, hist: History<M>, policy: Policy, nextId: nat)
    requires CacheInv(objects, manager, hist, policy, nextId)
    ensures manager in objects && objects[manager].payload.Manager?
  {
    hide ObjectOk, HistoryOk;
  }

  lemma ManagerThere<M(!new)>(cache: ClassCache<M>)
    requires cache.Valid()
    ensures cache.manager in cache.arena.objects && cache.arena.objects[cache.manager].payload.Manager?
  {
    hide ObjectOk, HistoryOk, Arena.Sane;
  }

  lemma OthersSame<M>(objects: CacheObjects<M>, c: Id)
    ensures OthersKept(objects, objects, c)
  {
  }

  lemma GrownThen<M>(a: CacheObjects<M>, b: CacheObjects<M>, d: CacheObjects<M>, manager: Id, c: Id, stored: nat, entered: nat)
    requires Grown(a, b, manager, 0, 0) && OthersKept(a, b, c) && OthersKept(b, d, c)
    requires |b| <= |d| <= |b| + stored && Entered(d, manager) <= Entered(b, manager) + entered
    ensures Grown(a, d, manager, stored, entered) && OthersKept(a, d, c)
  {
  }

  lemma CollectedSize<M(!new)>(objects: CacheObjects<M>, entries: seq<Id>, c: Collector.Collection, objects': CacheObjects<M>, manager: Id)
    requires Collector.Exact(objects, entries, c, objects')
    ensures |objects'| <= |objects| && Entered(objects', manager) <= Entered(objects, manager)
  {
    hide Live, Degree, Collector.NoDangling, Increasing, Collector.DeadIn;
    Collections.SubsetSize(objects'.Keys, objects.Keys);
    assert |objects'| == |objects'.Keys| && |objects| == |objects.Keys|;
  }

  /** The view to discard is there, unrooted, and listed by the manager. */
  lemma CachedThere<M(!new)>(objects: CacheObjects<M>, manager: Id, hist: History<M>, policy: Policy, nextId: nat, c: Id,
                             roots: map<nat, Id>, managerRoot: nat)
    requires CacheInv(objects, manager, hist, policy, nextId) && IsClass(objects, c) && objects[c].payload.cached.Some?
    requires RootsOk(objects, roots, manager, managerRoot)
    ensures var ref := objects[c].payload.cached.value;
      && manager in objects && manager != c && Ephemeron(ref.edge, c, ref.value) in objects[manager].edges
      && ref.value in objects && ref.value != c && ref.value != manager && ref.value !in roots.Values
  {
    hide Computed, Declared, HistoryOk;
    assert ObjectOk(objects, manager, hist, policy, c);
  }
}

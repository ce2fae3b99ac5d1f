/** The class cache as a heap of classes, derived views and one manager: what holds of it
    between operations, and why a view whose stamps still match is up to date. */
module CacheModel {
  import opened Collections
  import opened Tracing
  import opened Arena
  import opened Collector
  import opened Ancestry
  import opened Policies

  /** The most edges one object may own. */
  const EDGE_CAP: nat := 65_536

  datatype Revisions = Revisions(parents: nat, members: nat)

  datatype CachedRef = CachedRef(edge: nat, value: Id)

  datatype Stamp = Stamp(id: Id, revisions: Revisions)

  datatype View<M> = View(linearization: seq<Id>, members: seq<M>)

  datatype Payload<M> =
    | Manager
    | ClassObject(parents: seq<Id>, members: seq<M>, revisions: Revisions, cached: Option<CachedRef>)
    | Derived(stamps: seq<Stamp>, view: View<M>)

  type CacheObjects<M> = Objects<Payload<M>>

  predicate IsClass<M>(objects: CacheObjects<M>, id: Id) {
    id in objects && objects[id].payload.ClassObject?
  }

  /** The declared parents, members and revisions of the live classes. */
  function GraphOf<M>(objects: CacheObjects<M>): Graph {
    map id | id in objects && objects[id].payload.ClassObject? :: objects[id].payload.parents
  }

  function MembersOf<M>(objects: CacheObjects<M>): map<Id, seq<M>> {
    map id | id in objects && objects[id].payload.ClassObject? :: objects[id].payload.members
  }

  function RevisionsOf<M>(objects: CacheObjects<M>): map<Id, Revisions> {
    map id | id in objects && objects[id].payload.ClassObject? :: objects[id].payload.revisions
  }

  function ParentEdges(parents: seq<Id>): (r: seq<Edge>)
    ensures |r| == |parents| && forall i :: 0 <= i < |r| ==> r[i] == Strong(i, parents[i])
  {
    seq(|parents|, i requires 0 <= i < |parents| => Strong(i, parents[i]))
  }

  /** How many entries the manager has. */
  function Entered<M>(objects: CacheObjects<M>, manager: Id): nat {
    if manager in objects then |objects[manager].edges| else 0
  }

  /** At most one object went, and at most so many objects and entries came. */
  ghost predicate Grown<M>(objects: CacheObjects<M>, objects': CacheObjects<M>, manager: Id, stored: nat, entered: nat) {
    |objects| <= |objects'| + 1 && |objects'| <= |objects| + stored && Entered(objects', manager) <= Entered(objects, manager) + entered
  }

  /** No class but `c` was touched. */
  ghost predicate OthersKept<M>(objects: CacheObjects<M>, objects': CacheObjects<M>, c: Id) {
    forall id :: id != c && IsClass(objects, id) ==> id in objects' && objects'[id] == objects[id]
  }

  /** The members of the listed classes, in the order of the list. */
  function Gather<M>(lin: seq<Id>, members: map<Id, seq<M>>): seq<M> {
    if lin == [] then []
    else Gather(lin[..|lin| - 1], members) + (if lin[|lin| - 1] in members then members[lin[|lin| - 1]] else [])
  }

  function DeclaredBy<M>(members: map<Id, seq<M>>, id: Id): seq<M> {
    if id in members then members[id] else []
  }

  /** How many members the first `n` listed classes declare. */
  function Total<M>(lin: seq<Id>, members: map<Id, seq<M>>, n: nat): nat
    requires n <= |lin|
  {
    if n == 0 then 0 else Total(lin, members, n - 1) + |DeclaredBy(members, lin[n - 1])|
  }

  /** The `j`th member of the `i`th class is where it belongs. */
  predicate MemberAt<M(==)>(lin: seq<Id>, members: map<Id, seq<M>>, listed: seq<M>, i: nat, j: nat) {
    i < |lin| && j < |DeclaredBy(members, lin[i])| ==>
      Total(lin, members, i) + j < |listed| && listed[Total(lin, members, i) + j] == DeclaredBy(members, lin[i])[j]
  }

  /** Class after class as they are listed, each class's members in their own order, and
      nothing else. */
  ghost predicate ListsMembers<M>(lin: seq<Id>, members: map<Id, seq<M>>, listed: seq<M>) {
    |listed| == Total(lin, members, |lin|) && forall i: nat, j: nat :: MemberAt(lin, members, listed, i, j)
  }

  lemma {:induction false} TotalPrefix<M>(lin: seq<Id>, members: map<Id, seq<M>>, k: nat, n: nat)
    requires n <= k <= |lin|
    ensures Total(lin[..k], members, n) == Total(lin, members, n)
    decreases n
  {
    if n > 0 { TotalPrefix(lin, members, k, n - 1); }
  }

  lemma {:induction false} TotalGrows<M>(lin: seq<Id>, members: map<Id, seq<M>>, i: nat, n: nat)
    requires i < n <= |lin|
    ensures Total(lin, members, i) + |DeclaredBy(members, lin[i])| <= Total(lin, members, n)
    decreases n
  {
    if i < n - 1 { TotalGrows(lin, members, i, n - 1); }
  }

  /** One more class: its members follow. */
  lemma ListsMore<M>(lin: seq<Id>, members: map<Id, seq<M>>, front: seq<M>)
    requires lin != []
    ensures ListsMembers(lin[..|lin| - 1], members, front) <==>
            ListsMembers(lin, members, front + DeclaredBy(members, lin[|lin| - 1]))
  {
    hide Total, MemberAt;
    var n := |lin| - 1;
    var last := DeclaredBy(members, lin[n]);
    var listed := front + last;
    TotalPrefix(lin, members, n, n);
    assert Total(lin, members, |lin|) == Total(lin, members, n) + |last| by { TotalNext(lin, members); }
    forall i: nat, j: nat | |front| == Total(lin, members, n)
      ensures MemberAt(lin, members, listed, i, j) <==> MemberAt(lin[..n], members, front, i, j)
    {
      MemberAtMore(lin, members, front, i, j);
    }
  }

  lemma TotalNext<M>(lin: seq<Id>, members: map<Id, seq<M>>)
    requires lin != []
    ensures Total(lin, members, |lin|) == Total(lin, members, |lin| - 1) + |DeclaredBy(members, lin[|lin| - 1])|
  {
  }

  lemma MemberAtMore<M>(lin: seq<Id>, members: map<Id, seq<M>>, front: seq<M>, i: nat, j: nat)
    requires lin != [] && |front| == Total(lin, members, |lin| - 1)
    ensures MemberAt(lin, members, front + DeclaredBy(members, lin[|lin| - 1]), i, j) <==>
            MemberAt(lin[..|lin| - 1], members, front, i, j)
  {
    hide Total;
    var n := |lin| - 1;
    if i < n {
      TotalPrefix(lin, members, n, i);
      TotalGrows(lin, members, i, n);
    }
  }

  /** The gathered members are that list, and there is no other. */
  lemma {:induction false} GatherLists<M>(lin: seq<Id>, members: map<Id, seq<M>>, listed: seq<M>)
    ensures ListsMembers(lin, members, listed) <==> listed == Gather(lin, members)
    decreases |lin|
  {
    hide ListsMembers;
    if lin == [] {
      NothingListed(members, listed);
    } else {
      var front := Gather(lin[..|lin| - 1], members);
      GatherLists(lin[..|lin| - 1], members, front);
      ListsMore(lin, members, front);
      if ListsMembers(lin, members, listed) {
        ListedLength(lin, members, listed);
        var m := |listed| - |DeclaredBy(members, lin[|lin| - 1])|;
        ListsMore(lin, members, listed[..m]);
        GatherLists(lin[..|lin| - 1], members, listed[..m]);
      }
    }
  }

  lemma NothingListed<M>(members: map<Id, seq<M>>, listed: seq<M>)
    ensures ListsMembers([], members, listed) <==> listed == []
  {
  }

  lemma ListedLength<M>(lin: seq<Id>, members: map<Id, seq<M>>, listed: seq<M>)
    requires lin != [] && ListsMembers(lin, members, listed)
    ensures var last := DeclaredBy(members, lin[|lin| - 1]);
      |last| <= |listed| && listed == listed[..|listed| - |last|] + last
  {
    hide Total;
    TotalNext(lin, members);
    var n, last := |lin| - 1, DeclaredBy(members, lin[|lin| - 1]);
    var m := |listed| - |last|;
    forall j: nat | j < |last| ensures listed[m + j] == last[j] { assert MemberAt(lin, members, listed, n, j); }
  }

  lemma {:induction false} GatherSame<M>(lin: seq<Id>, a: map<Id, seq<M>>, b: map<Id, seq<M>>)
    requires forall x :: x in lin ==> x in a && x in b && a[x] == b[x]
    ensures Gather(lin, a) == Gather(lin, b)
    decreases |lin|
  {
    if lin != [] {
      var front, last := lin[..|lin| - 1], lin[|lin| - 1];
      assert last in lin && forall x :: x in front ==> x in lin;
      GatherSame(front, a, b);
    }
  }

  // ---------- history ----------

  /** What every class declared under each of its revisions. */
  datatype History<M> = History(parents: map<(Id, nat), seq<Id>>, members: map<(Id, nat), seq<M>>)

  ghost predicate Declared<M>(hist: History<M>, s: Stamp, parents: seq<Id>, members: seq<M>) {
    && (s.id, s.revisions.parents) in hist.parents && hist.parents[(s.id, s.revisions.parents)] == parents
    && (s.id, s.revisions.members) in hist.members && hist.members[(s.id, s.revisions.members)] == members
  }

  ghost predicate Grows<M>(hist: History<M>, hist': History<M>) {
    && (forall k :: k in hist.parents ==> k in hist'.parents && hist'.parents[k] == hist.parents[k])
    && (forall k :: k in hist.members ==> k in hist'.members && hist'.members[k] == hist.members[k])
  }

  /** The view is what the policy computed from what its stamps name. */
  ghost predicate From<M>(policy: Policy, hist: History<M>, stamps: seq<Stamp>, view: View<M>, g: Graph, members: map<Id, seq<M>>) {
    && |stamps| == |view.linearization|
    && (forall i :: 0 <= i < |stamps| ==> stamps[i].id == view.linearization[i])
    && (forall s :: s in stamps ==> s.id in g && s.id in members && Declared(hist, s, g[s.id], members[s.id]))
    && view.linearization != [] && LinearizedBy(policy, g, view.linearization[0], view.linearization)
    && view.members == Gather(view.linearization, members)
  }

  ghost predicate Computed<M(!new)>(policy: Policy, hist: History<M>, stamps: seq<Stamp>, view: View<M>) {
    exists g, members :: From(policy, hist, stamps, view, g, members)
  }

  lemma ComputedGrows<M(!new)>(policy: Policy, hist: History<M>, hist': History<M>, stamps: seq<Stamp>, view: View<M>)
    requires Computed(policy, hist, stamps, view) && Grows(hist, hist')
    ensures Computed(policy, hist', stamps, view)
  {
    hide LinearizedBy, Gather;
    var g, members :| From(policy, hist, stamps, view, g, members);
    assert From(policy, hist', stamps, view, g, members);
  }

  // ---------- the invariant ----------

  ghost predicate ClassOk<M>(objects: CacheObjects<M>, hist: History<M>, id: Id)
    requires IsClass(objects, id)
  {
    var c := objects[id].payload;
    && objects[id].edges == ParentEdges(c.parents) && (forall p :: p in c.parents ==> IsClass(objects, p))
    && Declared(hist, Stamp(id, c.revisions), c.parents, c.members)
  }

  /** A cached reference names a live view of its class and the manager's entry for it. */
  ghost predicate CachedOk<M>(objects: CacheObjects<M>, manager: Id, id: Id)
    requires IsClass(objects, id)
  {
    var cached := objects[id].payload.cached;
    cached.Some? ==>
      && cached.value.value in objects && objects[cached.value.value].payload.Derived?
      && objects[cached.value.value].payload.view.linearization != []
      && objects[cached.value.value].payload.view.linearization[0] == id
      && manager in objects && Ephemeron(cached.value.edge, id, cached.value.value) in objects[manager].edges
  }

  /** The manager owns nothing but the entries of the cached references. */
  ghost predicate ManagerOk<M>(objects: CacheObjects<M>, manager: Id) {
    && manager in objects && objects[manager].payload.Manager?
    && forall e :: e in objects[manager].edges ==>
         e.Ephemeron? && IsClass(objects, e.key) && objects[e.key].payload.cached == Some(CachedRef(e.edge, e.value))
  }

  /** A class's recorded revisions end at its current ones. */
  ghost predicate HistoryOk<M>(objects: CacheObjects<M>, hist: History<M>, nextId: nat) {
    && (forall id, r :: (id, r) in hist.parents ==> id < nextId && (IsClass(objects, id) ==> r <= objects[id].payload.revisions.parents))
    && (forall id, r :: (id, r) in hist.members ==> id < nextId && (IsClass(objects, id) ==> r <= objects[id].payload.revisions.members))
  }

  ghost predicate ObjectOk<M(!new)>(objects: CacheObjects<M>, manager: Id, hist: History<M>, policy: Policy, id: Id)
    requires id in objects
  {
    match objects[id].payload
    case Manager => id == manager
    case ClassObject(_, _, _, _) => ClassOk(objects, hist, id) && CachedOk(objects, manager, id)
    case Derived(stamps, view) => objects[id].edges == [] && Computed(policy, hist, stamps, view)
  }

  ghost predicate CacheInv<M(!new)>(objects: CacheObjects<M>, manager: Id, hist: History<M>, policy: Policy, nextId: nat) {
    && ManagerOk(objects, manager) && HistoryOk(objects, hist, nextId)
    && forall id :: id in objects ==> id < nextId && ObjectOk(objects, manager, hist, policy, id)
  }

  /** Roots hold classes, and one holds the manager. */
  ghost predicate RootsOk<M>(objects: CacheObjects<M>, roots: map<nat, Id>, manager: Id, managerRoot: nat) {
    && managerRoot in roots && roots[managerRoot] == manager
    && forall r :: r in roots && r != managerRoot ==> IsClass(objects, roots[r])
  }

  // ---------- hits ----------

  predicate Matches(stamps: seq<Stamp>, revisions: map<Id, Revisions>) {
    forall s :: s in stamps ==> s.id in revisions && revisions[s.id] == s.revisions
  }

  /** A view whose stamps match is what the policy computes now. */
  lemma HitUpToDate<M(!new)>(objects: CacheObjects<M>, manager: Id, hist: History<M>, policy: Policy, nextId: nat, id: Id)
    requires CacheInv(objects, manager, hist, policy, nextId) && IsClass(objects, id) && objects[id].payload.cached.Some?
    ensures var value := objects[id].payload.cached.value.value;
      && value in objects && objects[value].payload.Derived?
      && var view := objects[value].payload.view;
      Matches(objects[value].payload.stamps, RevisionsOf(objects)) ==>
        LinearizedBy(policy, GraphOf(objects), id, view.linearization) &&
        view.members == Gather(view.linearization, MembersOf(objects))
  {
    hide LinearizedBy, Gather;
    assert CachedOk(objects, manager, id) by { assert ObjectOk(objects, manager, hist, policy, id); }
    var value := objects[id].payload.cached.value.value;
    var stamps, view := objects[value].payload.stamps, objects[value].payload.view;
    assert ObjectOk(objects, manager, hist, policy, value);
    if Matches(stamps, RevisionsOf(objects)) {
      var g, members :| From(policy, hist, stamps, view, g, members);
      forall x | x in view.linearization
        ensures IsClass(objects, x) && x in g && x in members && g[x] == GraphOf(objects)[x] && members[x] == MembersOf(objects)[x]
      {
        var i :| 0 <= i < |stamps| && stamps[i].id == x;
        assert stamps[i] in stamps && x in RevisionsOf(objects);
        assert ObjectOk(objects, manager, hist, policy, x);
      }
      LinearizedLocal(policy, g, GraphOf(objects), id, view.linearization);
      GatherSame(view.linearization, members, MembersOf(objects));
    }
  }

  // ---------- one class changes ----------

  ghost predicate NewClass<M>(objects: CacheObjects<M>, hist': History<M>, c: Id, slot: Slot<Payload<M>>)
  {
    && slot.payload.ClassObject? && slot.payload.cached.None? && slot.edges == ParentEdges(slot.payload.parents)
    && (forall p :: p in slot.payload.parents ==> p == c || IsClass(objects, p))
    && Declared(hist', Stamp(c, slot.payload.revisions), slot.payload.parents, slot.payload.members)
  }

  /** Allocating a class, or replacing what one without a cached view declares. */
  lemma ClassWritten<M(!new)>(objects: CacheObjects<M>, manager: Id, hist: History<M>, policy: Policy, nextId: nat,
                              c: Id, slot: Slot<Payload<M>>, hist': History<M>, nextId': nat)
    requires CacheInv(objects, manager, hist, policy, nextId)
    requires c == nextId || (IsClass(objects, c) && objects[c].payload.cached.None?)
    requires NewClass(objects, hist', c, slot) && Grows(hist, hist') && nextId <= nextId' && c < nextId'
    requires HistoryOk(objects[c := slot], hist', nextId')
    ensures CacheInv(objects[c := slot], manager, hist', policy, nextId')
  {
    hide Computed, Declared, HistoryOk, Grows;
    var objects' := objects[c := slot];
    assert c != manager && (c in objects ==> objects[c].payload.ClassObject?);
    assert forall id :: IsClass(objects, id) ==> IsClass(objects', id);
    forall e | e in objects'[manager].edges
      ensures e.Ephemeron? && IsClass(objects', e.key) && objects'[e.key].payload.cached == Some(CachedRef(e.edge, e.value))
    {
      assert e in objects[manager].edges && e.key != c;
    }
    forall id | id in objects' ensures id < nextId' && ObjectOk(objects', manager, hist', policy, id) {
      if id == c {
        assert ClassOk(objects', hist', c) && CachedOk(objects', manager, c);
      } else {
        OtherUnchanged(objects, manager, hist, policy, c, slot, hist', id);
      }
    }
  }

  lemma OtherUnchanged<M(!new)>(objects: CacheObjects<M>, manager: Id, hist: History<M>, policy: Policy,
                                c: Id, slot: Slot<Payload<M>>, hist': History<M>, id: Id)
    requires id in objects && id != c && c != manager && ObjectOk(objects, manager, hist, policy, id) && Grows(hist, hist')
    requires slot.payload.ClassObject? && (c in objects ==> objects[c].payload.ClassObject?)
    ensures ObjectOk(objects[c := slot], manager, hist', policy, id)
  {
    hide Computed;
    var objects' := objects[c := slot];
    match objects[id].payload
    case Manager =>
    case ClassObject(parents, members, revisions, _) =>
      assert forall p :: IsClass(objects, p) ==> IsClass(objects', p);
      assert Declared(hist', Stamp(id, revisions), parents, members);
    case Derived(stamps, view) => ComputedGrows(policy, hist, hist', stamps, view);
  }

  // ---------- discarding a cached view ----------

  /** The cached view of `c` removed, with the manager's entry and the reference to it. */
  function Discarded<M>(objects: CacheObjects<M>, manager: Id, c: Id): CacheObjects<M>
    requires IsClass(objects, c)
  {
    match objects[c].payload.cached
    case None => objects
    case Some(ref) =>
      if manager !in objects then objects
      else
        var m := objects[manager];
        (objects[manager := m.(edges := Keep(m.edges, {Ephemeron(ref.edge, c, ref.value)}))]
         - {ref.value})[c := objects[c].(payload := objects[c].payload.(cached := None))]
  }

  lemma DiscardedInv<M(!new)>(objects: CacheObjects<M>, manager: Id, hist: History<M>, policy: Policy, nextId: nat, c: Id)
    requires CacheInv(objects, manager, hist, policy, nextId) && IsClass(objects, c)
    ensures CacheInv(Discarded(objects, manager, c), manager, hist, policy, nextId)
  {
    if objects[c].payload.cached.Some? {
      hide HistoryOk, ObjectOk, ManagerOk, Discarded;
      var objects' := Discarded(objects, manager, c);
      DiscardedShape(objects, manager, hist, policy, nextId, c);
      HistoryKept(objects, objects', hist, nextId);
      forall id | id in objects' ensures id < nextId && ObjectOk(objects', manager, hist, policy, id) {
        DiscardedOther(objects, manager, hist, policy, nextId, c, id);
      }
    }
  }

  lemma DiscardedKeeps<M(!new)>(objects: CacheObjects<M>, manager: Id, hist: History<M>, policy: Policy, nextId: nat, c: Id)
    requires CacheInv(objects, manager, hist, policy, nextId) && IsClass(objects, c)
    ensures var objects' := Discarded(objects, manager, c);
      && GraphOf(objects') == GraphOf(objects) && MembersOf(objects') == MembersOf(objects) && RevisionsOf(objects') == RevisionsOf(objects)
      && IsClass(objects', c) && objects'[c].payload == objects[c].payload.(cached := None) && objects'.Keys <= objects.Keys
  {
    if objects[c].payload.cached.Some? {
      DiscardedShape(objects, manager, hist, policy, nextId, c);
      hide CacheInv, ManagerOk, Discarded, Keep;
      SameDeclarations(objects, Discarded(objects, manager, c));
    }
  }

  lemma SameDeclarations<M>(objects: CacheObjects<M>, objects': CacheObjects<M>)
    requires forall id :: IsClass(objects, id) <==> IsClass(objects', id)
    requires forall id :: IsClass(objects, id) && IsClass(objects', id) ==>
      && objects'[id].payload.parents == objects[id].payload.parents && objects'[id].payload.members == objects[id].payload.members
      && objects'[id].payload.revisions == objects[id].payload.revisions
    ensures GraphOf(objects') == GraphOf(objects) && MembersOf(objects') == MembersOf(objects) && RevisionsOf(objects') == RevisionsOf(objects)
  {
    assert forall id :: id in objects && objects[id].payload.ClassObject? <==> IsClass(objects, id);
    assert forall id :: id in objects' && objects'[id].payload.ClassObject? <==> IsClass(objects', id);
  }

  lemma HistoryKept<M>(objects: CacheObjects<M>, objects': CacheObjects<M>, hist: History<M>, nextId: nat)
    requires HistoryOk(objects, hist, nextId)
    requires forall id :: IsClass(objects', id) ==> IsClass(objects, id) && objects'[id].payload.revisions == objects[id].payload.revisions
    ensures HistoryOk(objects', hist, nextId)
  {
  }

  lemma DiscardedShape<M(!new)>(objects: CacheObjects<M>, manager: Id, hist: History<M>, policy: Policy, nextId: nat, c: Id)
    requires CacheInv(objects, manager, hist, policy, nextId) && IsClass(objects, c) && objects[c].payload.cached.Some?
    ensures var objects', ref := Discarded(objects, manager, c), objects[c].payload.cached.value;
      && ref.value in objects && objects[ref.value].payload.Derived? && objects'.Keys == objects.Keys - {ref.value}
      && Ephemeron(ref.edge, c, ref.value) in objects[manager].edges
      && (forall id :: id in objects' && id != c && id != manager ==> objects'[id] == objects[id])
      && objects'[c] == objects[c].(payload := objects[c].payload.(cached := None))
      && objects'[manager] == objects[manager].(edges := Keep(objects[manager].edges, {Ephemeron(ref.edge, c, ref.value)}))
      && ManagerOk(objects', manager) && (forall id :: IsClass(objects', id) <==> IsClass(objects, id))
  {
    hide Computed, Declared, Keep, HistoryOk;
    assert ObjectOk(objects, manager, hist, policy, c);
    var objects', ref := Discarded(objects, manager, c), objects[c].payload.cached.value;
    forall e | e in objects'[manager].edges
      ensures e.Ephemeron? && IsClass(objects', e.key) && objects'[e.key].payload.cached == Some(CachedRef(e.edge, e.value))
    {
      assert e in objects[manager].edges;
      assert e.key == c ==> e == Ephemeron(ref.edge, c, ref.value);
    }
  }

  lemma DiscardedOther<M(!new)>(objects: CacheObjects<M>, manager: Id, hist: History<M>, policy: Policy, nextId: nat, c: Id, id: Id)
    requires CacheInv(objects, manager, hist, policy, nextId) && IsClass(objects, c) && objects[c].payload.cached.Some?
    requires id in Discarded(objects, manager, c)
    ensures id < nextId && ObjectOk(Discarded(objects, manager, c), manager, hist, policy, id)
  {
    hide Computed, Declared, Keep, HistoryOk, Discarded, ManagerOk;
    DiscardedShape(objects, manager, hist, policy, nextId, c);
    var objects', ref := Discarded(objects, manager, c), objects[c].payload.cached.value;
    assert ObjectOk(objects, manager, hist, policy, id);
    assert ObjectOk(objects, manager, hist, policy, c);
    if IsClass(objects, id) && id != c && objects[id].payload.cached.Some? {
      assert CachedOk(objects, manager, id) && CachedOk(objects, manager, c);
      assert objects[id].payload.cached.value.value != ref.value;
    }
  }

  // ---------- installing a view ----------

  lemma DerivedAdded<M(!new)>(objects: CacheObjects<M>, manager: Id, hist: History<M>, policy: Policy, nextId: nat,
                              stamps: seq<Stamp>, view: View<M>)
    requires CacheInv(objects, manager, hist, policy, nextId) && Computed(policy, hist, stamps, view)
    ensures CacheInv(objects[nextId := Slot(Derived(stamps, view), [], 0)], manager, hist, policy, nextId + 1)
  {
    hide Computed, Declared;
    var objects' := objects[nextId := Slot(Derived(stamps, view), [], 0)];
    assert nextId !in objects;
    assert forall id :: IsClass(objects', id) <==> IsClass(objects, id);
    forall id | id in objects' ensures id < nextId + 1 && ObjectOk(objects', manager, hist, policy, id) {
      if id in objects { assert ObjectOk(objects, manager, hist, policy, id); }
    }
  }

  /** The manager's new entry and the class's reference to it. */
  function Installed<M>(objects: CacheObjects<M>, manager: Id, c: Id, value: Id): CacheObjects<M>
    requires IsClass(objects, c) && manager in objects
  {
    var m := objects[manager];
    objects[manager := m.(edges := m.edges + [Ephemeron(m.nextEdge, c, value)], nextEdge := m.nextEdge + 1)]
    [c := objects[c].(payload := objects[c].payload.(cached := Some(CachedRef(m.nextEdge, value))))]
  }

  lemma InstalledInv<M(!new)>(objects: CacheObjects<M>, manager: Id, hist: History<M>, policy: Policy, nextId: nat, c: Id, value: Id)
    requires CacheInv(objects, manager, hist, policy, nextId) && IsClass(objects, c) && objects[c].payload.cached.None?
    requires value in objects && objects[value].payload.Derived?
    requires objects[value].payload.view.linearization != [] && objects[value].payload.view.linearization[0] == c
    ensures CacheInv(Installed(objects, manager, c, value), manager, hist, policy, nextId)
  {
    hide Computed, Declared, HistoryOk;
    var objects' := Installed(objects, manager, c, value);
    var edge := objects[manager].nextEdge;
    assert c != manager;
    assert forall id :: IsClass(objects', id) <==> IsClass(objects, id);
    HistoryKept(objects, objects', hist, nextId);
    forall e | e in objects'[manager].edges
      ensures e.Ephemeron? && IsClass(objects', e.key) && objects'[e.key].payload.cached == Some(CachedRef(e.edge, e.value))
    {
      if e in objects[manager].edges { assert e.key != c; }
    }
    forall id | id in objects' ensures id < nextId && ObjectOk(objects', manager, hist, policy, id) {
      assert ObjectOk(objects, manager, hist, policy, id);
    }
  }

  // ---------- collections ----------

  /** Strong edges of classes lead to classes, and nothing else owns one. */
  lemma CollectedInv<M(!new)>(objects: CacheObjects<M>, manager: Id, hist: History<M>, policy: Policy, nextId: nat,
                              start: set<Id>, objects': CacheObjects<M>)
    requires CacheInv(objects, manager, hist, policy, nextId) && manager in start
    requires var live := Live(HeapOf(objects), start); live <= objects.Keys && Survived(objects, live, objects')
    ensures CacheInv(objects', manager, hist, policy, nextId)
    ensures forall id :: id in objects' && id != manager ==> objects'[id] == objects[id]
  {
    hide Live, Computed, Declared, HistoryOk, ObjectOk, ManagerOk;
    var live := Live(HeapOf(objects), start);
    LiveClosed(HeapOf(objects), start);
    forall id | id in live && id != manager ensures objects'[id] == objects[id] {
      OnlyManagerLoses(objects, manager, hist, policy, nextId, live, objects', id);
    }
    HistoryKept(objects, objects', hist, nextId);
    CollectedManager(objects, manager, live, objects');
    forall id | id in objects' ensures id < nextId && ObjectOk(objects', manager, hist, policy, id) {
      CollectedObject(objects, manager, hist, policy, nextId, live, objects', id);
    }
  }

  lemma OnlyManagerLoses<M(!new)>(objects: CacheObjects<M>, manager: Id, hist: History<M>, policy: Policy, nextId: nat,
                                  live: set<Id>, objects': CacheObjects<M>, id: Id)
    requires CacheInv(objects, manager, hist, policy, nextId) && live <= objects.Keys && Survived(objects, live, objects')
    requires id in live && id != manager
    ensures objects'[id] == objects[id]
  {
    hide Computed, Declared, HistoryOk, ManagerOk;
    assert ObjectOk(objects, manager, hist, policy, id);
    var edges := objects[id].edges;
    assert forall e :: e in edges ==> e.Strong?;
    KeepAll(edges, DeadEdges(edges, live));
  }

  lemma CollectedManager<M(!new)>(objects: CacheObjects<M>, manager: Id, live: set<Id>, objects': CacheObjects<M>)
    requires ManagerOk(objects, manager) && manager in live && live <= objects.Keys && Survived(objects, live, objects')
    requires forall id :: id in live && id != manager ==> objects'[id] == objects[id]
    ensures ManagerOk(objects', manager)
    ensures objects'[manager].payload == objects[manager].payload
    ensures forall e :: e in objects'[manager].edges <==> e in objects[manager].edges && e.Ephemeron? && e.key in live
  {
    forall e ensures e in objects'[manager].edges <==> e in objects[manager].edges && e.Ephemeron? && e.key in live {}
  }

  lemma CollectedObject<M(!new)>(objects: CacheObjects<M>, manager: Id, hist: History<M>, policy: Policy, nextId: nat,
                                 live: set<Id>, objects': CacheObjects<M>, id: Id)
    requires CacheInv(objects, manager, hist, policy, nextId) && TraceClosed(HeapOf(objects), live)
    requires manager in live && live <= objects.Keys && objects'.Keys == live && id in live
    requires forall x :: x in live && x != manager ==> objects'[x] == objects[x]
    requires objects'[manager].payload == objects[manager].payload
    requires forall e :: e in objects'[manager].edges <==> e in objects[manager].edges && e.Ephemeron? && e.key in live
    ensures id < nextId && ObjectOk(objects', manager, hist, policy, id)
  {
    hide Computed, Declared, HistoryOk, TraceClosed;
    assert ObjectOk(objects, manager, hist, policy, id);
    if IsClass(objects, id) {
      assert ClassOk(objects, hist, id) && CachedOk(objects, manager, id);
      forall p | p in objects[id].payload.parents ensures IsClass(objects', p) {
        var i :| 0 <= i < |objects[id].payload.parents| && objects[id].payload.parents[i] == p;
        StrongRetained(objects, live, id, objects[id].edges[i]);
        assert p != manager;
      }
      var cached := objects[id].payload.cached;
      if cached.Some? {
        var e := Ephemeron(cached.value.edge, id, cached.value.value);
        StrongRetained(objects, live, manager, e);
      }
    }
  }

  lemma StrongRetained<M>(objects: CacheObjects<M>, live: set<Id>, id: Id, e: Edge)
    requires TraceClosed(HeapOf(objects), live) && id in live && id in objects && e in objects[id].edges
    ensures Retained(e, live)
  {
    assert e in Edges(HeapOf(objects), id);
  }

  /** A class is live exactly when it is an ancestor of a class that marking starts from:
      no cached view keeps one alive. */
  lemma ViewsRetainNoClass<M(!new)>(objects: CacheObjects<M>, manager: Id, hist: History<M>, policy: Policy, nextId: nat,
                                    start: set<Id>, id: Id)
    requires CacheInv(objects, manager, hist, policy, nextId) && IsClass(objects, id)
    requires forall x :: x in start ==> x == manager || IsClass(objects, x)
    ensures id in Live(HeapOf(objects), start) <==> exists r :: r in start && IsClass(objects, r) && id in Ancestors(GraphOf(objects), r)
  {
    hide Live, Ancestors, ManagerOk, HistoryOk, CacheInv;
    var h, g := HeapOf(objects), GraphOf(objects);
    var inherited := InheritedFrom(objects, start);
    NonClasses(objects, manager, hist, policy, nextId, start);
    LiveLeast(h, start, inherited + OtherIds(objects));
    LiveClosed(h, start);
    forall r | r in start && IsClass(objects, r) ensures id in Ancestors(g, r) ==> id in Live(h, start) {
      LiveParents(objects, manager, hist, policy, nextId, start);
      AncestorsLeast(g, r, Live(h, start));
    }
  }

  /** The manager and the derived views. */
  ghost function OtherIds<M>(objects: CacheObjects<M>): set<Id> {
    set x | x in objects && !objects[x].payload.ClassObject?
  }

  ghost function InheritedFrom<M>(objects: CacheObjects<M>, start: set<Id>): set<Id> {
    set x, r | r in start && IsClass(objects, r) && x in Ancestors(GraphOf(objects), r) :: x
  }

  lemma LiveParents<M(!new)>(objects: CacheObjects<M>, manager: Id, hist: History<M>, policy: Policy, nextId: nat, start: set<Id>)
    requires CacheInv(objects, manager, hist, policy, nextId)
    ensures ParentClosed(GraphOf(objects), Live(HeapOf(objects), start))
  {
    hide Live, ManagerOk, HistoryOk, Computed, Declared;
    var live := Live(HeapOf(objects), start);
    LiveClosed(HeapOf(objects), start);
    forall n, p | n in live && p in Parents(GraphOf(objects), n) ensures p in live {
      assert ObjectOk(objects, manager, hist, policy, n);
      var i :| 0 <= i < |objects[n].payload.parents| && objects[n].payload.parents[i] == p;
      StrongRetained(objects, live, n, objects[n].edges[i]);
    }
  }

  lemma ClassEdgeInherited<M(!new)>(objects: CacheObjects<M>, manager: Id, hist: History<M>, policy: Policy, nextId: nat,
                                    start: set<Id>, id: Id, e: Edge)
    requires CacheInv(objects, manager, hist, policy, nextId) && IsClass(objects, id) && e in objects[id].edges
    requires id in InheritedFrom(objects, start)
    ensures e.Strong? && e.target in InheritedFrom(objects, start)
  {
    hide Ancestors, HistoryOk, Computed, Declared, ManagerOk;
    var g := GraphOf(objects);
    assert ObjectOk(objects, manager, hist, policy, id);
    assert e.Strong? && e.target in Parents(g, id);
    var r :| r in start && IsClass(objects, r) && id in Ancestors(g, r);
    AncestorsClosed(g, r);
    assert e.target in Ancestors(g, r);
  }

  lemma OtherEdge<M(!new)>(objects: CacheObjects<M>, manager: Id, hist: History<M>, policy: Policy, nextId: nat, id: Id, e: Edge)
    requires CacheInv(objects, manager, hist, policy, nextId) && id in objects && !IsClass(objects, id) && e in objects[id].edges
    ensures e.Ephemeron? && e.value in OtherIds(objects)
  {
    hide HistoryOk, Computed, Declared;
    assert ObjectOk(objects, manager, hist, policy, id);
    assert id == manager;
    assert ObjectOk(objects, manager, hist, policy, e.key);
    assert CachedOk(objects, manager, e.key);
  }

  lemma NonClasses<M(!new)>(objects: CacheObjects<M>, manager: Id, hist: History<M>, policy: Policy, nextId: nat, start: set<Id>)
    requires CacheInv(objects, manager, hist, policy, nextId)
    requires forall x :: x in start ==> x == manager || IsClass(objects, x)
    ensures var closed := InheritedFrom(objects, start) + OtherIds(objects);
      start <= closed && TraceClosed(HeapOf(objects), closed)
  {
    hide Ancestors, HistoryOk, ObjectOk;
    var h, g := HeapOf(objects), GraphOf(objects);
    var closed := InheritedFrom(objects, start) + OtherIds(objects);
    forall x | x in start ensures x in closed { AncestorsClosed(g, x); }
    forall id, e | id in closed && e in Edges(h, id) ensures Retained(e, closed) {
      if IsClass(objects, id) {
        ClassEdgeInherited(objects, manager, hist, policy, nextId, start, id, e);
      } else {
        OtherEdge(objects, manager, hist, policy, nextId, id, e);
      }
    }
  }
}

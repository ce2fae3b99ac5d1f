/** The managed arena: objects with owned edges, roots, objects kept alive for one epoch,
    and the application of a collection plan. */
module Arena {
  import opened Collections
  import opened Tracing

  datatype ArenaError =
    | CapacityExceeded(cap: nat)
    | StaleHandle(id: Id)
    | StaleRoot(root: nat)
    | ObjectRooted(id: Id)
    | MutationEpochChanged(expected: nat, actual: nat)

  datatype Result<+T> = Ok(value: T) | Err(error: ArenaError)

  /** An object: its payload and its outgoing edges in the order of their identities. */
  datatype Slot<T> = Slot(payload: T, edges: seq<Edge>, nextEdge: nat)

  // ---------- ordered listings ----------

  /** The members of `s` below `bound`, in ascending order. */
  function Ascending(s: set<nat>, bound: nat): (r: seq<nat>)
    ensures forall x :: x in r <==> x in s && x < bound
  {
    if bound == 0 then [] else Ascending(s, bound - 1) + (if bound - 1 in s then [bound - 1] else [])
  }

  lemma {:induction false} AscendingOrdered(s: set<nat>, bound: nat)
    ensures Increasing(Ascending(s, bound))
  {
    if bound > 0 {
      AscendingOrdered(s, bound - 1);
      var front := Ascending(s, bound - 1);
      assert forall i :: 0 <= i < |front| ==> front[i] in front;
    }
  }

  lemma {:induction false} AscendingCount(s: set<nat>, bound: nat)
    requires forall x :: x in s ==> x < bound
    ensures |Ascending(s, bound)| == |s|
  {
    if bound == 0 {
      assert s == {};
    } else {
      var n, rest := bound - 1, s - {bound - 1};
      assert |Ascending(s, bound)| == |Ascending(s, n)| + if n in s then 1 else 0;
      hide Ascending;
      AscendingSkips(s, n, n);
      assert forall x :: x in rest ==> x < n;
      AscendingCount(rest, n);
      CountWithout(s, n);
    }
  }

  lemma {:induction false} AscendingSkips(s: set<nat>, x: nat, bound: nat)
    requires bound <= x
    ensures Ascending(s - {x}, bound) == Ascending(s, bound)
    decreases bound
  {
    if bound > 0 { AscendingSkips(s, x, bound - 1); }
  }

  // ---------- edges of one object ----------

  predicate Numbered(edges: seq<Edge>, next: nat) {
    && (forall i :: 0 <= i < |edges| ==> edges[i].edge < next)
    && (forall i, j :: 0 <= i < j < |edges| ==> edges[i].edge < edges[j].edge)
  }

  /** The edges outside `gone`, in their order. */
  function Keep(edges: seq<Edge>, gone: set<Edge>): (r: seq<Edge>)
    ensures |r| <= |edges| && forall e :: e in r <==> e in edges && e !in gone
  {
    if edges == [] then []
    else
      assert edges == edges[..|edges| - 1] + [edges[|edges| - 1]];
      Keep(edges[..|edges| - 1], gone) + (if edges[|edges| - 1] in gone then [] else [edges[|edges| - 1]])
  }

  lemma {:induction false} KeepTwice(edges: seq<Edge>, a: set<Edge>, b: set<Edge>)
    ensures Keep(Keep(edges, a), b) == Keep(edges, a + b)
    decreases |edges|
  {
    if edges != [] {
      hide Keep;
      var front, last := edges[..|edges| - 1], edges[|edges| - 1];
      assert edges == front + [last];
      KeepTwice(front, a, b);
      KeepLast(front, last, a);
      KeepLast(front, last, a + b);
      if last in a {
        assert Keep(edges, a) == Keep(front, a) && Keep(edges, a + b) == Keep(front, a + b);
      } else {
        KeepLast(Keep(front, a), last, b);
        assert Keep(edges, a) == Keep(front, a) + [last];
        assert last in b <==> last in a + b;
      }
    }
  }

  lemma KeepLast(front: seq<Edge>, last: Edge, gone: set<Edge>)
    ensures Keep(front + [last], gone) == Keep(front, gone) + (if last in gone then [] else [last])
  {
    assert (front + [last])[..|front|] == front;
  }

  lemma {:induction false} KeepAll(edges: seq<Edge>, gone: set<Edge>)
    requires forall e :: e in gone ==> e !in edges
    ensures Keep(edges, gone) == edges
    decreases |edges|
  {
    if edges != [] {
      var front, last := edges[..|edges| - 1], edges[|edges| - 1];
      assert edges == front + [last];
      forall e | e in gone ensures e !in front { assert e !in edges; }
      KeepAll(front, gone);
    }
  }

  lemma {:induction false} KeepNumbered(edges: seq<Edge>, gone: set<Edge>, next: nat)
    requires Numbered(edges, next)
    ensures Numbered(Keep(edges, gone), next)
    decreases |edges|
  {
    if edges != [] {
      var front, last := edges[..|edges| - 1], edges[|edges| - 1];
      KeepNumbered(front, gone, next);
      var kept := Keep(front, gone);
      forall i | 0 <= i < |kept| ensures kept[i].edge < last.edge { assert kept[i] in front; }
    }
  }

  // ---------- what a plan leaves ----------

  type Objects<T> = map<Id, Slot<T>>

  function HeapOf<T>(objects: Objects<T>): Heap {
    map id | id in objects :: objects[id].edges
  }

  ghost function GoneOf(dead: seq<Owned>, owner: Id): set<Edge> {
    set o | o in dead && o.owner == owner :: o.edge
  }

  /** Every listed edge is gone from its owner. */
  ghost predicate ClearedFrom<T>(objects: Objects<T>, dead: seq<Owned>, objects': Objects<T>) {
    && objects'.Keys == objects.Keys
    && forall id :: id in objects ==> objects'[id] == objects[id].(edges := Keep(objects[id].edges, GoneOf(dead, id)))
  }

  lemma ClearedNothing<T>(objects: Objects<T>)
    ensures ClearedFrom(objects, [], objects)
  {
    forall id | id in objects ensures objects[id].edges == Keep(objects[id].edges, GoneOf([], id)) {
      KeepAll(objects[id].edges, GoneOf([], id));
    }
  }

  lemma GoneMore(dead: seq<Owned>, o: Owned, id: Id)
    ensures GoneOf(dead + [o], id) == if id == o.owner then GoneOf(dead, id) + {o.edge} else GoneOf(dead, id)
  {
  }

  lemma ClearedOne<T>(objects: Objects<T>, dead: seq<Owned>, objects': Objects<T>, o: Owned, objects'': Objects<T>)
    requires ClearedFrom(objects, dead, objects')
    requires objects'' == if o.owner in objects' then objects'[o.owner := objects'[o.owner].(edges := Keep(objects'[o.owner].edges, {o.edge}))]
                          else objects'
    ensures ClearedFrom(objects, dead + [o], objects'')
  {
    forall id | id in objects
      ensures objects''[id] == objects[id].(edges := Keep(objects[id].edges, GoneOf(dead + [o], id)))
    {
      hide Keep, GoneOf;
      GoneMore(dead, o, id);
      if id == o.owner { KeepTwice(objects[id].edges, GoneOf(dead, id), {o.edge}); }
    }
  }

  lemma ClearedBoth<T>(objects: Objects<T>, a: seq<Owned>, objects': Objects<T>, b: seq<Owned>, objects'': Objects<T>)
    requires ClearedFrom(objects, a, objects') && ClearedFrom(objects', b, objects'')
    ensures ClearedFrom(objects, a + b, objects'')
  {
    forall id | id in objects
      ensures objects''[id] == objects[id].(edges := Keep(objects[id].edges, GoneOf(a + b, id)))
    {
      assert GoneOf(a + b, id) == GoneOf(a, id) + GoneOf(b, id);
      KeepTwice(objects[id].edges, GoneOf(a, id), GoneOf(b, id));
    }
  }

  ghost predicate Present<T>(objects: Objects<T>, o: Owned) {
    o.owner in objects && o.edge in objects[o.owner].edges
  }

  /** The receipt names exactly the listed edges that were there. */
  ghost predicate Receipted<T>(objects: Objects<T>, dead: seq<Owned>, cleared: seq<(Id, nat)>) {
    forall p :: p in cleared <==> exists o :: o in dead && Present(objects, o) && p == (o.owner, o.edge.edge)
  }

  /** Clears each listed edge that is still there, in the order of the list. */
  method ClearEdges<T>(objects: Objects<T>, dead: seq<Owned>) returns (objects': Objects<T>, cleared: seq<(Id, nat)>)
    ensures ClearedFrom(objects, dead, objects') && Receipted(objects, dead, cleared) && |cleared| <= |dead|
  {
    hide ClearedFrom, Receipted, Keep;
    objects', cleared := objects, [];
    ClearedNothing(objects);
    ReceiptedNothing(objects);
    for i := 0 to |dead|
      invariant ClearedFrom(objects, dead[..i], objects') && Receipted(objects, dead[..i], cleared) && |cleared| <= i
    {
      var o := dead[i];
      assert dead[..i + 1] == dead[..i] + [o];
      ghost var before := objects';
      ReceiptedOne(objects, dead[..i], objects', cleared, o);
      if o.owner in objects' {
        var slot := objects'[o.owner];
        if o.edge in slot.edges { cleared := cleared + [(o.owner, o.edge.edge)]; }
        objects' := objects'[o.owner := slot.(edges := Keep(slot.edges, {o.edge}))];
      }
      ClearedOne(objects, dead[..i], before, o, objects');
    }
    assert dead[..|dead|] == dead;
  }

  lemma ReceiptedNothing<T>(objects: Objects<T>)
    ensures Receipted(objects, [], [])
  {
  }

  lemma ReceiptedOne<T>(objects: Objects<T>, dead: seq<Owned>, objects': Objects<T>, cleared: seq<(Id, nat)>, o: Owned)
    requires ClearedFrom(objects, dead, objects') && Receipted(objects, dead, cleared)
    ensures Receipted(objects, dead + [o], if Present(objects', o) then cleared + [(o.owner, o.edge.edge)] else cleared)
  {
    hide Keep;
    var more := if Present(objects', o) then cleared + [(o.owner, o.edge.edge)] else cleared;
    assert o in dead + [o];
    assert Present(objects', o) ==> Present(objects, o);
    assert Present(objects, o) && !Present(objects', o) ==> o in dead;
    forall p ensures p in more <==> exists q :: q in dead + [o] && Present(objects, q) && p == (q.owner, q.edge.edge) {
      if q :| q in dead + [o] && Present(objects, q) && p == (q.owner, q.edge.edge) {
        if q in dead { assert p in cleared; }
      }
      if p in cleared {
        var q :| q in dead && Present(objects, q) && p == (q.owner, q.edge.edge);
        assert q in dead + [o];
      }
    }
  }

  lemma OtherKindPresent<T>(objects: Objects<T>, weak: seq<Owned>, objects': Objects<T>, ephemerons: seq<Owned>, cleared: seq<(Id, nat)>)
    requires ClearedFrom(objects, weak, objects') && Receipted(objects', ephemerons, cleared)
    requires (forall o :: o in weak ==> o.edge.Weak?) && forall o :: o in ephemerons ==> o.edge.Ephemeron?
    ensures Receipted(objects, ephemerons, cleared)
  {
    hide Keep;
    forall o | o in ephemerons ensures Present(objects, o) <==> Present(objects', o) {
      if o.owner in objects { assert o.edge !in GoneOf(weak, o.owner); }
    }
  }

  lemma ClearedSane<T>(objects: Objects<T>, dead: seq<Owned>, objects': Objects<T>, nextId: nat)
    requires ClearedFrom(objects, dead, objects')
    requires forall id :: id in objects ==> id < nextId && Numbered(objects[id].edges, objects[id].nextEdge)
    ensures forall id :: id in objects' ==> id < nextId && Numbered(objects'[id].edges, objects'[id].nextEdge)
  {
    forall id | id in objects' ensures id < nextId && Numbered(objects'[id].edges, objects'[id].nextEdge) {
      KeepNumbered(objects[id].edges, GoneOf(dead, id), objects[id].nextEdge);
    }
  }

  // ---------- the arena ----------

  /** What a collection leaves: the listed edges cleared, then the listed objects gone. */
  ghost predicate After<T(!new)>(objects: Objects<T>, dead: seq<Owned>, swept: seq<Id>, objects': Objects<T>) {
    exists cleared :: ClearedFrom(objects, dead, cleared) && objects' == cleared - Members(swept)
  }

  lemma ClearedKeys<T>(objects: Objects<T>, dead: seq<Owned>, objects': Objects<T>)
    requires ClearedFrom(objects, dead, objects')
    ensures objects'.Keys == objects.Keys
  {
  }

  lemma Fewer<T>(objects: Objects<T>, objects': Objects<T>)
    requires objects'.Keys <= objects.Keys
    ensures |objects'| <= |objects|
  {
    SubsetSize(objects'.Keys, objects.Keys);
    assert |objects| == |objects.Keys| && |objects'| == |objects'.Keys|;
  }

  datatype Receipt = Receipt(weak: seq<(Id, nat)>, ephemerons: seq<(Id, nat)>, swept: seq<Id>)

  /** Identities are below the counters, rooted objects and those kept alive for the
      current epoch are there, and every object's edges are numbered. */
  ghost predicate Sane<T>(objects: Objects<T>, roots: map<nat, Id>, keptAlive: map<Id, nat>, nextId: nat, nextRoot: nat, epoch: nat) {
    && (forall id :: id in objects ==> id < nextId && Numbered(objects[id].edges, objects[id].nextEdge))
    && (forall r :: r in roots ==> r < nextRoot && roots[r] in objects)
    && (forall id :: id in keptAlive ==> keptAlive[id] <= epoch && (keptAlive[id] == epoch ==> id in objects))
  }

  /** The rooted objects in the order the roots were registered. */
  function RootTargets(roots: map<nat, Id>, bound: nat): (r: seq<Id>)
    ensures forall id :: id in r <==> exists k :: k in roots && k < bound && roots[k] == id
  {
    if bound == 0 then [] else RootTargets(roots, bound - 1) + (if bound - 1 in roots then [roots[bound - 1]] else [])
  }

  lemma {:induction false} RootTargetsCount(roots: map<nat, Id>, bound: nat)
    ensures |RootTargets(roots, bound)| == |Ascending(roots.Keys, bound)|
  {
    if bound > 0 { RootTargetsCount(roots, bound - 1); }
  }

  /** Objects kept alive for this epoch, in allocation order. */
  function KeptNow(keptAlive: map<Id, nat>, epoch: nat, nextId: nat): seq<Id> {
    Ascending((set id | id in keptAlive && keptAlive[id] == epoch), nextId)
  }

  lemma KeptBound(keptAlive: map<Id, nat>, epoch: nat, nextId: nat)
    ensures |KeptNow(keptAlive, epoch, nextId)| <= |keptAlive|
  {
    var s := set id | id in keptAlive && keptAlive[id] == epoch;
    AscendingOrdered(s, nextId);
    RepetitionFreeBound(Ascending(s, nextId), keptAlive.Keys);
    assert |keptAlive| == |keptAlive.Keys|;
  }

  /** Where marking starts: the roots and the kept-alive objects. */
  function Starts(roots: map<nat, Id>, nextRoot: nat, keptAlive: map<Id, nat>, epoch: nat, nextId: nat): seq<Id> {
    RootTargets(roots, nextRoot) + KeptNow(keptAlive, epoch, nextId)
  }

  lemma NothingChanged<T(!new)>(objects: Objects<T>, objects': Objects<T>)
    requires After(objects, [], [], objects')
    ensures objects' == objects
  {
    var cleared :| ClearedFrom(objects, [], cleared) && objects' == cleared - Members([]);
    forall id | id in objects ensures cleared[id] == objects[id] { KeepAll(objects[id].edges, GoneOf([], id)); }
  }

  /** The plan's objects are there and none is rooted, or the first that is not. */
  method CheckSwept<T>(objects: Objects<T>, roots: map<nat, Id>, swept: seq<Id>) returns (e: Option<ArenaError>)
    ensures e.None? <==> forall id :: id in swept ==> id in objects && id !in roots.Values
    ensures e.Some? ==> exists id :: id in swept && e.value == if id !in objects then StaleHandle(id) else ObjectRooted(id)
  {
    for i := 0 to |swept|
      invariant forall k :: 0 <= k < i ==> swept[k] in objects && swept[k] !in roots.Values
    {
      assert swept[i] in swept;
      if swept[i] !in objects { return Some(StaleHandle(swept[i])); }
      if swept[i] in roots.Values { return Some(ObjectRooted(swept[i])); }
    }
    e := None;
  }

  lemma AfterSane<T(!new)>(objects: Objects<T>, roots: map<nat, Id>, keptAlive: map<Id, nat>, nextId: nat, nextRoot: nat, epoch: nat,
                           dead: seq<Owned>, swept: seq<Id>, objects': Objects<T>, keptAlive': map<Id, nat>, epoch': nat)
    requires Sane(objects, roots, keptAlive, nextId, nextRoot, epoch) && After(objects, dead, swept, objects')
    requires forall id :: id in swept ==> id in objects && id !in roots.Values
    requires epoch <= epoch' <= epoch + 1
    requires forall id :: id in keptAlive' <==> id in keptAlive && id in objects' && keptAlive[id] != epoch
    requires forall id :: id in keptAlive' ==> keptAlive'[id] == keptAlive[id]
    ensures Sane(objects', roots, keptAlive', nextId, nextRoot, epoch') && |objects'| <= |objects|
  {
    hide After, Numbered;
    AfterNumbered(objects, dead, swept, objects', nextId);
    Fewer(objects, objects');
    forall r | r in roots ensures r < nextRoot && roots[r] in objects' {
      assert roots[r] in roots.Values;
    }
    forall id | id in keptAlive' ensures keptAlive'[id] < epoch && keptAlive'[id] <= epoch' {
      assert id in keptAlive;
    }
  }

  lemma AfterNumbered<T(!new)>(objects: Objects<T>, dead: seq<Owned>, swept: seq<Id>, objects': Objects<T>, nextId: nat)
    requires After(objects, dead, swept, objects')
    requires forall id :: id in objects ==> id < nextId && Numbered(objects[id].edges, objects[id].nextEdge)
    ensures forall id :: id in objects' <==> id in objects && id !in swept
    ensures forall id :: id in objects' ==> id < nextId && Numbered(objects'[id].edges, objects'[id].nextEdge)
  {
    hide ClearedFrom, Numbered;
    var cleared :| ClearedFrom(objects, dead, cleared) && objects' == cleared - Members(swept);
    ClearedSane(objects, dead, cleared, nextId);
    ClearedKeys(objects, dead, cleared);
  }

  /** Clears the listed edges, then removes the listed objects. */
  method ClearAndSweep<T(!new)>(objects: Objects<T>, weak: seq<Owned>, ephemerons: seq<Owned>, swept: seq<Id>)
      returns (left: Objects<T>, receipt: Receipt)
    requires (forall o :: o in weak ==> o.edge.Weak?) && forall o :: o in ephemerons ==> o.edge.Ephemeron?
    ensures After(objects, weak + ephemerons, swept, left) && receipt.swept == swept
    ensures Receipted(objects, weak, receipt.weak) && Receipted(objects, ephemerons, receipt.ephemerons)
    ensures |receipt.weak| <= |weak| && |receipt.ephemerons| <= |ephemerons|
  {
    hide ClearedFrom, Receipted;
    var once, clearedWeak := ClearEdges(objects, weak);
    var twice, clearedEphemerons := ClearEdges(once, ephemerons);
    ClearedBoth(objects, weak, once, ephemerons, twice);
    OtherKindPresent(objects, weak, once, ephemerons, clearedEphemerons);
    left := twice - Members(swept);
    receipt := Receipt(clearedWeak, clearedEphemerons, swept);
  }

  class ManagedArena<T(!new)> {
    var objects: Objects<T>
    var roots: map<nat, Id>
    var keptAlive: map<Id, nat>
    var nextId: nat
    var nextRoot: nat
    var epoch: nat
    const cap: nat

    ghost predicate Valid()
      reads this
    {
      && Sane(objects, roots, keptAlive, nextId, nextRoot, epoch)
      && |objects| <= cap
    }

    constructor (cap: nat)
      requires cap > 0
      ensures Valid() && objects == map[] && roots == map[] && keptAlive == map[] && this.cap == cap
      ensures nextId == 0 && nextRoot == 0 && epoch == 0
    {
      this.cap := cap;
      objects, roots, keptAlive, nextId, nextRoot, epoch := map[], map[], map[], 0, 0, 0;
    }

    /** Identities are never reused: a new object's is above every earlier one. */
    method Allocate(slot: Slot<T>) returns (r: Result<Id>)
      requires Valid() && Numbered(slot.edges, slot.nextEdge)
      modifies this
      ensures Valid() && roots == old(roots) && keptAlive == old(keptAlive) && nextRoot == old(nextRoot)
      ensures match r
              case Ok(id) => id == old(nextId) && id !in old(objects) && objects == old(objects)[id := slot] &&
                             nextId == id + 1 && epoch == old(epoch) + 1
              case Err(e) => e == CapacityExceeded(cap) && |objects| == cap &&
                             objects == old(objects) && nextId == old(nextId) && epoch == old(epoch)
      ensures r.Ok? <==> |old(objects)| < cap
    {
      if |objects| >= cap { return Err(CapacityExceeded(cap)); }
      var id := nextId;
      epoch := epoch + 1;
      objects := objects[id := slot];
      nextId := nextId + 1;
      r := Ok(id);
    }

    /** Replaces the object behind a live handle. */
    method Update(id: Id, slot: Slot<T>) returns (r: Result<()>)
      requires Valid() && Numbered(slot.edges, slot.nextEdge)
      modifies this
      ensures Valid() && roots == old(roots) && keptAlive == old(keptAlive) && nextRoot == old(nextRoot) && nextId == old(nextId)
      ensures r == if id in old(objects) then Ok(()) else Err(StaleHandle(id))
      ensures objects == if r.Ok? then old(objects)[id := slot] else old(objects)
      ensures epoch == if r.Ok? then old(epoch) + 1 else old(epoch)
    {
      if id !in objects { return Err(StaleHandle(id)); }
      epoch := epoch + 1;
      objects := objects[id := slot];
      assert objects.Keys == old(objects.Keys);
      assert |objects| == |objects.Keys| && old(|objects|) == |old(objects.Keys)|;
      r := Ok(());
    }

    /** Dereferences a weak handle; its object is kept for the current epoch. */
    method Upgrade(id: Id) returns (r: Result<Id>)
      requires Valid()
      modifies this`keptAlive
      ensures Valid()
      ensures r == if id in objects then Ok(id) else Err(StaleHandle(id))
      ensures keptAlive == if r.Ok? then old(keptAlive)[id := epoch] else old(keptAlive)
    {
      if id !in objects { return Err(StaleHandle(id)); }
      keptAlive := keptAlive[id := epoch];
      r := Ok(id);
    }

    method Root(id: Id) returns (r: Result<nat>)
      requires Valid()
      modifies this
      ensures Valid() && objects == old(objects) && keptAlive == old(keptAlive) && nextId == old(nextId)
      ensures match r
              case Ok(root) => id in objects && root == old(nextRoot) && root !in old(roots) && roots == old(roots)[root := id] &&
                               nextRoot == root + 1 && epoch == old(epoch) + 1
              case Err(e) => e == StaleHandle(id) && id !in objects &&
                             roots == old(roots) && nextRoot == old(nextRoot) && epoch == old(epoch)
    {
      if id !in objects { return Err(StaleHandle(id)); }
      var root := nextRoot;
      epoch := epoch + 1;
      roots := roots[root := id];
      nextRoot := nextRoot + 1;
      r := Ok(root);
    }

    method ReleaseRoot(root: nat, id: Id) returns (r: Result<Id>)
      requires Valid()
      modifies this
      ensures Valid() && objects == old(objects) && keptAlive == old(keptAlive) && nextId == old(nextId) && nextRoot == old(nextRoot)
      ensures r == if root in old(roots) && old(roots)[root] == id then Ok(id) else Err(StaleRoot(root))
      ensures roots == if r.Ok? then old(roots) - {root} else old(roots)
      ensures epoch == if r.Ok? then old(epoch) + 1 else old(epoch)
    {
      if root !in roots || roots[root] != id { return Err(StaleRoot(root)); }
      epoch := epoch + 1;
      roots := roots - {root};
      r := Ok(id);
    }

    /** Removes an unrooted object. */
    method Remove(id: Id) returns (r: Result<Slot<T>>)
      requires Valid()
      modifies this
      ensures Valid() && roots == old(roots) && keptAlive == old(keptAlive) && nextId == old(nextId) && nextRoot == old(nextRoot)
      ensures match r
              case Ok(slot) => id !in roots.Values && id in old(objects) && slot == old(objects)[id] &&
                               objects == old(objects) - {id} && epoch == old(epoch) + 1
              case Err(e) => objects == old(objects) && epoch == old(epoch) &&
                             e == if id in roots.Values then ObjectRooted(id) else StaleHandle(id)
      ensures r.Ok? <==> id !in roots.Values && id in old(objects)
    {
      if id in roots.Values { return Err(ObjectRooted(id)); }
      if id !in objects { return Err(StaleHandle(id)); }
      epoch := epoch + 1;
      r := Ok(objects[id]);
      objects := objects - {id};
      assert objects.Keys == old(objects.Keys) - {id};
      assert |objects| == |objects.Keys| && old(|objects|) == |old(objects.Keys)|;
    }

    function Kept(): (r: seq<Id>)
      reads this
    {
      KeptNow(keptAlive, epoch, nextId)
    }

    function Rooted(): (r: seq<Id>)
      reads this
    {
      RootTargets(roots, nextRoot)
    }

    /** The roots and the kept-alive objects, where marking starts. */
    function Entries(): (r: seq<Id>)
      reads this
    {
      Starts(roots, nextRoot, keptAlive, epoch, nextId)
    }

    lemma KeptExactly()
      requires Valid()
      ensures forall id: nat :: id in Kept() <==> id in keptAlive && keptAlive[id] == epoch
      ensures forall id :: id in Kept() ==> id in objects
    {
    }

    /** Marking starts from exactly the rooted objects and those kept alive now. */
    lemma EntriesExactly()
      requires Valid()
      ensures forall id: nat :: id in Entries() <==> id in roots.Values || (id in keptAlive && keptAlive[id] == epoch)
      ensures forall id :: id in Entries() ==> id in objects
    {
      hide Numbered;
      KeptExactly();
      forall id: nat ensures id in Rooted() <==> id in roots.Values {
        if id in roots.Values {
          var k :| k in roots && roots[k] == id;
        }
      }
    }

    /** Applies a plan made at `expected`: nothing changes on an error; otherwise the listed
        edges are cleared, then the listed objects go. */
    method ApplyCollection(expected: nat, weak: seq<Owned>, ephemerons: seq<Owned>, swept: seq<Id>) returns (r: Result<Receipt>)
      requires Valid()
      requires (forall o :: o in weak ==> o.edge.Weak?) && forall o :: o in ephemerons ==> o.edge.Ephemeron?
      modifies this
      ensures Valid() && roots == old(roots) && nextId == old(nextId) && nextRoot == old(nextRoot)
      ensures r.Err? ==> objects == old(objects) && keptAlive == old(keptAlive) && epoch == old(epoch)
      ensures old(Applicable(expected, swept)) ==> r.Ok?
      ensures r.Ok? ==> old(epoch) == expected && After(old(objects), weak + ephemerons, r.value.swept, objects)
      ensures r.Err? ==>
                if old(epoch) != expected then r.error == MutationEpochChanged(expected, old(epoch))
                else exists id :: id in swept && r.error == if id !in old(objects) then StaleHandle(id) else ObjectRooted(id)
      // the epoch stands still exactly if nothing was listed, and then nothing changed
      ensures r.Ok? ==> epoch == old(epoch) + if weak != [] || ephemerons != [] || r.value.swept != [] then 1 else 0
      ensures r.Ok? && epoch == old(epoch) ==> objects == old(objects)
      ensures r.Ok? ==> |r.value.weak| <= |weak| && |r.value.ephemerons| <= |ephemerons|
      ensures r.Ok? ==> r.value.swept == Unmarked(swept, Members(old(Kept())))
      ensures r.Ok? ==> Receipted(old(objects), weak, r.value.weak) && Receipted(old(objects), ephemerons, r.value.ephemerons)
      ensures r.Ok? ==> keptAlive == map id | id in old(keptAlive) && id in objects && old(keptAlive)[id] != expected :: old(keptAlive)[id]
    {
      hide ClearedFrom, Receipted, Unmarked, Ascending, Sane, After, Numbered;
      if epoch != expected { return Err(MutationEpochChanged(expected, epoch)); }
      var kept := Members(Kept());
      var actual := Unmarked(swept, kept);
      var refused := CheckSwept(objects, roots, actual);
      if refused.Some? { return Err(refused.value); }
      var left, receipt := ClearAndSweep(objects, weak, ephemerons, actual);
      var keptAlive' := map id | id in keptAlive && id in left && keptAlive[id] != expected :: keptAlive[id];
      var epoch' := if weak != [] || ephemerons != [] || actual != [] then epoch + 1 else epoch;
      AfterSane(objects, roots, keptAlive, nextId, nextRoot, epoch, weak + ephemerons, actual, left, keptAlive', epoch');
      if epoch' == epoch {
        assert weak + ephemerons == [];
        NothingChanged(objects, left);
      }
      epoch, objects, keptAlive := epoch', left, keptAlive';
      r := Ok(receipt);
    }

    /** The current epoch, and only live objects that are not rooted. */
    ghost predicate Applicable(expected: nat, swept: seq<Id>)
      reads this
    {
      epoch == expected && forall id :: id in swept ==> id in objects && id !in roots.Values
    }
  }
}

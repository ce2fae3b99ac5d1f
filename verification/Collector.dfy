/** Whole collections: plan without changing anything, then sweep, clear and hand the
    finalizers to their queue; or refuse and leave everything as it was. */
module Collector {
  import opened Collections
  import opened Tracing
  import opened Arena
  import opened Finalization
  import Jobs

  // ---------- what survives ----------

  ghost function DeadEdges(edges: seq<Edge>, marked: set<Id>): set<Edge> {
    set e | e in edges && Dead(e, marked)
  }

  /** Exactly the marked objects are left, each without its dead edges and otherwise as it
      was. */
  ghost predicate Survived<T>(objects: Objects<T>, marked: set<Id>, objects': Objects<T>) {
    && objects'.Keys == marked
    && forall id :: id in marked && id in objects ==>
         objects'[id] == objects[id].(edges := Keep(objects[id].edges, DeadEdges(objects[id].edges, marked)))
  }

  ghost predicate NoDangling<T>(objects: Objects<T>) {
    forall id, e :: id in objects && e in objects[id].edges ==> Targets(e) <= objects.Keys
  }

  lemma AfterSurvived<T(!new)>(objects: Objects<T>, start: set<Id>, plan: Plan, objects': Objects<T>)
    requires Faithful(HeapOf(objects), start, plan) && After(objects, plan.weak + plan.ephemerons, plan.swept, objects')
    ensures Survived(objects, plan.marked, objects')
  {
    hide Live, Degree, Keep, Increasing;
    var dead := plan.weak + plan.ephemerons;
    forall id | id in plan.marked ensures id in objects && GoneOf(dead, id) == DeadEdges(objects[id].edges, plan.marked) {
      assert id in HeapOf(objects);
      GoneExactly(objects, start, plan, id);
    }
  }

  lemma GoneExactly<T>(objects: Objects<T>, start: set<Id>, plan: Plan, id: Id)
    requires Faithful(HeapOf(objects), start, plan) && id in plan.marked && id in objects
    ensures GoneOf(plan.weak + plan.ephemerons, id) == DeadEdges(objects[id].edges, plan.marked)
  {
    hide Live, Degree, Increasing;
    var edges := objects[id].edges;
    assert Edges(HeapOf(objects), id) == edges;
    forall e ensures e in GoneOf(plan.weak + plan.ephemerons, id) <==> e in DeadEdges(edges, plan.marked) {
      if e in DeadEdges(edges, plan.marked) { assert Owned(id, e) in plan.weak + plan.ephemerons; }
    }
  }

  /** What is left points only to what is left. */
  lemma NothingDangles<T>(objects: Objects<T>, start: set<Id>, objects': Objects<T>)
    requires var live := Live(HeapOf(objects), start); live <= objects.Keys && Survived(objects, live, objects')
    ensures NoDangling(objects')
  {
    hide Live;
    var live := Live(HeapOf(objects), start);
    LiveClosed(HeapOf(objects), start);
    forall id, e | id in objects' && e in objects'[id].edges ensures Targets(e) <= objects'.Keys {
      assert e in objects[id].edges && !Dead(e, live);
      assert e in Edges(HeapOf(objects), id) && Retained(e, live);
    }
  }

  lemma {:induction false} UnmarkedSame(all: seq<Id>, marked: set<Id>)
    requires forall x :: x in marked ==> x !in all
    ensures Unmarked(all, marked) == all
    decreases |all|
  {
    if all != [] {
      var front, last := all[..|all| - 1], all[|all| - 1];
      assert all == front + [last];
      forall x | x in marked ensures x !in front { assert x !in all; }
      UnmarkedSame(front, marked);
    }
  }

  // ---------- finalizers ----------

  /** One finalizer admitted per record, in order. */
  function Enqueued(s: Jobs.State, records: seq<Record>): Jobs.State {
    if records == [] then s
    else
      var front, last := records[..|records| - 1], records[|records| - 1];
      Jobs.Admitted(Enqueued(s, front), Jobs.Finalization, Jobs.Finalize(last.registration, last.target))
  }

  lemma {:induction false} EnqueuedCount(s: Jobs.State, records: seq<Record>)
    ensures Enqueued(s, records).admitted == s.admitted + |records| && Enqueued(s, records).admission == s.admission
    decreases |records|
  {
    if records != [] { EnqueuedCount(s, records[..|records| - 1]); }
  }

  /** Room for all the records was checked before, so no admission fails. */
  method EnqueueAll(jobs: Jobs.JobQueues, records: seq<Record>)
    requires jobs.Valid() && |records| <= jobs.admission - jobs.admitted
    modifies jobs
    ensures jobs.Valid() && jobs.See() == Enqueued(old(jobs.See()), records) && Jobs.Later(old(jobs.See()), jobs.See())
  {
    hide Jobs.Inv, Jobs.Later;
    Jobs.LaterSame(jobs.See());
    for i := 0 to |records|
      invariant jobs.Valid() && jobs.See() == Enqueued(old(jobs.See()), records[..i]) && Jobs.Later(old(jobs.See()), jobs.See())
    {
      var record := records[i];
      assert records[..i + 1][..i] == records[..i];
      EnqueuedCount(old(jobs.See()), records[..i]);
      ghost var before := jobs.See();
      var admitted := jobs.Enqueue(Jobs.Finalization, Jobs.Finalize(record.registration, record.target));
      Jobs.LaterTransitive(old(jobs.See()), before, jobs.See());
    }
    assert records[..|records|] == records;
  }

  // ---------- collections ----------

  datatype Collection = Collection(epoch: nat, marked: set<Id>, edges: nat, work: nat, mutation: Receipt, records: seq<Record>)

  datatype Outcome = Collected(collection: Collection) | Failed(epoch: nat, refusal: Refusal)

  /** The collection did exactly what the heap called for. */
  ghost predicate Exact<T(!new)>(objects: Objects<T>, entries: seq<Id>, c: Collection, objects': Objects<T>) {
    var h, start := HeapOf(objects), Members(entries);
    && c.marked == Live(h, start) && c.marked <= objects.Keys
    && Survived(objects, c.marked, objects') && NoDangling(objects')
    && c.edges == Degree(h, c.marked) && |entries| + |objects| + c.edges <= c.work <= Needed(|entries|, |objects|, c.edges)
    && Increasing(c.mutation.swept) && (forall x :: x in c.mutation.swept <==> x in objects && x !in c.marked)
    && (forall p :: p in c.mutation.weak <==> exists o :: DeadIn(objects, c.marked, o) && o.edge.Weak? && p == (o.owner, o.edge.edge))
    && (forall p :: p in c.mutation.ephemerons <==>
          exists o :: DeadIn(objects, c.marked, o) && o.edge.Ephemeron? && p == (o.owner, o.edge.edge))
  }

  ghost predicate DeadIn<T>(objects: Objects<T>, marked: set<Id>, o: Owned) {
    o.owner in marked && Present(objects, o) && Dead(o.edge, marked)
  }

  ghost predicate Refusable<T>(objects: Objects<T>, entries: seq<Id>, limits: Limits, finalizers: nat, room: int, refusal: Refusal) {
    var h, start := HeapOf(objects), Members(entries);
    || (Justified(h, start, |entries|, limits, refusal) && StackJustified(h, entries, limits.stack, refusal))
    || (finalizers > limits.finalizers && refusal == Limit(FinalizerLimit, limits.finalizers, finalizers))
    || (0 <= room < finalizers && refusal == Limit(FinalizerLimit, room, finalizers))
  }

  /** What the collection took was within every limit. */
  ghost predicate WithinLimits<T>(objects: Objects<T>, entries: seq<Id>, c: Collection, limits: Limits, room: int) {
    && |objects| <= limits.objects && c.edges <= limits.edges && c.work <= limits.work
    && c.work >= |c.mutation.swept| && RanWithin(HeapOf(objects), entries, limits.stack, c.marked, c.work - |c.mutation.swept|)
    && |c.mutation.weak| + |c.mutation.ephemerons| <= limits.clears
    && |c.records| <= limits.finalizers && |c.records| <= room
  }

  predicate Touches(m: Receipt) {
    m.weak != [] || m.ephemerons != [] || m.swept != []
  }

  /** Nothing live is missing, the limits are as large as the heap calls for, and there is
      room for the finalizers. */
  ghost predicate Admissible<T>(objects: Objects<T>, entries: seq<Id>, limits: Limits, finalizers: nat, room: int) {
    && Ample(HeapOf(objects), Members(entries), |entries|, limits)
    && Live(HeapOf(objects), Members(entries)) <= objects.Keys
    && finalizers <= limits.finalizers && finalizers <= room
  }

  /** Dereferences of the collected epoch no longer keep anything alive. */
  ghost predicate KeptOn<T>(kept: map<Id, nat>, epoch: nat, objects': Objects<T>, kept': map<Id, nat>) {
    && (forall id :: id in kept' <==> id in kept && id in objects' && kept[id] != epoch)
    && forall id :: id in kept' ==> kept'[id] == kept[id]
  }

  /** The registrations a collection makes ready. */
  ghost function Due<T>(objects: Objects<T>, entries: seq<Id>, registry: Entries, next: nat): seq<Record> {
    Ready(registry, objects.Keys - Live(HeapOf(objects), Members(entries)), next)
  }

  method CollectWithFinalization<T(!new)>(arena: ManagedArena<T>, limits: Limits, registry: FinalizationRegistry, jobs: Jobs.JobQueues)
      returns (r: Outcome)
    requires arena.Valid() && registry.Valid() && jobs.Valid()
    modifies arena, registry, jobs
    ensures arena.Valid() && registry.Valid() && jobs.Valid()
    ensures arena.roots == old(arena.roots) && arena.nextId == old(arena.nextId) && arena.nextRoot == old(arena.nextRoot)
    ensures Later(old(registry.entries), registry.entries) && Jobs.Later(old(jobs.See()), jobs.See())
    ensures r.Failed? ==>
              && r.epoch == arena.epoch
              && arena.objects == old(arena.objects) && arena.keptAlive == old(arena.keptAlive) && arena.epoch == old(arena.epoch)
              && registry.entries == old(registry.entries) && registry.enqueued == old(registry.enqueued)
              && jobs.See() == old(jobs.See())
    ensures r.Failed? ==>
              Refusable(old(arena.objects), old(arena.Entries()), limits,
                        |Due(old(arena.objects), old(arena.Entries()), old(registry.entries), old(registry.next))|,
                        old(jobs.admission - jobs.admitted), r.refusal)
    // limits as large as the heap calls for are never refused
    ensures r.Failed? ==>
              !Admissible(old(arena.objects), old(arena.Entries()), limits,
                          |Due(old(arena.objects), old(arena.Entries()), old(registry.entries), old(registry.next))|,
                          old(jobs.admission - jobs.admitted))
    ensures r.Collected? ==> KeptOn(old(arena.keptAlive), old(arena.epoch), arena.objects, arena.keptAlive)
    ensures r.Collected? ==> arena.epoch == old(arena.epoch) + if Touches(r.collection.mutation) then 1 else 0
    ensures registry.next == old(registry.next)
    ensures r.Collected? ==> WithinLimits(old(arena.objects), old(arena.Entries()), r.collection, limits, old(jobs.admission - jobs.admitted))
    ensures r.Collected? ==>
              && r.collection.epoch == old(arena.epoch)
              && Exact(old(arena.objects), old(arena.Entries()), r.collection, arena.objects)
              && r.collection.records == Due(old(arena.objects), old(arena.Entries()), old(registry.entries), old(registry.next))
              && registry.enqueued == old(registry.enqueued) + Numbers(r.collection.records)
              && registry.entries == AdmittedAll(old(registry.entries), r.collection.records)
              && jobs.See() == Enqueued(old(jobs.See()), r.collection.records)
  {
    hide Live, Degree, Needed, Faithful, Justified, Survived, NoDangling, After, Receipted, Unmarked, Ascending, Ready, Sane,
      Jobs.Inv, Jobs.Later, Exact, Logged, Later, Enqueued, Admissible, RanWithin, StackJustified, Touches;
    Jobs.LaterSame(jobs.See());
    LaterSame(registry.entries);
    ghost var objects, entries := arena.objects, arena.Entries();
    var h, epoch := HeapOf(arena.objects), arena.epoch;
    var all := Ascending(arena.objects.Keys, arena.nextId);
    ObjectsListed(arena, all);
    ghost var start := Members(entries);
    ghost var due := Due(objects, entries, registry.entries, registry.next);
    ghost var room := jobs.RemainingAdmission();
    if Admissible(objects, entries, limits, |due|, room) { AmpleLimitsCollect(objects, entries, limits, |due|, room); }
    var planning := MakePlan(h, all, arena.Entries(), limits);
    if planning.Refused? {
      assert Refusable(objects, entries, limits, |due|, room, planning.refusal);
      return Failed(epoch, planning.refusal);
    }
    var plan := planning.plan;
    PlanSwept(objects, start, plan);
    var records := Ready(registry.entries, Members(plan.swept), registry.next);
    if |records| > limits.finalizers { return Failed(epoch, Limit(FinalizerLimit, limits.finalizers, |records|)); }
    if |records| > jobs.RemainingAdmission() { return Failed(epoch, Limit(FinalizerLimit, jobs.RemainingAdmission(), |records|)); }
    ObjectCount(objects);
    hide WithinLimits, Refusable;
    var collection := CarryOut(arena, plan, records);
    PlanWithin(objects, entries, plan, collection, limits, room);
    EnqueueAll(jobs, records);
    registry.MarkAdmitted(records, Members(plan.swept));
    r := Collected(collection);
  }

  lemma ObjectCount<T>(objects: Objects<T>)
    ensures |HeapOf(objects)| == |objects|
  {
    assert HeapOf(objects).Keys == objects.Keys;
    assert |HeapOf(objects)| == |HeapOf(objects).Keys| && |objects| == |objects.Keys|;
  }

  lemma PlanWithin<T>(objects: Objects<T>, entries: seq<Id>, plan: Plan, c: Collection, limits: Limits, room: int)
    requires |objects| <= limits.objects && plan.edges <= limits.edges && plan.work <= limits.work && |plan.swept| <= plan.work
    requires RanWithin(HeapOf(objects), entries, limits.stack, plan.marked, plan.work - |plan.swept|)
    requires |plan.weak| + |plan.ephemerons| <= limits.clears && |c.records| <= limits.finalizers && |c.records| <= room
    requires c.marked == plan.marked && c.edges == plan.edges && c.work == plan.work && c.mutation.swept == plan.swept
    requires |c.mutation.weak| <= |plan.weak| && |c.mutation.ephemerons| <= |plan.ephemerons|
    ensures WithinLimits(objects, entries, c, limits, room)
  {
    hide RanWithin;
  }

  /** Applies a faithful plan, which cannot fail. */
  method CarryOut<T(!new)>(arena: ManagedArena<T>, plan: Plan, records: seq<Record>) returns (c: Collection)
    requires arena.Valid() && Faithful(HeapOf(arena.objects), Members(arena.Entries()), plan)
    requires var n := |HeapOf(arena.objects)|;
      |arena.Entries()| + n + plan.edges <= plan.work <= Needed(|arena.Entries()|, n, plan.edges)
    modifies arena
    ensures arena.Valid() && arena.roots == old(arena.roots) && arena.nextId == old(arena.nextId) && arena.nextRoot == old(arena.nextRoot)
    ensures Exact(old(arena.objects), old(arena.Entries()), c, arena.objects) && c.epoch == old(arena.epoch) && c.records == records
    ensures c.edges == plan.edges && c.work == plan.work
    ensures KeptOn(old(arena.keptAlive), old(arena.epoch), arena.objects, arena.keptAlive)
    ensures arena.epoch == old(arena.epoch) + if Touches(c.mutation) then 1 else 0
    ensures c.marked == plan.marked && c.mutation.swept == plan.swept && |c.mutation.weak| <= |plan.weak| && |c.mutation.ephemerons| <= |plan.ephemerons|
  {
    hide Live, Degree, Needed, Faithful, Survived, NoDangling, After, Receipted, Unmarked, Ascending, Sane, Exact;
    ghost var objects, entries := arena.objects, arena.Entries();
    PlanSwept(objects, Members(entries), plan);
    PlanApplies(arena, Members(entries), plan);
    var epoch := arena.epoch;
    var applied := arena.ApplyCollection(epoch, plan.weak, plan.ephemerons, plan.swept);
    c := Collection(epoch, plan.marked, plan.edges, plan.work, applied.value, records);
    PlanExact(objects, entries, plan, c, arena.objects);
    SomethingReceipted(objects, Members(entries), plan, c.mutation);
  }

  /** Every edge a plan lists is there, so whatever it lists shows up in the receipt. */
  lemma SomethingReceipted<T>(objects: Objects<T>, start: set<Id>, plan: Plan, m: Receipt)
    requires Faithful(HeapOf(objects), start, plan) && Receipted(objects, plan.weak, m.weak) && Receipted(objects, plan.ephemerons, m.ephemerons)
    requires |m.weak| <= |plan.weak| && |m.ephemerons| <= |plan.ephemerons|
    ensures (m.weak == [] <==> plan.weak == []) && (m.ephemerons == [] <==> plan.ephemerons == [])
  {
    hide Live, Degree, Increasing;
    assert forall id :: id in objects ==> Edges(HeapOf(objects), id) == objects[id].edges;
    ReceiptEmpty(objects, plan.weak, m.weak);
    ReceiptEmpty(objects, plan.ephemerons, m.ephemerons);
  }

  lemma ReceiptEmpty<T>(objects: Objects<T>, dead: seq<Owned>, cleared: seq<(Id, nat)>)
    requires Receipted(objects, dead, cleared) && |cleared| <= |dead| && forall o :: o in dead ==> Present(objects, o)
    ensures cleared == [] <==> dead == []
  {
    if dead != [] {
      assert dead[0] in dead && Present(objects, dead[0]);
      assert (dead[0].owner, dead[0].edge.edge) in cleared;
    }
  }

  lemma LaterSame(entries: Entries)
    ensures Later(entries, entries)
  {
  }

  lemma ObjectsListed<T(!new)>(arena: ManagedArena<T>, all: seq<Id>)
    requires arena.Valid() && all == Ascending(arena.objects.Keys, arena.nextId)
    ensures |HeapOf(arena.objects)| == |arena.objects|
    ensures Increasing(all) && |all| == |HeapOf(arena.objects)| && forall x :: x in all <==> x in HeapOf(arena.objects)
  {
    AscendingOrdered(arena.objects.Keys, arena.nextId);
    AscendingCount(arena.objects.Keys, arena.nextId);
    var h := HeapOf(arena.objects);
    assert h.Keys == arena.objects.Keys;
    assert |h| == |h.Keys| && |arena.objects| == |arena.objects.Keys|;
  }

  lemma PlanSwept<T>(objects: Objects<T>, start: set<Id>, plan: Plan)
    requires Faithful(HeapOf(objects), start, plan)
    ensures Members(plan.swept) == objects.Keys - Live(HeapOf(objects), start)
    ensures (forall o :: o in plan.weak ==> o.edge.Weak?) && forall o :: o in plan.ephemerons ==> o.edge.Ephemeron?
  {
    hide Live, Degree;
  }

  /** Nothing the plan sweeps is rooted or kept alive. */
  lemma PlanApplies<T(!new)>(arena: ManagedArena<T>, start: set<Id>, plan: Plan)
    requires arena.Valid() && start == Members(arena.Entries()) && Faithful(HeapOf(arena.objects), start, plan)
    ensures arena.Applicable(arena.epoch, plan.swept)
    ensures Unmarked(plan.swept, Members(arena.Kept())) == plan.swept
  {
    hide Live, Degree, Increasing;
    LiveClosed(HeapOf(arena.objects), start);
    forall id | id in plan.swept ensures id in arena.objects && id !in arena.roots.Values && id !in arena.Kept() {
      assert id !in start;
    }
    UnmarkedSame(plan.swept, Members(arena.Kept()));
  }

  lemma PlanExact<T(!new)>(objects: Objects<T>, entries: seq<Id>, plan: Plan, c: Collection, objects': Objects<T>)
    requires Faithful(HeapOf(objects), Members(entries), plan)
    requires After(objects, plan.weak + plan.ephemerons, plan.swept, objects') && c.mutation.swept == plan.swept
    requires Receipted(objects, plan.weak, c.mutation.weak) && Receipted(objects, plan.ephemerons, c.mutation.ephemerons)
    requires c.marked == plan.marked && c.edges == plan.edges && c.work == plan.work
    requires |entries| + |HeapOf(objects)| + plan.edges <= plan.work <= Needed(|entries|, |HeapOf(objects)|, plan.edges)
    ensures Exact(objects, entries, c, objects')
  {
    hide Live, Degree, Needed, Survived, NoDangling, After, Increasing;
    var h, start := HeapOf(objects), Members(entries);
    assert h.Keys == objects.Keys && |h| == |h.Keys| && |objects| == |objects.Keys|;
    AfterSurvived(objects, start, plan, objects');
    NothingDangles(objects, start, objects');
    PlanDead(objects, start, plan);
  }

  lemma PlanDead<T>(objects: Objects<T>, start: set<Id>, plan: Plan)
    requires Faithful(HeapOf(objects), start, plan)
    ensures forall o :: o in plan.weak && Present(objects, o) <==> DeadIn(objects, plan.marked, o) && o.edge.Weak?
    ensures forall o :: o in plan.ephemerons && Present(objects, o) <==> DeadIn(objects, plan.marked, o) && o.edge.Ephemeron?
  {
    hide Live, Degree, Increasing;
    assert forall id :: id in objects ==> Edges(HeapOf(objects), id) == objects[id].edges;
  }

  /** A collection without registrations needs no queue. */
  method Collect<T(!new)>(arena: ManagedArena<T>, limits: Limits) returns (r: Outcome)
    requires arena.Valid()
    modifies arena
    ensures arena.Valid()
    ensures arena.roots == old(arena.roots) && arena.nextId == old(arena.nextId) && arena.nextRoot == old(arena.nextRoot)
    ensures r.Failed? ==>
              && r.epoch == arena.epoch
              && arena.objects == old(arena.objects) && arena.keptAlive == old(arena.keptAlive) && arena.epoch == old(arena.epoch)
              && Justified(HeapOf(arena.objects), Members(old(arena.Entries())), |old(arena.Entries())|, limits, r.refusal)
    ensures r.Collected? ==> KeptOn(old(arena.keptAlive), old(arena.epoch), arena.objects, arena.keptAlive)
    ensures r.Collected? ==> r.collection.epoch == old(arena.epoch) && r.collection.records == [] && Exact(old(arena.objects), old(arena.Entries()), r.collection, arena.objects)
    ensures r.Collected? ==> WithinLimits(old(arena.objects), old(arena.Entries()), r.collection, limits, 0)
  {
    hide Exact, Justified, Live, Degree, Sane, Jobs.Inv, Jobs.Later, Logged, Later, RanWithin, StackJustified;
    var registry := new FinalizationRegistry();
    var jobs := new Jobs.JobQueues(0);
    ghost var entries := arena.Entries();
    NothingReady(arena.objects.Keys - Live(HeapOf(arena.objects), Members(entries)), 0);
    r := CollectWithFinalization(arena, limits, registry, jobs);
  }

  /** An admissible collection is never refused. */
  lemma AmpleLimitsCollect<T>(objects: Objects<T>, entries: seq<Id>, limits: Limits, finalizers: nat, room: nat)
    requires Admissible(objects, entries, limits, finalizers, room)
    ensures forall refusal :: !Refusable(objects, entries, limits, finalizers, room, refusal)
  {
    hide Live, Ample, Justified;
    assert HeapOf(objects).Keys == objects.Keys;
    forall refusal ensures !Refusable(objects, entries, limits, finalizers, room, refusal) {
      NeverRefused(HeapOf(objects), Members(entries), |entries|, limits, refusal);
    }
  }
}

/** Whole runs of an arena with its finalization registry and job queues. */
module HeapSessions {
  import opened Collections
  import opened Tracing
  import opened Finalization
  import opened Collector
  import Arena
  import Jobs

  datatype Operation<T> =
    | Allocate(slot: Arena.Slot<T>)
    | Write(id: Id, slot: Arena.Slot<T>)
    | Root(id: Id)
    | Release(root: nat, id: Id)
    | Remove(id: Id)
    | Upgrade(id: Id)
    | Register(id: Id)
    | Cancel(registration: nat)
    | Collect(limits: Limits)
    | Enqueue(class_: Jobs.JobClass, job: Jobs.Job)
    | CancelJob(job_: nat)
    | Drain(class_: Jobs.JobClass, work: nat)

  /** What the caller sees of an operation: its result. An object whose edges are not
      numbered is never handed to the arena. */
  datatype Event<T> =
    | Skipped
    | Allocated(allocated_: Arena.Result<Id>)
    | Written(written: Arena.Result<()>)
    | Rooted(rooted: Arena.Result<nat>)
    | Released(released: Arena.Result<Id>)
    | Removed(removed: Arena.Result<Arena.Slot<T>>)
    | Upgraded(upgraded: Arena.Result<Id>)
    | Enrolled(registration: nat)
    | Withdrawn(done: bool)
    | Swept(outcome: Outcome)
    | Admission(answer: Option<nat>)
    | Noted
    | Drained(drained: Jobs.Drained)

  /** Everything the operations work on: the arena, the registrations and the queues. */
  datatype World<T> = World(
    objects: Arena.Objects<T>, roots: map<nat, Id>, keptAlive: map<Id, nat>, nextId: nat, nextRoot: nat, epoch: nat, cap: nat,
    registrations: Entries, nextRegistration: nat, jobs: Jobs.State)

  /** Where a collection starts marking. */
  function Starts<T>(w: World<T>): seq<Id> {
    Arena.Starts(w.roots, w.nextRoot, w.keptAlive, w.epoch, w.nextId)
  }

  /** The registrations a collection now would hand over. */
  ghost function Ripe<T>(w: World<T>): seq<Record> {
    Due(w.objects, Starts(w), w.registrations, w.nextRegistration)
  }

  // ---------- one operation ----------

  /** What every operation but a collection makes of the world. */
  ghost function Effect<T>(w: World<T>, op: Operation<T>): (World<T>, Event<T>)
    requires Jobs.Inv(w.jobs) && !op.Collect?
  {
    match op
    case Allocate(slot) =>
      if !Arena.Numbered(slot.edges, slot.nextEdge) then (w, Skipped)
      else if |w.objects| >= w.cap then (w, Allocated(Arena.Err(Arena.CapacityExceeded(w.cap))))
      else (w.(objects := w.objects[w.nextId := slot], nextId := w.nextId + 1, epoch := w.epoch + 1), Allocated(Arena.Ok(w.nextId)))
    case Write(id, slot) =>
      if !Arena.Numbered(slot.edges, slot.nextEdge) then (w, Skipped)
      else if id !in w.objects then (w, Written(Arena.Err(Arena.StaleHandle(id))))
      else (w.(objects := w.objects[id := slot], epoch := w.epoch + 1), Written(Arena.Ok(())))
    case Root(id) =>
      if id !in w.objects then (w, Rooted(Arena.Err(Arena.StaleHandle(id))))
      else (w.(roots := w.roots[w.nextRoot := id], nextRoot := w.nextRoot + 1, epoch := w.epoch + 1), Rooted(Arena.Ok(w.nextRoot)))
    case Release(root, id) =>
      if root in w.roots && w.roots[root] == id
      then (w.(roots := w.roots - {root}, epoch := w.epoch + 1), Released(Arena.Ok(id)))
      else (w, Released(Arena.Err(Arena.StaleRoot(root))))
    case Remove(id) =>
      if id in w.roots.Values then (w, Removed(Arena.Err(Arena.ObjectRooted(id))))
      else if id !in w.objects then (w, Removed(Arena.Err(Arena.StaleHandle(id))))
      else (w.(objects := w.objects - {id}, epoch := w.epoch + 1), Removed(Arena.Ok(w.objects[id])))
    case Upgrade(id) =>
      if id in w.objects then (w.(keptAlive := w.keptAlive[id := w.epoch]), Upgraded(Arena.Ok(id)))
      else (w, Upgraded(Arena.Err(Arena.StaleHandle(id))))
    case Register(id) =>
      (w.(registrations := w.registrations[w.nextRegistration := Registration(id, Stage.Registered)],
          nextRegistration := w.nextRegistration + 1),
       Enrolled(w.nextRegistration))
    case Cancel(k) =>
      if k in w.registrations && w.registrations[k].stage == Stage.Registered
      then (w.(registrations := w.registrations[k := w.registrations[k].(stage := Stage.Cancelled)]), Withdrawn(true))
      else (w, Withdrawn(false))
    case Enqueue(c, job) => (w.(jobs := Jobs.AdmittedIfRoom(w.jobs, c, job)), Admission(Jobs.AdmissionAnswer(w.jobs)))
    case CancelJob(id) => (w.(jobs := Jobs.CancelledIn(w.jobs, id)), Noted)
    case Drain(c, work) =>
      var taken := Jobs.Select(w.jobs, c, work);
      (w.(jobs := taken.0), Drained(Jobs.Drained(taken.1, Jobs.Queue(taken.0, c) != [])))
  }

  /** A collection is refused for a reason and leaves everything as it was, or sweeps exactly
      what is not live, clears exactly the dead edges, and hands over exactly the waiting
      registrations of what it swept, one queued finalizer each. */
  ghost predicate CollectStep<T(!new)>(w: World<T>, limits: Limits, outcome: Outcome, w': World<T>) {
    match outcome
    case Failed(epoch, refusal) =>
      && w' == w && epoch == w.epoch
      && Refusable(w.objects, Starts(w), limits, |Ripe(w)|, w.jobs.admission - w.jobs.admitted, refusal)
      && !Admissible(w.objects, Starts(w), limits, |Ripe(w)|, w.jobs.admission - w.jobs.admitted)
    case Collected(c) =>
      && c.epoch == w.epoch && Exact(w.objects, Starts(w), c, w'.objects) && c.records == Ripe(w)
      && w'.registrations == AdmittedAll(w.registrations, c.records) && w'.jobs == Enqueued(w.jobs, c.records)
      && KeptOn(w.keptAlive, w.epoch, w'.objects, w'.keptAlive)
      && WithinLimits(w.objects, Starts(w), c, limits, w.jobs.admission - w.jobs.admitted)
      && w'.epoch == w.epoch + (if Touches(c.mutation) then 1 else 0)
      && w' == w.(objects := w'.objects, keptAlive := w'.keptAlive, epoch := w'.epoch, registrations := w'.registrations, jobs := w'.jobs)
  }

  /** Registrations are numbered from zero. */
  ghost predicate Counted<T>(w: World<T>) {
    forall k: nat :: k in w.registrations <==> k < w.nextRegistration
  }

  lemma RegistryCounted<T(!new)>(arena: Arena.ManagedArena<T>, registry: FinalizationRegistry, jobs: Jobs.JobQueues)
    requires registry.Valid()
    ensures Counted(See(arena, registry, jobs))
  {
  }

  ghost predicate Step<T(!new)>(w: World<T>, op: Operation<T>, event: Event<T>, w': World<T>) {
    && Jobs.Inv(w.jobs) && Counted(w)
    && if op.Collect? then event.Swept? && CollectStep(w, op.limits, event.outcome, w') else (w', event) == Effect(w, op)
  }

  ghost function See<T(!new)>(arena: Arena.ManagedArena<T>, registry: FinalizationRegistry, jobs: Jobs.JobQueues): World<T>
    reads arena, registry, jobs
  {
    World(arena.objects, arena.roots, arena.keptAlive, arena.nextId, arena.nextRoot, arena.epoch, arena.cap,
          registry.entries, registry.next, jobs.See())
  }

  predicate OnArena<T>(op: Operation<T>) {
    op.Allocate? || op.Write? || op.Root? || op.Release? || op.Remove? || op.Upgrade?
  }

  method AttemptOnArena<T(!new)>(arena: Arena.ManagedArena<T>, ghost registry: FinalizationRegistry, ghost jobs: Jobs.JobQueues, op: Operation<T>)
      returns (event: Event<T>)
    requires arena.Valid() && registry.Valid() && jobs.Valid() && OnArena(op)
    modifies arena
    ensures arena.Valid()
    ensures Step(old(See(arena, registry, jobs)), op, event, See(arena, registry, jobs)) && Handed(event) == []
  {
    hide Arena.Sane, Jobs.Inv, Arena.Numbered, Counted, Logged;
    RegistryCounted(arena, registry, jobs);
    match op
    case Allocate(slot) =>
      if !Arena.Numbered(slot.edges, slot.nextEdge) { return Skipped; }
      WithinCap(arena);
      var r := arena.Allocate(slot);
      event := Allocated(r);
    case Write(id, slot) =>
      if !Arena.Numbered(slot.edges, slot.nextEdge) { return Skipped; }
      var r := arena.Update(id, slot);
      event := Written(r);
    case Root(id) =>
      var r := arena.Root(id);
      event := Rooted(r);
    case Release(root, id) =>
      var r := arena.ReleaseRoot(root, id);
      event := Released(r);
    case Remove(id) =>
      var r := arena.Remove(id);
      event := Removed(r);
    case Upgrade(id) =>
      var r := arena.Upgrade(id);
      event := Upgraded(r);
  }

  method Attempt<T(!new)>(arena: Arena.ManagedArena<T>, registry: FinalizationRegistry, jobs: Jobs.JobQueues, op: Operation<T>)
      returns (event: Event<T>)
    requires arena.Valid() && registry.Valid() && jobs.Valid()
    modifies arena, registry, jobs
    ensures arena.Valid() && registry.Valid() && jobs.Valid()
    ensures Step(old(See(arena, registry, jobs)), op, event, See(arena, registry, jobs))
    ensures Later(old(registry.entries), registry.entries) && Jobs.Later(old(jobs.See()), jobs.See())
    ensures registry.enqueued == old(registry.enqueued) + Handed(event)
  {
    hide Arena.Sane, Jobs.Inv, Jobs.Later, Logged, Later, Exact, Refusable, WithinLimits, Admissible, KeptOn, Ready, Enqueued, Jobs.Select, Counted;
    Jobs.LaterSame(jobs.See());
    LaterSame(registry.entries);
    RegistryCounted(arena, registry, jobs);
    if OnArena(op) { event := AttemptOnArena(arena, registry, jobs, op); return; }
    match op
    case Register(id) =>
      var k := registry.Register(id);
      event := Enrolled(k);
    case Cancel(k) =>
      var done := registry.Cancel(k);
      event := Withdrawn(done);
    case Collect(limits) =>
      var r := CollectWithFinalization(arena, limits, registry, jobs);
      event := Swept(r);
    case Enqueue(c, job) =>
      var id := jobs.Enqueue(c, job);
      event := Admission(id);
    case CancelJob(id) =>
      jobs.CancelJob(id);
      event := Noted;
    case Drain(c, work) =>
      var drained := jobs.Drain(c, work);
      event := Drained(drained);
  }

  lemma WithinCap<T(!new)>(arena: Arena.ManagedArena<T>)
    requires arena.Valid()
    ensures |arena.objects| <= arena.cap
  {
  }

  /** The registrations an operation handed over. */
  function Handed<T>(event: Event<T>): seq<nat> {
    if event.Swept? && event.outcome.Collected? then Numbers(event.outcome.collection.records) else []
  }

  // ---------- runs ----------

  /** A run of a script: the world before each operation and after the last. */
  ghost predicate Ran<T(!new)>(script: seq<Operation<T>>, events: seq<Event<T>>, worlds: seq<World<T>>) {
    && |events| == |script| && |worlds| == |script| + 1
    && (forall i :: 0 <= i < |script| ==> Step(worlds[i], script[i], events[i], worlds[i + 1]))
    && (forall i :: 0 <= i < |script| ==> Later(worlds[i].registrations, worlds[i + 1].registrations))
  }

  lemma RanMore<T(!new)>(script: seq<Operation<T>>, events: seq<Event<T>>, worlds: seq<World<T>>, op: Operation<T>, event: Event<T>, w: World<T>)
    requires Ran(script, events, worlds) && Step(worlds[|script|], op, event, w) && Later(worlds[|script|].registrations, w.registrations)
    ensures Ran(script + [op], events + [event], worlds + [w])
    ensures AllHanded(events + [event]) == AllHanded(events) + Handed(event)
  {
    hide Step, Later;
    assert (events + [event])[..|events|] == events;
  }

  /** The registrations handed over in a run, in order. */
  function AllHanded<T>(events: seq<Event<T>>): seq<nat> {
    if events == [] then [] else AllHanded(events[..|events| - 1]) + Handed(events[|events| - 1])
  }

  /** Any run, in any order of operations. */
  method Session<T(!new)>(arena: Arena.ManagedArena<T>, registry: FinalizationRegistry, jobs: Jobs.JobQueues, script: seq<Operation<T>>)
      returns (events: seq<Event<T>>, ghost worlds: seq<World<T>>)
    requires arena.Valid() && registry.Valid() && jobs.Valid()
    modifies arena, registry, jobs
    ensures arena.Valid() && registry.Valid() && jobs.Valid() && Jobs.Later(old(jobs.See()), jobs.See())
    ensures Ran(script, events, worlds)
    ensures worlds[0] == old(See(arena, registry, jobs)) && worlds[|script|] == See(arena, registry, jobs)
    ensures registry.enqueued == old(registry.enqueued) + AllHanded(events)
  {
    hide Arena.Sane, Jobs.Inv, Jobs.Later, Logged, Later, Step, AllHanded, See, Handed;
    Jobs.LaterSame(jobs.See());
    events, worlds := [], [See(arena, registry, jobs)];
    assert AllHanded<T>([]) == [] by { NothingHanded<T>(); }
    for i := 0 to |script|
      invariant arena.Valid() && registry.Valid() && jobs.Valid() && Jobs.Later(old(jobs.See()), jobs.See())
      invariant Ran(script[..i], events, worlds) && worlds[0] == old(See(arena, registry, jobs)) && worlds[i] == See(arena, registry, jobs)
      invariant registry.enqueued == old(registry.enqueued) + AllHanded(events)
    {
      hide Ran;
      ghost var before, table, w := jobs.See(), registry.entries, See(arena, registry, jobs);
      SeesTable(arena, registry, jobs);
      var event := Attempt(arena, registry, jobs, script[i]);
      SeesTable(arena, registry, jobs);
      Jobs.LaterTransitive(old(jobs.See()), before, jobs.See());
      assert script[..i + 1] == script[..i] + [script[i]];
      RanLength(script[..i], events, worlds);
      RanMore(script[..i], events, worlds, script[i], event, See(arena, registry, jobs));
      events, worlds := events + [event], worlds + [See(arena, registry, jobs)];
    }
    assert script[..|script|] == script;
  }

  lemma SeesTable<T(!new)>(arena: Arena.ManagedArena<T>, registry: FinalizationRegistry, jobs: Jobs.JobQueues)
    ensures See(arena, registry, jobs).registrations == registry.entries
  {
  }

  lemma RanLength<T(!new)>(script: seq<Operation<T>>, events: seq<Event<T>>, worlds: seq<World<T>>)
    requires Ran(script, events, worlds)
    ensures |events| == |script| && |worlds| == |script| + 1
  {
  }

  lemma NothingHanded<T>()
    ensures AllHanded<T>([]) == []
  {
  }

  lemma {:induction false} LaterAcross<T(!new)>(script: seq<Operation<T>>, events: seq<Event<T>>, worlds: seq<World<T>>, i: nat, j: nat)
    requires Ran(script, events, worlds) && i <= j <= |script|
    ensures Later(worlds[i].registrations, worlds[j].registrations)
    decreases j
  {
    hide Later, Step;
    if i == j {
      LaterSame(worlds[i].registrations);
    } else {
      LaterAcross(script, events, worlds, i, j - 1);
      assert Later(worlds[j - 1].registrations, worlds[j - 1 + 1].registrations);
      LaterTransitive(worlds[i].registrations, worlds[j - 1].registrations, worlds[j].registrations);
    }
  }

  // ---------- exactly once, exactly then ----------

  /** In any run, a registration that waits when a collection comes to a target that is
      there: the target goes in that collection if and only if that very collection hands
      the registration over, and then a finalizer for it is newly queued. */
  lemma HandedWithTheSweep<T(!new)>(script: seq<Operation<T>>, events: seq<Event<T>>, worlds: seq<World<T>>, i: nat, k: nat)
    requires Ran(script, events, worlds) && i < |script| && script[i].Collect?
    requires k in worlds[i].registrations && worlds[i].registrations[k].stage == Stage.Registered
    requires worlds[i].registrations[k].target in worlds[i].objects
    ensures worlds[i].registrations[k].target !in worlds[i + 1].objects <==> k in Handed(events[i])
    ensures k in Handed(events[i]) ==> FinalizerQueued(worlds[i], worlds[i + 1], k, worlds[i].registrations[k].target)
  {
    hide Step, Later, CollectStep;
    assert Step(worlds[i], script[i], events[i], worlds[i + 1]);
    HandedThen(worlds[i], script[i], events[i], worlds[i + 1], k);
  }

  /** A job that was not there before and tells the outside about this registration. */
  ghost predicate FinalizerQueued<T>(w: World<T>, w': World<T>, k: nat, target: Id) {
    exists id :: id >= w.jobs.nextId && id in w'.jobs.jobs && w'.jobs.jobs[id] == Jobs.Finalize(k, target) &&
      id in w'.jobs.home && w'.jobs.home[id] == Jobs.Finalization
  }

  lemma HandedThen<T(!new)>(w: World<T>, op: Operation<T>, event: Event<T>, w': World<T>, k: nat)
    requires Step(w, op, event, w') && op.Collect?
    requires k in w.registrations && w.registrations[k].stage == Stage.Registered && w.registrations[k].target in w.objects
    ensures w.registrations[k].target !in w'.objects <==> k in Handed(event)
    ensures k in Handed(event) ==> FinalizerQueued(w, w', k, w.registrations[k].target)
  {
    hide Ready, Live, Degree, NoDangling, Refusable, WithinLimits, Admissible, KeptOn, Needed, Increasing, Enqueued, Jobs.Inv;
    if event.outcome.Collected? {
      var live := Live(Arena.HeapOf(w.objects), Members(Starts(w)));
      ReadyNumbers(w.registrations, w.objects.Keys - live, w.nextRegistration, k);
      if w.registrations[k].target !in w'.objects {
        var records := event.outcome.collection.records;
        assert Record(k, w.registrations[k].target) in records;
        var i :| 0 <= i < |records| && records[i] == Record(k, w.registrations[k].target);
        FinalizerAt(w.jobs, records, i);
      }
    }
  }

  /** The finalizers take the next identities, in the order of the records. */
  lemma {:induction false} FinalizerAt(s: Jobs.State, records: seq<Record>, i: nat)
    requires i < |records|
    ensures var s', id := Enqueued(s, records), s.nextId + i;
      && s'.nextId == s.nextId + |records|
      && id in s'.jobs && s'.jobs[id] == Jobs.Finalize(records[i].registration, records[i].target)
      && id in s'.home && s'.home[id] == Jobs.Finalization
    decreases |records|
  {
    var front := records[..|records| - 1];
    if front != [] { FinalizerAt(s, front, if i < |front| then i else 0); }
  }

  /** Over a whole run no registration is handed over by two collections, and none after it
      was cancelled. */
  lemma HandedOnce<T(!new)>(script: seq<Operation<T>>, events: seq<Event<T>>, worlds: seq<World<T>>, i: nat, j: nat, k: nat)
    requires Ran(script, events, worlds) && i < j < |script|
    requires (script[i] == Cancel(k) && events[i] == Withdrawn(true)) || k in Handed(events[i])
    ensures k !in Handed(events[j])
  {
    hide Later, Exact, Refusable, WithinLimits, Admissible, KeptOn, Ready, Enqueued, Jobs.Inv, Live;
    assert Step(worlds[i], script[i], events[i], worlds[i + 1]) && Step(worlds[j], script[j], events[j], worlds[j + 1]);
    LaterAcross(script, events, worlds, i + 1, j);
    HandedSettles(worlds[i], script[i], events[i], worlds[i + 1], k);
    HandedWaits(worlds[j], script[j], events[j], worlds[j + 1], k);
    SettledStays(worlds[i + 1].registrations, worlds[j].registrations, k);
  }

  /** What is cancelled or handed over no longer waits. */
  lemma HandedSettles<T(!new)>(w: World<T>, op: Operation<T>, event: Event<T>, w': World<T>, k: nat)
    requires Step(w, op, event, w')
    requires (op == Cancel(k) && event == Withdrawn(true)) || k in Handed(event)
    ensures k in w'.registrations && w'.registrations[k].stage != Stage.Registered
  {
    hide Exact, Refusable, WithinLimits, Admissible, KeptOn, Ready, Enqueued, Jobs.Inv, Live, Jobs.Select;
    if k in Handed(event) { HandedWaits(w, op, event, w', k); }
  }

  /** Only what waits is handed over. */
  lemma HandedWaits<T(!new)>(w: World<T>, op: Operation<T>, event: Event<T>, w': World<T>, k: nat)
    requires Step(w, op, event, w')
    ensures k in Handed(event) ==> k in w.registrations && w.registrations[k].stage == Stage.Registered
  {
    hide Exact, Refusable, WithinLimits, Admissible, KeptOn, Ready, Enqueued, Jobs.Inv, Live, Jobs.Select;
    if k in Handed(event) {
      ReadyNumbers(w.registrations, w.objects.Keys - Live(Arena.HeapOf(w.objects), Members(Starts(w))), w.nextRegistration, k);
    }
  }

  lemma SettledStays(a: Entries, b: Entries, k: nat)
    requires Later(a, b) && k in a && a[k].stage != Stage.Registered
    ensures k in b && b[k].stage != Stage.Registered
  {
  }
}

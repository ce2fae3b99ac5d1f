/** Whole sessions: any sequence of engine operations in any order. */
module Sessions {
  import opened Collections
  import opened Queries
  import opened Memo
  import opened Runs
  import opened Causes
  import opened Engine

  datatype Operation =
    | Register(key: Key, body: Body)
    | Remove(key: Key)
    | Change(key: Key, now: Option<Outside>)
    | Ask(key: Key, budgets: Budgets)
    | Continue(token: nat, budgets: Budgets)

  /** The engine between two operations: what recomputation depends on, the memo table, and
      the resumable roots. */
  datatype Moment = Moment(table: State, world: World, continuations: map<nat, Key>)

  /** What the caller sees of an operation: its result, or that it was not attempted. */
  datatype Event = Skipped | Registered | Removed(was: bool) | Announced(revision: nat) | Told(result: Result<Value>)

  function Changed(world: World, key: Key, now: Option<Outside>): (out: World)
    ensures Look(out, key) == now && forall k :: k != key ==> Look(out, k) == Look(world, k)
  {
    if now.Some? then world[key := now.value] else world - {key}
  }

  /** The key has no memo, or one that can never be accepted again. */
  predicate Replaceable(nodes: map<Key, Node>, stamps: map<Key, nat>, key: Key) {
    key !in nodes || nodes[key].value.None? || Outdated(nodes, stamps, nodes[key].dependencies)
  }

  /** A question and its answer: only the recomputed value, or an error with its cause in
      what the question can get to; always the memo's value where the memo and all it rests
      on still hold; and no callback ran twice or without cause. */
  ghost predicate Answers(m: Moment, key: Key, budgets: Budgets, r: Result<Value>, m': Moment) {
    && m'.table.queries == m.table.queries && m'.table.sourceRevisions == m.table.sourceRevisions && m'.world == m.world
    && (r.Ok? ==> Denotes(m.table.queries, m.world, key, r.value))
    && (r.Err? ==> Explained(r.error, m.table, key, budgets, m.continuations, m'.continuations))
    && (forall keep :: Fresh(m.table, keep) && key in keep && keep[key] < budgets.maxDepth && key in m.table.nodes ==>
          r.Ok? && m.table.nodes[key].value == Some(r.value))
    && exists executed :: Economical(m.table, m'.table, executed) && (r.Ok? ==> PaidFor(m', budgets, executed))
  }

  /** All these callbacks have ended, and the budgets cover what running them charges. */
  ghost predicate PaidFor(m: Moment, budgets: Budgets, executed: seq<Key>) {
    && (forall k :: k in executed ==> Clean(m.table.nodes, k))
    && Covers(budgets, Bill(m.table.queries, m.table.nodes, m.world, executed))
  }

  /** One operation, as far as recomputation is concerned. Only a registration over a memo
      that could still be accepted, and a removal of a key such a memo observes as an
      external one, are not attempted. */
  ghost predicate Step(m: Moment, op: Operation, event: Event, m': Moment) {
    match op
    case Register(key, body) =>
      if Replaceable(m.table.nodes, m.table.sourceRevisions, key)
      then event.Registered? && m'.table.queries == m.table.queries[key := body] && Elsewhere(m, m', m.table.nodes.Keys + {key})
      else event.Skipped? && m' == m
    case Remove(key) =>
      if Unobserved(m.table.nodes, m.table.sourceRevisions, key)
      then event == Removed(key in m.table.queries) && m'.table.queries == m.table.queries - {key} &&
           Elsewhere(m, m', m.table.nodes.Keys - {key})
      else event.Skipped? && m' == m
    case Change(key, now) =>
      && event == Announced(m.table.nextRevision) && m'.table.queries == m.table.queries
      && m'.table.sourceRevisions == m.table.sourceRevisions[key := m.table.nextRevision]
      && m'.world == Changed(m.world, key, now) && m'.continuations == m.continuations
      && MemosKept(m.table.nodes, m'.table.nodes, m.table.nodes.Keys)
    case Ask(key, budgets) =>
      && event.Told? && Answers(m, key, budgets, event.result, m')
      && (event.result.Ok? ==> m'.continuations == m.continuations)
    case Continue(token, budgets) =>
      && event.Told?
      && if token in m.continuations
         then Answers(m, m.continuations[token], budgets, event.result, m') &&
              (event.result.Ok? ==> m'.continuations == m.continuations - {token})
         else event.result == Err(UnknownContinuation(token)) && m' == m
  }

  /** Nothing but callbacks and dirty marks changed, and these keys have nodes. */
  ghost predicate Elsewhere(m: Moment, m': Moment, keys: set<Key>) {
    && m'.table.sourceRevisions == m.table.sourceRevisions && m'.continuations == m.continuations && m'.world == m.world
    && MemosKept(m.table.nodes, m'.table.nodes, keys)
  }

  /** Where nothing stands in the way, a question is answered. */
  lemma AlwaysAnswered(m: Moment, key: Key, budgets: Budgets, event: Event, m': Moment)
    requires Step(m, Ask(key, budgets), event, m') && Unhindered(m.table, key, budgets)
    ensures event.result.Ok? && Denotes(m.table.queries, m.world, key, event.result.value)
  {
    hide Explained, Unhindered, Denotes, Fresh, Economical, PaidFor;
    if event.result.Err? { UnhinderedAnswers(event.result.error, m.table, key, budgets, m.continuations, m'.continuations); }
  }

  ghost function Now(engine: IncrementalEngine): Moment
    reads engine
  {
    Moment(engine.Table(), engine.world, engine.continuations)
  }

  /** From-scratch consistency over every session: each answer, however the engine got
      to it and whichever calls failed on the way, is the recomputed one for the callbacks
      and the outside in force at that moment. */
  method Session(engine: IncrementalEngine, script: seq<Operation>) returns (events: seq<Event>, ghost moments: seq<Moment>)
    requires engine.Valid() && StampsBelow(engine.Table()) && engine.Sound()
    modifies engine
    ensures engine.Valid() && StampsBelow(engine.Table()) && engine.Sound() && |events| == |script| && |moments| == |script| + 1
    ensures moments[0] == old(Now(engine)) && moments[|script|] == Now(engine)
    ensures forall i :: 0 <= i < |script| ==> Step(moments[i], script[i], events[i], moments[i + 1])
  {
    hide Inv, StampsBelow, Step, FaithfulAt;
    events, moments := [], [Now(engine)];
    for i := 0 to |script|
      invariant engine.Valid() && StampsBelow(engine.Table()) && engine.Sound() && |events| == i && |moments| == i + 1
      invariant moments[0] == old(Now(engine)) && moments[i] == Now(engine)
      invariant forall k :: 0 <= k < i ==> Step(moments[k], script[k], events[k], moments[k + 1])
    {
      var event := Perform(engine, script[i]);
      events, moments := events + [event], moments + [Now(engine)];
    }
  }

  method Perform(engine: IncrementalEngine, op: Operation) returns (event: Event)
    requires engine.Valid() && StampsBelow(engine.Table()) && engine.Sound()
    modifies engine
    ensures engine.Valid() && StampsBelow(engine.Table()) && engine.Sound()
    ensures Step(old(Now(engine)), op, event, Now(engine))
  {
    if op.Ask? || op.Continue? { event := Inquire(engine, op); } else { event := Administer(engine, op); }
  }

  /** Registering, removing and announcing changes. */
  method Administer(engine: IncrementalEngine, op: Operation) returns (event: Event)
    requires engine.Valid() && StampsBelow(engine.Table()) && engine.Sound() && !op.Ask? && !op.Continue?
    modifies engine
    ensures engine.Valid() && StampsBelow(engine.Table()) && engine.Sound()
    ensures Step(old(Now(engine)), op, event, Now(engine))
  {
    hide Inv, StampsBelow, Unobserved, Outdated, NextStampUnused, FaithfulAt, ReverseClosed, OnlyReachable, Tracked, MarkDirty, MemosKept;
    ghost var nodes := engine.nodes;
    MemosSame(nodes);
    match op
    case Register(key, body) =>
      if !Replaceable(engine.nodes, engine.sourceRevisions, key) { return Skipped; }
      ghost var dirtied := engine.RegisterQuery(key, body);
      NodeKept(nodes, key);
      MarkedKept(nodes, nodes[key := if key in nodes then nodes[key].(dirty := true) else DEFAULT_NODE], nodes.Keys + {key}, dirtied);
      event := Registered;
    case Remove(key) =>
      if !Unobserved(engine.nodes, engine.sourceRevisions, key) { return Skipped; }
      ghost var dirtied;
      var removed;
      if key !in engine.queries {
        RegisteredOnly(engine.fingerprint, engine.Table(), engine.hist, engine.world, key);
        assert nodes.Keys - {key} == nodes.Keys;
      }
      removed, dirtied := engine.RemoveQuery(key);
      MarkedKept(nodes, nodes, nodes.Keys, dirtied);
      event := Removed(removed);
    case Change(key, now) =>
      StampUnused(engine.Table(), key);
      var world := Changed(engine.world, key, now);
      ghost var dirtied;
      var revision;
      revision, dirtied := engine.Invalidate(key, world);
      MarkedKept(nodes, nodes, nodes.Keys, dirtied);
      event := Announced(revision);
  }

  /** Asking and resuming. */
  method Inquire(engine: IncrementalEngine, op: Operation) returns (event: Event)
    requires engine.Valid() && StampsBelow(engine.Table()) && engine.Sound() && (op.Ask? || op.Continue?)
    modifies engine
    ensures engine.Valid() && StampsBelow(engine.Table()) && engine.Sound()
    ensures Step(old(Now(engine)), op, event, Now(engine))
  {
    hide Inv, StampsBelow, Denotes, Justified, FaithfulAt, Provenance, Trusted, Explained, Fresh, NoRepeats, Unhindered, Economical, Bill, Grounded;
    match op
    case Ask(key, budgets) =>
      ghost var keep := Supporting(engine.Table(), key, budgets);
      ghost var run;
      var r;
      r, run := engine.Verify(key, budgets, keep);
      if r.Ok? { assert PaidFor(Now(engine), budgets, run.executed); }
      event := Told(r);
    case Continue(token, budgets) =>
      ghost var keep := if token in engine.continuations then Supporting(engine.Table(), engine.continuations[token], budgets) else map[];
      ghost var executed;
      var r;
      r, executed := engine.Resume(token, budgets, keep);
      if r.Ok? { assert PaidFor(Now(engine), budgets, executed); }
      event := Told(r);
  }

  /** Memos the memo of `key` rests on and that still hold, if there are such. */
  ghost function Supporting(st: State, key: Key, budgets: Budgets): (keep: map<Key, nat>)
    ensures (exists keep :: Fresh(st, keep) && key in keep && keep[key] < budgets.maxDepth) ==>
              Fresh(st, keep) && key in keep && keep[key] < budgets.maxDepth
  {
    if exists keep :: Fresh(st, keep) && key in keep && keep[key] < budgets.maxDepth
    then var keep :| Fresh(st, keep) && key in keep && keep[key] < budgets.maxDepth; keep
    else map[]
  }

  lemma MemosSame(nodes: map<Key, Node>)
    ensures MemosKept(nodes, nodes, nodes.Keys)
  {
  }

  lemma NodeKept(nodes: map<Key, Node>, key: Key)
    ensures MemosKept(nodes, nodes[key := if key in nodes then nodes[key].(dirty := true) else DEFAULT_NODE], nodes.Keys + {key})
  {
  }

  lemma StampUnused(st: State, key: Key)
    requires StampsBelow(st)
    ensures NextStampUnused(st, key)
  {
  }
}

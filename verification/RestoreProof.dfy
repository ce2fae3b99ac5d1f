/** What a restored memo graph guarantees: the same answers with no body run, and
    exactly when later invalidations stay safe. */
module RestoreProof {
  import opened Collections
  import opened Queries
  import opened Memo
  import opened Runs
  import opened Causes
  import opened Engine
  import opened Snapshots

  /** `snapshot` was taken of a read-closed set of confirmed memos of a valid engine. */
  ghost predicate ConfirmedSnapshot(fp: Value -> nat, st: State, h: History, world: World,
      keys: set<Key>, snapshot: seq<SnapshotNode>)
  {
    && Inv(fp, st, h, world)
    && Captures(st.nodes, snapshot, keys)
    && ReadClosed(st.nodes, keys)
    && forall k :: k in keys ==> Clean(st.nodes, k)
  }

  /** The engine being restored knows the same queries and has seen no stamp yet. */
  ghost predicate SameQueries(st: State, before: State, keys: set<Key>) {
    && before.sourceRevisions == map[] && before.nextRevision >= 1
    && forall k :: k in keys ==> k in before.queries && k in st.queries && before.queries[k] == st.queries[k]
  }

  lemma {:induction false} FindUnique(snapshot: seq<SnapshotNode>, i: nat)
    requires DistinctKeys(snapshot) && i < |snapshot|
    ensures Find(snapshot, snapshot[i].key) == Some(snapshot[i])
    decreases |snapshot|
  {
    if i > 0 {
      assert snapshot[1..][i - 1] == snapshot[i];
      FindUnique(snapshot[1..], i - 1);
    }
  }

  /** A current read is exported and imported back to itself. */
  lemma ObservationRoundTrip(fp: Value -> nat, st: State, h: History, world: World, keys: set<Key>,
      snapshot: seq<SnapshotNode>, k: Key, d: Observation)
    requires ConfirmedSnapshot(fp, st, h, world, keys, snapshot)
    requires k in keys && k in st.nodes && d in st.nodes[k].dependencies
    ensures Import(fp, snapshot, Export(d)) == d
  {
    hide Replays, Covered, HistoryOk, ReverseSound;
    if d.Read? {
      assert CleanOk(st, h, k) && Current(st.nodes, st.sourceRevisions, d);
      assert d.key in keys && NodeOk(fp, st, h, d.key);
      var i :| 0 <= i < |snapshot| && snapshot[i].key == d.key;
      FindUnique(snapshot, i);
    }
  }

  /** Restoring gives back every memo, dirty. */
  lemma RestoredMemo(fp: Value -> nat, st: State, h: History, world: World, keys: set<Key>,
      snapshot: seq<SnapshotNode>, before: State, after: State, k: Key)
    requires ConfirmedSnapshot(fp, st, h, world, keys, snapshot)
    requires RestoredFrom(fp, snapshot, before, after)
    ensures k in after.nodes <==> k in keys
    ensures k in keys ==> k in st.nodes && after.nodes[k] == st.nodes[k].(dirty := true)
  {
    hide Replays, ExactInverse;
    if k in keys {
      var i :| 0 <= i < |snapshot| && snapshot[i].key == k;
      var n, m := st.nodes[k], after.nodes[k];
      assert snapshot[i] == Capture(k, n) && m == ImportNode(fp, snapshot, snapshot[i]);
      assert NodeOk(fp, st, h, k);
      forall j | 0 <= j < |n.dependencies| ensures m.dependencies[j] == n.dependencies[j] {
        assert n.dependencies[j] in n.dependencies;
        ObservationRoundTrip(fp, st, h, world, keys, snapshot, k, n.dependencies[j]);
      }
      assert m.dependencies == n.dependencies;
    }
  }

  // ---------- stamps ----------

  /** Every external observation in the list shows the stamp of `st`. */
  ghost predicate ShowsStamps(stamps: map<Key, nat>, deps: seq<SnapshotObservation>) {
    forall o :: o in deps && o.ExternalOf? ==> o.revision == SourceRevision(stamps, o.key)
  }

  ghost predicate Restamped(stamps: map<Key, nat>, out: map<Key, nat>) {
    forall s :: s in out ==> out[s] == SourceRevision(stamps, s)
  }

  /** A fresh engine takes over exactly the stamps that were shown. */
  lemma RaiseAllExact(stamps: map<Key, nat>, snapshot: seq<SnapshotNode>)
    requires forall n :: n in snapshot ==> ShowsStamps(stamps, n.dependencies)
    ensures Restamped(stamps, RaiseAll(map[], snapshot))
    ensures forall n, o :: n in snapshot && o in n.dependencies && o.ExternalOf? ==> o.key in RaiseAll(map[], snapshot)
    ensures forall s :: s in RaiseAll(map[], snapshot) ==>
              exists n, o :: n in snapshot && o in n.dependencies && o.ExternalOf? && o.key == s
  {
    hide RaiseAll;
    var out := RaiseAll(map[], snapshot);
    RaiseAllLargest(map[], snapshot);
    forall s | s in out
      ensures out[s] == SourceRevision(stamps, s)
      ensures exists n, o :: n in snapshot && o in n.dependencies && o.ExternalOf? && o.key == s
    {
      assert (s, out[s]) in SeenBy(snapshot);
      var n, o :| n in snapshot && o in n.dependencies && o.ExternalOf? && (o.key, o.revision) == (s, out[s]);
      assert o.key == s;
    }
    forall n, o | n in snapshot && o in n.dependencies && o.ExternalOf? ensures o.key in out {
      assert (o.key, o.revision) in SeenBy(snapshot);
    }
  }

  /** Every restored external observation is current. */
  lemma RestoredStamps(fp: Value -> nat, st: State, h: History, world: World, keys: set<Key>,
      snapshot: seq<SnapshotNode>, before: State, after: State)
    requires ConfirmedSnapshot(fp, st, h, world, keys, snapshot) && SameQueries(st, before, keys)
    requires RestoredFrom(fp, snapshot, before, after)
    ensures Restamped(st.sourceRevisions, after.sourceRevisions)
    ensures forall k, d :: k in keys && k in st.nodes && d in st.nodes[k].dependencies && d.External? ==>
              SourceRevision(after.sourceRevisions, d.key) == d.revision
  {
    hide Replays, ExactInverse, NodeOk, Covered, HistoryOk, ReverseSound, Imported, NextAbove, RaiseAll;
    forall n | n in snapshot ensures ShowsStamps(st.sourceRevisions, n.dependencies) {
      SnapshotShowsStamps(fp, st, h, world, keys, snapshot, n);
    }
    RaiseAllExact(st.sourceRevisions, snapshot);
    forall k, d | k in keys && k in st.nodes && d in st.nodes[k].dependencies && d.External?
      ensures SourceRevision(after.sourceRevisions, d.key) == d.revision
    {
      assert CleanOk(st, h, k) && Current(st.nodes, st.sourceRevisions, d);
      var i :| 0 <= i < |snapshot| && snapshot[i].key == k;
      var j :| 0 <= j < |st.nodes[k].dependencies| && st.nodes[k].dependencies[j] == d;
      assert snapshot[i].dependencies[j] == Export(d);
      assert snapshot[i] in snapshot && Export(d) in snapshot[i].dependencies;
    }
  }

  lemma SnapshotShowsStamps(fp: Value -> nat, st: State, h: History, world: World, keys: set<Key>,
      snapshot: seq<SnapshotNode>, n: SnapshotNode)
    requires ConfirmedSnapshot(fp, st, h, world, keys, snapshot) && n in snapshot
    ensures ShowsStamps(st.sourceRevisions, n.dependencies)
  {
    hide Replays;
    var i :| 0 <= i < |snapshot| && snapshot[i] == n;
    var deps := st.nodes[n.key].dependencies;
    assert n == Capture(n.key, st.nodes[n.key]) && CleanOk(st, h, n.key);
    forall o | o in n.dependencies && o.ExternalOf? ensures o.revision == SourceRevision(st.sourceRevisions, o.key) {
      var j :| 0 <= j < |n.dependencies| && n.dependencies[j] == o;
      assert o == Export(deps[j]) && deps[j] in deps;
      assert Current(st.nodes, st.sourceRevisions, deps[j]);
    }
  }

  // ---------- the restored engine is valid ----------

  function RestoredHistory(st: State, h: History, keys: set<Key>, world: World): History
    requires forall k :: k in keys ==> k in st.nodes && st.nodes[k].value.Some?
  {
    History(
      map p | p in (set k | k in keys :: (k, st.nodes[k].revision)) :: st.nodes[p.0].value.value,
      (k: Key, r: nat) => Look(world, k), map[], 0, map k | k in keys && k in h.made :: h.made[k], {})
  }

  lemma ConfirmedHaveValues(fp: Value -> nat, st: State, h: History, world: World, keys: set<Key>,
      snapshot: seq<SnapshotNode>)
    requires ConfirmedSnapshot(fp, st, h, world, keys, snapshot)
    ensures forall k :: k in keys ==> k in st.nodes && st.nodes[k].value.Some?
  {
    forall k | k in keys ensures k in st.nodes && st.nodes[k].value.Some? {
      assert Clean(st.nodes, k) && NodeOk(fp, st, h, k);
    }
  }

  /** The memos of a restored engine are runs of its own bodies on the present
      sources, so every answer it gives from here on is again a recomputed one. */
  lemma RestoreKeepsInv(fp: Value -> nat, st: State, h: History, world: World, keys: set<Key>,
      snapshot: seq<SnapshotNode>, before: State, after: State)
    requires ConfirmedSnapshot(fp, st, h, world, keys, snapshot) && SameQueries(st, before, keys)
    requires RestoredFrom(fp, snapshot, before, after)
    requires forall k :: k in keys ==> k in st.nodes && st.nodes[k].value.Some?
    ensures Inv(fp, after, RestoredHistory(st, h, keys, world), world)
  {
    hide Replays, Imported, Captures, NextAbove, RaiseAll, Inv, NodeOk, Covered;
    var h' := RestoredHistory(st, h, keys, world);
    forall k | k in after.nodes
      ensures k in after.queries && NodeOk(fp, after, h', k) && Covered(after, h', k) && after.nodes[k].dirty
    {
      RestoredNode(fp, st, h, world, keys, snapshot, before, after, k);
    }
    NextAboveBounds(before.nextRevision, snapshot);
    forall p | p in h'.values ensures 1 <= p.1 < after.nextRevision {
      RestoredRevision(fp, st, h, world, keys, snapshot, before, after, p.0);
    }
    AllDirtyInv(fp, after, h', world);
  }

  /** A table without confirmed memos needs only its nodes to be in order. */
  lemma AllDirtyInv(fp: Value -> nat, st: State, h: History, world: World)
    requires forall k :: k in st.nodes ==> k in st.queries && NodeOk(fp, st, h, k) && Covered(st, h, k) && st.nodes[k].dirty
    requires ExactInverse(st.nodes, st.reverse) && st.nextRevision >= 1
    requires (forall p :: p in h.values ==> 1 <= p.1 < st.nextRevision) && forall k, r: nat :: h.sources(k, r) == Look(world, k)
    ensures Inv(fp, st, h, world)
  {
    hide NodeOk, Covered, CleanOk;
  }

  lemma RestoredNode(fp: Value -> nat, st: State, h: History, world: World, keys: set<Key>,
      snapshot: seq<SnapshotNode>, before: State, after: State, k: Key)
    requires ConfirmedSnapshot(fp, st, h, world, keys, snapshot) && SameQueries(st, before, keys)
    requires RestoredFrom(fp, snapshot, before, after) && k in after.nodes
    requires forall k :: k in keys ==> k in st.nodes && st.nodes[k].value.Some?
    ensures k in after.queries && after.nodes[k].dirty
    ensures NodeOk(fp, after, RestoredHistory(st, h, keys, world), k) && Covered(after, RestoredHistory(st, h, keys, world), k)
  {
    hide Replays, Imported, Captures, NextAbove, RaiseAll, Outdated, Inv;
    RestoredMemo(fp, st, h, world, keys, snapshot, before, after, k);
    RestoredReplays(fp, st, h, world, keys, snapshot, k);
    forall d | d in after.nodes[k].dependencies ensures k in Dependents(after.reverse, d.key) {
      assert Observes(after.nodes[k].dependencies, d.key);
    }
  }

  /** Restored memos are their callbacks' own if they were so where the snapshot was taken. */
  lemma RestoredFaithful(fp: Value -> nat, st: State, h: History, world: World, keys: set<Key>,
      snapshot: seq<SnapshotNode>, before: State, after: State)
    requires ConfirmedSnapshot(fp, st, h, world, keys, snapshot) && SameQueries(st, before, keys) && Faithful(st, h)
    requires RestoredFrom(fp, snapshot, before, after)
    requires forall k :: k in keys ==> k in st.nodes && st.nodes[k].value.Some?
    ensures Faithful(after, RestoredHistory(st, h, keys, world))
  {
    hide Replays, Imported, Captures, NextAbove, RaiseAll, ExactInverse, Outdated;
    forall k ensures FaithfulAt(after, RestoredHistory(st, h, keys, world), k) {
      RestoredMemo(fp, st, h, world, keys, snapshot, before, after, k);
      if k in keys {
        assert Clean(st.nodes, k) && CleanOk(st, h, k) && FaithfulAt(st, h, k);
        CurrentNotOutdated(st, st.nodes[k].dependencies);
      }
    }
  }

  lemma RestoredReplays(fp: Value -> nat, st: State, h: History, world: World, keys: set<Key>,
      snapshot: seq<SnapshotNode>, k: Key)
    requires ConfirmedSnapshot(fp, st, h, world, keys, snapshot) && k in keys
    requires forall k :: k in keys ==> k in st.nodes && st.nodes[k].value.Some?
    ensures NodeOk(fp, st, h, k)
    ensures k in h.made && Replays(fp, RestoredHistory(st, h, keys, world), h.made[k], st.nodes[k].dependencies, st.nodes[k].value.value)
  {
    hide Replays, Captures;
    var n, h' := st.nodes[k], RestoredHistory(st, h, keys, world);
    assert Clean(st.nodes, k) && NodeOk(fp, st, h, k) && CleanOk(st, h, k);
    forall d | d in n.dependencies && d.Read?
      ensures (d.key, d.revision) in h'.values
      ensures (d.key, d.revision) in h.values && h'.values[(d.key, d.revision)] == h.values[(d.key, d.revision)]
    {
      assert Current(st.nodes, st.sourceRevisions, d) && d.key in keys && NodeOk(fp, st, h, d.key);
    }
    forall d | d in n.dependencies && d.External?
      ensures h'.sources(d.key, d.revision) == h.sources(d.key, d.revision)
    {
      assert Current(st.nodes, st.sourceRevisions, d);
      assert h.sources(d.key, SourceRevision(st.sourceRevisions, d.key)) == Look(world, d.key);
    }
    ReplaysAgree(fp, h, h', h.made[k], n.dependencies, n.value.value);
  }

  lemma RestoredRevision(fp: Value -> nat, st: State, h: History, world: World, keys: set<Key>,
      snapshot: seq<SnapshotNode>, before: State, after: State, k: Key)
    requires ConfirmedSnapshot(fp, st, h, world, keys, snapshot) && k in keys
    requires RestoredFrom(fp, snapshot, before, after)
    ensures k in st.nodes && 1 <= st.nodes[k].revision < after.nextRevision
  {
    hide Replays;
    assert Clean(st.nodes, k) && NodeOk(fp, st, h, k);
    var i :| 0 <= i < |snapshot| && snapshot[i].key == k;
    assert snapshot[i] == Capture(k, st.nodes[k]) && snapshot[i] in snapshot;
    NextAboveBounds(before.nextRevision, snapshot);
  }

  // ---------- the next verification runs nothing ----------

  /** These keys, ranked as they were confirmed. */
  ghost function Ranked(h: History, keys: set<Key>): map<Key, nat>
    requires forall x :: x in keys ==> x in h.rank
  {
    map k | k in keys :: h.rank[k]
  }

  lemma RestoredFresh(fp: Value -> nat, st: State, h: History, world: World, keys: set<Key>,
      snapshot: seq<SnapshotNode>, before: State, after: State)
    requires ConfirmedSnapshot(fp, st, h, world, keys, snapshot) && SameQueries(st, before, keys)
    requires RestoredFrom(fp, snapshot, before, after)
    ensures forall x :: x in keys ==> x in h.rank
    ensures Fresh(after, Compact(Ranked(h, keys)))
  {
    hide Replays, Imported, Captures, NextAbove, RaiseAll, ExactInverse;
    forall x | x in keys ensures x in h.rank {
      assert Clean(st.nodes, x) && CleanOk(st, h, x);
    }
    RestoredStamps(fp, st, h, world, keys, snapshot, before, after);
    var keep := Ranked(h, keys);
    forall k | k in keep
      ensures k in after.queries && k in after.nodes && after.nodes[k].value.Some?
      ensures forall d :: d in after.nodes[k].dependencies ==>
        match d
        case Read(x, r, f) =>
          && x in keep && keep[x] < keep[k] && x in after.nodes
          && after.nodes[x].revision == r && after.nodes[x].fingerprint == Some(f)
        case External(x, _, r) => SourceRevision(after.sourceRevisions, x) == r
    {
      RestoredMemo(fp, st, h, world, keys, snapshot, before, after, k);
      assert Clean(st.nodes, k) && NodeOk(fp, st, h, k) && CleanOk(st, h, k);
      forall d | d in st.nodes[k].dependencies && d.Read?
        ensures d.key in keep && keep[d.key] < keep[k] && d.key in after.nodes
        ensures after.nodes[d.key].revision == d.revision && after.nodes[d.key].fingerprint == Some(d.fingerprint)
      {
        assert Current(st.nodes, st.sourceRevisions, d);
        RestoredMemo(fp, st, h, world, keys, snapshot, before, after, d.key);
      }
    }
    CompactFresh(after, keep);
  }

  // ---------- carrying a memo graph over to another engine ----------

  /** Whatever a confirmed memo read, directly or not, is confirmed too. */
  lemma ClosureConfirmed(fp: Value -> nat, st: State, h: History, world: World, roots: set<Key>, closure: set<Key>)
    requires Inv(fp, st, h, world) && OnlyReadable(st.nodes, roots, closure)
    requires forall k :: k in roots ==> Clean(st.nodes, k)
    ensures forall k :: k in closure ==> Clean(st.nodes, k)
  {
    hide Replays;
    var clean := set k | k in st.nodes && Clean(st.nodes, k);
    forall k, d | k in clean && k in st.nodes && d in st.nodes[k].dependencies && d.Read?
      ensures d.key in clean
    {
      assert CleanOk(st, h, k) && Current(st.nodes, st.sourceRevisions, d);
    }
    assert roots <= clean && ReadClosed(st.nodes, clean);
  }

  /** Snapshots a confirmed root, restores it into an engine that knows the same
      queries and has seen no stamp, and verifies the root there: the answer is the
      memoized one and no body runs. */
  method CarryOver(origin: IncrementalEngine, target: IncrementalEngine, root: Key,
      maxNodes: nat, maxEdges: nat, budgets: Budgets)
      returns (taken: Result<seq<SnapshotNode>>, r: Result<Value>, ghost executed: seq<Key>)
    requires origin != target && origin.Valid() && target.Valid()
    requires origin.fingerprint == target.fingerprint && origin.world == target.world
    requires Clean(origin.nodes, root) && origin.Sound()
    requires SameQueries(origin.Table(), target.Table(), origin.queries.Keys)
    modifies origin`continuations, origin`nextToken, target
    ensures origin.Valid() && target.Valid()
    ensures taken.Ok? <==> Fitting(origin.nodes, ReadClosure(origin.nodes, {root}), maxNodes, maxEdges)
    ensures taken.Ok? ==> target.Sound() && (r.Ok? ==> Denotes(target.queries, target.world, root, r.value))
    // any session may follow if no stamp can be handed out twice
    ensures taken.Ok? && Older(taken.value, NextAbove(old(target.nextRevision), taken.value)) ==> StampsBelow(target.Table())
    ensures taken.Ok? && |taken.value| <= budgets.maxDepth ==>
              r.Ok? && old(origin.nodes[root].value) == Some(r.value) && executed == []
  {
    hide Inv, Captures, OnlyReadable, ReadClosed, RestoredFrom, Fresh, Denotes, DistinctKeys, Justified, StampsBelow, SameMemo, Compact,
      FaithfulAt, Provenance, Trusted, Explained, Unhindered, NoRepeats, Older, NextAbove, ReadClosure, Observed, Fitting, Bill, Grounded,
      Economical, Covers, Snapshots.Edges;
    ghost var st, h, world, before := origin.Table(), origin.hist, origin.world, target.Table();
    ghost var closure;
    executed := [];
    taken, closure := TakeSnapshot(origin, {root}, maxNodes, maxEdges);
    if taken.Err? {
      r := Err(taken.error);
      return;
    }
    ClosureConfirmed(origin.fingerprint, st, h, world, {root}, closure);
    ConfirmedHaveValues(origin.fingerprint, st, h, world, closure, taken.value);
    CapturesDistinct(st.nodes, taken.value, closure);
    AllRegistered(origin.fingerprint, st, h, world, closure);
    var restored := RestoreSnapshot(target, taken.value, RestoredHistory(st, h, closure, world));
    RestoreKeepsInv(origin.fingerprint, st, h, world, closure, taken.value, before, target.Table());
    RestoredFresh(origin.fingerprint, st, h, world, closure, taken.value, before, target.Table());
    RestoredMemo(origin.fingerprint, st, h, world, closure, taken.value, before, target.Table(), root);
    RestoredFaithful(origin.fingerprint, st, h, world, closure, taken.value, before, target.Table());
    RestoredStampsBelow(origin.fingerprint, st, h, world, closure, taken.value, before, target.Table());
    RestoredCounter(origin.fingerprint, taken.value, before, target.Table());
    CompactBound(Ranked(h, closure), root, closure);
    CompactKeys(Ranked(h, closure));
    ghost var run;
    r, run := target.Verify(root, budgets, Compact(Ranked(h, closure)));
    executed := run.executed;
  }

  lemma RestoredCounter(fp: Value -> nat, snapshot: seq<SnapshotNode>, before: State, after: State)
    requires RestoredFrom(fp, snapshot, before, after)
    ensures after.nextRevision == NextAbove(before.nextRevision, snapshot)
  {
  }

  lemma CapturesDistinct(nodes: map<Key, Node>, snapshot: seq<SnapshotNode>, keys: set<Key>)
    requires Captures(nodes, snapshot, keys)
    ensures DistinctKeys(snapshot) && |snapshot| == |keys|
  {
  }

  lemma AllRegistered(fp: Value -> nat, st: State, h: History, world: World, keys: set<Key>)
    requires Inv(fp, st, h, world) && forall k :: k in keys ==> Clean(st.nodes, k)
    ensures forall k :: k in keys ==> k in st.queries
  {
  }

  // ---------- when a restored engine may be invalidated ----------

  /** Every exported external observation is older than `next`. */
  ghost predicate Older(snapshot: seq<SnapshotNode>, next: nat) {
    forall n, o :: n in snapshot && o in n.dependencies && o.ExternalOf? ==> o.revision < next
  }

  /** The revision counter is raised above the restored memo revisions only. It is
      above the restored stamps too, so that no stamp is handed out twice, exactly
      when every exported external observation is older than the counter. */
  lemma RestoredStampsBelow(fp: Value -> nat, st: State, h: History, world: World, keys: set<Key>,
      snapshot: seq<SnapshotNode>, before: State, after: State)
    requires ConfirmedSnapshot(fp, st, h, world, keys, snapshot) && SameQueries(st, before, keys)
    requires RestoredFrom(fp, snapshot, before, after)
    ensures StampsBelow(after) <==> Older(snapshot, after.nextRevision)
  {
    hide Replays, ExactInverse, Inv, Imported, Captures, NextAbove, RaiseAll;
    forall n | n in snapshot ensures ShowsStamps(st.sourceRevisions, n.dependencies) {
      SnapshotShowsStamps(fp, st, h, world, keys, snapshot, n);
    }
    RaiseAllExact(st.sourceRevisions, snapshot);
    if Older(snapshot, after.nextRevision) {
      NextAboveBounds(before.nextRevision, snapshot);
      forall s ensures SourceRevision(after.sourceRevisions, s) < after.nextRevision {
        if s in after.sourceRevisions {
          var n, o :| n in snapshot && o in n.dependencies && o.ExternalOf? && o.key == s;
          assert o.revision < after.nextRevision;
        }
      }
      forall k, d | k in after.nodes && d in after.nodes[k].dependencies && d.External?
        ensures d.revision < after.nextRevision
      {
        ImportedObservation(fp, snapshot, after.nodes, k, d);
      }
    }
    if StampsBelow(after) {
      forall n, o | n in snapshot && o in n.dependencies && o.ExternalOf?
        ensures o.revision < after.nextRevision
      {
        assert o.key in after.sourceRevisions;
        assert SourceRevision(after.sourceRevisions, o.key) < after.nextRevision;
      }
    }
  }

  lemma ImportedObservation(fp: Value -> nat, snapshot: seq<SnapshotNode>, nodes: map<Key, Node>, k: Key, d: Observation)
    requires Imported(fp, snapshot, |snapshot|, nodes)
    requires k in nodes && d in nodes[k].dependencies && d.External?
    ensures exists n, o :: n in snapshot && o in n.dependencies && o.ExternalOf? && o.key == d.key && o.revision == d.revision
  {
    var i :| 0 <= i < |snapshot| && snapshot[i].key == k;
    var j :| 0 <= j < |nodes[k].dependencies| && nodes[k].dependencies[j] == d;
    assert nodes[k] == ImportNode(fp, snapshot, snapshot[i]);
    var o := snapshot[i].dependencies[j];
    assert snapshot[i] in snapshot && o in snapshot[i].dependencies && d == Import(fp, snapshot, o);
  }

  // ---------- a counter that fell behind ----------

  /** Whatever memo observes `source` as an external key saw this stamp. */
  ghost predicate SeenAt(nodes: map<Key, Node>, source: Key, stamp: nat) {
    forall k, d :: k in nodes && d in nodes[k].dependencies && d.External? && d.key == source ==> d.revision == stamp
  }

  /** Outside that condition some source has a stamp the counter has yet to come to, and every
      restored memo that observes it saw that very stamp. */
  lemma RestoredBehind(fp: Value -> nat, st: State, h: History, world: World, keys: set<Key>,
      snapshot: seq<SnapshotNode>, before: State, after: State) returns (source: Key)
    requires ConfirmedSnapshot(fp, st, h, world, keys, snapshot) && SameQueries(st, before, keys)
    requires RestoredFrom(fp, snapshot, before, after) && !Older(snapshot, after.nextRevision)
    ensures SourceRevision(after.sourceRevisions, source) >= after.nextRevision
    ensures SeenAt(after.nodes, source, SourceRevision(after.sourceRevisions, source))
  {
    hide Replays, ExactInverse, Inv, Imported, Captures, NextAbove, RaiseAll;
    forall n | n in snapshot ensures ShowsStamps(st.sourceRevisions, n.dependencies) {
      SnapshotShowsStamps(fp, st, h, world, keys, snapshot, n);
    }
    RaiseAllExact(st.sourceRevisions, snapshot);
    var n, o :| n in snapshot && o in n.dependencies && o.ExternalOf? && o.revision >= after.nextRevision;
    source := o.key;
    forall k, d | k in after.nodes && d in after.nodes[k].dependencies && d.External? && d.key == source
      ensures d.revision == SourceRevision(after.sourceRevisions, source)
    {
      ImportedObservation(fp, snapshot, after.nodes, k, d);
    }
  }

  ghost predicate OnlyAt(world: World, now: World, source: Key) {
    forall k :: k != source ==> Look(now, k) == Look(world, k)
  }

  /** Announcing changes of that source until the counter has come to the stamp: whatever the
      outside shows by then, every memo that held still counts as current. */
  method AnnouncedAgain(engine: IncrementalEngine, source: Key, nows: seq<World>, ghost keep: map<Key, nat>)
    requires engine.Valid() && source !in engine.hist.lost && Fresh(engine.Table(), keep)
    requires SourceRevision(engine.sourceRevisions, source) >= engine.nextRevision
    requires |nows| == SourceRevision(engine.sourceRevisions, source) - engine.nextRevision + 1
    requires SeenAt(engine.nodes, source, SourceRevision(engine.sourceRevisions, source))
    requires forall now :: now in nows ==> OnlyAt(engine.world, now, source)
    modifies engine
    ensures engine.queries == old(engine.queries) && engine.world == nows[|nows| - 1]
    ensures MemosKept(old(engine.nodes), engine.nodes, old(engine.nodes).Keys)
    ensures Fresh(engine.Table(), keep)
  {
    hide Inv, Fresh, FaithfulAt, ReverseClosed, OnlyReachable, StampsBelow, Tracked, Reaches;
    ghost var st, r := engine.Table(), SourceRevision(engine.sourceRevisions, source);
    ghost var dirtied;
    var stamp;
    for i := 0 to |nows| - 1
      invariant engine.Valid() && source !in engine.hist.lost && engine.queries == st.queries
      invariant engine.nextRevision == st.nextRevision + i && engine.reverse == st.reverse
      invariant MemosKept(st.nodes, engine.nodes, st.nodes.Keys)
      invariant forall k :: k != source ==> SourceRevision(engine.sourceRevisions, k) == SourceRevision(st.sourceRevisions, k)
      invariant OnlyAt(old(engine.world), engine.world, source)
    {
      NotYetSeen(st, engine.Table(), source, r);
      assert nows[i] in nows;
      ghost var nodes := engine.nodes;
      stamp, dirtied := engine.Invalidate(source, nows[i]);
      MarkedKept(st.nodes, nodes, st.nodes.Keys, dirtied);
    }
    assert nows[|nows| - 1] in nows;
    ghost var nodes := engine.nodes;
    stamp, dirtied := engine.Invalidate(source, nows[|nows| - 1]);
    MarkedKept(st.nodes, nodes, st.nodes.Keys, dirtied);
    FreshAgain(st, engine.Table(), keep);
  }

  lemma NotYetSeen(st: State, now: State, source: Key, r: nat)
    requires SeenAt(st.nodes, source, r) && MemosKept(st.nodes, now.nodes, st.nodes.Keys) && now.nextRevision < r
    ensures NextStampUnused(now, source)
  {
    forall k, d | k in now.nodes && d in now.nodes[k].dependencies && d.External? && d.key == source ensures d.revision != now.nextRevision {
      assert SameMemo(st.nodes[k], now.nodes[k]);
    }
  }

  lemma FreshAgain(st: State, now: State, keep: map<Key, nat>)
    requires Fresh(st, keep) && now.queries == st.queries && MemosKept(st.nodes, now.nodes, st.nodes.Keys)
    requires forall k :: SourceRevision(now.sourceRevisions, k) == SourceRevision(st.sourceRevisions, k)
    ensures Fresh(now, keep)
  {
    forall k | k in keep ensures k in st.nodes && k in now.nodes && SameMemo(st.nodes[k], now.nodes[k]) {
      assert k in st.queries && k in st.nodes;
    }
  }

  // The counter really can fall behind. `query` looks at `source` and answers `a` or `b`.
  // Its memo was first committed at revision 1; the source was then stamped 2, and
  // rerunning the body gave `a` again, so the early cutoff kept revision 1 beside an
  // observation of stamp 2.

  function CutOff(fp: Value -> nat, query: Key, source: Key, body: Body, a: Value): State {
    State(map[query := body], map[query := Node(1, false, Some(a), Some(fp(a)), [External(source, Epoch, 2)])],
          map[source := {query}], map[source := 2], 3)
  }

  function CutOffHistory(query: Key, source: Key, x: Outside, body: Body, a: Value): History {
    History(map[(query, 1) := a], (k: Key, r: nat) => Look(map[source := x], k), map[query := 0], 1, map[query := body], {})
  }

  /** The engine it was restored into, before and after. */
  function Empty(query: Key, body: Body): State {
    State(map[query := body], map[query := DEFAULT_NODE], map[], map[], 1)
  }

  function Behind(fp: Value -> nat, query: Key, source: Key, body: Body, a: Value): State {
    State(map[query := body], map[query := Node(1, true, Some(a), Some(fp(a)), [External(source, Epoch, 2)])],
          map[source := {query}], map[source := 2], 2)
  }

  lemma CutOffConfirmed(fp: Value -> nat, query: Key, source: Key, x: Outside, y: Outside, a: Value, b: Value)
    requires query != source && x != y
    ensures var body := Looks(source, x, y, a, b);
      var st := CutOff(fp, query, source, body, a);
      ConfirmedSnapshot(fp, st, CutOffHistory(query, source, x, body, a), map[source := x], {query}, [Capture(query, st.nodes[query])])
  {
    var body, deps := Looks(source, x, y, a, b), [External(source, Epoch, 2)];
    var st, h := CutOff(fp, query, source, body, a), CutOffHistory(query, source, x, body, a);
    assert Observes(deps, source) by { assert deps[0] in deps; }
    assert Replays(fp, h, body, deps, a) by { assert deps[1..] == []; }
    hide Replays;
    assert Inv(fp, st, h, map[source := x]);
    var snapshot := [Capture(query, st.nodes[query])];
    assert snapshot[0].key == query;
  }

  lemma CutOffRestored(fp: Value -> nat, query: Key, source: Key, body: Body, a: Value)
    requires query != source
    ensures RestoredFrom(fp, [Capture(query, CutOff(fp, query, source, body, a).nodes[query])], Empty(query, body), Behind(fp, query, source, body, a))
  {
    var deps, after := [External(source, Epoch, 2)], Behind(fp, query, source, body, a);
    var snapshot := [Capture(query, CutOff(fp, query, source, body, a).nodes[query])];
    assert snapshot[0].key == query;
    assert ImportNode(fp, snapshot, snapshot[0]).dependencies == deps;
    assert Imported(fp, snapshot, 1, after.nodes);
    assert Observes(deps, source) by { assert deps[0] in deps; }
    assert ExactInverse(after.nodes, after.reverse);
    var o := snapshot[0].dependencies[0];
    assert snapshot[0].dependencies == [o] && snapshot[..0] == [] && [o][..0] == [];
    assert RaiseDeps(map[], [o]) == map[source := 2];
    assert RaiseAll(map[], snapshot) == map[source := 2];
    assert NextAbove(1, snapshot) == 2;
  }

  /** Restoring that confirmed memo leaves the counter at 2. When the source now changes and
      is invalidated, it is stamped 2 again: the memo `a` counts as current, while
      recomputation gives `b`. */
  lemma StampHandedOutTwice(fp: Value -> nat, query: Key, source: Key, x: Outside, y: Outside, a: Value, b: Value)
    requires query != source && x != y && a != b
    ensures
      var body := Looks(source, x, y, a, b);
      var st := CutOff(fp, query, source, body, a);
      var snapshot := [Capture(query, st.nodes[query])];
      var before, after := Empty(query, body), Behind(fp, query, source, body, a);
      && ConfirmedSnapshot(fp, st, CutOffHistory(query, source, x, body, a), map[source := x], {query}, snapshot)
      && SameQueries(st, before, {query})
      && RestoredFrom(fp, snapshot, before, after)
      && !NextStampUnused(after, source)
      && var stale := after.(sourceRevisions := after.sourceRevisions[source := after.nextRevision],
                             nextRevision := after.nextRevision + 1);
      && AllCurrent(stale, stale.nodes[query].dependencies)
      && stale.nodes[query].value == Some(a)
      && Denotes(stale.queries, map[source := y], query, b)
      && !Denotes(stale.queries, map[source := y], query, a)
  {
    CutOffConfirmed(fp, query, source, x, y, a, b);
    var body := Looks(source, x, y, a, b);
    CutOffRestored(fp, query, source, body, a);
    hide ConfirmedSnapshot, RestoredFrom;
    var after := Behind(fp, query, source, body, a);
    assert External(source, Epoch, 2) in after.nodes[query].dependencies;
    assert Scratch(after.queries, map[source := y], query, 1) == Some(b);
    if Denotes(after.queries, map[source := y], query, a) {
      DenotesUnique(after.queries, map[source := y], query, a, b);
    }
  }
}

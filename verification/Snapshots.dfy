/** Bounded snapshots of the memo graph and their restoration into another engine. */
module Snapshots {
  import opened Collections
  import opened Queries
  import opened Memo
  import opened Engine

  /** A durable observation: the fingerprint of a read is not exported. */
  datatype SnapshotObservation =
    | ReadOf(key: Key, revision: nat)
    | ExternalOf(key: Key, kind: ExternalKind, revision: nat)

  datatype SnapshotNode = SnapshotNode(
    key: Key, revision: nat, dirty: bool, value: Option<Value>, dependencies: seq<SnapshotObservation>)

  datatype RestoreReport = RestoreReport(nodes: nat, recoveredDirty: nat)

  datatype RestoreResult = Restored(report: RestoreReport) | DuplicateNode(key: Key)

  function Export(o: Observation): SnapshotObservation {
    match o
    case Read(k, r, _) => ReadOf(k, r)
    case External(k, kind, r) => ExternalOf(k, kind, r)
  }

  function ExportAll(deps: seq<Observation>): (out: seq<SnapshotObservation>)
    ensures |out| == |deps| && forall i :: 0 <= i < |deps| ==> out[i] == Export(deps[i])
  {
    seq(|deps|, i requires 0 <= i < |deps| => Export(deps[i]))
  }

  function Capture(key: Key, n: Node): SnapshotNode {
    SnapshotNode(key, n.revision, n.dirty, n.value, ExportAll(n.dependencies))
  }

  // ---------- what a snapshot contains ----------

  ghost predicate ReadClosed(nodes: map<Key, Node>, keys: set<Key>) {
    forall k, d :: k in keys && k in nodes && d in nodes[k].dependencies && d.Read? ==> d.key in keys
  }

  /** Everything in `keys` is in the read closure of `roots`. */
  ghost predicate OnlyReadable(nodes: map<Key, Node>, roots: set<Key>, keys: set<Key>) {
    forall s: set<Key> :: roots <= s && ReadClosed(nodes, s) ==> keys <= s
  }

  function Reads(n: Node): set<Key> {
    set d | d in n.dependencies && d.Read? :: d.key
  }

  ghost function Mentioned(nodes: map<Key, Node>, roots: set<Key>): set<Key> {
    roots + set k, x | k in nodes && x in Reads(nodes[k]) :: x
  }

  lemma ReadableMore(nodes: map<Key, Node>, roots: set<Key>, keys: set<Key>, next: Key)
    requires OnlyReadable(nodes, roots, keys) && next in keys && next in nodes
    ensures OnlyReadable(nodes, roots, keys + Reads(nodes[next]))
  {
    forall s: set<Key> | roots <= s && ReadClosed(nodes, s)
      ensures keys + Reads(nodes[next]) <= s
    {
    }
  }

  /** All reads of the keys in `done` are in `known`. */
  ghost predicate ReadInto(nodes: map<Key, Node>, done: set<Key>, known: set<Key>) {
    forall k :: k in done ==> k in nodes && Reads(nodes[k]) <= known
  }

  lemma ReadIntoMore(nodes: map<Key, Node>, done: set<Key>, known: set<Key>, next: Key)
    requires ReadInto(nodes, done, known) && next in nodes
    ensures ReadInto(nodes, done + {next}, known + Reads(nodes[next]))
  {
  }

  lemma ReadIntoCloses(nodes: map<Key, Node>, keys: set<Key>)
    requires ReadInto(nodes, keys, keys)
    ensures ReadClosed(nodes, keys)
  {
    forall k, d | k in keys && k in nodes && d in nodes[k].dependencies && d.Read?
      ensures d.key in keys
    {
      assert d.key in Reads(nodes[k]);
    }
  }

  /** `out` captures each key of `keys` exactly once. */
  ghost predicate Captures(nodes: map<Key, Node>, out: seq<SnapshotNode>, keys: set<Key>) {
    && |out| == |keys|
    && (forall i, j :: 0 <= i < j < |out| ==> out[i].key != out[j].key)
    && (forall i :: 0 <= i < |out| ==> out[i].key in keys && out[i].key in nodes && out[i] == Capture(out[i].key, nodes[out[i].key]))
    && (forall k :: k in keys ==> exists i :: 0 <= i < |out| && out[i].key == k)
  }

  lemma CapturesMore(nodes: map<Key, Node>, out: seq<SnapshotNode>, keys: set<Key>, next: Key)
    requires Captures(nodes, out, keys) && next !in keys && next in nodes
    ensures Captures(nodes, out + [Capture(next, nodes[next])], keys + {next})
  {
    var more := out + [Capture(next, nodes[next])];
    assert more[|out|].key == next;
    forall k | k in keys ensures exists i :: 0 <= i < |more| && more[i].key == k {
      var i :| 0 <= i < |out| && out[i].key == k;
      assert more[i].key == k;
    }
  }

  function Edges(out: seq<SnapshotNode>): nat {
    if out == [] then 0 else Edges(out[..|out| - 1]) + |out[|out| - 1].dependencies|
  }

  lemma EdgesMore(out: seq<SnapshotNode>, n: SnapshotNode)
    ensures Edges(out + [n]) == Edges(out) + |n.dependencies|
  {
    assert (out + [n])[..|out|] == out;
  }

  /** What the memos of `keys` observed, counted. */
  ghost function Observed(nodes: map<Key, Node>, keys: set<Key>): nat {
    Sum(keys, (k: Key) => if k in nodes then |nodes[k].dependencies| else 0)
  }

  lemma {:induction false} EdgesObserved(nodes: map<Key, Node>, out: seq<SnapshotNode>, keys: set<Key>)
    requires Captures(nodes, out, keys)
    ensures Edges(out) == Observed(nodes, keys)
    decreases |out|
  {
    hide Captures, Edges, Observed;
    if out == [] {
      NothingCaptured(nodes, keys);
    } else {
      var n := |out| - 1;
      var rest := keys - {out[n].key};
      CapturesLess(nodes, out, keys);
      EdgesObserved(nodes, out[..n], rest);
      ObservedMore(nodes, rest, out[n].key);
      assert keys == rest + {out[n].key} && out == out[..n] + [out[n]];
      EdgesMore(out[..n], out[n]);
    }
  }

  lemma NothingCaptured(nodes: map<Key, Node>, keys: set<Key>)
    requires Captures(nodes, [], keys)
    ensures Edges([]) == Observed(nodes, keys) == 0
  {
    assert keys == {};
    SumNothing((k: Key) => if k in nodes then |nodes[k].dependencies| else 0);
  }

  lemma ObservedMore(nodes: map<Key, Node>, keys: set<Key>, k: Key)
    requires k !in keys
    ensures Observed(nodes, keys + {k}) == Observed(nodes, keys) + if k in nodes then |nodes[k].dependencies| else 0
  {
    SumAdd(keys, (k: Key) => if k in nodes then |nodes[k].dependencies| else 0, k);
  }

  lemma CapturesLess(nodes: map<Key, Node>, out: seq<SnapshotNode>, keys: set<Key>)
    requires Captures(nodes, out, keys) && out != []
    ensures Captures(nodes, out[..|out| - 1], keys - {out[|out| - 1].key})
    ensures var last := out[|out| - 1]; last.key in keys && last.key in nodes && |last.dependencies| == |nodes[last.key].dependencies|
  {
    var n := |out| - 1;
    CountWithout(keys, out[n].key);
    forall k | k in keys - {out[n].key} ensures exists i :: 0 <= i < |out[..n]| && out[..n][i].key == k {
      var i :| 0 <= i < |out| && out[i].key == k;
      assert out[..n][i].key == k;
    }
  }

  /** The read closure: the least set that holds the roots and what its memos read. */
  ghost function ReadClosure(nodes: map<Key, Node>, roots: set<Key>): set<Key> {
    set k | k in Mentioned(nodes, roots) && forall s: set<Key> :: roots <= s && ReadClosed(nodes, s) ==> k in s
  }

  lemma ClosureExactly(nodes: map<Key, Node>, roots: set<Key>, keys: set<Key>)
    requires OnlyReadable(nodes, roots, keys)
    ensures keys <= Mentioned(nodes, roots) ==> keys <= ReadClosure(nodes, roots)
    ensures roots <= keys && ReadClosed(nodes, keys) && keys <= Mentioned(nodes, roots) ==> keys == ReadClosure(nodes, roots)
  {
  }

  datatype Walked = Complete(nodes: seq<SnapshotNode>) | Absent(key: Key) | OverBudget(limit: nat, consumed: nat)

  /** Walks the read closure of `roots` in some discovery order. `found` is the part of
      the closure captured so far, with the offending key on a refusal. */
  method Walk(nodes: map<Key, Node>, roots: set<Key>, maxNodes: nat, maxEdges: nat)
      returns (r: Walked, ghost found: set<Key>, ghost captured: seq<SnapshotNode>)
    ensures OnlyReadable(nodes, roots, found) && found <= Mentioned(nodes, roots)
    ensures r.Complete? ==> Captures(nodes, r.nodes, found) && roots <= found && ReadClosed(nodes, found)
    ensures r.Complete? ==> |r.nodes| <= maxNodes && Edges(r.nodes) <= maxEdges
    // a refusal is justified by the closure itself
    ensures r.Absent? ==> r.key in found && r.key !in nodes
    ensures r.OverBudget? ==> r.consumed > r.limit
    ensures r.OverBudget? ==> || (r.limit == maxNodes && r.consumed == maxNodes + 1 == |found|)
                              || (r.limit == maxEdges && Captures(nodes, captured, found) && r.consumed == Edges(captured))
  {
    hide OnlyReadable, ReadInto, Captures, Reads, ReadClosed, Mentioned, Edges;
    var pending, seen: set<Key> := roots, {};
    ghost var known, all := roots, Mentioned(nodes, roots);
    var out, edges := [], 0;
    found, captured := {}, [];
    StartSnapshot(nodes, roots);
    while pending != {}
      invariant roots <= known && known <= all && pending <= known && seen <= known
      invariant forall x :: x in known ==> x in seen || x in pending
      invariant ReadInto(nodes, seen, known) && OnlyReadable(nodes, roots, known)
      invariant Captures(nodes, out, seen) && |out| == |seen|
      invariant |out| <= maxNodes && edges == Edges(out) && edges <= maxEdges
      decreases all - seen, |pending|
    {
      var key :| key in pending;
      pending := pending - {key};
      if key !in seen {
        ReadableFewer(nodes, roots, known, seen + {key});
        if |out| + 1 > maxNodes {
          return OverBudget(maxNodes, |out| + 1), seen + {key}, [];
        }
        if key !in nodes {
          return Absent(key), seen + {key}, [];
        }
        var node := nodes[key];
        CapturesMore(nodes, out, seen, key);
        EdgesMore(out, Capture(key, node));
        out := out + [Capture(key, node)];
        edges := edges + |node.dependencies|;
        if edges > maxEdges {
          return OverBudget(maxEdges, edges), seen + {key}, out;
        }
        ReadIntoMore(nodes, seen, known, key);
        ReadableMore(nodes, roots, known, key);
        MentionedReads(nodes, roots, key);
        seen := seen + {key};
        pending := pending + Reads(node);
        known := known + Reads(node);
      }
    }
    assert seen == known;
    ReadIntoCloses(nodes, seen);
    r, found := Complete(out), seen;
  }

  /** Exports the read closure of `roots`; a budget stop leaves a continuation token. */
  method TakeSnapshot(engine: IncrementalEngine, roots: set<Key>, maxNodes: nat, maxEdges: nat)
      returns (r: Result<seq<SnapshotNode>>, ghost closure: set<Key>)
    requires engine.Valid()
    modifies engine`continuations, engine`nextToken
    ensures engine.Valid()
    ensures r.Ok? ==> Captures(engine.nodes, r.value, closure) && |r.value| <= maxNodes && Edges(r.value) <= maxEdges
    ensures r.Ok? ==> roots <= closure && ReadClosed(engine.nodes, closure) && closure == ReadClosure(engine.nodes, roots)
    ensures OnlyReadable(engine.nodes, roots, closure) && closure <= ReadClosure(engine.nodes, roots)
    // there is a snapshot exactly if everything read is there and fits
    ensures r.Ok? <==> Fitting(engine.nodes, ReadClosure(engine.nodes, roots), maxNodes, maxEdges)
    ensures r.Ok? ==> engine.continuations == old(engine.continuations) && engine.nextToken == old(engine.nextToken)
    ensures r.Err? ==> match r.error
              case UnknownQuery(k) =>
                k in closure && k !in engine.nodes && engine.continuations == old(engine.continuations) && engine.nextToken == old(engine.nextToken)
              case BudgetExceeded(kind, limit, consumed, token) =>
                && kind == Output && consumed > limit && token == Some(old(engine.nextToken)) && engine.nextToken == token.value + 1
                && (|| (limit == maxNodes && consumed == maxNodes + 1 == |closure|)
                    || (limit == maxEdges && consumed == Observed(engine.nodes, closure)))
                && exists root :: root in roots && engine.continuations == old(engine.continuations)[token.value := root]
              case _ => false
  {
    hide Inv, OnlyReadable, Captures, ReadClosed, ReadClosure, Mentioned, Observed, Fitting;
    if roots == {} {
      StartSnapshot(engine.nodes, roots);
      ClosureExactly(engine.nodes, roots, {});
      WalkFits(engine.nodes, roots, {}, maxNodes, maxEdges, Complete([]), []);
      return Ok([]), {};
    }
    var root :| root in roots;
    var walked, found, captured := Walk(engine.nodes, roots, maxNodes, maxEdges);
    closure := found;
    ClosureExactly(engine.nodes, roots, found);
    WalkFits(engine.nodes, roots, found, maxNodes, maxEdges, walked, captured);
    match walked
    case Complete(nodes) => r := Ok(nodes);
    case Absent(key) => r := Err(UnknownQuery(key));
    case OverBudget(limit, consumed) =>
      if Captures(engine.nodes, captured, found) { EdgesObserved(engine.nodes, captured, found); }
      r := Err(BudgetExceeded(Output, limit, consumed, Some(engine.nextToken)));
      engine.continuations := engine.continuations[engine.nextToken := root];
      engine.nextToken := engine.nextToken + 1;
  }

  /** All of these have memos, and they and what they observed are few enough. */
  ghost predicate Fitting(nodes: map<Key, Node>, keys: set<Key>, maxNodes: nat, maxEdges: nat) {
    keys <= nodes.Keys && |keys| <= maxNodes && Observed(nodes, keys) <= maxEdges
  }

  /** A walk is complete exactly if the closure fits. */
  lemma WalkFits(nodes: map<Key, Node>, roots: set<Key>, found: set<Key>, maxNodes: nat, maxEdges: nat, r: Walked, captured: seq<SnapshotNode>)
    requires found <= ReadClosure(nodes, roots) && (r.Complete? ==> found == ReadClosure(nodes, roots))
    requires r.Complete? ==> Captures(nodes, r.nodes, found) && |r.nodes| <= maxNodes && Edges(r.nodes) <= maxEdges
    requires r.Absent? ==> r.key in found && r.key !in nodes
    requires r.OverBudget? ==> r.consumed > r.limit
    requires r.OverBudget? ==> || (r.limit == maxNodes && r.consumed == maxNodes + 1 == |found|)
                               || (r.limit == maxEdges && Captures(nodes, captured, found) && r.consumed == Edges(captured))
    ensures r.Complete? <==> Fitting(nodes, ReadClosure(nodes, roots), maxNodes, maxEdges)
  {
    hide ReadClosure;
    SubsetSize(found, ReadClosure(nodes, roots));
    SumGrows(found, ReadClosure(nodes, roots), (k: Key) => if k in nodes then |nodes[k].dependencies| else 0);
    if r.Complete? {
      EdgesObserved(nodes, r.nodes, found);
      forall k | k in found ensures k in nodes {
        var i :| 0 <= i < |r.nodes| && r.nodes[i].key == k;
      }
    } else if Captures(nodes, captured, found) {
      EdgesObserved(nodes, captured, found);
    }
  }

  lemma StartSnapshot(nodes: map<Key, Node>, roots: set<Key>)
    ensures ReadInto(nodes, {}, roots) && OnlyReadable(nodes, roots, roots) && Captures(nodes, [], {})
    ensures roots <= Mentioned(nodes, roots) && ReadClosed(nodes, {}) && OnlyReadable(nodes, roots, {})
    ensures Edges([]) == 0
  {
  }

  lemma ReadableFewer(nodes: map<Key, Node>, roots: set<Key>, keys: set<Key>, fewer: set<Key>)
    requires OnlyReadable(nodes, roots, keys) && fewer <= keys
    ensures OnlyReadable(nodes, roots, fewer)
  {
  }

  lemma MentionedReads(nodes: map<Key, Node>, roots: set<Key>, key: Key)
    requires key in nodes
    ensures Reads(nodes[key]) <= Mentioned(nodes, roots)
  {
  }

  // ---------- restoring ----------

  /** The node a snapshot has for `key`, if any. */
  function Find(snapshot: seq<SnapshotNode>, key: Key): (r: Option<SnapshotNode>)
    ensures r.Some? <==> exists n :: n in snapshot && n.key == key
    ensures r.Some? ==> r.value in snapshot && r.value.key == key
  {
    if snapshot == [] then None
    else if snapshot[0].key == key then Some(snapshot[0])
    else
      assert forall n :: n in snapshot <==> n == snapshot[0] || n in snapshot[1..];
      Find(snapshot[1..], key)
  }

  function RestoredFingerprint(fp: Value -> nat, snapshot: seq<SnapshotNode>, key: Key): nat {
    var n := Find(snapshot, key);
    if n.Some? && n.value.value.Some? then fp(n.value.value.value) else 0
  }

  function Import(fp: Value -> nat, snapshot: seq<SnapshotNode>, o: SnapshotObservation): Observation {
    match o
    case ReadOf(k, r) => Read(k, r, RestoredFingerprint(fp, snapshot, k))
    case ExternalOf(k, kind, r) => External(k, kind, r)
  }

  function ImportNode(fp: Value -> nat, snapshot: seq<SnapshotNode>, n: SnapshotNode): Node {
    Node(n.revision, true, n.value, if n.value.Some? then Some(fp(n.value.value)) else None,
         seq(|n.dependencies|, i requires 0 <= i < |n.dependencies| => Import(fp, snapshot, n.dependencies[i])))
  }

  /** Raises the stamp of an externally observed key to the observed revision. */
  function RaiseOne(stamps: map<Key, nat>, o: SnapshotObservation): map<Key, nat> {
    if o.ReadOf? then stamps
    else if o.key in stamps && o.revision <= stamps[o.key] then stamps
    else stamps[o.key := o.revision]
  }

  function RaiseDeps(stamps: map<Key, nat>, deps: seq<SnapshotObservation>): map<Key, nat> {
    if deps == [] then stamps else RaiseOne(RaiseDeps(stamps, deps[..|deps| - 1]), deps[|deps| - 1])
  }

  function RaiseAll(stamps: map<Key, nat>, snapshot: seq<SnapshotNode>): map<Key, nat> {
    if snapshot == [] then stamps
    else RaiseDeps(RaiseAll(stamps, snapshot[..|snapshot| - 1]), snapshot[|snapshot| - 1].dependencies)
  }

  /** Each stamp is the largest of what it was and what was observed; nothing else is
      stamped. */
  ghost predicate Largest(stamps: map<Key, nat>, out: map<Key, nat>, seen: set<(Key, nat)>) {
    && (forall k :: k in stamps ==> k in out && stamps[k] <= out[k])
    && (forall p :: p in seen ==> p.0 in out && p.1 <= out[p.0])
    && (forall k :: k in out ==> (k in stamps && out[k] == stamps[k]) || (k, out[k]) in seen)
  }

  ghost function Seen(deps: seq<SnapshotObservation>): set<(Key, nat)> {
    set o | o in deps && o.ExternalOf? :: (o.key, o.revision)
  }

  ghost function SeenBy(snapshot: seq<SnapshotNode>): set<(Key, nat)> {
    set n, o | n in snapshot && o in n.dependencies && o.ExternalOf? :: (o.key, o.revision)
  }

  lemma LargestTwice(a: map<Key, nat>, b: map<Key, nat>, c: map<Key, nat>, first: set<(Key, nat)>, second: set<(Key, nat)>)
    requires Largest(a, b, first) && Largest(b, c, second)
    ensures Largest(a, c, first + second)
  {
  }

  lemma {:induction false} RaiseDepsLargest(stamps: map<Key, nat>, deps: seq<SnapshotObservation>)
    ensures Largest(stamps, RaiseDeps(stamps, deps), Seen(deps))
    decreases |deps|
  {
    if deps != [] {
      var front, last := deps[..|deps| - 1], deps[|deps| - 1];
      assert deps == front + [last];
      RaiseDepsLargest(stamps, front);
      var before := RaiseDeps(stamps, front);
      assert Largest(before, RaiseOne(before, last), Seen([last]));
      LargestTwice(stamps, before, RaiseOne(before, last), Seen(front), Seen([last]));
      assert Seen(deps) == Seen(front) + Seen([last]);
    }
  }

  lemma {:induction false} RaiseAllLargest(stamps: map<Key, nat>, snapshot: seq<SnapshotNode>)
    ensures Largest(stamps, RaiseAll(stamps, snapshot), SeenBy(snapshot))
    decreases |snapshot|
  {
    if snapshot != [] {
      var front, last := snapshot[..|snapshot| - 1], snapshot[|snapshot| - 1];
      assert snapshot == front + [last];
      RaiseAllLargest(stamps, front);
      var before := RaiseAll(stamps, front);
      RaiseDepsLargest(before, last.dependencies);
      LargestTwice(stamps, before, RaiseAll(stamps, snapshot), SeenBy(front), Seen(last.dependencies));
      assert SeenBy(snapshot) == SeenBy(front) + Seen(last.dependencies);
    }
  }

  ghost predicate DistinctKeys(snapshot: seq<SnapshotNode>) {
    forall i, j :: 0 <= i < j < |snapshot| ==> snapshot[i].key != snapshot[j].key
  }

  /** Reverse edges are the exact inverse of the recorded observations. */
  ghost predicate ExactInverse(nodes: map<Key, Node>, reverse: map<Key, set<Key>>) {
    forall x, k :: k in Dependents(reverse, x) <==> k in nodes && Observes(nodes[k].dependencies, x)
  }

  /** `nodes` holds exactly the imported nodes of `snapshot[..upTo]`. */
  ghost predicate Imported(fp: Value -> nat, snapshot: seq<SnapshotNode>, upTo: nat, nodes: map<Key, Node>)
    requires upTo <= |snapshot|
  {
    && (forall i :: 0 <= i < upTo ==>
          snapshot[i].key in nodes && nodes[snapshot[i].key] == ImportNode(fp, snapshot, snapshot[i]))
    && forall k :: k in nodes ==> exists i :: 0 <= i < upTo && snapshot[i].key == k
  }

  method FirstDuplicate(snapshot: seq<SnapshotNode>) returns (r: Option<Key>)
    ensures r.None? <==> DistinctKeys(snapshot)
    ensures r.Some? ==> exists i, j :: 0 <= i < j < |snapshot| && snapshot[i].key == r.value == snapshot[j].key && DistinctKeys(snapshot[..j])
  {
    var keys := {};
    for i := 0 to |snapshot|
      invariant forall j :: 0 <= j < i ==> snapshot[j].key in keys
      invariant forall k :: k in keys ==> exists j :: 0 <= j < i && snapshot[j].key == k
      invariant DistinctKeys(snapshot[..i])
    {
      if snapshot[i].key in keys {
        return Some(snapshot[i].key);
      }
      keys := keys + {snapshot[i].key};
    }
    assert snapshot[..|snapshot|] == snapshot;
    r := None;
  }

  /** The revision counter raised over every node revision of the snapshot. */
  function NextAbove(next: nat, snapshot: seq<SnapshotNode>): nat {
    if snapshot == [] then next
    else
      var rest := NextAbove(next, snapshot[..|snapshot| - 1]);
      var n := snapshot[|snapshot| - 1];
      if n.revision + 1 > rest then n.revision + 1 else rest
  }

  lemma {:induction false} NextAboveBounds(next: nat, snapshot: seq<SnapshotNode>)
    ensures next <= NextAbove(next, snapshot)
    ensures forall n :: n in snapshot ==> n.revision < NextAbove(next, snapshot)
    ensures NextAbove(next, snapshot) == next || exists n :: n in snapshot && NextAbove(next, snapshot) == n.revision + 1
    decreases |snapshot|
  {
    if snapshot != [] {
      var last := |snapshot| - 1;
      NextAboveBounds(next, snapshot[..last]);
      assert forall n :: n in snapshot <==> n in snapshot[..last] || n == snapshot[last];
    }
  }

  lemma ImportedMore(fp: Value -> nat, snapshot: seq<SnapshotNode>, i: nat, nodes: map<Key, Node>)
    requires i < |snapshot| && DistinctKeys(snapshot) && Imported(fp, snapshot, i, nodes)
    ensures Imported(fp, snapshot, i + 1, nodes[snapshot[i].key := ImportNode(fp, snapshot, snapshot[i])])
  {
    var more := nodes[snapshot[i].key := ImportNode(fp, snapshot, snapshot[i])];
    forall k | k in more ensures exists j :: 0 <= j < i + 1 && snapshot[j].key == k {
      if k == snapshot[i].key {
      } else {
        var j :| 0 <= j < i && snapshot[j].key == k;
        assert 0 <= j < i + 1 && snapshot[j].key == k;
      }
    }
  }

  /** Imports every node, dirty, and raises the revision counter over them. */
  method ImportNodes(fp: Value -> nat, snapshot: seq<SnapshotNode>, nextRevision: nat)
      returns (nodes: map<Key, Node>, next: nat, recovered: nat)
    requires DistinctKeys(snapshot)
    ensures Imported(fp, snapshot, |snapshot|, nodes)
    ensures next == NextAbove(nextRevision, snapshot) && recovered == CountConfirmed(snapshot)
  {
    hide Imported, ImportNode, DistinctKeys;
    nodes, next, recovered := map[], nextRevision, 0;
    NothingImported(fp, snapshot);
    for i := 0 to |snapshot|
      invariant Imported(fp, snapshot, i, nodes)
      invariant next == NextAbove(nextRevision, snapshot[..i]) && recovered == CountConfirmed(snapshot[..i])
    {
      var n := snapshot[i];
      assert snapshot[..i + 1][..i] == snapshot[..i];
      ImportedMore(fp, snapshot, i, nodes);
      if n.revision + 1 > next { next := n.revision + 1; }
      if !n.dirty { recovered := recovered + 1; }
      nodes := nodes[n.key := ImportNode(fp, snapshot, n)];
    }
    assert snapshot[..|snapshot|] == snapshot;
  }

  lemma NothingImported(fp: Value -> nat, snapshot: seq<SnapshotNode>)
    ensures Imported(fp, snapshot, 0, map[])
  {
  }

  method RaiseStamps(stamps: map<Key, nat>, snapshot: seq<SnapshotNode>) returns (out: map<Key, nat>)
    ensures out == RaiseAll(stamps, snapshot) && Largest(stamps, out, SeenBy(snapshot))
  {
    hide Largest, RaiseDeps, SeenBy;
    RaiseAllLargest(stamps, snapshot);
    out := stamps;
    for i := 0 to |snapshot|
      invariant out == RaiseAll(stamps, snapshot[..i])
    {
      out := RaiseNode(out, snapshot[i].dependencies);
      assert snapshot[..i + 1][..i] == snapshot[..i];
    }
    assert snapshot[..|snapshot|] == snapshot;
  }

  method RaiseNode(stamps: map<Key, nat>, deps: seq<SnapshotObservation>) returns (out: map<Key, nat>)
    ensures out == RaiseDeps(stamps, deps)
  {
    hide RaiseOne;
    out := stamps;
    for j := 0 to |deps|
      invariant out == RaiseDeps(stamps, deps[..j])
    {
      assert deps[..j + 1][..j] == deps[..j];
      out := RaiseOne(out, deps[j]);
    }
    assert deps[..|deps|] == deps;
  }

  ghost predicate InverseOf(nodes: map<Key, Node>, done: set<Key>, reverse: map<Key, set<Key>>) {
    forall x, k :: k in Dependents(reverse, x) <==> k in done && k in nodes && Observes(nodes[k].dependencies, x)
  }

  lemma InverseMore(nodes: map<Key, Node>, done: set<Key>, reverse: map<Key, set<Key>>, key: Key, more: map<Key, set<Key>>)
    requires InverseOf(nodes, done, reverse) && key in nodes
    requires forall x :: Dependents(more, x) ==
               Dependents(reverse, x) + (if Observes(nodes[key].dependencies, x) then {key} else {})
    ensures InverseOf(nodes, done + {key}, more)
  {
    forall x, k ensures k in Dependents(more, x) <==> k in done + {key} && k in nodes && Observes(nodes[k].dependencies, x) {
      assert k in Dependents(more, x) <==> k in Dependents(reverse, x) || (k == key && Observes(nodes[key].dependencies, x));
    }
  }

  method RebuildReverse(nodes: map<Key, Node>) returns (reverse: map<Key, set<Key>>)
    ensures ExactInverse(nodes, reverse)
  {
    hide InverseOf, Dependents, Observes;
    reverse := map[];
    var done: set<Key>, rest := {}, nodes.Keys;
    NoInverse(nodes);
    while rest != {}
      invariant rest <= nodes.Keys && forall k :: k in nodes ==> k in done || k in rest
      invariant InverseOf(nodes, done, reverse)
      decreases |rest|
    {
      var key :| key in rest;
      var more := Link(reverse, key, nodes[key].dependencies);
      InverseMore(nodes, done, reverse, key, more);
      reverse, done, rest := more, done + {key}, rest - {key};
    }
    InverseDone(nodes, done, reverse);
  }

  lemma NoInverse(nodes: map<Key, Node>)
    ensures InverseOf(nodes, {}, map[])
  {
  }

  lemma InverseDone(nodes: map<Key, Node>, done: set<Key>, reverse: map<Key, set<Key>>)
    requires InverseOf(nodes, done, reverse) && forall k :: k in nodes ==> k in done
    ensures ExactInverse(nodes, reverse)
  {
  }

  /** Replaces the memo graph of `engine`; a duplicate key leaves it untouched. */
  method RestoreSnapshot(engine: IncrementalEngine, snapshot: seq<SnapshotNode>, ghost h: History)
      returns (r: RestoreResult)
    modifies engine`nodes, engine`reverse, engine`sourceRevisions, engine`nextRevision, engine`hist
    ensures r.Restored? <==> DistinctKeys(snapshot)
    ensures r.DuplicateNode? ==> engine.Table() == old(engine.Table()) && engine.hist == old(engine.hist)
    ensures r.DuplicateNode? ==>
              exists i, j :: 0 <= i < j < |snapshot| && snapshot[i].key == r.key == snapshot[j].key && DistinctKeys(snapshot[..j])
    ensures r.Restored? ==> RestoredFrom(engine.fingerprint, snapshot, old(engine.Table()), engine.Table()) && engine.hist == h
    ensures r.Restored? ==> r.report.recoveredDirty == |ConfirmedAt(snapshot)| && r.report.nodes == |snapshot|
  {
    hide ExactInverse, RaiseAll, NextAbove, Imported, DistinctKeys, CountConfirmed;
    var duplicate := FirstDuplicate(snapshot);
    if duplicate.Some? { return DuplicateNode(duplicate.value); }
    var nodes, next, recovered := ImportNodes(engine.fingerprint, snapshot, engine.nextRevision);
    var stamps := RaiseStamps(engine.sourceRevisions, snapshot);
    var reverse := RebuildReverse(nodes);
    ImportedCount(engine.fingerprint, snapshot, nodes);
    CountConfirmedExactly(snapshot);
    engine.nodes, engine.reverse, engine.sourceRevisions, engine.nextRevision := nodes, reverse, stamps, next;
    engine.hist := h;
    r := Restored(RestoreReport(|nodes|, recovered));
  }

  /** The positions of the nodes that were not dirty. */
  ghost function ConfirmedAt(snapshot: seq<SnapshotNode>): set<nat> {
    set i: nat | i < |snapshot| && !snapshot[i].dirty
  }

  lemma {:induction false} CountConfirmedExactly(snapshot: seq<SnapshotNode>)
    ensures CountConfirmed(snapshot) == |ConfirmedAt(snapshot)|
    decreases |snapshot|
  {
    if snapshot != [] {
      var n := |snapshot| - 1;
      CountConfirmedExactly(snapshot[..n]);
      ConfirmedLess(snapshot);
    }
  }

  lemma ConfirmedLess(snapshot: seq<SnapshotNode>)
    requires snapshot != []
    ensures |ConfirmedAt(snapshot)| == |ConfirmedAt(snapshot[..|snapshot| - 1])| + if snapshot[|snapshot| - 1].dirty then 0 else 1
  {
    var n: nat := |snapshot| - 1;
    CountWithout(ConfirmedAt(snapshot), n);
    assert ConfirmedAt(snapshot) - {n} == ConfirmedAt(snapshot[..n]);
  }

  function CountConfirmed(snapshot: seq<SnapshotNode>): nat {
    if snapshot == [] then 0
    else CountConfirmed(snapshot[..|snapshot| - 1]) + if snapshot[|snapshot| - 1].dirty then 0 else 1
  }

  ghost predicate RestoredFrom(fp: Value -> nat, snapshot: seq<SnapshotNode>, before: State, after: State) {
    && after.queries == before.queries
    && Imported(fp, snapshot, |snapshot|, after.nodes)
    && ExactInverse(after.nodes, after.reverse)
    && after.sourceRevisions == RaiseAll(before.sourceRevisions, snapshot)
    && after.nextRevision == NextAbove(before.nextRevision, snapshot)
  }

  lemma {:induction false} DistinctCount(snapshot: seq<SnapshotNode>, keys: set<Key>)
    requires DistinctKeys(snapshot)
    requires forall i :: 0 <= i < |snapshot| ==> snapshot[i].key in keys
    requires forall k :: k in keys ==> exists i :: 0 <= i < |snapshot| && snapshot[i].key == k
    ensures |keys| == |snapshot|
    decreases |snapshot|
  {
    if snapshot == [] {
      assert keys == {};
    } else {
      var n := |snapshot| - 1;
      var key := snapshot[n].key;
      forall k | k in keys - {key} ensures exists i :: 0 <= i < n && snapshot[..n][i].key == k {
        var i :| 0 <= i < |snapshot| && snapshot[i].key == k;
        assert snapshot[..n][i].key == k;
      }
      DistinctCount(snapshot[..n], keys - {key});
    }
  }

  lemma ImportedCount(fp: Value -> nat, snapshot: seq<SnapshotNode>, nodes: map<Key, Node>)
    requires DistinctKeys(snapshot) && Imported(fp, snapshot, |snapshot|, nodes)
    ensures |nodes| == |snapshot|
  {
    DistinctCount(snapshot, nodes.Keys);
    assert |nodes| == |nodes.Keys|;
  }
}

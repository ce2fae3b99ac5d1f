/** Where the engine stops being consistent: exactly when replacing a callback and removing
    a key go wrong, shown on the engine itself. */
module Boundaries {
  import opened Collections
  import opened Queries
  import opened Memo
  import opened Runs
  import opened Causes
  import opened Engine

  // ---------- replacing a callback ----------

  ghost predicate HasMemo(st: State, key: Key) {
    key in st.nodes && st.nodes[key].value.Some?
  }

  /** Where everything a memo read is confirmed, it is outdated exactly when one of its
      observations is not current: equal revisions never differ in fingerprint. */
  lemma OutdatedExactly(fp: Value -> nat, st: State, h: History, world: World, key: Key)
    requires Inv(fp, st, h, world) && HasMemo(st, key) && ReadsClean(st.nodes, st.nodes[key].dependencies)
    ensures Outdated(st.nodes, st.sourceRevisions, st.nodes[key].dependencies) <==> !AllCurrent(st, st.nodes[key].dependencies)
  {
    hide Replays;
    var deps := st.nodes[key].dependencies;
    if AllCurrent(st, deps) {
      CurrentNotOutdated(st, deps);
    } else {
      var d :| d in deps && !Current(st.nodes, st.sourceRevisions, d);
      assert NodeOk(fp, st, h, key);
      ReadsRecorded(fp, h, h.made[key], deps, st.nodes[key].value.value);
      if d.Read? { assert NodeOk(fp, st, h, d.key); }
      assert Superseded(st.nodes, st.sourceRevisions, d);
    }
  }

  /** The confirmed memos and `key`, in the order they were or would be confirmed. */
  ghost function Ranks(st: State, h: History, key: Key): map<Key, nat> {
    (map k | k in st.nodes && Clean(st.nodes, k) && k in h.rank :: h.rank[k])
    [key := if Clean(st.nodes, key) && key in h.rank then h.rank[key] else h.clock]
  }

  lemma CurrentFresh(fp: Value -> nat, st: State, h: History, world: World, key: Key)
    requires Inv(fp, st, h, world) && HasMemo(st, key) && AllCurrent(st, st.nodes[key].dependencies)
    ensures var keep := Compact(Ranks(st, h, key)); Fresh(st, keep) && key in keep && keep[key] < |st.nodes|
  {
    hide Replays;
    var keep := Ranks(st, h, key);
    forall k | k in keep
      ensures k in st.queries && k in st.nodes && st.nodes[k].value.Some?
      ensures forall d :: d in st.nodes[k].dependencies ==>
        match d
        case Read(x, r, f) =>
          && x in keep && keep[x] < keep[k] && x in st.nodes
          && st.nodes[x].revision == r && st.nodes[x].fingerprint == Some(f)
        case External(x, _, r) => SourceRevision(st.sourceRevisions, x) == r
    {
      RankedReads(fp, st, h, world, key, k);
    }
    CompactFresh(st, keep);
    CompactBound(keep, key, st.nodes.Keys);
    assert |st.nodes| == |st.nodes.Keys|;
  }

  lemma RankedReads(fp: Value -> nat, st: State, h: History, world: World, key: Key, k: Key)
    requires Inv(fp, st, h, world) && HasMemo(st, key) && AllCurrent(st, st.nodes[key].dependencies) && k in Ranks(st, h, key)
    ensures k in st.queries && HasMemo(st, k) && AllCurrent(st, st.nodes[k].dependencies)
    ensures forall d :: d in st.nodes[k].dependencies && d.Read? ==>
              d.key in Ranks(st, h, key) && Ranks(st, h, key)[d.key] < Ranks(st, h, key)[k]
  {
    hide Replays;
    assert NodeOk(fp, st, h, k);
    if Clean(st.nodes, k) { assert CleanOk(st, h, k); }
    forall d | d in st.nodes[k].dependencies && d.Read?
      ensures d.key in Ranks(st, h, key) && Ranks(st, h, key)[d.key] < Ranks(st, h, key)[k]
    {
      assert Current(st.nodes, st.sourceRevisions, d);
      assert CleanOk(st, h, d.key);
    }
  }

  /** Marking nodes dirty, changing callbacks and dropping other nodes leaves fresh memos
      fresh. */
  lemma FreshElsewhere(st: State, st': State, keep: map<Key, nat>)
    requires Fresh(st, keep) && st'.sourceRevisions == st.sourceRevisions
    requires forall k :: k in keep ==> k in st'.queries && k in st'.nodes && k in st.nodes && SameMemo(st.nodes[k], st'.nodes[k])
    ensures Fresh(st', keep)
  {
  }

  /** The memo of `key` is still the old one, and everything it observed holds. */
  ghost predicate Kept(before: State, after: State, key: Key, v: Value) {
    && HasMemo(before, key) && before.nodes[key].value == Some(v)
    && key in after.nodes && SameMemo(before.nodes[key], after.nodes[key]) && AllCurrent(after, before.nodes[key].dependencies)
  }

  /** Registers `body` over whatever memo `key` has and asks for `key`. An answer is the
      recomputed one if there was no memo or if, with everything it read up to date, the
      memo is outdated; otherwise it is the old memo, whatever the callback is. A memo
      outdated already stays so, and one whose observations are all current is kept. */
  method ReplaceAndAsk(engine: IncrementalEngine, key: Key, body: Body, budgets: Budgets) returns (r: Result<Value>)
    requires engine.Valid() && Faithful(engine.Table(), engine.hist)
    modifies engine
    ensures engine.Valid() && engine.queries == old(engine.queries)[key := body] && engine.world == old(engine.world)
    ensures r.Ok? ==>
              if old(HasMemo(engine.Table(), key)) && !Outdated(engine.nodes, engine.sourceRevisions, old(engine.nodes)[key].dependencies)
              then Kept(old(engine.Table()), engine.Table(), key, r.value)
              else Denotes(engine.queries, engine.world, key, r.value)
    ensures r.Ok? && old(!HasMemo(engine.Table(), key) || Outdated(engine.nodes, engine.sourceRevisions, engine.nodes[key].dependencies)) ==>
              Denotes(engine.queries, engine.world, key, r.value)
    ensures old(HasMemo(engine.Table(), key) && AllCurrent(engine.Table(), engine.nodes[key].dependencies)) && budgets.maxDepth >= |old(engine.nodes)| ==>
              r.Ok? && Kept(old(engine.Table()), engine.Table(), key, r.value)
  {
    hide Inv, Fresh, FaithfulAt, Provenance, Denotes, Trusted, Justified, Outdated, AllCurrent, StampsBelow, ReverseClosed,
      OnlyReachable, NoRepeats, Explained, Unhindered, Bill, Grounded;
    ghost var st, h := engine.Table(), engine.hist;
    ghost var keep := Compact(Ranks(st, h, key));
    ghost var stands := HasMemo(st, key) && AllCurrent(st, st.nodes[key].dependencies);
    if stands { CurrentFresh(engine.fingerprint, st, h, engine.world, key); }
    ghost var dirtied := engine.RegisterQuery(key, body);
    ghost var registered := engine.Table();
    if stands { StillFresh(st, registered, keep, key, dirtied); }
    ghost var run;
    r, run := engine.Verify(key, budgets, keep);
    if r.Ok? {
      AfterReplacing(engine.fingerprint, st, registered, engine.Table(), engine.hist, h, engine.world, key, body);
    }
  }

  lemma StillFresh(st: State, registered: State, keep: map<Key, nat>, key: Key, dirtied: set<Key>)
    requires Fresh(st, keep) && key in keep && key in st.nodes
    requires registered.sourceRevisions == st.sourceRevisions && st.queries.Keys <= registered.queries.Keys
    requires registered.nodes == MarkDirty(st.nodes[key := st.nodes[key].(dirty := true)], dirtied)
    ensures Fresh(registered, keep)
  {
    forall k | k in keep ensures k in st.nodes && k in registered.nodes && SameMemo(st.nodes[k], registered.nodes[k]) && k in registered.queries {
      assert k in st.queries && k in st.nodes;
    }
    FreshElsewhere(st, registered, keep);
  }

  /** What verifying `key` leaves after its callback was replaced. */
  lemma AfterReplacing(fp: Value -> nat, st: State, registered: State, after: State, h': History, h: History, world: World, key: Key, body: Body)
    requires Inv(fp, after, h', world) && Clean(after.nodes, key)
    requires Provenance(registered, h, after, h')
    requires after.queries == registered.queries && key in after.queries && after.queries[key] == body
    requires registered.sourceRevisions == st.sourceRevisions == after.sourceRevisions
    requires forall k :: k != key ==> FaithfulAt(after, h', k)
    requires FaithfulAt(registered, h, key) ==> FaithfulAt(after, h', key)
    requires key in registered.nodes && SameMemo(if key in st.nodes then st.nodes[key] else DEFAULT_NODE, registered.nodes[key])
    requires FaithfulAt(registered, h, key) <==>
      (!HasMemo(st, key) || (key in h.made && h.made[key] == body) || Outdated(st.nodes, st.sourceRevisions, st.nodes[key].dependencies))
    requires SameMemo(registered.nodes[key], after.nodes[key]) || Justified(registered, after, key)
    ensures after.nodes[key].value.Some?
    ensures HasMemo(st, key) && SameMemo(registered.nodes[key], after.nodes[key]) ==> Kept(st, after, key, after.nodes[key].value.value)
    ensures if HasMemo(st, key) && !Outdated(after.nodes, after.sourceRevisions, st.nodes[key].dependencies)
            then Kept(st, after, key, after.nodes[key].value.value)
            else Denotes(after.queries, world, key, after.nodes[key].value.value)
    ensures !HasMemo(st, key) || Outdated(st.nodes, st.sourceRevisions, st.nodes[key].dependencies) ==>
              Denotes(after.queries, world, key, after.nodes[key].value.value)
  {
    hide Replays, Outdated, Denotes, Moved;
    assert NodeOk(fp, after, h', key) && CleanOk(after, h', key);
    CurrentNotOutdated(after, after.nodes[key].dependencies);
    if FaithfulAt(after, h', key) { FaithfulDenotes(fp, after, h', world, key); }
    if HasMemo(st, key) && Justified(registered, after, key) {
      var d :| d in st.nodes[key].dependencies && Moved(after, d);
      MovedOutdates(after, st.nodes[key].dependencies, d);
    }
  }

  lemma MovedOutdates(st: State, deps: seq<Observation>, d: Observation)
    requires d in deps && Moved(st, d)
    ensures Outdated(st.nodes, st.sourceRevisions, deps)
  {
    assert Superseded(st.nodes, st.sourceRevisions, d);
  }

  /** Wherever the observations of a memo are all current, replacing its callback by one
      that returns anything else makes the next answer wrong. */
  method StaleAfterReplacing(engine: IncrementalEngine, key: Key, b: Value, budgets: Budgets) returns (r: Result<Value>)
    requires engine.Valid() && Faithful(engine.Table(), engine.hist) && HasMemo(engine.Table(), key)
    requires AllCurrent(engine.Table(), engine.nodes[key].dependencies) && engine.nodes[key].value != Some(b)
    requires budgets.maxDepth >= |engine.nodes|
    modifies engine
    ensures r.Ok? && old(engine.nodes[key].value) == Some(r.value)
    ensures Denotes(engine.queries, engine.world, key, b) && !Denotes(engine.queries, engine.world, key, r.value)
  {
    hide Inv, FaithfulAt, Outdated, AllCurrent;
    r := ReplaceAndAsk(engine, key, Return(b), budgets);
    assert Scratch(engine.queries, engine.world, key, 1) == Some(b);
    if Denotes(engine.queries, engine.world, key, r.value) {
      DenotesUnique(engine.queries, engine.world, key, r.value, b);
    }
  }

  // ---------- removing an observed key ----------

  /** Removing a query with a node drops its reverse edges. What is then known about the
      memos, with no key given up as lost, stays true exactly when no memo that could still
      be accepted observes the key as an external one. */
  lemma RemoveObserved(fp: Value -> nat, st: State, st': State, h: History, world: World, key: Key, dirtied: set<Key>)
    requires Inv(fp, st, h, world) && h.lost == {} && key in st.nodes
    requires key in dirtied && ReverseClosed(st.reverse, dirtied)
    requires st' == st.(queries := st.queries - {key}, nodes := MarkDirty(st.nodes, dirtied) - {key}, reverse := st'.reverse)
    requires forall x :: x != key ==> Dependents(st'.reverse, x) == Dependents(st.reverse, x) - {key}
    requires Dependents(st'.reverse, key) == {}
    ensures Inv(fp, st', h, world) <==> Unobserved(st.nodes, st.sourceRevisions, key)
  {
    hide Replays, Outdated;
    if Unobserved(st.nodes, st.sourceRevisions, key) {
      RemoveKeepsInv(fp, st, st', h, h, world, key, dirtied);
    }
    if Inv(fp, st', h, world) {
      forall k, d | k in st.nodes && k != key && d in st.nodes[k].dependencies && d.External? && d.key == key
        ensures Outdated(st.nodes - {key}, st.sourceRevisions, st.nodes[k].dependencies)
      {
        assert k in st'.nodes && Covered(st', h, k) && d in st'.nodes[k].dependencies;
        OutdatedWithout(st.nodes, st.sourceRevisions, key, dirtied, st.nodes[k].dependencies);
      }
    }
  }

  /** Outside that condition, on the engine: `k` observes `key` as an external one, and
      everything it and what it reads observed still holds. Remove `key`, verify `k`, and
      announce a change at `key`: `k` is left confirmed although it observed a stamp that
      has moved, so whoever reads it is answered without looking again. */
  method ForgottenSource(engine: IncrementalEngine, key: Key, k: Key, d: Observation, now: World, budgets: Budgets, ghost keep: map<Key, nat>)
    requires engine.Valid() && StampsBelow(engine.Table())
    requires key in engine.queries && key in engine.nodes && Fresh(engine.Table(), keep) && key !in keep
    requires k in keep && keep[k] < budgets.maxDepth && k in engine.nodes
    requires d in engine.nodes[k].dependencies && d.External? && d.key == key
    requires forall x :: x != key ==> Look(now, x) == Look(engine.world, x)
    modifies engine
    ensures Clean(engine.nodes, k) && d in engine.nodes[k].dependencies && !Current(engine.nodes, engine.sourceRevisions, d)
    ensures !engine.Valid()
  {
    hide Inv, Fresh, FaithfulAt, Provenance, Denotes, Trusted, Justified, Outdated, StampsBelow, ReverseClosed,
      NoRepeats, Explained, Unhindered, Bill, Grounded, Unobserved, NextStampUnused;
    ghost var st := engine.Table();
    ghost var dirtied;
    var removed;
    removed, dirtied := engine.RemoveQuery(key);
    ghost var without := engine.Table();
    StillFreshWithout(st, without, keep, key, dirtied);
    var r;
    ghost var run;
    r, run := engine.Verify(k, budgets, keep);
    ghost var confirmed := engine.Table();
    assert SameMemo(without.nodes[k], confirmed.nodes[k]);
    UnusedNext(confirmed, key);
    var revision;
    revision, dirtied := engine.Invalidate(key, now);
    OnlyItself(engine.reverse, key, dirtied, k);
    assert !Tracked(confirmed, key, dirtied);
    assert StampsBelow(confirmed);
    UnusedNow(confirmed, k, d);
  }

  lemma StillFreshWithout(st: State, without: State, keep: map<Key, nat>, key: Key, dirtied: set<Key>)
    requires Fresh(st, keep) && key !in keep
    requires without.sourceRevisions == st.sourceRevisions && without.queries == st.queries - {key}
    requires without.nodes == MarkDirty(st.nodes, dirtied) - {key}
    ensures Fresh(without, keep)
    ensures forall x :: x in keep ==> x in without.nodes && x in st.nodes && SameMemo(st.nodes[x], without.nodes[x])
  {
    forall x | x in keep ensures x in st.nodes && x in without.nodes && x in without.queries && SameMemo(st.nodes[x], without.nodes[x]) {
      assert x in st.queries && x in st.nodes;
    }
    FreshElsewhere(st, without, keep);
  }

  lemma UnusedNext(st: State, key: Key)
    requires StampsBelow(st)
    ensures NextStampUnused(st, key)
  {
  }

  lemma UnusedNow(st: State, k: Key, d: Observation)
    requires StampsBelow(st) && k in st.nodes && d in st.nodes[k].dependencies && d.External?
    ensures d.revision < st.nextRevision
  {
  }

  /** Nothing depends on a key without reverse edges. */
  lemma OnlyItself(reverse: map<Key, set<Key>>, key: Key, dirtied: set<Key>, k: Key)
    requires Dependents(reverse, key) == {} && OnlyReachable(reverse, key, dirtied) && k != key
    ensures k !in dirtied
  {
    assert ReverseClosed(reverse, {key});
  }

  // A reader of such a memo answers wrong: `top` reads `middle`, which looks at `source`, a
  // key that is also a registered query.

  function Relays(middle: Key, a: Value, b: Value): Body {
    ReadThen(middle, imap[a := Return(a), b := Return(b)])
  }

  function Memos(fp: Value -> nat, top: Key, middle: Key, source: Key, a: Value, dirty: bool): map<Key, Node> {
    map[middle := Node(1, dirty, Some(a), Some(fp(a)), [External(source, Epoch, 0)]),
        top := Node(2, dirty, Some(a), Some(fp(a)), [Read(middle, 1, fp(a))])]
  }

  /** Both memos confirmed, on the stamp `source` has had all along. */
  function Reader(fp: Value -> nat, top: Key, middle: Key, source: Key, x: Outside, y: Outside, a: Value, b: Value): State {
    State(map[top := Relays(middle, a, b), middle := Looks(source, x, y, a, b), source := Return(a)],
          Memos(fp, top, middle, source, a, false)[source := DEFAULT_NODE], map[middle := {top}, source := {middle}], map[], 3)
  }

  function ReaderHistory(top: Key, middle: Key, source: Key, x: Outside, y: Outside, a: Value, b: Value): History {
    History(map[(middle, 1) := a, (top, 2) := a], (k: Key, r: nat) => Look(map[source := x], k),
            map[middle := 0, top := 1], 2, map[middle := Looks(source, x, y, a, b), top := Relays(middle, a, b)], {})
  }

  /** The same without `source`. */
  function Without(fp: Value -> nat, top: Key, middle: Key, source: Key, x: Outside, y: Outside, a: Value, b: Value, dirty: bool): State {
    State(map[top := Relays(middle, a, b), middle := Looks(source, x, y, a, b)], Memos(fp, top, middle, source, a, dirty), map[middle := {top}], map[], 3)
  }

  lemma ReaderReplays(fp: Value -> nat, top: Key, middle: Key, source: Key, x: Outside, y: Outside, a: Value, b: Value)
    requires top != middle && x != y && a != b
    ensures var h := ReaderHistory(top, middle, source, x, y, a, b);
      && Replays(fp, h, Looks(source, x, y, a, b), [External(source, Epoch, 0)], a)
      && Replays(fp, h, Relays(middle, a, b), [Read(middle, 1, fp(a))], a)
  {
    assert [External(source, Epoch, 0)][1..] == [] && [Read(middle, 1, fp(a))][1..] == [];
  }

  lemma ReaderLinks(fp: Value -> nat, top: Key, middle: Key, source: Key, x: Outside, y: Outside, a: Value, b: Value)
    requires top != middle && middle != source && top != source
    ensures var st := Reader(fp, top, middle, source, x, y, a, b); ReverseSound(st) && ReverseClosed(st.reverse, {source, middle, top})
  {
    assert External(source, Epoch, 0) in [External(source, Epoch, 0)] && Read(middle, 1, fp(a)) in [Read(middle, 1, fp(a))];
  }

  lemma ReaderNode(fp: Value -> nat, top: Key, middle: Key, source: Key, x: Outside, y: Outside, a: Value, b: Value, k: Key)
    requires top != middle && middle != source && top != source && x != y && a != b
    requires k in Reader(fp, top, middle, source, x, y, a, b).nodes
    ensures var st, h := Reader(fp, top, middle, source, x, y, a, b), ReaderHistory(top, middle, source, x, y, a, b);
      k in st.queries && NodeOk(fp, st, h, k) && Covered(st, h, k) && (Clean(st.nodes, k) ==> CleanOk(st, h, k))
  {
    hide Replays, Outdated;
    ReaderReplays(fp, top, middle, source, x, y, a, b);
    if k == top {
      assert Reader(fp, top, middle, source, x, y, a, b).nodes[k] == Node(2, false, Some(a), Some(fp(a)), [Read(middle, 1, fp(a))]);
    } else if k == middle {
      assert Reader(fp, top, middle, source, x, y, a, b).nodes[k] == Node(1, false, Some(a), Some(fp(a)), [External(source, Epoch, 0)]);
    } else {
      assert Reader(fp, top, middle, source, x, y, a, b).nodes[k] == DEFAULT_NODE;
    }
  }

  lemma ReaderValid(fp: Value -> nat, top: Key, middle: Key, source: Key, x: Outside, y: Outside, a: Value, b: Value)
    requires top != middle && middle != source && top != source && x != y && a != b
    ensures var st := Reader(fp, top, middle, source, x, y, a, b);
      Inv(fp, st, ReaderHistory(top, middle, source, x, y, a, b), map[source := x]) && !Unobserved(st.nodes, st.sourceRevisions, source)
  {
    hide Replays, ReverseSound, NodeOk, Covered, CleanOk;
    ReaderLinks(fp, top, middle, source, x, y, a, b);
    var st, h, d := Reader(fp, top, middle, source, x, y, a, b), ReaderHistory(top, middle, source, x, y, a, b), External(source, Epoch, 0);
    forall k | k in st.nodes ensures k in st.queries && NodeOk(fp, st, h, k) && Covered(st, h, k) && (Clean(st.nodes, k) ==> CleanOk(st, h, k)) {
      ReaderNode(fp, top, middle, source, x, y, a, b, k);
    }
    assert d in st.nodes[middle].dependencies && !Outdated(st.nodes - {source}, st.sourceRevisions, [d]);
  }

  /** What RemoveQuery leaves behind. */
  ghost predicate RemovalLeaves(st: State, key: Key, dirtied: set<Key>, left: State) {
    && key in dirtied && ReverseClosed(st.reverse, dirtied)
    && left == st.(queries := st.queries - {key}, nodes := MarkDirty(st.nodes, dirtied) - {key}, reverse := left.reverse)
    && (forall x :: x != key ==> Dependents(left.reverse, x) == Dependents(st.reverse, x) - {key}) && Dependents(left.reverse, key) == {}
  }

  lemma ReaderRemoved(fp: Value -> nat, top: Key, middle: Key, source: Key, x: Outside, y: Outside, a: Value, b: Value)
    requires top != middle && middle != source && top != source
    ensures RemovalLeaves(Reader(fp, top, middle, source, x, y, a, b), source, {source, middle, top},
                          Without(fp, top, middle, source, x, y, a, b, true))
  {
    ReaderLinks(fp, top, middle, source, x, y, a, b);
    hide ReverseClosed, ReverseSound;
  }

  function Cleared(st: State, k: Key): State
    requires k in st.nodes
  {
    st.(nodes := st.nodes[k := st.nodes[k].(dirty := false)])
  }

  /** Whose memos are then confirmed one after the other, all their observations being current. */
  lemma ReaderConfirmed(fp: Value -> nat, top: Key, middle: Key, source: Key, x: Outside, y: Outside, a: Value, b: Value)
    requires top != middle && middle != source && top != source
    ensures var left := Without(fp, top, middle, source, x, y, a, b, true);
      && AllCurrent(left, left.nodes[middle].dependencies)
      && AllCurrent(Cleared(left, middle), left.nodes[top].dependencies)
      && Cleared(Cleared(left, middle), top) == Without(fp, top, middle, source, x, y, a, b, false)
  {
  }

  /** Removing `source` forgets that `middle` observed it. Once both memos are confirmed
      again, announcing a change of `source` dirties nothing, and `top` answers `a` where
      recomputation gives `b`. */
  lemma StaleAfterRemovingSource(fp: Value -> nat, top: Key, middle: Key, source: Key, x: Outside, y: Outside, a: Value, b: Value)
    requires top != middle && middle != source && top != source && x != y && a != b
    ensures var st := Reader(fp, top, middle, source, x, y, a, b);
      Inv(fp, st, ReaderHistory(top, middle, source, x, y, a, b), map[source := x]) && !Unobserved(st.nodes, st.sourceRevisions, source)
    ensures RemovalLeaves(Reader(fp, top, middle, source, x, y, a, b), source, {source, middle, top},
                          Without(fp, top, middle, source, x, y, a, b, true))
    ensures var left := Without(fp, top, middle, source, x, y, a, b, true);
      && AllCurrent(left, left.nodes[middle].dependencies)
      && AllCurrent(Cleared(left, middle), left.nodes[top].dependencies)
      && Cleared(Cleared(left, middle), top) == Without(fp, top, middle, source, x, y, a, b, false)
    ensures var removed := Without(fp, top, middle, source, x, y, a, b, false);
      && ReverseClosed(removed.reverse, {source})
      && var stale := removed.(nodes := MarkDirty(removed.nodes, {source}), sourceRevisions := map[source := 3], nextRevision := 4);
      && Clean(stale.nodes, top) && AllCurrent(stale, stale.nodes[top].dependencies) && stale.nodes[top].value == Some(a)
      && Denotes(stale.queries, map[source := y], top, b) && !Denotes(stale.queries, map[source := y], top, a)
  {
    ReaderValid(fp, top, middle, source, x, y, a, b);
    ReaderRemoved(fp, top, middle, source, x, y, a, b);
    ReaderConfirmed(fp, top, middle, source, x, y, a, b);
    StaleReader(fp, top, middle, source, x, y, a, b);
    hide *;
  }

  lemma StaleReader(fp: Value -> nat, top: Key, middle: Key, source: Key, x: Outside, y: Outside, a: Value, b: Value)
    requires top != middle && middle != source && top != source && x != y && a != b
    ensures var removed := Without(fp, top, middle, source, x, y, a, b, false);
      && ReverseClosed(removed.reverse, {source})
      && var stale := removed.(nodes := MarkDirty(removed.nodes, {source}), sourceRevisions := map[source := 3], nextRevision := 4);
      && Clean(stale.nodes, top) && AllCurrent(stale, stale.nodes[top].dependencies) && stale.nodes[top].value == Some(a)
      && Denotes(stale.queries, map[source := y], top, b) && !Denotes(stale.queries, map[source := y], top, a)
  {
    var queries, world := map[top := Relays(middle, a, b), middle := Looks(source, x, y, a, b)], map[source := y];
    assert Scratch(queries, world, middle, 1) == Some(b);
    assert Scratch(queries, world, top, 2) == Some(b);
    if Denotes(queries, world, top, a) {
      DenotesUnique(queries, world, top, a, b);
    }
  }
}

/** The memo table of the incremental engine as a value, the invariant that every
    reachable table satisfies, and one preservation lemma per kind of mutation. */
module Memo {
  import opened Collections
  import opened Queries

  datatype Node = Node(
    revision: nat, dirty: bool, value: Option<Value>, fingerprint: Option<nat>,
    dependencies: seq<Observation>)

  const DEFAULT_NODE := Node(0, true, None, None, [])

  datatype State = State(
    queries: map<Key, Body>,
    nodes: map<Key, Node>,
    reverse: map<Key, set<Key>>,
    sourceRevisions: map<Key, nat>,
    nextRevision: nat)

  /** What the proof remembers beside the table: the value every revision of every
      query stood for, what each external stamp stood for, when each clean memo was
      last confirmed, the callback that made each memo, and the external keys whose
      reverse edges were dropped while some memo observed them. */
  datatype History = History(
    values: map<(Key, nat), Value>,
    sources: (Key, nat) -> Option<Outside>,
    rank: map<Key, nat>,
    clock: nat,
    made: map<Key, Body>,
    lost: set<Key>)

  function SourceRevision(stamps: map<Key, nat>, key: Key): nat {
    if key in stamps then stamps[key] else 0
  }

  function Dependents(reverse: map<Key, set<Key>>, key: Key): set<Key> {
    if key in reverse then reverse[key] else {}
  }

  predicate Clean(nodes: map<Key, Node>, key: Key) {
    key in nodes && !nodes[key].dirty
  }

  predicate Current(nodes: map<Key, Node>, stamps: map<Key, nat>, o: Observation) {
    match o
    case Read(k, r, f) => Clean(nodes, k) && nodes[k].revision == r && nodes[k].fingerprint == Some(f)
    case External(k, _, r) => SourceRevision(stamps, k) == r
  }

  predicate AllCurrent(st: State, deps: seq<Observation>) {
    forall d :: d in deps ==> Current(st.nodes, st.sourceRevisions, d)
  }

  /** The observation can never be current again: the query it read is gone or has
      another revision, or the stamp it saw has moved on. */
  predicate Superseded(nodes: map<Key, Node>, stamps: map<Key, nat>, o: Observation) {
    match o
    case Read(k, r, _) => !(k in nodes && nodes[k].revision == r)
    case External(k, _, r) => SourceRevision(stamps, k) != r
  }

  predicate Outdated(nodes: map<Key, Node>, stamps: map<Key, nat>, deps: seq<Observation>) {
    exists d :: d in deps && Superseded(nodes, stamps, d)
  }

  ghost predicate Observes(deps: seq<Observation>, key: Key) {
    exists d :: d in deps && d.key == key
  }

  /** Running `body` against the recorded history makes exactly the observations
      `deps`, in order, and returns `v`. */
  ghost predicate Replays(fp: Value -> nat, h: History, body: Body, deps: seq<Observation>, v: Value)
    decreases body
  {
    match body
    case Return(x) => deps == [] && x == v
    case Fail(_) => false
    case ReadThen(k, next) =>
      && deps != [] && deps[0].Read? && deps[0].key == k
      && (k, deps[0].revision) in h.values
      && var answer := h.values[(k, deps[0].revision)];
      && deps[0].fingerprint == fp(answer)
      && answer in next && Replays(fp, h, next[answer], deps[1..], v)
    case ObserveThen(kind, k, answers) =>
      && deps != [] && deps[0].External? && deps[0].key == k && deps[0].kind == kind
      && var answer := h.sources(k, deps[0].revision);
      && answer in answers && Replays(fp, h, answers[answer], deps[1..], v)
    case ChargeWork(_, rest) => Replays(fp, h, rest, deps, v)
    case ChargeOutput(_, rest) => Replays(fp, h, rest, deps, v)
    case Cancel(_) => false
  }

  /** A memo, dirty or not, is the outcome of some past run of the callback that made it. */
  ghost predicate NodeOk(fp: Value -> nat, st: State, h: History, k: Key)
    requires k in st.nodes && k in st.queries
  {
    var n := st.nodes[k];
    && (n.value.None? ==> n.dirty && n.dependencies == [] && (k, n.revision) !in h.values)
    && (n.value.Some? ==>
          && n.fingerprint == Some(fp(n.value.value))
          && (k, n.revision) in h.values && h.values[(k, n.revision)] == n.value.value
          && k in h.made && Replays(fp, h, h.made[k], n.dependencies, n.value.value))
  }

  /** Unless its memo is outdated, `k` is listed as a dependent of everything it observed
      but lost external keys. */
  ghost predicate Covered(st: State, h: History, k: Key)
    requires k in st.nodes
  {
    || Outdated(st.nodes, st.sourceRevisions, st.nodes[k].dependencies)
    || forall d :: d in st.nodes[k].dependencies ==>
         k in Dependents(st.reverse, d.key) || (d.External? && d.key in h.lost)
  }

  /** A clean memo has only current observations, and every query it read was
      confirmed before it was. */
  ghost predicate CleanOk(st: State, h: History, k: Key)
    requires k in st.nodes
  {
    && k in h.rank && h.rank[k] < h.clock
    && AllCurrent(st, st.nodes[k].dependencies)
    && forall d :: d in st.nodes[k].dependencies && d.Read? ==>
         d.key in h.rank && h.rank[d.key] < h.rank[k]
  }

  ghost predicate HistoryOk(st: State, h: History, world: World) {
    && st.nextRevision >= 1
    && (forall p :: p in h.values ==> 1 <= p.1 < st.nextRevision)
    && forall k :: h.sources(k, SourceRevision(st.sourceRevisions, k)) == Look(world, k)
  }

  /** No stamp in use, recorded or present, will be handed out again. */
  ghost predicate StampsBelow(st: State) {
    && (forall k :: SourceRevision(st.sourceRevisions, k) < st.nextRevision)
    && forall k, d :: k in st.nodes && d in st.nodes[k].dependencies && d.External? ==> d.revision < st.nextRevision
  }

  /** No memo has recorded the stamp that `key` would get next. */
  ghost predicate NextStampUnused(st: State, key: Key) {
    forall k, d :: k in st.nodes && d in st.nodes[k].dependencies && d.External? && d.key == key ==>
      d.revision != st.nextRevision
  }

  /** Reverse edges never outlive the observation they were recorded for. */
  ghost predicate ReverseSound(st: State) {
    forall x, k :: k in Dependents(st.reverse, x) ==>
      k in st.nodes && Observes(st.nodes[k].dependencies, x)
  }

  ghost predicate Inv(fp: Value -> nat, st: State, h: History, world: World) {
    && st.nodes.Keys <= st.queries.Keys
    && (forall k :: k in st.nodes ==> NodeOk(fp, st, h, k))
    && (forall k :: k in st.nodes ==> Covered(st, h, k))
    && (forall k :: Clean(st.nodes, k) ==> CleanOk(st, h, k))
    && ReverseSound(st)
    && HistoryOk(st, h, world)
  }

  // ---------- a clean memo is what recomputation gives ----------

  /** The callbacks behind the confirmed memos: the ones that made them. */
  ghost function Trusted(st: State, h: History): map<Key, Body> {
    map k | k in st.queries :: if Clean(st.nodes, k) && k in h.made then h.made[k] else st.queries[k]
  }

  /** The invariant is local; this is its global consequence. */
  lemma {:induction false} CleanDenotes(fp: Value -> nat, st: State, h: History, world: World, k: Key)
    requires Inv(fp, st, h, world) && Clean(st.nodes, k)
    ensures st.nodes[k].value.Some?
    ensures Denotes(Trusted(st, h), world, k, st.nodes[k].value.value)
    decreases if k in h.rank then h.rank[k] else 0, 1
  {
    assert NodeOk(fp, st, h, k) && CleanOk(st, h, k);
    var n := st.nodes[k];
    var depth := ReplayScratch(fp, st, h, world, h.made[k], n.dependencies, n.value.value, h.rank[k]);
    assert Scratch(Trusted(st, h), world, k, depth + 1) == n.value;
  }

  lemma {:induction false} ReplayScratch(fp: Value -> nat, st: State, h: History, world: World,
      body: Body, deps: seq<Observation>, v: Value, bound: nat) returns (depth: nat)
    requires Inv(fp, st, h, world)
    requires Replays(fp, h, body, deps, v) && AllCurrent(st, deps)
    requires forall d :: d in deps && d.Read? ==> d.key in h.rank && h.rank[d.key] < bound
    ensures ScratchBody(Trusted(st, h), world, body, depth) == Some(v)
    decreases bound, 0, body
  {
    match body
    case Return(_) => depth := 0;
    case ReadThen(k, next) =>
      var d := deps[0];
      assert d in deps;
      CleanDenotes(fp, st, h, world, k);
      assert NodeOk(fp, st, h, k);
      var answer := h.values[(k, d.revision)];
      var here: nat :| Scratch(Trusted(st, h), world, k, here) == Some(answer);
      var rest := ReplayScratch(fp, st, h, world, next[answer], deps[1..], v, bound);
      depth := here + rest;
      ScratchMonotone(Trusted(st, h), world, k, here, depth);
      ScratchBodyMonotone(Trusted(st, h), world, next[answer], rest, depth);
    case ObserveThen(_, k, answers) =>
      var d := deps[0];
      assert d in deps;
      depth := ReplayScratch(fp, st, h, world, answers[Look(world, k)], deps[1..], v, bound);
    case ChargeWork(_, rest) => depth := ReplayScratch(fp, st, h, world, rest, deps, v, bound);
    case ChargeOutput(_, rest) => depth := ReplayScratch(fp, st, h, world, rest, deps, v, bound);
  }

  /** The memo of `k`, if it has one, was made by its present callback or can never be
      accepted again. */
  ghost predicate FaithfulAt(st: State, h: History, k: Key) {
    k in st.nodes && st.nodes[k].value.Some? ==>
      || (k in h.made && k in st.queries && h.made[k] == st.queries[k])
      || Outdated(st.nodes, st.sourceRevisions, st.nodes[k].dependencies)
  }

  ghost predicate Faithful(st: State, h: History) {
    forall k :: FaithfulAt(st, h, k)
  }

  /** Where every confirmed memo is its present callback's, it is what recomputation gives. */
  lemma FaithfulDenotes(fp: Value -> nat, st: State, h: History, world: World, k: Key)
    requires Inv(fp, st, h, world) && Clean(st.nodes, k)
    requires forall x :: Clean(st.nodes, x) ==> FaithfulAt(st, h, x)
    ensures st.nodes[k].value.Some? && Denotes(st.queries, world, k, st.nodes[k].value.value)
  {
    hide Replays;
    CleanDenotes(fp, st, h, world, k);
    forall x | x in st.queries && Clean(st.nodes, x) ensures x in h.made && h.made[x] == st.queries[x] {
      assert NodeOk(fp, st, h, x) && CleanOk(st, h, x) && FaithfulAt(st, h, x);
      CurrentNotOutdated(st, st.nodes[x].dependencies);
    }
    assert Trusted(st, h) == st.queries;
  }

  lemma CurrentNotOutdated(st: State, deps: seq<Observation>)
    requires AllCurrent(st, deps)
    ensures !Outdated(st.nodes, st.sourceRevisions, deps)
  {
    forall d | d in deps ensures !Superseded(st.nodes, st.sourceRevisions, d) {
      assert Current(st.nodes, st.sourceRevisions, d);
    }
  }

  /** What is superseded stays so while revisions only move past every recorded one. */
  lemma OutdatedStays(nodes: map<Key, Node>, stamps: map<Key, nat>, nodes': map<Key, Node>, stamps': map<Key, nat>,
      deps: seq<Observation>, next: nat)
    requires Outdated(nodes, stamps, deps)
    requires forall d :: d in deps && d.Read? ==> 1 <= d.revision < next
    requires forall k :: k in nodes' ==>
      (k in nodes && nodes'[k].revision == nodes[k].revision) || nodes'[k].revision >= next || nodes'[k].revision == 0
    requires forall d :: d in deps && d.External? && SourceRevision(stamps, d.key) != d.revision ==>
      SourceRevision(stamps', d.key) != d.revision
    ensures Outdated(nodes', stamps', deps)
  {
    var d :| d in deps && Superseded(nodes, stamps, d);
    assert Superseded(nodes', stamps', d);
  }

  // ---------- preservation ----------

  ghost predicate HistoryGrows(h: History, h': History) {
    && h'.sources == h.sources && h'.lost == h.lost
    && forall p :: p in h.values ==> p in h'.values && h'.values[p] == h.values[p]
  }

  /** A replay only looks at the part of the history its observations name. */
  lemma {:induction false} ReplaysAgree(fp: Value -> nat, h: History, h': History, body: Body,
      deps: seq<Observation>, v: Value)
    requires Replays(fp, h, body, deps, v)
    requires forall d :: d in deps && d.Read? && (d.key, d.revision) in h.values ==>
               (d.key, d.revision) in h'.values && h'.values[(d.key, d.revision)] == h.values[(d.key, d.revision)]
    requires forall d :: d in deps && d.External? ==> h'.sources(d.key, d.revision) == h.sources(d.key, d.revision)
    ensures Replays(fp, h', body, deps, v)
    decreases body
  {
    match body
    case Return(_) =>
    case ReadThen(k, next) =>
      assert deps[0] in deps;
      ReplaysAgree(fp, h, h', next[h.values[(k, deps[0].revision)]], deps[1..], v);
    case ObserveThen(_, k, answers) =>
      assert deps[0] in deps;
      ReplaysAgree(fp, h, h', answers[h.sources(k, deps[0].revision)], deps[1..], v);
    case ChargeWork(_, rest) => ReplaysAgree(fp, h, h', rest, deps, v);
    case ChargeOutput(_, rest) => ReplaysAgree(fp, h, h', rest, deps, v);
  }

  function Confirmed(h: History, key: Key): History {
    h.(rank := h.rank[key := h.clock], clock := h.clock + 1)
  }

  /** Dirty marks do not matter for what is outdated or covered. */
  lemma SameRevisions(st: State, st': State, h: History, h': History, k: Key)
    requires k in st.nodes && Covered(st, h, k) && h'.lost == h.lost && st'.nodes.Keys == st.nodes.Keys
    requires st'.reverse == st.reverse && st'.sourceRevisions == st.sourceRevisions
    requires st'.nodes[k].dependencies == st.nodes[k].dependencies
    requires forall x :: x in st.nodes ==> st'.nodes[x].revision == st.nodes[x].revision
    ensures Covered(st', h', k)
  {
    if Outdated(st.nodes, st.sourceRevisions, st.nodes[k].dependencies) {
      var d :| d in st.nodes[k].dependencies && Superseded(st.nodes, st.sourceRevisions, d);
      assert Superseded(st'.nodes, st'.sourceRevisions, d);
    }
  }

  /** Every read a memo records has a revision below the counter. */
  lemma RecordedBelow(fp: Value -> nat, st: State, h: History, world: World, k: Key)
    requires Inv(fp, st, h, world) && k in st.nodes
    ensures forall d :: d in st.nodes[k].dependencies && d.Read? ==>
              1 <= d.revision < st.nextRevision && (d.key, d.revision) in h.values
  {
    hide Replays;
    assert NodeOk(fp, st, h, k);
    if st.nodes[k].value.Some? {
      ReadsRecorded(fp, h, h.made[k], st.nodes[k].dependencies, st.nodes[k].value.value);
    }
  }

  /** Accepting an old memo whose observations are all current. */
  lemma ReuseKeepsInv(fp: Value -> nat, st: State, h: History, world: World, key: Key)
    requires Inv(fp, st, h, world)
    requires key in st.nodes && st.nodes[key].dirty && st.nodes[key].value.Some?
    requires AllCurrent(st, st.nodes[key].dependencies)
    ensures Inv(fp, st.(nodes := st.nodes[key := st.nodes[key].(dirty := false)]), Confirmed(h, key), world)
  {
    hide NodeOk, Covered, CleanOk, AllCurrent;
    var st' := st.(nodes := st.nodes[key := st.nodes[key].(dirty := false)]);
    var h' := Confirmed(h, key);
    forall k | k in st'.nodes
      ensures NodeOk(fp, st', h', k) && Covered(st', h', k)
    {
      ReuseNode(fp, st, h, world, key, k);
    }
    forall k | Clean(st'.nodes, k)
      ensures CleanOk(st', h', k)
    {
      ReuseClean(fp, st, h, world, key, k);
    }
  }

  lemma ReuseNode(fp: Value -> nat, st: State, h: History, world: World, key: Key, k: Key)
    requires Inv(fp, st, h, world) && key in st.nodes && st.nodes[key].value.Some? && k in st.nodes
    ensures var st' := st.(nodes := st.nodes[key := st.nodes[key].(dirty := false)]);
      k in st'.nodes && NodeOk(fp, st', Confirmed(h, key), k) && Covered(st', Confirmed(h, key), k)
  {
    hide Replays;
    var st', h' := st.(nodes := st.nodes[key := st.nodes[key].(dirty := false)]), Confirmed(h, key);
    assert NodeOk(fp, st, h, k) && Covered(st, h, k);
    if st.nodes[k].value.Some? {
      ReplaysAgree(fp, h, h', h.made[k], st.nodes[k].dependencies, st.nodes[k].value.value);
    }
    SameRevisions(st, st', h, h', k);
  }

  lemma ReuseClean(fp: Value -> nat, st: State, h: History, world: World, key: Key, k: Key)
    requires Inv(fp, st, h, world) && key in st.nodes && AllCurrent(st, st.nodes[key].dependencies)
    requires k == key || Clean(st.nodes, k)
    requires !Clean(st.nodes, key)
    ensures CleanOk(st.(nodes := st.nodes[key := st.nodes[key].(dirty := false)]), Confirmed(h, key), k)
  {
    hide NodeOk, Covered;
    var st', h' := st.(nodes := st.nodes[key := st.nodes[key].(dirty := false)]), Confirmed(h, key);
    if k != key { assert CleanOk(st, h, k); }
    forall d | d in st'.nodes[k].dependencies
      ensures Current(st'.nodes, st'.sourceRevisions, d)
      ensures d.Read? ==> d.key in h'.rank && h'.rank[d.key] < h'.rank[k]
    {
      assert Current(st.nodes, st.sourceRevisions, d);
      if d.Read? { assert CleanOk(st, h, d.key); }
    }
  }

  /** `st'` records a fresh run of `key`: an equal value keeps its revision (the early
      cutoff), an unequal one takes a revision nobody has observed yet. */
  ghost predicate Commits(fp: Value -> nat, st: State, st': State, h: History, h': History,
      key: Key, v: Value, deps: seq<Observation>)
  {
    && st'.queries == st.queries && st'.sourceRevisions == st.sourceRevisions
    && key in st'.nodes
    && var r := st'.nodes[key].revision;
    && st'.nodes == st.nodes[key := Node(r, false, Some(v), Some(fp(v)), deps)]
    && key in st.queries
    && h' == Confirmed(h.(values := h.values[(key, r) := v], made := h.made[key := st.queries[key]]), key)
    && (if key in st.nodes && st.nodes[key].value == Some(v)
        then r == st.nodes[key].revision && st'.nextRevision == st.nextRevision
        else r == st.nextRevision && st'.nextRevision == st.nextRevision + 1)
    && forall x :: Dependents(st'.reverse, x)
         == Dependents(st.reverse, x) - {key} + (if Observes(deps, x) then {key} else {})
  }

  lemma CommitKeepsInv(fp: Value -> nat, st: State, st': State, h: History, h': History, world: World,
      key: Key, v: Value, deps: seq<Observation>)
    requires Inv(fp, st, h, world)
    requires key in st.queries && !Clean(st.nodes, key)
    requires Replays(fp, h, st.queries[key], deps, v) && AllCurrent(st, deps)
    requires Commits(fp, st, st', h, h', key, v, deps)
    ensures Inv(fp, st', h', world) && HistoryGrows(h, h')
  {
    hide Replays, NodeOk, Covered, CleanOk;
    CommitGrows(fp, st, st', h, h', world, key, v, deps);
    forall k | k in st'.nodes
      ensures NodeOk(fp, st', h', k) && Covered(st', h', k)
    {
      CommitNodeOk(fp, st, st', h, h', world, key, v, deps, k);
    }
    forall k | Clean(st'.nodes, k)
      ensures CleanOk(st', h', k)
    {
      CommitCleanOk(fp, st, st', h, h', world, key, v, deps, k);
    }
  }

  lemma CommitGrows(fp: Value -> nat, st: State, st': State, h: History, h': History, world: World,
      key: Key, v: Value, deps: seq<Observation>)
    requires Inv(fp, st, h, world) && key in st.queries
    requires Commits(fp, st, st', h, h', key, v, deps)
    ensures HistoryGrows(h, h') && HistoryOk(st', h', world) && ReverseSound(st')
  {
    assert key in st.nodes ==> NodeOk(fp, st, h, key);
  }

  lemma CommitNodeOk(fp: Value -> nat, st: State, st': State, h: History, h': History, world: World,
      key: Key, v: Value, deps: seq<Observation>, k: Key)
    requires Inv(fp, st, h, world) && key in st.queries
    requires Replays(fp, h, st.queries[key], deps, v)
    requires Commits(fp, st, st', h, h', key, v, deps) && HistoryGrows(h, h')
    requires k in st'.nodes
    ensures NodeOk(fp, st', h', k) && Covered(st', h', k)
  {
    hide Replays;
    if k == key {
      ReplaysAgree(fp, h, h', st.queries[k], deps, v);
      forall d | d in deps ensures key in Dependents(st'.reverse, d.key) {
        assert Observes(deps, d.key);
      }
    } else {
      assert NodeOk(fp, st, h, k) && Covered(st, h, k);
      if st.nodes[k].value.Some? {
        ReplaysAgree(fp, h, h', h.made[k], st.nodes[k].dependencies, st.nodes[k].value.value);
      }
      if Outdated(st.nodes, st.sourceRevisions, st.nodes[k].dependencies) {
        RecordedBelow(fp, st, h, world, k);
        OutdatedStays(st.nodes, st.sourceRevisions, st'.nodes, st'.sourceRevisions, st.nodes[k].dependencies, st.nextRevision);
      }
    }
  }

  lemma CommitCleanOk(fp: Value -> nat, st: State, st': State, h: History, h': History, world: World,
      key: Key, v: Value, deps: seq<Observation>, k: Key)
    requires Inv(fp, st, h, world) && key in st.queries && !Clean(st.nodes, key)
    requires AllCurrent(st, deps) && Commits(fp, st, st', h, h', key, v, deps)
    requires Clean(st'.nodes, k)
    ensures CleanOk(st', h', k)
  {
    hide NodeOk, Covered, ReverseSound;
    if k != key { assert CleanOk(st, h, k); }
    forall d | d in st'.nodes[k].dependencies
      ensures Current(st'.nodes, st'.sourceRevisions, d)
      ensures d.Read? ==> d.key in h'.rank && h'.rank[d.key] < h'.rank[k]
    {
      assert Current(st.nodes, st.sourceRevisions, d);
      if d.Read? { assert CleanOk(st, h, d.key); }
    }
  }

  function MarkDirty(nodes: map<Key, Node>, dirtied: set<Key>): map<Key, Node> {
    map k | k in nodes :: if k in dirtied then nodes[k].(dirty := true) else nodes[k]
  }

  ghost predicate ReverseClosed(reverse: map<Key, set<Key>>, keys: set<Key>) {
    forall x :: x in keys ==> Dependents(reverse, x) <= keys
  }

  lemma MarkDirtyMore(nodes: map<Key, Node>, dirtied: set<Key>, next: Key)
    ensures MarkDirty(nodes, dirtied + {next}) ==
            if next in nodes then MarkDirty(nodes, dirtied)[next := MarkDirty(nodes, dirtied)[next].(dirty := true)]
            else MarkDirty(nodes, dirtied)
    ensures MarkDirty(nodes, dirtied).Keys == nodes.Keys
  {
  }

  /** Everything in `keys` is reachable from `key` over reverse edges. */
  ghost predicate OnlyReachable(reverse: map<Key, set<Key>>, key: Key, keys: set<Key>) {
    forall s: set<Key> :: key in s && ReverseClosed(reverse, s) ==> keys <= s
  }

  /** `k` is reachable from `key` over reverse edges. */
  ghost predicate Reaches(reverse: map<Key, set<Key>>, key: Key, k: Key) {
    forall s: set<Key> :: key in s && ReverseClosed(reverse, s) ==> k in s
  }

  lemma ReachesMore(reverse: map<Key, set<Key>>, key: Key, keys: set<Key>, next: Key)
    requires OnlyReachable(reverse, key, keys) && next in keys
    ensures OnlyReachable(reverse, key, keys + Dependents(reverse, next))
  {
    forall s: set<Key> | key in s && ReverseClosed(reverse, s)
      ensures keys + Dependents(reverse, next) <= s
    {
      assert Dependents(reverse, next) <= s;
    }
  }

  /** What a dirty cascade leaves clean has observed nothing inside the cascade, lost
      external keys aside. */
  lemma CascadeFrame(fp: Value -> nat, st: State, h: History, world: World, dirtied: set<Key>, k: Key)
    requires Inv(fp, st, h, world)
    requires ReverseClosed(st.reverse, dirtied)
    requires Clean(MarkDirty(st.nodes, dirtied), k)
    ensures k !in dirtied && Clean(st.nodes, k) && CleanOk(st, h, k)
    ensures forall d :: d in st.nodes[k].dependencies && (d.Read? || d.key !in h.lost) ==> d.key !in dirtied
    ensures forall d :: d in st.nodes[k].dependencies ==>
              Current(MarkDirty(st.nodes, dirtied), st.sourceRevisions, d)
  {
    assert CleanOk(st, h, k) && Covered(st, h, k);
    CurrentNotOutdated(st, st.nodes[k].dependencies);
    forall d | d in st.nodes[k].dependencies
      ensures d.Read? || d.key !in h.lost ==> d.key !in dirtied
      ensures Current(MarkDirty(st.nodes, dirtied), st.sourceRevisions, d)
    {
      assert Current(st.nodes, st.sourceRevisions, d);
      assert d.Read? || d.key !in h.lost ==> k in Dependents(st.reverse, d.key);
    }
  }

  /** Whatever confirmed memo observes `key` as an external key is in the cascade. */
  ghost predicate Tracked(st: State, key: Key, dirtied: set<Key>) {
    forall k, d :: Clean(st.nodes, k) && k !in dirtied && d in st.nodes[k].dependencies && d.External? ==> d.key != key
  }

  lemma NotLostTracked(fp: Value -> nat, st: State, h: History, world: World, key: Key, dirtied: set<Key>)
    requires Inv(fp, st, h, world) && key !in h.lost && key in dirtied && ReverseClosed(st.reverse, dirtied)
    ensures Tracked(st, key, dirtied)
  {
    forall k, d | Clean(st.nodes, k) && k !in dirtied && d in st.nodes[k].dependencies && d.External? ensures d.key != key {
      CascadeFrame(fp, st, h, world, dirtied, k);
    }
  }

  function Stamped(h: History, key: Key, revision: nat, seen: Option<Outside>): History {
    h.(sources := (k: Key, r: nat) => if k == key && r == revision then seen else h.sources(k, r))
  }

  /** Moving an external stamp after its key changed, and dirtying what depends on it. */
  lemma InvalidateKeepsInv(fp: Value -> nat, st: State, h: History, world: World, world': World,
      key: Key, dirtied: set<Key>)
    requires Inv(fp, st, h, world)
    requires forall k :: k != key ==> Look(world', k) == Look(world, k)
    requires key in dirtied && ReverseClosed(st.reverse, dirtied)
    requires NextStampUnused(st, key) && Tracked(st, key, dirtied)
    ensures Inv(fp,
              st.(nodes := MarkDirty(st.nodes, dirtied),
                  sourceRevisions := st.sourceRevisions[key := st.nextRevision],
                  nextRevision := st.nextRevision + 1),
              Stamped(h, key, st.nextRevision, Look(world', key)), world')
  {
    hide NodeOk, Covered, CleanOk, AllCurrent, Tracked, NextStampUnused;
    var st' := st.(nodes := MarkDirty(st.nodes, dirtied),
                   sourceRevisions := st.sourceRevisions[key := st.nextRevision],
                   nextRevision := st.nextRevision + 1);
    var h' := Stamped(h, key, st.nextRevision, Look(world', key));
    forall k | k in st'.nodes
      ensures NodeOk(fp, st', h', k) && Covered(st', h', k)
    {
      InvalidateNode(fp, st, h, world, key, dirtied, st', h', k);
    }
    forall k | Clean(st'.nodes, k)
      ensures CleanOk(st', h', k)
    {
      InvalidateClean(fp, st, h, world, key, dirtied, st', h', k);
    }
    assert ReverseSound(st');
    assert HistoryOk(st', h', world') by {
      forall k
        ensures h'.sources(k, SourceRevision(st'.sourceRevisions, k)) == Look(world', k)
      {
        assert h.sources(k, SourceRevision(st.sourceRevisions, k)) == Look(world, k);
      }
    }
  }

  lemma InvalidateClean(fp: Value -> nat, st: State, h: History, world: World, key: Key, dirtied: set<Key>,
      st': State, h': History, k: Key)
    requires Inv(fp, st, h, world) && Tracked(st, key, dirtied) && ReverseClosed(st.reverse, dirtied)
    requires st'.nodes == MarkDirty(st.nodes, dirtied) && st'.sourceRevisions == st.sourceRevisions[key := st.nextRevision]
    requires h' == h.(sources := h'.sources) && Clean(st'.nodes, k)
    ensures CleanOk(st', h', k)
  {
    hide NodeOk, Covered, Replays;
    CascadeFrame(fp, st, h, world, dirtied, k);
  }

  lemma InvalidateNode(fp: Value -> nat, st: State, h: History, world: World, key: Key, dirtied: set<Key>,
      st': State, h': History, k: Key)
    requires Inv(fp, st, h, world) && NextStampUnused(st, key) && k in st.nodes
    requires st' == st.(nodes := MarkDirty(st.nodes, dirtied), sourceRevisions := st.sourceRevisions[key := st.nextRevision],
                        nextRevision := st.nextRevision + 1)
    requires h' == h.(sources := h'.sources)
    requires forall x, r :: x != key || r != st.nextRevision ==> h'.sources(x, r) == h.sources(x, r)
    ensures NodeOk(fp, st', h', k) && Covered(st', h', k)
  {
    hide Replays;
    assert NodeOk(fp, st, h, k) && Covered(st, h, k);
    if st.nodes[k].value.Some? {
      ReplaysAgree(fp, h, h', h.made[k], st.nodes[k].dependencies, st.nodes[k].value.value);
    }
    if Outdated(st.nodes, st.sourceRevisions, st.nodes[k].dependencies) {
      RecordedBelow(fp, st, h, world, k);
      OutdatedStays(st.nodes, st.sourceRevisions, st'.nodes, st'.sourceRevisions, st.nodes[k].dependencies, st.nextRevision);
    }
  }

  /** Registering a callback, whatever memo the key may have. */
  lemma RegisterKeepsInv(fp: Value -> nat, st: State, h: History, world: World, key: Key, body: Body, dirtied: set<Key>)
    requires Inv(fp, st, h, world)
    requires key in dirtied && ReverseClosed(st.reverse, dirtied)
    ensures
      var node := if key in st.nodes then st.nodes[key].(dirty := true) else DEFAULT_NODE;
      Inv(fp, st.(queries := st.queries[key := body], nodes := MarkDirty(st.nodes[key := node], dirtied)), h, world)
  {
    hide NodeOk, Covered, CleanOk;
    var node := if key in st.nodes then st.nodes[key].(dirty := true) else DEFAULT_NODE;
    var st' := st.(queries := st.queries[key := body], nodes := MarkDirty(st.nodes[key := node], dirtied));
    forall k | k in st'.nodes
      ensures NodeOk(fp, st', h, k) && Covered(st', h, k)
    {
      RegisterNode(fp, st, h, world, key, st', k);
    }
    forall k | Clean(st'.nodes, k)
      ensures CleanOk(st', h, k)
    {
      MarkedClean(fp, st, h, world, dirtied, st', h, k);
    }
  }

  lemma RegisterNode(fp: Value -> nat, st: State, h: History, world: World, key: Key, st': State, k: Key)
    requires Inv(fp, st, h, world) && k in st'.nodes && k in st'.queries
    requires st'.sourceRevisions == st.sourceRevisions && st'.reverse == st.reverse && st'.nodes.Keys == st.nodes.Keys + {key}
    requires forall x :: x in st'.nodes ==> SameMemo(if x in st.nodes then st.nodes[x] else DEFAULT_NODE, st'.nodes[x])
    requires k in st.nodes && st.nodes[k].dirty ==> st'.nodes[k].dirty
    requires k !in st.nodes ==> st'.nodes[k].dirty
    ensures NodeOk(fp, st', h, k) && Covered(st', h, k)
  {
    hide Replays, Outdated, Superseded;
    if k in st.nodes {
      assert NodeOk(fp, st, h, k) && Covered(st, h, k) && SameMemo(st.nodes[k], st'.nodes[k]);
      RegisterOutdated(fp, st, h, world, key, st', k);
    }
  }

  /** What stays clean through a cascade that moves no stamp stays confirmed. */
  lemma MarkedClean(fp: Value -> nat, st: State, h: History, world: World, dirtied: set<Key>, st': State, h': History, k: Key)
    requires Inv(fp, st, h, world) && ReverseClosed(st.reverse, dirtied) && Clean(MarkDirty(st.nodes, dirtied), k)
    requires st'.sourceRevisions == st.sourceRevisions && h' == h.(lost := h'.lost)
    requires forall x :: Clean(MarkDirty(st.nodes, dirtied), x) && (x == k || (exists d :: d in st.nodes[k].dependencies && d.Read? && d.key == x)) ==>
      x in st'.nodes && st'.nodes[x] == MarkDirty(st.nodes, dirtied)[x]
    ensures k in st'.nodes && CleanOk(st', h', k)
  {
    hide NodeOk, Covered, Replays;
    CascadeFrame(fp, st, h, world, dirtied, k);
    forall d | d in st.nodes[k].dependencies ensures Current(st'.nodes, st'.sourceRevisions, d) {
      assert Current(MarkDirty(st.nodes, dirtied), st.sourceRevisions, d);
    }
  }

  lemma RegisterOutdated(fp: Value -> nat, st: State, h: History, world: World, key: Key, st': State, k: Key)
    requires Inv(fp, st, h, world) && k in st.nodes
    requires st'.sourceRevisions == st.sourceRevisions && st'.nodes.Keys == st.nodes.Keys + {key}
    requires forall x :: x in st'.nodes ==> st'.nodes[x].revision == if x in st.nodes then st.nodes[x].revision else 0
    ensures Outdated(st.nodes, st.sourceRevisions, st.nodes[k].dependencies) ==>
              Outdated(st'.nodes, st'.sourceRevisions, st.nodes[k].dependencies)
  {
    if Outdated(st.nodes, st.sourceRevisions, st.nodes[k].dependencies) {
      RecordedBelow(fp, st, h, world, k);
      OutdatedStays(st.nodes, st.sourceRevisions, st'.nodes, st'.sourceRevisions, st.nodes[k].dependencies, st.nextRevision);
    }
  }

  /** Every read in a replay names a revision the history knows. */
  lemma {:induction false} ReadsRecorded(fp: Value -> nat, h: History, body: Body, deps: seq<Observation>, v: Value)
    requires Replays(fp, h, body, deps, v)
    ensures forall d :: d in deps && d.Read? ==>
              (d.key, d.revision) in h.values && d.fingerprint == fp(h.values[(d.key, d.revision)])
    decreases body
  {
    match body
    case Return(_) =>
    case ReadThen(k, next) =>
      ReadsRecorded(fp, h, next[h.values[(k, deps[0].revision)]], deps[1..], v);
      assert deps == [deps[0]] + deps[1..];
    case ObserveThen(_, k, answers) =>
      ReadsRecorded(fp, h, answers[h.sources(k, deps[0].revision)], deps[1..], v);
      assert deps == [deps[0]] + deps[1..];
    case ChargeWork(_, rest) => ReadsRecorded(fp, h, rest, deps, v);
    case ChargeOutput(_, rest) => ReadsRecorded(fp, h, rest, deps, v);
  }

  /** There is no node to detach, or no other memo that could still be accepted without
      `key` observes it as an external key: dropping its reverse edges forgets nothing. */
  predicate Unobserved(nodes: map<Key, Node>, stamps: map<Key, nat>, key: Key) {
    key in nodes ==> forall k | k in nodes && k != key ::
      (exists d :: d in nodes[k].dependencies && d.External? && d.key == key) ==>
        Outdated(nodes - {key}, stamps, nodes[k].dependencies)
  }

  /** Removing a query and its node; the key is lost if some memo still observes it. */
  lemma RemoveKeepsInv(fp: Value -> nat, st: State, st': State, h: History, h': History, world: World, key: Key, dirtied: set<Key>)
    requires Inv(fp, st, h, world)
    requires h' == h.(lost := h'.lost) && h.lost <= h'.lost
    requires Unobserved(st.nodes, st.sourceRevisions, key) || key in h'.lost
    requires key in dirtied && ReverseClosed(st.reverse, dirtied)
    requires st' == st.(queries := st.queries - {key}, nodes := MarkDirty(st.nodes, dirtied) - {key}, reverse := st'.reverse)
    requires forall x :: x != key ==> Dependents(st'.reverse, x) == Dependents(st.reverse, x) - {key}
    requires Dependents(st'.reverse, key) <= Dependents(st.reverse, key) - {key}
    requires key !in st.nodes ==> Dependents(st'.reverse, key) == Dependents(st.reverse, key) - {key}
    ensures Inv(fp, st', h', world)
  {
    hide NodeOk, Covered, CleanOk, Outdated, Unobserved;
    forall k | k in st'.nodes
      ensures NodeOk(fp, st', h', k) && Covered(st', h', k)
    {
      RemoveNode(fp, st, st', h, h', world, key, dirtied, k);
      RemoveCovers(fp, st, st', h, h', world, key, dirtied, k);
    }
    forall k | Clean(st'.nodes, k)
      ensures CleanOk(st', h', k)
    {
      RemoveClean(fp, st, st', h, h', world, key, dirtied, k);
    }
  }

  lemma RemoveClean(fp: Value -> nat, st: State, st': State, h: History, h': History, world: World, key: Key, dirtied: set<Key>, k: Key)
    requires Inv(fp, st, h, world) && h' == h.(lost := h'.lost) && key in dirtied && ReverseClosed(st.reverse, dirtied)
    requires st' == st.(queries := st.queries - {key}, nodes := MarkDirty(st.nodes, dirtied) - {key}, reverse := st'.reverse)
    requires Clean(st'.nodes, k)
    ensures CleanOk(st', h', k)
  {
    hide Inv, CleanOk;
    assert Clean(MarkDirty(st.nodes, dirtied), k);
    MarkedClean(fp, st, h, world, dirtied, st', h', k);
  }

  lemma RemoveNode(fp: Value -> nat, st: State, st': State, h: History, h': History, world: World, key: Key, dirtied: set<Key>, k: Key)
    requires Inv(fp, st, h, world) && h' == h.(lost := h'.lost)
    requires st' == st.(queries := st.queries - {key}, nodes := MarkDirty(st.nodes, dirtied) - {key}, reverse := st'.reverse)
    requires k in st'.nodes
    ensures k in st'.queries && NodeOk(fp, st', h', k)
  {
    hide Replays, Covered, CleanOk;
    assert NodeOk(fp, st, h, k);
    if st.nodes[k].value.Some? {
      ReplaysAgree(fp, h, h', h.made[k], st.nodes[k].dependencies, st.nodes[k].value.value);
    }
  }

  lemma RemoveCovers(fp: Value -> nat, st: State, st': State, h: History, h': History, world: World, key: Key, dirtied: set<Key>, k: Key)
    requires Inv(fp, st, h, world) && h' == h.(lost := h'.lost) && h.lost <= h'.lost
    requires Unobserved(st.nodes, st.sourceRevisions, key) || key in h'.lost
    requires st' == st.(queries := st.queries - {key}, nodes := MarkDirty(st.nodes, dirtied) - {key}, reverse := st'.reverse)
    requires forall x :: x != key || key !in st.nodes ==> Dependents(st'.reverse, x) == Dependents(st.reverse, x) - {key}
    requires k in st'.nodes
    ensures Covered(st', h', k)
  {
    hide Replays, Outdated, Superseded, NodeOk;
    assert Covered(st, h, k);
    OutdatedWithout(st.nodes, st.sourceRevisions, key, dirtied, st.nodes[k].dependencies);
  }

  /** Without `key` exactly the memos that were outdated or read it are outdated. */
  lemma OutdatedWithout(nodes: map<Key, Node>, stamps: map<Key, nat>, key: Key, dirtied: set<Key>, deps: seq<Observation>)
    ensures Outdated(MarkDirty(nodes, dirtied) - {key}, stamps, deps) <==> Outdated(nodes - {key}, stamps, deps)
    ensures Outdated(nodes - {key}, stamps, deps) <==>
              Outdated(nodes, stamps, deps) || exists d :: d in deps && d.Read? && d.key == key
  {
    var without, marked := nodes - {key}, MarkDirty(nodes, dirtied) - {key};
    assert forall d :: Superseded(marked, stamps, d) <==> Superseded(without, stamps, d);
    assert forall d :: Superseded(without, stamps, d) <==> Superseded(nodes, stamps, d) || (d.Read? && d.key == key);
  }

  // ---------- memos and their callbacks ----------

  ghost predicate SameMemo(a: Node, b: Node) {
    b == a.(dirty := b.dirty)
  }

  /** From one table to a later one: each memo is the one it was, made as it was, or its
      present callback's with its revision kept or new. */
  ghost predicate Provenance(st: State, h: History, st': State, h': History) {
    forall k :: k in st'.nodes ==>
      || (k in st.nodes && SameMemo(st.nodes[k], st'.nodes[k]) && MadeAlike(h, h', k))
      || (&& k in h'.made && k in st'.queries && h'.made[k] == st'.queries[k]
          && ((k in st.nodes && st'.nodes[k].revision == st.nodes[k].revision) || st'.nodes[k].revision >= st.nextRevision))
  }

  ghost predicate MadeAlike(h: History, h': History, k: Key) {
    k in h.made ==> k in h'.made && h'.made[k] == h.made[k]
  }

  lemma ProvenanceSame(st: State, h: History)
    ensures Provenance(st, h, st, h)
  {
  }

  lemma ProvenanceTransitive(a: State, h: History, b: State, h': History, c: State, h'': History)
    requires Provenance(a, h, b, h') && Provenance(b, h', c, h'')
    requires c.queries == b.queries && a.nextRevision <= b.nextRevision
    ensures Provenance(a, h, c, h'')
  {
    forall k | k in c.nodes && k in b.nodes && k in a.nodes && SameMemo(a.nodes[k], b.nodes[k]) && SameMemo(b.nodes[k], c.nodes[k])
      ensures SameMemo(a.nodes[k], c.nodes[k]) {}
  }

  lemma ProvenanceFaithful(fp: Value -> nat, st: State, h: History, world: World, st': State, h': History, k: Key)
    requires Inv(fp, st, h, world) && Provenance(st, h, st', h') && FaithfulAt(st, h, k)
    requires st'.queries == st.queries && st'.sourceRevisions == st.sourceRevisions
    ensures FaithfulAt(st', h', k)
  {
    hide Replays;
    if k in st'.nodes && st'.nodes[k].value.Some? && k in st.nodes && Outdated(st.nodes, st.sourceRevisions, st.nodes[k].dependencies) {
      RecordedBelow(fp, st, h, world, k);
      OutdatedStays(st.nodes, st.sourceRevisions, st'.nodes, st'.sourceRevisions, st.nodes[k].dependencies, st.nextRevision);
    }
  }
}

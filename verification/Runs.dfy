/** One verification run seen from outside: what a call into the engine may have
    changed between two points of the run. */
module Runs {
  import opened Collections
  import opened Queries
  import opened Memo

  datatype Budgets = Budgets(maxWork: nat, maxObservations: nat, maxDepth: nat, maxOutput: nat)

  /** Engine table, proof history, the stack of active queries, and the keys whose
      bodies this run has started so far. */
  datatype View = View(
    st: State, h: History, world: World, continuations: map<nat, Key>, executed: seq<Key>)

  /** Registered queries not yet on the stack: what bounds the recursion. */
  ghost function Room(queries: map<Key, Body>, stack: seq<Key>): nat {
    |queries.Keys - set k | k in stack|
  }

  lemma RoomShrinks(queries: map<Key, Body>, stack: seq<Key>, key: Key)
    requires key in queries && key !in stack
    ensures Room(queries, stack + [key]) < Room(queries, stack)
  {
    var before := queries.Keys - set k | k in stack;
    var after := queries.Keys - set k | k in stack + [key];
    assert after == before - {key};
  }

  lemma LaterIsNew(s: seq<Key>, i: nat, j: nat, k: Key)
    requires i <= j <= |s| && NoRepeats(s) && k in s[j..]
    ensures k !in s[i..j]
  {
    var y :| 0 <= y < |s[j..]| && s[j..][y] == k;
    assert s[j + y] == k;
  }

  /** The observation has been overtaken: an external stamp moved, or the query that
      was read has been confirmed at another revision. Fingerprints play no part. */
  ghost predicate Moved(st: State, d: Observation) {
    match d
    case Read(k, r, _) => Clean(st.nodes, k) && st.nodes[k].revision != r
    case External(k, _, r) => SourceRevision(st.sourceRevisions, k) != r
  }

  /** `key` had no memo in `before`, or something it had observed was overtaken. */
  ghost predicate Justified(before: State, after: State, key: Key) {
    || key !in before.nodes
    || before.nodes[key].value.None?
    || exists d :: d in before.nodes[key].dependencies && Moved(after, d)
  }

  /** From `a` to `b` within one run, with the queries in `held` still active. */
  ghost predicate Advances(a: View, b: View, held: seq<Key>) {
    && b.world == a.world
    && b.st.queries == a.st.queries
    && b.st.sourceRevisions == a.st.sourceRevisions
    && a.st.nextRevision <= b.st.nextRevision
    && (StampsBelow(a.st) ==> StampsBelow(b.st))
    && HistoryGrows(a.h, b.h) && Provenance(a.st, a.h, b.st, b.h)
    && (forall t :: t in a.continuations ==> t in b.continuations && b.continuations[t] == a.continuations[t])
    && LeftAlone(a.st.nodes, b.st.nodes, held)
    && ChangedWithCause(a, b, held)
  }

  /** Confirmed memos and those of active queries are left alone. */
  ghost predicate LeftAlone(nodes: map<Key, Node>, nodes': map<Key, Node>, held: seq<Key>) {
    && (forall k :: Clean(nodes, k) ==> k in nodes' && nodes'[k] == nodes[k])
    && (forall k :: k in held ==>
          && (k in nodes <==> k in nodes')
          && (k in nodes ==> nodes'[k] == nodes[k]))
  }

  /** Only executed bodies change memos, and never without cause. */
  ghost predicate ChangedWithCause(a: View, b: View, held: seq<Key>) {
    && a.executed <= b.executed
    && (forall k :: k !in b.executed[|a.executed|..] ==>
          && (k in a.st.nodes <==> k in b.st.nodes)
          && (k in a.st.nodes ==> SameMemo(a.st.nodes[k], b.st.nodes[k])))
    && (forall k :: k in b.executed[|a.executed|..] ==>
          k !in held && Justified(a.st, b.st, k))
  }

  lemma AdvancesTransitive(a: View, b: View, c: View, held: seq<Key>)
    requires Advances(a, b, held) && Advances(b, c, held)
    requires NoRepeats(c.executed)
    ensures Advances(a, c, held)
  {
    ProvenanceTransitive(a.st, a.h, b.st, b.h, c.st, c.h);
    LeftAloneTransitive(a.st.nodes, b.st.nodes, c.st.nodes, held);
    CauseTransitive(a, b, c, held);
    hide Provenance, LeftAlone, ChangedWithCause, StampsBelow;
  }

  lemma LeftAloneTransitive(a: map<Key, Node>, b: map<Key, Node>, c: map<Key, Node>, held: seq<Key>)
    requires LeftAlone(a, b, held) && LeftAlone(b, c, held)
    ensures LeftAlone(a, c, held)
  {
  }

  lemma CauseTransitive(a: View, b: View, c: View, held: seq<Key>)
    requires ChangedWithCause(a, b, held) && ChangedWithCause(b, c, held)
    requires LeftAlone(b.st.nodes, c.st.nodes, held) && c.st.sourceRevisions == b.st.sourceRevisions
    requires NoRepeats(c.executed)
    ensures ChangedWithCause(a, c, held)
  {
    var first, second := b.executed[|a.executed|..], c.executed[|b.executed|..];
    assert c.executed[|a.executed|..] == first + second;
    forall k | k in first
      ensures Justified(a.st, c.st, k)
    {
      assert Justified(a.st, b.st, k);
    }
    forall k | k in second
      ensures Justified(a.st, c.st, k)
    {
      LaterIsNew(c.executed, |a.executed|, |b.executed|, k);
      assert c.executed[|a.executed|..|b.executed|] == first;
      assert Justified(b.st, c.st, k);
    }
  }

  /** These keys have nodes now, and nothing but dirty marks differs in those that had one. */
  ghost predicate MemosKept(nodes: map<Key, Node>, nodes': map<Key, Node>, keys: set<Key>) {
    nodes'.Keys == keys && forall k :: k in nodes && k in nodes' ==> SameMemo(nodes[k], nodes'[k])
  }

  lemma MarkedKept(nodes: map<Key, Node>, nodes': map<Key, Node>, keys: set<Key>, dirtied: set<Key>)
    requires MemosKept(nodes, nodes', keys)
    ensures MemosKept(nodes, MarkDirty(nodes', dirtied), keys)
    ensures forall key :: MemosKept(nodes, MarkDirty(nodes', dirtied) - {key}, keys - {key})
  {
    forall k | k in nodes && k in nodes' ensures SameMemo(nodes[k], MarkDirty(nodes', dirtied)[k]) {
      assert SameMemo(nodes[k], nodes'[k]);
    }
  }

  // What callers need of `Advances`, one fact at a time.

  lemma AdvancesSame(a: View, b: View, held: seq<Key>)
    requires b == a.(continuations := b.continuations)
    requires forall t :: t in a.continuations ==> t in b.continuations && b.continuations[t] == a.continuations[t]
    ensures Advances(a, b, held)
  {
  }

  lemma AdvancesBasics(a: View, b: View, held: seq<Key>)
    requires Advances(a, b, held)
    ensures b.world == a.world && b.st.queries == a.st.queries
    ensures b.st.sourceRevisions == a.st.sourceRevisions && a.st.nextRevision <= b.st.nextRevision
    ensures HistoryGrows(a.h, b.h) && Provenance(a.st, a.h, b.st, b.h) && a.executed <= b.executed
    ensures StampsBelow(a.st) ==> StampsBelow(b.st)
    ensures forall t :: t in a.continuations ==> t in b.continuations && b.continuations[t] == a.continuations[t]
  {
  }

  lemma AdvancesHeld(a: View, b: View, held: seq<Key>, k: Key)
    requires Advances(a, b, held) && k in held
    ensures k in a.st.nodes <==> k in b.st.nodes
    ensures k in a.st.nodes ==> b.st.nodes[k] == a.st.nodes[k]
  {
  }

  lemma AdvancesCurrent(a: View, b: View, held: seq<Key>, o: Observation)
    requires Advances(a, b, held) && Current(a.st.nodes, a.st.sourceRevisions, o)
    ensures Current(b.st.nodes, b.st.sourceRevisions, o)
  {
  }

  lemma AdvancesClean(a: View, b: View, held: seq<Key>, k: Key)
    requires Advances(a, b, held) && Clean(a.st.nodes, k)
    ensures Clean(b.st.nodes, k) && k in a.st.nodes && k in b.st.nodes && b.st.nodes[k] == a.st.nodes[k]
  {
  }

  ghost predicate ReadsClean(nodes: map<Key, Node>, deps: seq<Observation>) {
    forall d :: d in deps && d.Read? ==> Clean(nodes, d.key)
  }

  lemma ReadsCleanNext(a: View, b: View, held: seq<Key>, deps: seq<Observation>, i: nat)
    requires Advances(a, b, held) && i < |deps|
    requires ReadsClean(a.st.nodes, deps[..i]) && (deps[i].Read? ==> Clean(b.st.nodes, deps[i].key))
    ensures ReadsClean(b.st.nodes, deps[..i + 1])
  {
    assert deps[..i + 1] == deps[..i] + [deps[i]];
  }

  lemma AdvancesFewer(a: View, b: View, held: seq<Key>, fewer: seq<Key>)
    requires Advances(a, b, held) && forall k :: k in fewer ==> k in held
    ensures Advances(a, b, fewer)
  {
  }

  /** Starting a body that has cause to run. */
  lemma AdvancesStart(a: View, b: View, held: seq<Key>, key: Key)
    requires b == a.(executed := a.executed + [key])
    requires key !in held && Justified(a.st, a.st, key)
    ensures Advances(a, b, held)
  {
    assert b.executed[|a.executed|..] == [key];
  }

  // ---------- memos that a run can only confirm ----------

  /** `keep` ranks a set of memos closed under its own reads in which every recorded
      observation still names the present revision, dirty or not. */
  ghost predicate Fresh(st: State, keep: map<Key, nat>) {
    forall k :: k in keep ==>
      && k in st.queries && k in st.nodes && st.nodes[k].value.Some?
      && forall d :: d in st.nodes[k].dependencies ==>
           match d
           case Read(x, r, f) =>
             && x in keep && keep[x] < keep[k] && x in st.nodes
             && st.nodes[x].revision == r && st.nodes[x].fingerprint == Some(f)
           case External(x, _, r) => SourceRevision(st.sourceRevisions, x) == r
  }

  /** The same order, counted without gaps. */
  ghost function Compact(keep: map<Key, nat>): map<Key, nat> {
    map k | k in keep :: |Below(keep, keep[k])|
  }

  ghost function Below(keep: map<Key, nat>, n: nat): set<Key> {
    set x | x in keep && keep[x] < n
  }

  lemma CompactOrder(keep: map<Key, nat>, x: Key, k: Key)
    requires x in keep && k in keep && keep[x] < keep[k]
    ensures Compact(keep)[x] < Compact(keep)[k]
  {
    assert Below(keep, keep[x]) + {x} <= Below(keep, keep[k]);
    SubsetSize(Below(keep, keep[x]) + {x}, Below(keep, keep[k]));
  }

  lemma CompactBound(keep: map<Key, nat>, k: Key, keys: set<Key>)
    requires k in keep && keep.Keys <= keys
    ensures Compact(keep)[k] < |keys|
  {
    assert Below(keep, keep[k]) + {k} <= keys;
    SubsetSize(Below(keep, keep[k]) + {k}, keys);
  }

  /** Depth for as many queries as are ranked is enough to confirm them all. */
  lemma CompactFresh(st: State, keep: map<Key, nat>)
    requires Fresh(st, keep)
    ensures Fresh(st, Compact(keep))
  {
    hide Compact;
    CompactKeys(keep);
    forall k, x | k in keep && x in keep && keep[x] < keep[k] ensures Compact(keep)[x] < Compact(keep)[k] {
      CompactOrder(keep, x, k);
    }
  }

  lemma CompactKeys(keep: map<Key, nat>)
    ensures Compact(keep).Keys == keep.Keys
  {
  }

  ghost predicate OnlyConfirmed(a: View, b: View) {
    && b.executed == a.executed
    && b.st.nodes.Keys == a.st.nodes.Keys && b.st.reverse == a.st.reverse
    && forall k :: k in a.st.nodes ==> SameMemo(a.st.nodes[k], b.st.nodes[k])
  }

  lemma OnlyConfirmedTransitive(a: View, b: View, c: View)
    requires OnlyConfirmed(a, b) && OnlyConfirmed(b, c)
    ensures OnlyConfirmed(a, c)
  {
    forall k | k in a.st.nodes ensures SameMemo(a.st.nodes[k], c.st.nodes[k]) {
      assert SameMemo(a.st.nodes[k], b.st.nodes[k]);
    }
  }

  lemma FreshRegistered(st: State, keep: map<Key, nat>, key: Key)
    requires Fresh(st, keep) && key in keep
    ensures key in st.queries && key in st.nodes && st.nodes[key].value.Some?
    ensures forall d :: d in st.nodes[key].dependencies && d.Read? ==> d.key in keep && keep[d.key] < keep[key]
  {
  }

  /** Once everything a fresh memo read is confirmed, all its observations are current. */
  lemma FreshCurrent(st: State, keep: map<Key, nat>, key: Key)
    requires Fresh(st, keep) && key in keep && key in st.nodes
    requires ReadsClean(st.nodes, st.nodes[key].dependencies)
    ensures AllCurrent(st, st.nodes[key].dependencies)
  {
  }

  lemma FreshAfterConfirming(a: View, b: View, keep: map<Key, nat>)
    requires Fresh(a.st, keep) && OnlyConfirmed(a, b)
    requires b.st.queries == a.st.queries && b.st.sourceRevisions == a.st.sourceRevisions
    ensures Fresh(b.st, keep)
  {
    forall k | k in keep ensures k in b.st.nodes && SameMemo(a.st.nodes[k], b.st.nodes[k]) {
      assert k in a.st.nodes;
    }
  }

  /** The active queries leave room to descend through `keep` from `key`. */
  ghost predicate Descends(keep: map<Key, nat>, key: Key, stack: seq<Key>, budgets: Budgets) {
    && key in keep
    && |stack| + keep[key] < budgets.maxDepth
    && forall s :: s in stack ==> s in keep && keep[key] < keep[s]
  }

  lemma DescendsInto(st: State, keep: map<Key, nat>, key: Key, below: seq<Key>, budgets: Budgets, d: Observation)
    requires Fresh(st, keep) && Descends(keep, key, below, budgets)
    requires key in st.nodes && d in st.nodes[key].dependencies && d.Read?
    ensures Descends(keep, d.key, below + [key], budgets)
  {
  }
}

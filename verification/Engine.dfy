/** The incremental query engine: demand-driven evaluation with memo reuse, dirty
    cascades, early cutoff, budgets and continuation tokens. */
module Engine {
  import opened Collections
  import opened Queries
  import opened Memo
  import opened Runs
  import opened Causes

  /** The bookkeeping of one verification run. */
  class Run {
    const root: Key
    const budgets: Budgets
    var stack: seq<Key>
    var work: nat
    var observations: nat
    var output: nat
    var cancelled: bool
    // keys whose bodies were started, the table and the continuations at the start, and
    // what the bodies on the stack may still charge and have charged
    ghost var executed: seq<Key>
    ghost const start: State
    ghost const tokens: map<nat, Key>
    ghost var open: Spending
    ghost var paid: Spending

    constructor (root: Key, budgets: Budgets, ghost start: State, ghost tokens: map<nat, Key>)
      ensures this.root == root && this.budgets == budgets && this.start == start && this.tokens == tokens
      ensures stack == [] && executed == [] && !cancelled
      ensures Spent() == NOTHING == open == paid
    {
      this.root, this.budgets := root, budgets;
      this.start, this.tokens, open, paid := start, tokens, NOTHING, NOTHING;
      stack, executed := [], [];
      work, observations, output, cancelled := 0, 0, 0, false;
    }

    ghost function Spent(): Spending
      reads this
    {
      Spending(work, observations, output)
    }

    /** No counter has passed its budget, every started body has cost its unit of work, the
        active queries are distinct registered keys that asked one for another, and cancelling is the doing of a callback the run can get
        to. */
    ghost predicate Valid(queries: map<Key, Body>)
      reads this
    {
      && |executed| <= work <= budgets.maxWork && observations <= budgets.maxObservations
      && output <= budgets.maxOutput && |stack| <= budgets.maxDepth
      && NoRepeats(stack) && (forall k :: k in stack ==> k in queries)
      && NoRepeats(executed) && (forall k :: k in executed ==> k in queries)
      && start.queries == queries && Active(start, root, stack) && (cancelled ==> Cancellable(start, root))
    }
  }

  /** Bodies this run has started belong to confirmed memos or to active queries. */
  ghost predicate Settled(nodes: map<Key, Node>, executed: seq<Key>, active: seq<Key>) {
    forall k :: k in executed ==> Clean(nodes, k) || k in active
  }

  /** Memos of queries this run has not executed are as they were when it began. */
  ghost predicate Untouched(start: map<Key, Node>, nodes: map<Key, Node>, executed: seq<Key>) {
    forall k :: k !in executed ==> (k in start <==> k in nodes) && (k in nodes ==> SameMemo(start[k], nodes[k]))
  }

  /** Each of these callbacks ran once and with cause, and no other memo changed. */
  ghost predicate Economical(before: State, after: State, executed: seq<Key>) {
    && NoRepeats(executed) && |executed| <= |before.queries|
    && (forall k :: k in executed ==> k in before.queries && Justified(before, after, k))
    && Untouched(before.nodes, after.nodes, executed)
  }

  /** The path from the active occurrence of `key` back to `key`. */
  method CycleError(stack: seq<Key>, key: Key, ghost st: State) returns (e: Error)
    requires NoRepeats(stack) && key in stack && Chain(st, stack + [key])
    ensures e.Cycle? && |e.path| >= 2 && e.path[0] == key == e.path[|e.path| - 1]
    ensures NoRepeats(e.path[..|e.path| - 1]) && (forall k :: k in e.path ==> k in stack) && Chain(st, e.path)
  {
    hide Asks;
    var index := IndexOf(stack, key);
    e := Cycle(stack[index..] + [key]);
    assert e.path[..|e.path| - 1] == stack[index..];
    assert e.path == (stack + [key])[index..];
  }

  /** Forgets `key` as a dependent of everything in `deps`. */
  method Unlink(reverse: map<Key, set<Key>>, key: Key, deps: seq<Observation>) returns (out: map<Key, set<Key>>)
    ensures forall x :: Dependents(out, x) == Dependents(reverse, x) - (if Observes(deps, x) then {key} else {})
  {
    out := reverse;
    for i := 0 to |deps|
      invariant forall x :: Dependents(out, x) == Dependents(reverse, x) - (if Observes(deps[..i], x) then {key} else {})
    {
      var k := deps[i].key;
      assert deps[..i + 1] == deps[..i] + [deps[i]];
      assert forall x :: Observes(deps[..i + 1], x) <==> Observes(deps[..i], x) || x == k by { ObservesOneMore(deps[..i], deps[i]); }
      if k in out {
        out := out[k := out[k] - {key}];
      }
    }
    assert deps[..|deps|] == deps;
  }

  /** Lists `key` as a dependent of everything in `deps`. */
  method Link(reverse: map<Key, set<Key>>, key: Key, deps: seq<Observation>) returns (out: map<Key, set<Key>>)
    ensures forall x :: Dependents(out, x) == Dependents(reverse, x) + (if Observes(deps, x) then {key} else {})
  {
    out := reverse;
    for i := 0 to |deps|
      invariant forall x :: Dependents(out, x) == Dependents(reverse, x) + (if Observes(deps[..i], x) then {key} else {})
    {
      var k := deps[i].key;
      assert deps[..i + 1] == deps[..i] + [deps[i]];
      assert forall x :: Observes(deps[..i + 1], x) <==> Observes(deps[..i], x) || x == k by { ObservesOneMore(deps[..i], deps[i]); }
      out := out[k := Dependents(out, k) + {key}];
    }
    assert deps[..|deps|] == deps;
  }

  lemma ObservesOneMore(deps: seq<Observation>, d: Observation)
    ensures forall x :: Observes(deps + [d], x) <==> Observes(deps, x) || x == d.key
  {
    assert d in deps + [d];
    forall x | Observes(deps, x) ensures Observes(deps + [d], x) {
      var e :| e in deps && e.key == x;
      assert e in deps + [d];
    }
  }

  /** Dirties exactly the existing memos reachable from `key` over reverse edges. */
  method Cascade(nodes: map<Key, Node>, reverse: map<Key, set<Key>>, key: Key)
      returns (out: map<Key, Node>, ghost dirtied: set<Key>)
    ensures out == MarkDirty(nodes, dirtied)
    ensures key in dirtied && ReverseClosed(reverse, dirtied) && OnlyReachable(reverse, key, dirtied)
    ensures out.Keys == nodes.Keys && forall k :: k in nodes ==>
              out[k] == if Reaches(reverse, key, k) then nodes[k].(dirty := true) else nodes[k]
  {
    hide OnlyReachable, MarkDirty, Everyone, ExpandedInto, Dependents, Reaches;
    var pending, seen := {key}, {};
    ghost var known, all := {key}, Everyone(reverse, key);
    out := nodes;
    EveryoneCovers(reverse, key);
    NothingDirty(nodes);
    NothingExpanded(reverse, known);
    StartReachable(reverse, key);
    while pending != {}
      invariant out == MarkDirty(nodes, seen)
      invariant key in known && known <= all && pending <= known
      invariant forall x :: x in known ==> x in seen || x in pending
      invariant seen <= known && ExpandedInto(reverse, seen, known)
      invariant OnlyReachable(reverse, key, known)
      decreases all - seen, |pending|
    {
      var next :| next in pending;
      pending := pending - {next};
      if next !in seen {
        MarkDirtyMore(nodes, seen, next);
        ReachesMore(reverse, key, known, next);
        ExpandedMore(reverse, seen, known, next);
        seen := seen + {next};
        if next in out {
          out := out[next := out[next].(dirty := true)];
        }
        pending := pending + Dependents(reverse, next);
        known := known + Dependents(reverse, next);
      }
    }
    assert seen == known;
    ExpandedCloses(reverse, seen);
    dirtied := seen;
    MarkedExactly(nodes, reverse, key, dirtied);
  }

  lemma MarkedExactly(nodes: map<Key, Node>, reverse: map<Key, set<Key>>, key: Key, dirtied: set<Key>)
    requires key in dirtied && ReverseClosed(reverse, dirtied) && OnlyReachable(reverse, key, dirtied)
    ensures var out := MarkDirty(nodes, dirtied);
      out.Keys == nodes.Keys && forall k :: k in nodes ==>
        out[k] == if Reaches(reverse, key, k) then nodes[k].(dirty := true) else nodes[k]
  {
    forall k ensures k in dirtied <==> Reaches(reverse, key, k) {}
  }

  /** A key is only listed under what it observed, so unlinking removes it everywhere. */
  lemma Relinked(fp: Value -> nat, st: State, h: History, world: World, key: Key,
      unlinked: map<Key, set<Key>>, linked: map<Key, set<Key>>, deps: seq<Observation>)
    requires Inv(fp, st, h, world)
    requires var oldDeps := if key in st.nodes then st.nodes[key].dependencies else [];
      forall x :: Dependents(unlinked, x) == Dependents(st.reverse, x) - (if Observes(oldDeps, x) then {key} else {})
    requires forall x :: Dependents(linked, x) == Dependents(unlinked, x) + (if Observes(deps, x) then {key} else {})
    ensures forall x :: Dependents(linked, x)
              == Dependents(st.reverse, x) - {key} + (if Observes(deps, x) then {key} else {})
  {
  }

  /** Running a body up to its commit, seen across the whole activation of `key`. */
  lemma CommitAdvances(a: View, b: View, c: View, key: Key, below: seq<Key>)
    requires Advances(a, b, below)
    requires key in b.executed[|a.executed|..] && key !in below && !Clean(b.st.nodes, key)
    requires c.world == b.world && c.continuations == b.continuations && c.executed == b.executed
    requires c.st.queries == b.st.queries && c.st.sourceRevisions == b.st.sourceRevisions
    requires b.st.nextRevision <= c.st.nextRevision && HistoryGrows(b.h, c.h)
    requires key in c.st.nodes && c.st.nodes == b.st.nodes[key := c.st.nodes[key]]
    requires AllCurrent(b.st, c.st.nodes[key].dependencies)
    requires key in b.st.queries && c.h.made == b.h.made[key := b.st.queries[key]]
    requires (key in b.st.nodes && c.st.nodes[key].revision == b.st.nodes[key].revision) || c.st.nodes[key].revision >= b.st.nextRevision
    ensures Advances(a, c, below)
  {
    assert Provenance(b.st, b.h, c.st, c.h);
    ProvenanceTransitive(a.st, a.h, b.st, b.h, c.st, c.h);
    CommitLeavesAlone(a.st.nodes, b.st.nodes, c.st.nodes, key, below);
    CommitWithCause(a, b, c, key, below);
    CommitStamps(b.st, c.st, key);
    GrowsOn(a.h, b.h, c.h);
    hide Provenance, LeftAlone, ChangedWithCause, StampsBelow, HistoryGrows;
  }

  lemma CommitLeavesAlone(a: map<Key, Node>, b: map<Key, Node>, c: map<Key, Node>, key: Key, below: seq<Key>)
    requires LeftAlone(a, b, below) && key !in below && !Clean(b, key) && key in c && c == b[key := c[key]]
    ensures LeftAlone(a, c, below)
  {
  }

  lemma CommitWithCause(a: View, b: View, c: View, key: Key, below: seq<Key>)
    requires ChangedWithCause(a, b, below) && key in b.executed[|a.executed|..] && !Clean(b.st.nodes, key)
    requires c.executed == b.executed && c.st.sourceRevisions == b.st.sourceRevisions
    requires key in c.st.nodes && c.st.nodes == b.st.nodes[key := c.st.nodes[key]]
    ensures ChangedWithCause(a, c, below)
  {
    forall k | k in c.executed[|a.executed|..]
      ensures k !in below && Justified(a.st, c.st, k)
    {
      assert Justified(a.st, b.st, k);
    }
  }

  lemma CommitStamps(st: State, st': State, key: Key)
    requires st'.sourceRevisions == st.sourceRevisions && st.nextRevision <= st'.nextRevision
    requires key in st'.nodes && st'.nodes == st.nodes[key := st'.nodes[key]] && AllCurrent(st, st'.nodes[key].dependencies)
    ensures StampsBelow(st) ==> StampsBelow(st')
  {
    if StampsBelow(st) {
      forall k, d | k in st'.nodes && d in st'.nodes[k].dependencies && d.External? ensures d.revision < st'.nextRevision {
        if k == key { assert Current(st.nodes, st.sourceRevisions, d); }
      }
    }
  }

  class IncrementalEngine {
    var queries: map<Key, Body>
    var nodes: map<Key, Node>
    var reverse: map<Key, set<Key>>
    var sourceRevisions: map<Key, nat>
    var continuations: map<nat, Key>
    var nextRevision: nat
    var nextToken: nat
    // the value fingerprint, an arbitrary function: collisions are allowed
    const fingerprint: Value -> nat
    // what the callbacks see when they look outside
    var world: World
    ghost var hist: History

    constructor (fingerprint: Value -> nat, world: World)
      ensures Valid() && StampsBelow(Table()) && Sound()
      ensures queries == map[] && nodes == map[] && reverse == map[] && sourceRevisions == map[]
      ensures this.fingerprint == fingerprint && this.world == world && nextRevision == 1
    {
      queries, nodes, reverse, sourceRevisions, continuations := map[], map[], map[], map[], map[];
      nextRevision, nextToken := 1, 1;
      this.fingerprint, this.world := fingerprint, world;
      hist := History(map[], (k: Key, r: nat) => Look(world, k), map[], 0, map[], {});
    }

    ghost function Table(): State
      reads this
    {
      State(queries, nodes, reverse, sourceRevisions, nextRevision)
    }

    ghost function See(run: Run): View
      reads this, run
    {
      View(Table(), hist, world, continuations, run.executed)
    }

    ghost predicate Valid()
      reads this
    {
      && Inv(fingerprint, Table(), hist, world)
      && forall t :: t in continuations ==> t < nextToken
    }

    /** Every memo that could be accepted is its present callback's, and every source an
        accepted memo may observe is tracked. */
    ghost predicate Sound()
      reads this
    {
      Faithful(Table(), hist) && hist.lost == {}
    }

    /** Nothing has failed in this run yet. */
    ghost predicate Ongoing(run: Run)
      reads this, run
    {
      && Untouched(run.start.nodes, nodes, run.executed)
      && Afforded(queries, run.Spent(), run.open, |run.executed|)
      && Ledger(queries, nodes, world, run.executed, run.Spent(), run.paid)
      && continuations == run.tokens
    }

    /** The error has its cause in the table the run began with. */
    ghost predicate Because(e: Error, run: Run)
      reads this, run
    {
      Explained(e, run.start, run.root, run.budgets, run.tokens, continuations)
    }

    // ---------- budgets ----------

    method BudgetError(run: Run, kind: BudgetKind, consumed: nat) returns (e: Error)
      requires Valid() && consumed > LimitOf(run.budgets, kind)
      modifies this`continuations, this`nextToken
      ensures Valid()
      ensures e.BudgetExceeded? && e.kind == kind && e.limit == LimitOf(run.budgets, kind) && e.consumed == consumed
      ensures e.continuation.Some? && e.continuation.value !in old(continuations)
      ensures continuations == old(continuations)[e.continuation.value := run.root]
      ensures forall t :: t in old(continuations) ==> t in continuations && continuations[t] == old(continuations)[t]
    {
      continuations := continuations[nextToken := run.root];
      e := BudgetExceeded(kind, LimitOf(run.budgets, kind), consumed, Some(nextToken));
      nextToken := nextToken + 1;
    }

    method ChargeWork(run: Run, units: nat) returns (r: Result<()>)
      requires Valid() && run.Valid(queries) && continuations == run.tokens && Fits(queries, Work, run.work + units)
      modifies this`continuations, this`nextToken, run`work
      ensures Valid() && run.Valid(queries)
      ensures Advances(old(See(run)), See(run), run.stack)
      ensures r.Ok? <==> !run.cancelled && old(run.work) + units <= run.budgets.maxWork
      ensures r.Ok? ==> run.work == old(run.work) + units && continuations == old(continuations)
      ensures r.Err? ==> run.work == old(run.work) && Because(r.error, run)
      ensures r.Err? && !run.cancelled ==>
                r.error.BudgetExceeded? && r.error.kind == Work && r.error.limit == run.budgets.maxWork && r.error.consumed == old(run.work) + units
      ensures run.cancelled ==> r == Err(Cancelled) && continuations == old(continuations)
    {
      hide Inv, Advances, NoRepeats;
      AdvancesSame(See(run), See(run), run.stack);
      ghost var a := See(run);
      if run.cancelled { return Err(Cancelled); }
      if run.work + units > run.budgets.maxWork {
        var e := BudgetError(run, Work, run.work + units);
        AdvancesSame(a, See(run), run.stack);
        return Err(e);
      }
      run.work := run.work + units;
      r := Ok(());
    }

    method ChargeOutput(run: Run, units: nat) returns (r: Result<()>)
      requires Valid() && run.Valid(queries) && continuations == run.tokens && Fits(queries, Output, run.output + units)
      modifies this`continuations, this`nextToken, run`output
      ensures Valid() && run.Valid(queries)
      ensures Advances(old(See(run)), See(run), run.stack)
      ensures r.Ok? <==> !run.cancelled && old(run.output) + units <= run.budgets.maxOutput
      ensures r.Ok? ==> run.output == old(run.output) + units && continuations == old(continuations)
      ensures r.Err? ==> run.output == old(run.output) && Because(r.error, run)
      ensures r.Err? && !run.cancelled ==>
                r.error.BudgetExceeded? && r.error.kind == Output && r.error.limit == run.budgets.maxOutput && r.error.consumed == old(run.output) + units
      ensures run.cancelled ==> r == Err(Cancelled) && continuations == old(continuations)
    {
      hide Inv, Advances, NoRepeats;
      AdvancesSame(See(run), See(run), run.stack);
      ghost var a := See(run);
      if run.cancelled { return Err(Cancelled); }
      if run.output + units > run.budgets.maxOutput {
        var e := BudgetError(run, Output, run.output + units);
        AdvancesSame(a, See(run), run.stack);
        return Err(e);
      }
      run.output := run.output + units;
      r := Ok(());
    }

    method ChargeObservation(run: Run) returns (r: Result<()>)
      requires Valid() && run.Valid(queries) && continuations == run.tokens && Fits(queries, Observations, run.observations + 1)
      modifies this`continuations, this`nextToken, run`observations
      ensures Valid() && run.Valid(queries)
      ensures Advances(old(See(run)), See(run), run.stack)
      ensures r.Ok? <==> old(run.observations) + 1 <= run.budgets.maxObservations
      ensures r.Ok? ==> run.observations == old(run.observations) + 1 && continuations == old(continuations)
      ensures r.Err? ==> run.observations == old(run.observations) && Because(r.error, run)
      ensures r.Err? ==>
                r.error.BudgetExceeded? && r.error.kind == Observations && r.error.limit == run.budgets.maxObservations && r.error.consumed == old(run.observations) + 1
    {
      hide Inv, Advances, NoRepeats;
      AdvancesSame(See(run), See(run), run.stack);
      ghost var a := See(run);
      if run.observations + 1 > run.budgets.maxObservations {
        var e := BudgetError(run, Observations, run.observations + 1);
        AdvancesSame(a, See(run), run.stack);
        return Err(e);
      }
      run.observations := run.observations + 1;
      r := Ok(());
    }

    // ---------- committing ----------

    method CommitValue(key: Key, value: Value, deps: seq<Observation>)
      requires Valid() && key in queries && !Clean(nodes, key)
      requires Replays(fingerprint, hist, queries[key], deps, value)
      requires AllCurrent(Table(), deps)
      modifies this`nodes, this`reverse, this`nextRevision, this`hist
      ensures Valid() && HistoryGrows(old(hist), hist) && old(nextRevision) <= nextRevision
      ensures hist.made == old(hist.made)[key := queries[key]]
      ensures key in nodes && nodes == old(nodes)[key := nodes[key]]
      ensures !nodes[key].dirty && nodes[key].value == Some(value) && nodes[key].dependencies == deps
      // the early cutoff: an equal value keeps its revision, an unequal one gets a new one
      ensures if key in old(nodes) && old(nodes)[key].value == Some(value)
              then nodes[key].revision == old(nodes)[key].revision
              else nodes[key].revision == old(nextRevision)
    {
      hide Inv, Replays, AllCurrent, Observes, Dependents;
      ghost var st, h := Table(), hist;
      var oldDeps := if key in nodes then nodes[key].dependencies else [];
      reverse := Unlink(reverse, key, oldDeps);
      ghost var unlinked := reverse;
      var same := key in nodes && nodes[key].value == Some(value);
      var revision := nextRevision;
      if same {
        revision := nodes[key].revision;
      } else {
        nextRevision := nextRevision + 1;
      }
      reverse := Link(reverse, key, deps);
      nodes := nodes[key := Node(revision, false, Some(value), Some(fingerprint(value)), deps)];
      hist := Confirmed(hist.(values := hist.values[(key, revision) := value], made := hist.made[key := queries[key]]), key);
      Relinked(fingerprint, st, h, world, key, unlinked, reverse, deps);
      assert Commits(fingerprint, st, Table(), h, hist, key, value, deps);
      CommitKeepsInv(fingerprint, st, Table(), h, hist, world, key, value, deps);
    }

    // ---------- evaluation ----------

    /** The checks before a query becomes active. */
    method Admit(key: Key, run: Run) returns (r: Result<()>)
      requires Valid() && run.Valid(queries) && continuations == run.tokens && Called(run.start, run.root, run.stack, key)
      modifies this`continuations, this`nextToken
      ensures Valid()
      ensures r.Ok? <==> !run.cancelled && key in queries && key !in run.stack && |run.stack| < run.budgets.maxDepth
      ensures r.Ok? ==> unchanged(this)
      ensures r.Err? ==> Because(r.error, run) && Advances(old(See(run)), See(run), run.stack)
      // the first of the checks that fails gives the error
      ensures r.Err? ==>
                if run.cancelled then r.error.Cancelled?
                else if key !in queries then r.error == UnknownQuery(key)
                else if key in run.stack then r.error.Cycle? && |r.error.path| >= 2 && r.error.path[0] == key
                else r.error.BudgetExceeded? && r.error.kind == Depth
    {
      hide Inv, NoRepeats, Active, Called, Chain, Reached, Cancellable, Advances;
      ghost var a := See(run);
      AdvancesSame(a, a, run.stack);
      if run.cancelled { return Err(Cancelled); }
      ActiveMore(run.start, run.root, run.stack, key);
      if key !in queries { return Err(UnknownQuery(key)); }
      if key in run.stack {
        var e := CycleError(run.stack, key, run.start);
        return Err(e);
      }
      if |run.stack| + 1 > run.budgets.maxDepth {
        DeepStack(run.start, run.root, run.stack, key);
        var e := BudgetError(run, Depth, |run.stack| + 1);
        AdvancesSame(a, See(run), run.stack);
        return Err(e);
      }
      r := Ok(());
    }

    method Evaluate(key: Key, run: Run, ghost keep: map<Key, nat>) returns (r: Result<Value>)
      requires Valid() && run.Valid(queries) && Settled(nodes, run.executed, run.stack) && Ongoing(run)
      requires Called(run.start, run.root, run.stack, key)
      modifies this, run
      ensures Valid() && run.Valid(queries) && run.stack == old(run.stack)
      ensures Advances(old(See(run)), See(run), run.stack)
      ensures old(run.cancelled) ==> run.cancelled
      ensures r.Ok? ==> Settled(nodes, run.executed, run.stack) && Ongoing(run) && run.open == old(run.open) && run.paid == old(run.paid)
      ensures r.Ok? ==> Clean(nodes, key) && nodes[key].value == Some(r.value) && !run.cancelled
      ensures r.Err? ==> Because(r.error, run)
      // a closed set of memos whose observations still hold is confirmed without running anything
      ensures (Fresh(old(Table()), keep) && Descends(keep, key, run.stack, run.budgets) && !old(run.cancelled)) ==>
        r.Ok? && OnlyConfirmed(old(See(run)), See(run)) && !run.cancelled
      // a confirmed memo is simply returned
      ensures old(Clean(nodes, key) && !run.cancelled && key !in run.stack && |run.stack| < run.budgets.maxDepth) ==>
        r.Ok? && nodes == old(nodes) && run.executed == old(run.executed) && run.work == old(run.work)
      decreases Room(queries, run.stack), 1
    {
      hide Inv, Advances, Fresh, OnlyConfirmed, Settled, NoRepeats, Room, Descends, Explained, Untouched, Afforded, Ledger, Active, Called, Cancellable,
        StampsBelow, Provenance, HistoryGrows, Truthful, Raised;
      if Fresh(Table(), keep) && Descends(keep, key, run.stack, run.budgets) { DescendsFrom(Table(), keep, key, run.stack, run.budgets); }
      CleanIsRegistered(fingerprint, Table(), hist, world, key);
      var admitted := Admit(key, run);
      if admitted.Err? { return Err(admitted.error); }
      r := EvaluateAdmitted(key, run, keep);
    }

    /** Makes an admitted query active, evaluates it, and takes it off the stack again. */
    method EvaluateAdmitted(key: Key, run: Run, ghost keep: map<Key, nat>) returns (r: Result<Value>)
      requires Valid() && run.Valid(queries) && Settled(nodes, run.executed, run.stack) && Ongoing(run)
      requires Called(run.start, run.root, run.stack, key)
      requires !run.cancelled && key in queries && key !in run.stack && |run.stack| < run.budgets.maxDepth
      modifies this, run
      ensures Valid() && run.Valid(queries) && run.stack == old(run.stack)
      ensures Advances(old(See(run)), See(run), run.stack)
      ensures r.Ok? ==> Settled(nodes, run.executed, run.stack) && Ongoing(run) && run.open == old(run.open) && run.paid == old(run.paid)
      ensures r.Ok? ==> Clean(nodes, key) && nodes[key].value == Some(r.value) && !run.cancelled
      ensures r.Err? ==> Because(r.error, run)
      ensures (Fresh(old(Table()), keep) && Descends(keep, key, run.stack, run.budgets)) ==>
        r.Ok? && OnlyConfirmed(old(See(run)), See(run)) && !run.cancelled
      ensures old(Clean(nodes, key)) ==>
        r.Ok? && nodes == old(nodes) && run.executed == old(run.executed) && run.work == old(run.work)
      decreases Room(queries, run.stack), 0
    {
      hide Inv, Advances, Fresh, OnlyConfirmed, Settled, NoRepeats, Room, Descends, Explained, Untouched, Afforded, Ledger, Active, Called, Cancellable;
      ghost var below := run.stack;
      RoomShrinks(queries, below, key);
      Pushed(below, key);
      ActiveMore(run.start, run.root, below, key);
      run.stack := run.stack + [key];
      r := EvaluatePushed(key, run, keep);
      run.stack := run.stack[..|run.stack| - 1];
      assert run.stack == below;
    }

    method EvaluatePushed(key: Key, run: Run, ghost keep: map<Key, nat>) returns (r: Result<Value>)
      requires Valid() && run.Valid(queries)
      requires run.stack != [] && key == run.stack[|run.stack| - 1] && !run.cancelled
      requires Settled(nodes, run.executed, run.stack[..|run.stack| - 1]) && Ongoing(run)
      modifies this, run
      ensures Valid() && run.Valid(queries) && run.stack == old(run.stack)
      ensures Advances(old(See(run)), See(run), run.stack[..|run.stack| - 1])
      ensures r.Ok? ==> Settled(nodes, run.executed, run.stack[..|run.stack| - 1]) && Ongoing(run) && run.open == old(run.open) && run.paid == old(run.paid)
      ensures r.Ok? ==> Clean(nodes, key) && nodes[key].value == Some(r.value) && !run.cancelled
      ensures r.Err? ==> Because(r.error, run)
      ensures (Fresh(old(Table()), keep) && Descends(keep, key, run.stack[..|run.stack| - 1], run.budgets)) ==>
        r.Ok? && OnlyConfirmed(old(See(run)), See(run)) && !run.cancelled
      ensures old(Clean(nodes, key)) ==>
        r.Ok? && nodes == old(nodes) && run.executed == old(run.executed) && run.work == old(run.work)
      decreases Room(queries, run.stack), 7
    {
      hide Inv, Advances, Fresh, OnlyConfirmed, Settled, Replays, Justified, Explained, Descends, Provenance, HistoryGrows, StampsBelow,
        NoRepeats, Room, Denotes, Trusted, Untouched, Afforded, Ledger, Active, Cancellable;
      ghost var a, below := See(run), run.stack[..|run.stack| - 1];
      var reuse := TryReuseMemo(key, run, keep);
      if reuse.Err? { return Err(reuse.error); }
      if reuse.value {
        CleanDenotes(fingerprint, Table(), hist, world, key);
        return Ok(nodes[key].value.value);
      }
      ghost var b := See(run);
      AdvancesBasics(a, b, below);
      r := Execute(key, run);
      AdvancesTransitive(a, b, See(run), below);
    }

    method ConfirmMemo(key: Key)
      requires Valid() && key in nodes && nodes[key].value.Some? && AllCurrent(Table(), nodes[key].dependencies)
      modifies this`nodes, this`hist
      ensures Valid() && HistoryGrows(old(hist), hist) && hist.made == old(hist.made)
      ensures nodes == old(nodes)[key := old(nodes)[key].(dirty := false)]
    {
      hide Inv, AllCurrent, Replays;
      if nodes[key].dirty {
        ReuseKeepsInv(fingerprint, Table(), hist, world, key);
        hist := Confirmed(hist, key);
        nodes := nodes[key := nodes[key].(dirty := false)];
      }
    }

    /** Decides whether the memo of the active query `key` still stands, refreshing
        what it read first. `false` on an existing memo means something it observed
        was really overtaken. */
    method TryReuseMemo(key: Key, run: Run, ghost keep: map<Key, nat>) returns (r: Result<bool>)
      requires Valid() && run.Valid(queries)
      requires run.stack != [] && key == run.stack[|run.stack| - 1] && !run.cancelled
      requires Settled(nodes, run.executed, run.stack[..|run.stack| - 1]) && Ongoing(run)
      modifies this, run
      ensures Valid() && run.Valid(queries) && run.stack == old(run.stack)
      ensures Advances(old(See(run)), See(run), run.stack[..|run.stack| - 1])
      ensures r.Ok? ==> Settled(nodes, run.executed, run.stack[..|run.stack| - 1]) && Ongoing(run) && run.open == old(run.open) && run.paid == old(run.paid) && !run.cancelled
      ensures r == Ok(true) ==> Clean(nodes, key)
      ensures r == Ok(false) ==> !Clean(nodes, key) && key !in run.executed && Justified(Table(), Table(), key)
      ensures r.Err? ==> Because(r.error, run)
      ensures (Fresh(old(Table()), keep) && Descends(keep, key, run.stack[..|run.stack| - 1], run.budgets)) ==>
        r == Ok(true) && OnlyConfirmed(old(See(run)), See(run))
      ensures old(Clean(nodes, key)) ==>
        r == Ok(true) && nodes == old(nodes) && run.executed == old(run.executed) && run.work == old(run.work)
      decreases Room(queries, run.stack), 6
    {
      hide Inv, Advances, Fresh, OnlyConfirmed, Settled, Replays, Justified, Explained, AllCurrent, NoRepeats, Room, HistoryGrows, Untouched,
        Afforded, Ledger, Active, Cancellable, Descends, Provenance, StampsBelow;
      ghost var a, below := See(run), run.stack[..|run.stack| - 1];
      assert run.stack == below + [key];
      TopIsNew(run.stack);
      if Fresh(Table(), keep) && Descends(keep, key, below, run.budgets) { DescendsMemo(Table(), keep, key, below, run.budgets); }
      CleanMeansCurrent(fingerprint, Table(), hist, world, key);
      if key !in nodes || nodes[key].value.None? {
        AdvancesSame(a, a, below);
        SettledFact(nodes, run.executed, below, key);
        NoMemo(fingerprint, Table(), hist, world, key);
        return Ok(false);
      }
      r := ReuseOrNot(key, run, keep);
    }

    /** The same for a key that has a memo. */
    method ReuseOrNot(key: Key, run: Run, ghost keep: map<Key, nat>) returns (r: Result<bool>)
      requires Valid() && run.Valid(queries)
      requires run.stack != [] && key == run.stack[|run.stack| - 1] && !run.cancelled
      requires Settled(nodes, run.executed, run.stack[..|run.stack| - 1]) && Ongoing(run)
      requires key in nodes && nodes[key].value.Some?
      modifies this, run
      ensures Valid() && run.Valid(queries) && run.stack == old(run.stack)
      ensures Advances(old(See(run)), See(run), run.stack[..|run.stack| - 1])
      ensures r.Ok? ==> Settled(nodes, run.executed, run.stack[..|run.stack| - 1]) && Ongoing(run) && run.open == old(run.open) && run.paid == old(run.paid) && !run.cancelled
      ensures r == Ok(true) ==> Clean(nodes, key)
      ensures r == Ok(false) ==> !Clean(nodes, key) && key !in run.executed && Justified(Table(), Table(), key)
      ensures r.Err? ==> Because(r.error, run)
      ensures (Fresh(old(Table()), keep) && Descends(keep, key, run.stack[..|run.stack| - 1], run.budgets)) ==>
        r == Ok(true) && OnlyConfirmed(old(See(run)), See(run))
      ensures old(Clean(nodes, key)) ==>
        r == Ok(true) && nodes == old(nodes) && run.executed == old(run.executed) && run.work == old(run.work)
      decreases Room(queries, run.stack), 5
    {
      hide Inv, Advances, Fresh, OnlyConfirmed, Settled, Replays, Justified, Explained, AllCurrent, NoRepeats, Room, HistoryGrows, Untouched,
        Afforded, Ledger, Active, Cancellable, Descends, Provenance, StampsBelow;
      ghost var a, below := See(run), run.stack[..|run.stack| - 1];
      assert run.stack == below + [key];
      TopIsNew(run.stack);
      r := Revalidate(key, run, keep);
      AdvancesFewer(a, See(run), run.stack, below);
      if r.Err? { return; }
      AdvancesHeld(a, See(run), run.stack, key);
      SettledFact(nodes, run.executed, below, key);
      if r.value { Reuse(key, run, a); }
    }

    /** Confirms the memo of the active query `key`, seen across its whole activation. */
    method Reuse(key: Key, run: Run, ghost a: View)
      requires Valid() && run.Valid(queries) && Ongoing(run)
      requires run.stack != [] && key == run.stack[|run.stack| - 1]
      requires Settled(nodes, run.executed, run.stack[..|run.stack| - 1]) && Advances(a, See(run), run.stack[..|run.stack| - 1])
      requires key in nodes && nodes[key].value.Some? && AllCurrent(Table(), nodes[key].dependencies) && (key in run.executed ==> Clean(nodes, key))
      modifies this`nodes, this`hist
      ensures Valid() && Ongoing(run) && Clean(nodes, key)
      ensures Settled(nodes, run.executed, run.stack[..|run.stack| - 1]) && Advances(a, See(run), run.stack[..|run.stack| - 1])
      ensures OnlyConfirmed(a, old(See(run))) ==> OnlyConfirmed(a, See(run))
      ensures old(Clean(nodes, key)) ==> nodes == old(nodes)
    {
      hide Inv, Advances, OnlyConfirmed, Settled, AllCurrent, NoRepeats, HistoryGrows, Untouched, Afforded, Ledger, Active, Cancellable;
      ghost var b, below := See(run), run.stack[..|run.stack| - 1];
      TopIsNew(run.stack);
      ConfirmMemo(key);
      ReuseAdvances(a, b, See(run), key, below);
      ReuseSettled(b, See(run), key, below);
      ReuseUntouched(run.start.nodes, b.st.nodes, run.executed, key);
      LedgerReuse(queries, b.st.nodes, world, run.executed, run.Spent(), run.paid, key);
    }

    /** Whether everything the memo of `key` observed still holds, after refreshing
        what it read if there is any doubt. */
    method Revalidate(key: Key, run: Run, ghost keep: map<Key, nat>) returns (r: Result<bool>)
      requires Valid() && run.Valid(queries)
      requires run.stack != [] && key == run.stack[|run.stack| - 1] && !run.cancelled
      requires Settled(nodes, run.executed, run.stack[..|run.stack| - 1]) && Ongoing(run)
      requires key in nodes && nodes[key].value.Some?
      modifies this, run
      ensures Valid() && run.Valid(queries) && run.stack == old(run.stack)
      ensures Advances(old(See(run)), See(run), run.stack)
      ensures r.Ok? ==> Settled(nodes, run.executed, run.stack[..|run.stack| - 1]) && Ongoing(run) && run.open == old(run.open) && run.paid == old(run.paid) && !run.cancelled
      ensures r == Ok(true) ==> key in nodes && AllCurrent(Table(), nodes[key].dependencies)
      ensures r == Ok(false) ==> !Clean(nodes, key) && Justified(Table(), Table(), key)
      ensures r.Err? ==> Because(r.error, run)
      ensures (Fresh(old(Table()), keep) && Descends(keep, key, run.stack[..|run.stack| - 1], run.budgets)) ==>
        r == Ok(true) && OnlyConfirmed(old(See(run)), See(run))
      ensures old(Clean(nodes, key)) ==>
        r == Ok(true) && nodes == old(nodes) && run.executed == old(run.executed) && run.work == old(run.work)
      decreases Room(queries, run.stack), 4
    {
      hide Inv, Advances, Fresh, OnlyConfirmed, Settled, Replays, Justified, Explained, AllCurrent, NoRepeats, Room, HistoryGrows, ReadsClean, SourceRevision,
        Untouched, Afforded, Ledger, Active, Cancellable;
      ghost var a := See(run);
      var deps := nodes[key].dependencies;
      AdvancesSame(a, a, run.stack);
      OnlyConfirmedSame(a);
      CleanMeansCurrent(fingerprint, Table(), hist, world, key);
      if nodes[key].dirty || !AllCurrent(State(queries, nodes, reverse, sourceRevisions, nextRevision), deps) {
        var refreshed := Refresh(key, deps, run, keep);
        if refreshed.Err? { return Err(refreshed.error); }
        AdvancesHeld(a, See(run), run.stack, key);
        AdvancesBasics(a, See(run), run.stack);
        if Fresh(a.st, keep) && Descends(keep, key, run.stack[..|run.stack| - 1], run.budgets) {
          FreshAfterConfirming(a, See(run), keep);
          FreshCurrent(Table(), keep, key);
        }
      }
      r := Ok(AllCurrent(State(queries, nodes, reverse, sourceRevisions, nextRevision), deps));
      if !r.value { Overtaken(fingerprint, Table(), hist, world, key); }
    }

    /** Brings every query the memo of `key` had read up to date. */
    method Refresh(key: Key, deps: seq<Observation>, run: Run, ghost keep: map<Key, nat>) returns (r: Result<()>)
      requires Valid() && run.Valid(queries)
      requires run.stack != [] && key == run.stack[|run.stack| - 1] && !run.cancelled
      requires Settled(nodes, run.executed, run.stack[..|run.stack| - 1]) && Ongoing(run)
      requires key in nodes && deps == nodes[key].dependencies && !Clean(nodes, key)
      modifies this, run
      ensures Valid() && run.Valid(queries) && run.stack == old(run.stack)
      ensures Advances(old(See(run)), See(run), run.stack)
      ensures r.Ok? ==> Settled(nodes, run.executed, run.stack[..|run.stack| - 1]) && Ongoing(run) && run.open == old(run.open) && run.paid == old(run.paid) && !run.cancelled
      ensures r.Ok? ==> ReadsClean(nodes, deps)
      ensures r.Err? ==> Because(r.error, run)
      ensures (Fresh(old(Table()), keep) && Descends(keep, key, run.stack[..|run.stack| - 1], run.budgets)) ==>
        r.Ok? && OnlyConfirmed(old(See(run)), See(run))
      decreases Room(queries, run.stack), 3
    {
      hide Inv, Advances, Fresh, OnlyConfirmed, Settled, Replays, Justified, Explained, NoRepeats, Room, HistoryGrows, SourceRevision, ReadsClean, Descends,
        Untouched, Afforded, Ledger, Active, Called, Cancellable;
      ghost var a, stack, below := See(run), run.stack, run.stack[..|run.stack| - 1];
      AdvancesSame(a, a, stack);
      OnlyConfirmedSame(a);
      SettledMore(nodes, run.executed, below, stack);
      NothingRead(nodes);
      TopIsNew(stack);
      StartMemo(run.start.nodes, nodes, run.executed, below, key);
      ghost var descends := Fresh(Table(), keep) && Descends(keep, key, below, run.budgets);
      assert stack == below + [key];
      var i := 0;
      while i < |deps|
        invariant 0 <= i <= |deps|
        invariant Valid() && run.Valid(queries) && run.stack == stack && !run.cancelled
        invariant Advances(a, See(run), stack)
        invariant Settled(nodes, run.executed, stack) && Ongoing(run) && run.open == old(run.open) && run.paid == old(run.paid)
        invariant ReadsClean(nodes, deps[..i])
        invariant descends ==> OnlyConfirmed(a, See(run))
      {
        ghost var b := See(run);
        AdvancesBasics(a, b, stack);
        AdvancesSame(b, b, stack);
        if deps[i].Read? {
          if descends {
            FreshAfterConfirming(a, b, keep);
            DescendsInto(a.st, keep, key, below, run.budgets, deps[i]);
          }
          AsksAgain(run.start, run.root, stack, key, deps, i);
          var x := Evaluate(deps[i].key, run, keep);
          AdvancesTransitive(a, b, See(run), stack);
          if descends { OnlyConfirmedTransitive(a, b, See(run)); }
          if x.Err? { return Err(x.error); }
        }
        ReadsCleanNext(b, See(run), stack, deps, i);
        i := i + 1;
      }
      assert deps[..|deps|] == deps;
      SettledBelow(a, See(run), below, key);
      r := Ok(());
    }

    /** Charges for running the body of the active query `key`, and counts it as started. */
    method Begin(key: Key, run: Run) returns (r: Result<()>)
      requires Valid() && run.Valid(queries)
      requires run.stack != [] && key == run.stack[|run.stack| - 1] && !run.cancelled
      requires Settled(nodes, run.executed, run.stack[..|run.stack| - 1]) && Ongoing(run)
      requires !Clean(nodes, key) && key !in run.executed && Justified(Table(), Table(), key)
      modifies this`continuations, this`nextToken, run`work, run`executed, run`open, run`paid
      ensures Valid() && run.Valid(queries)
      ensures Advances(old(See(run)), See(run), run.stack[..|run.stack| - 1])
      ensures r.Ok? ==> run.executed == old(run.executed) + [key] && run.open == Begun(queries, old(run.open))
      ensures r.Ok? ==> run.work == old(run.work) + 1 && run.paid == Plus(old(run.paid), Spending(1, 0, 0))
      ensures r.Ok? ==> Settled(nodes, run.executed, run.stack) && Ongoing(run)
      ensures r.Ok? ==> Allowed(queries, queries[key], Allowance(queries), run.open)
      ensures r.Err? ==> Because(r.error, run)
    {
      hide Inv, Advances, Settled, Justified, Explained, NoRepeats, HistoryGrows, Provenance, Untouched, Afforded, Ledger, Fits, Active, Cancellable,
        Allowed, Begun, Allowance;
      ghost var a, stack, below := See(run), run.stack, run.stack[..|run.stack| - 1];
      assert stack == below + [key];
      TopIsNew(run.stack);
      Pushed(run.executed, key);
      OneLeft(run.executed, queries, key);
      BeginAfforded(queries, key, run.Spent(), run.open, |run.executed|);
      LedgerBegins(queries, nodes, world, run.executed, run.Spent(), run.paid, key);
      r := ChargeWork(run, 1);
      AdvancesFewer(a, See(run), stack, below);
      if r.Err? { return; }
      ghost var paid := See(run);
      run.executed, run.open, run.paid := run.executed + [key], Begun(queries, run.open), Plus(run.paid, Spending(1, 0, 0));
      AdvancesStart(paid, See(run), below, key);
      AdvancesTransitive(a, paid, See(run), below);
      SettledStart(nodes, a.executed, below, key);
      UntouchedMore(run.start.nodes, nodes, a.executed, key);
    }

    /** Runs the body of the active query `key` and records the outcome. */
    method Execute(key: Key, run: Run) returns (r: Result<Value>)
      requires Valid() && run.Valid(queries)
      requires run.stack != [] && key == run.stack[|run.stack| - 1] && !run.cancelled
      requires Settled(nodes, run.executed, run.stack[..|run.stack| - 1]) && Ongoing(run)
      requires !Clean(nodes, key) && key !in run.executed && Justified(Table(), Table(), key)
      modifies this, run
      ensures Valid() && run.Valid(queries) && run.stack == old(run.stack)
      ensures Advances(old(See(run)), See(run), run.stack[..|run.stack| - 1])
      ensures r.Ok? ==> Settled(nodes, run.executed, run.stack[..|run.stack| - 1]) && Ongoing(run) && run.open == old(run.open) && run.paid == old(run.paid)
      ensures r.Ok? ==> Clean(nodes, key) && nodes[key].value == Some(r.value) && !run.cancelled
      ensures r.Err? ==> Because(r.error, run)
      decreases Room(queries, run.stack), 4
    {
      hide Inv, Advances, Settled, Replays, Justified, Explained, AllCurrent, NoRepeats, Room, HistoryGrows, ReadsClean, SourceRevision,
        Provenance, Untouched, Afforded, Ledger, Fits, Active, Cancellable, PartOf, Allowed, Taken, Begun, Allowance, Paying, Reads, Raises;
      ghost var a, stack, below, open, paid := See(run), run.stack, run.stack[..|run.stack| - 1], run.open, run.paid;
      var begun := Begin(key, run);
      if begun.Err? { return Err(begun.error); }
      ghost var b := See(run);
      PartOfItself(queries[key]);
      var value, deps := RunBody(queries[key], run, Allowance(queries));
      ghost var c := See(run);
      AdvancesBasics(b, c, stack);
      AdvancesHeld(b, c, stack, key);
      AdvancesFewer(b, c, stack, below);
      AdvancesTransitive(a, b, c, below);
      if value.Err? { return value; }
      assert b.executed[|a.executed|] == key;
      r := Conclude(key, value.value, deps, run, a, open, paid);
    }

    /** Charges for the value of the active query `key` and stores it. */
    method Conclude(key: Key, value: Value, deps: seq<Observation>, run: Run, ghost a: View, ghost open: Spending, ghost paid: Spending)
        returns (r: Result<Value>)
      requires Valid() && run.Valid(queries) && Ongoing(run) && Settled(nodes, run.executed, run.stack)
      requires run.stack != [] && key == run.stack[|run.stack| - 1] && !Clean(nodes, key)
      requires Advances(a, See(run), run.stack[..|run.stack| - 1])
      requires |a.executed| < |run.executed| && run.executed[|a.executed|] == key
      requires (!run.cancelled ==> Replays(fingerprint, hist, queries[key], deps, value)) && AllCurrent(Table(), deps)
      requires Taken(queries, Begun(queries, open), run.open, Allowance(queries))
      requires !run.cancelled ==> Paying(nodes, world, queries[key], Plus(paid, Spending(1, 0, 0)), run.paid)
      modifies this, run`output, run`open, run`paid
      ensures Valid() && run.Valid(queries)
      ensures Advances(a, See(run), run.stack[..|run.stack| - 1])
      ensures r.Ok? ==> Settled(nodes, run.executed, run.stack[..|run.stack| - 1]) && Ongoing(run) && run.open == open && run.paid == paid
      ensures r.Ok? ==> run.output == old(run.output) + 1
      ensures r.Ok? ==> Clean(nodes, key) && nodes[key].value == Some(r.value) && !run.cancelled
      ensures r.Err? ==> Because(r.error, run)
    {
      hide Inv, Advances, Settled, Replays, Explained, AllCurrent, NoRepeats, HistoryGrows, Provenance, Untouched, Afforded, Ledger, Fits, Active,
        Cancellable, Taken, Begun, Allowance, Paying, Reads, Raises;
      ghost var c, stack, below := See(run), run.stack, run.stack[..|run.stack| - 1];
      assert stack == below + [key];
      TopIsNew(stack);
      RepetitionFreeBound(run.executed, queries.Keys);
      EndAfforded(queries, run.Spent(), open, run.open, |run.executed|);
      var charged := ChargeOutput(run, 1);
      ghost var d := See(run);
      AdvancesFewer(c, d, stack, below);
      AdvancesTransitive(a, c, d, below);
      if charged.Err? { return Err(charged.error); }
      ghost var spent, before := run.Spent(), run.paid;
      run.open, run.paid := open, paid;
      assert d.executed[|a.executed|..][0] == key;
      CommitValue(key, value, deps);
      CommitAdvances(a, d, See(run), key, below);
      CommitSettled(d, See(run), key, below);
      CommitUntouched(run.start.nodes, d.st.nodes, nodes, run.executed, key);
      LedgerEnds(queries, d.st.nodes, nodes, world, run.executed, spent.(output := spent.output - 1), before, paid, key);
      r := Ok(value);
    }

    /** Interprets a body: the only places that record observations are reading a
        query and looking at an external key. */
    method RunBody(body: Body, run: Run, ghost c: Spending) returns (r: Result<Value>, deps: seq<Observation>)
      requires Valid() && run.Valid(queries) && Settled(nodes, run.executed, run.stack) && Ongoing(run)
      requires run.stack != [] && PartOf(queries[run.stack[|run.stack| - 1]], body) && Allowed(queries, body, c, run.open)
      modifies this, run
      ensures Valid() && run.Valid(queries) && run.stack == old(run.stack)
      ensures Advances(old(See(run)), See(run), run.stack)
      ensures old(run.cancelled) ==> run.cancelled
      ensures r.Ok? ==> Settled(nodes, run.executed, run.stack) && Ongoing(run) && Taken(queries, old(run.open), run.open, c)
      ensures r.Ok? && !run.cancelled ==> Replays(fingerprint, hist, body, deps, r.value)
      ensures r.Ok? && !run.cancelled ==> Paying(nodes, world, body, old(run.paid), run.paid)
      ensures r.Ok? ==> AllCurrent(Table(), deps)
      ensures r.Err? ==> Because(r.error, run)
      decreases Room(queries, run.stack), 3, body, 2
    {
      hide Inv, Advances, Settled, Replays, Explained, AllCurrent, NoRepeats, Room, HistoryGrows, StampsBelow, Untouched, Afforded, Ledger, Fits, Active,
        Cancellable, PartOf, Allowed, Taken, Follows, Paying, Reads, Raises;
      ghost var a, top := See(run), run.stack[|run.stack| - 1];
      PartOfStep(queries[top], body);
      AdvancesSame(a, a, run.stack);
      NothingTaken(queries, run.open, c);
      match body
      case Return(v) =>
        r, deps := Ok(v), [];
        ReplayReturn(fingerprint, hist, v);
        PayingNothing(nodes, world, v, run.paid);
        NothingObserved(Table());
      case Fail(e) =>
        r, deps := Err(e), [];
        RaisedExplained(e, run.start, run.root, run.budgets, continuations, run.stack);
      case ReadThen(k, next) =>
        r, deps := RunRead(body, k, next, run, c);
      case ObserveThen(kind, k, answers) =>
        r, deps := RunObserve(body, kind, k, answers, run, c);
      case ChargeWork(units, rest) =>
        r, deps := RunCharge(body, rest, run, c);
      case ChargeOutput(units, rest) =>
        r, deps := RunCharge(body, rest, run, c);
      case Cancel(rest) =>
        CancelSteps(queries, queries[top], body, c, run.open);
        CancelledBy(run.start, run.root, run.stack);
        run.cancelled := true;
        r, deps := RunBody(rest, run, c);
    }

    /** Goes on with what is left of `body` once its first step has been charged. */
    method Proceed(ghost body: Body, next: Body, run: Run, ghost c: Spending, ghost spent: Spending) returns (r: Result<Value>, deps: seq<Observation>)
      requires Valid() && run.Valid(queries) && Settled(nodes, run.executed, run.stack) && Untouched(run.start.nodes, nodes, run.executed)
      requires continuations == run.tokens && run.Spent() == Charged(spent, body) && Afforded(queries, spent, run.open, |run.executed|)
      requires Ledger(queries, nodes, world, run.executed, spent, run.paid)
      requires run.stack != [] && PartOf(queries[run.stack[|run.stack| - 1]], body) && Allowed(queries, body, c, run.open)
      requires Follows(body, next) && next < body
      modifies this, run
      ensures Valid() && run.Valid(queries) && run.stack == old(run.stack)
      ensures Advances(old(See(run)), See(run), run.stack)
      ensures old(run.cancelled) ==> run.cancelled
      ensures r.Ok? ==> Settled(nodes, run.executed, run.stack) && Ongoing(run) && Taken(queries, old(run.open), run.open, c)
      ensures r.Ok? && !run.cancelled ==> Replays(fingerprint, hist, next, deps, r.value)
      ensures r.Ok? && !run.cancelled ==> Paying(nodes, world, next, Charged(old(run.paid), body), run.paid)
      ensures r.Ok? ==> AllCurrent(Table(), deps)
      ensures r.Err? ==> Because(r.error, run)
      decreases Room(queries, run.stack), 3, next, 3
    {
      hide Inv, Advances, Settled, Replays, Explained, AllCurrent, NoRepeats, Room, Untouched, Afforded, Ledger, Fits, Active, Cancellable, PartOf,
        Allowed, Taken, Follows, Paid, Charged, Paying, Reads, Raises;
      ghost var open := run.open;
      RepetitionFreeBound(run.executed, queries.Keys);
      StepAfforded(queries, body, spent, open, c, |run.executed|);
      StepOn(queries, queries[run.stack[|run.stack| - 1]], body, next, c, open);
      LedgerStep(queries, nodes, world, run.executed, spent, run.paid, body);
      run.open, run.paid := Paid(open, body), Charged(run.paid, body);
      r, deps := RunBody(next, run, Paid(c, body));
      if r.Ok? { StepTaken(queries, body, open, run.open, c); }
    }

    /** A body that charges work or output and goes on. */
    method RunCharge(body: Body, rest: Body, run: Run, ghost c: Spending) returns (r: Result<Value>, deps: seq<Observation>)
      requires (body.ChargeWork? || body.ChargeOutput?) && rest == body.rest
      requires Valid() && run.Valid(queries) && Settled(nodes, run.executed, run.stack) && Ongoing(run)
      requires run.stack != [] && PartOf(queries[run.stack[|run.stack| - 1]], body) && Allowed(queries, body, c, run.open)
      modifies this, run
      ensures Valid() && run.Valid(queries) && run.stack == old(run.stack)
      ensures Advances(old(See(run)), See(run), run.stack)
      ensures old(run.cancelled) ==> run.cancelled
      ensures r.Ok? ==> Settled(nodes, run.executed, run.stack) && Ongoing(run) && Taken(queries, old(run.open), run.open, c)
      ensures r.Ok? && !run.cancelled ==> Replays(fingerprint, hist, body, deps, r.value)
      ensures r.Ok? && !run.cancelled ==> Paying(nodes, world, body, old(run.paid), run.paid)
      ensures r.Ok? ==> AllCurrent(Table(), deps)
      ensures r.Err? ==> Because(r.error, run)
      decreases Room(queries, run.stack), 3, body, 1
    {
      hide Inv, Advances, Settled, Replays, Explained, AllCurrent, NoRepeats, Room, HistoryGrows, StampsBelow, Untouched, Afforded, Ledger, Fits, Active,
        Cancellable, PartOf, Allowed, Taken, Provenance, Paying, Reads, Raises;
      ghost var a, open, spent := See(run), run.open, run.Spent();
      RepetitionFreeBound(run.executed, queries.Keys);
      StepAfforded(queries, body, spent, open, c, |run.executed|);
      var charged;
      if body.ChargeWork? { charged := this.ChargeWork(run, body.units); } else { charged := this.ChargeOutput(run, body.units); }
      if charged.Err? { return Err(charged.error), []; }
      ghost var b := See(run);
      AdvancesBasics(a, b, run.stack);
      r, deps := Proceed(body, rest, run, c, spent);
      AdvancesTransitive(a, b, See(run), run.stack);
      AdvancesBasics(b, See(run), run.stack);
      if r.Ok? { ReplayCharged(fingerprint, hist, body, deps, r.value); }
      if r.Ok? && !run.cancelled { PayingCharge(nodes, world, body, old(run.paid), run.paid); }
    }

    /** Records the observation `o` and goes on with what it leads to; without a branch for
        it the body gives up. */
    method Record(ghost body: Body, o: Observation, next: Option<Body>, run: Run, ghost c: Spending)
        returns (r: Result<Value>, deps: seq<Observation>)
      requires Valid() && run.Valid(queries) && Settled(nodes, run.executed, run.stack) && Ongoing(run)
      requires run.stack != [] && PartOf(queries[run.stack[|run.stack| - 1]], body) && Allowed(queries, body, c, run.open)
      requires body.ReadThen? || body.ObserveThen?
      requires if next.Some? then Follows(body, next.value) && next.value < body else Raises(queries[run.stack[|run.stack| - 1]], Cancelled)
      requires Current(nodes, sourceRevisions, o)
      modifies this, run
      ensures Valid() && run.Valid(queries) && run.stack == old(run.stack)
      ensures Advances(old(See(run)), See(run), run.stack)
      ensures old(run.cancelled) ==> run.cancelled
      ensures r.Ok? ==> Settled(nodes, run.executed, run.stack) && Ongoing(run) && Taken(queries, old(run.open), run.open, c)
      ensures r.Ok? ==> next.Some? && deps != [] && deps[0] == o && AllCurrent(Table(), deps)
      ensures r.Ok? && !run.cancelled ==> Replays(fingerprint, hist, next.value, deps[1..], r.value)
      ensures r.Ok? && !run.cancelled ==> Paying(nodes, world, next.value, Charged(old(run.paid), body), run.paid)
      ensures r.Err? ==> Because(r.error, run)
      decreases Room(queries, run.stack), 3, body, 0
    {
      hide Inv, Advances, Settled, Replays, Explained, AllCurrent, NoRepeats, Room, Current, HistoryGrows, Provenance, Untouched, Afforded, Ledger, Fits,
        Active, Cancellable, PartOf, Allowed, Taken, Follows, StampsBelow, Paying, Reads, Raises;
      ghost var a, spent := See(run), run.Spent();
      deps := [];
      RepetitionFreeBound(run.executed, queries.Keys);
      StepAfforded(queries, body, spent, run.open, c, |run.executed|);
      var charged := ChargeObservation(run);
      if charged.Err? { return Err(charged.error), []; }
      if next.None? {
        RaisedExplained(Cancelled, run.start, run.root, run.budgets, continuations, run.stack);
        return Err(Cancelled), [];
      }
      ghost var b := See(run);
      AdvancesBasics(a, b, run.stack);
      r, deps := Proceed(body, next.value, run, c, spent);
      AdvancesTransitive(a, b, See(run), run.stack);
      AdvancesCurrent(a, See(run), run.stack, o);
      if r.Ok? {
        OneMoreCurrent(Table(), o, deps);
        deps := [o] + deps;
      }
    }

    /** Evaluates `k` for the active query, and what is to be recorded of it. */
    method ReadQuery(k: Key, run: Run) returns (r: Result<Value>, o: Observation)
      requires Valid() && run.Valid(queries) && Settled(nodes, run.executed, run.stack) && Ongoing(run)
      requires run.stack != [] && Reads(queries[run.stack[|run.stack| - 1]], k)
      modifies this, run
      ensures Valid() && run.Valid(queries) && run.stack == old(run.stack)
      ensures Advances(old(See(run)), See(run), run.stack)
      ensures old(run.cancelled) ==> run.cancelled
      ensures r.Ok? ==> Settled(nodes, run.executed, run.stack) && Ongoing(run) && run.open == old(run.open) && run.paid == old(run.paid)
      ensures r.Ok? ==> o.Read? && o.key == k && Current(nodes, sourceRevisions, o) && o.fingerprint == fingerprint(r.value)
      ensures r.Ok? ==> (k, o.revision) in hist.values && hist.values[(k, o.revision)] == r.value
      ensures r.Ok? ==> Clean(nodes, k) && k in nodes && nodes[k].value == Some(r.value)
      ensures r.Err? ==> Because(r.error, run)
      decreases Room(queries, run.stack), 2
    {
      hide Inv, Advances, Settled, Explained, NoRepeats, Room, Current, HistoryGrows, Provenance, Untouched, Afforded, Ledger, Active, Called,
        Cancellable, StampsBelow, Clean, Reads;
      CalledBy(run.start, run.root, run.stack, k);
      o := Read(k, 0, 0);
      r := Evaluate(k, run, map[]);
      if r.Ok? {
        MemoRecorded(fingerprint, Table(), hist, world, k);
        o := Read(k, nodes[k].revision, nodes[k].fingerprint.value);
      }
    }

    method RunRead(ghost body: Body, k: Key, next: imap<Value, Body>, run: Run, ghost c: Spending) returns (r: Result<Value>, deps: seq<Observation>)
      requires body == ReadThen(k, next)
      requires Valid() && run.Valid(queries) && Settled(nodes, run.executed, run.stack) && Ongoing(run)
      requires run.stack != [] && PartOf(queries[run.stack[|run.stack| - 1]], body) && Allowed(queries, body, c, run.open)
      modifies this, run
      ensures Valid() && run.Valid(queries) && run.stack == old(run.stack)
      ensures Advances(old(See(run)), See(run), run.stack)
      ensures old(run.cancelled) ==> run.cancelled
      ensures r.Ok? ==> Settled(nodes, run.executed, run.stack) && Ongoing(run) && Taken(queries, old(run.open), run.open, c)
      ensures r.Ok? && !run.cancelled ==> Replays(fingerprint, hist, body, deps, r.value)
      ensures r.Ok? && !run.cancelled ==> Paying(nodes, world, body, old(run.paid), run.paid)
      ensures r.Ok? ==> AllCurrent(Table(), deps)
      ensures r.Err? ==> Because(r.error, run)
      decreases Room(queries, run.stack), 3, body, 1
    {
      hide Inv, Advances, Settled, Explained, AllCurrent, NoRepeats, Room, Current, HistoryGrows, Provenance, Untouched, Afforded, Ledger,
        Active, Called, Cancellable, PartOf, Allowed, Taken, Follows, StampsBelow, Clean, Paying, Reads, Replays, Raises;
      ghost var a, top := See(run), run.stack[|run.stack| - 1];
      PartOfStep(queries[top], body);
      var answer, o := ReadQuery(k, run);
      AdvancesBasics(a, See(run), run.stack);
      if answer.Err? { return answer, []; }
      ghost var b := See(run);
      var rest := if answer.value in next then Some(next[answer.value]) else None;
      if rest.Some? { FollowsAnswer(body, answer.value); }
      r, deps := Record(body, o, rest, run, c);
      AdvancesTransitive(a, b, See(run), run.stack);
      if r.Ok? && !run.cancelled {
        ReadConcludes(fingerprint, b, See(run), run.stack, body, answer.value, o, deps, r.value, old(run.paid), run.paid);
      }
    }

    method RunObserve(ghost body: Body, kind: ExternalKind, k: Key, answers: imap<Option<Outside>, Body>, run: Run, ghost c: Spending)
        returns (r: Result<Value>, deps: seq<Observation>)
      requires body == ObserveThen(kind, k, answers)
      requires Valid() && run.Valid(queries) && Settled(nodes, run.executed, run.stack) && Ongoing(run)
      requires run.stack != [] && PartOf(queries[run.stack[|run.stack| - 1]], body) && Allowed(queries, body, c, run.open)
      modifies this, run
      ensures Valid() && run.Valid(queries) && run.stack == old(run.stack)
      ensures Advances(old(See(run)), See(run), run.stack)
      ensures old(run.cancelled) ==> run.cancelled
      ensures r.Ok? ==> Settled(nodes, run.executed, run.stack) && Ongoing(run) && Taken(queries, old(run.open), run.open, c)
      ensures r.Ok? && !run.cancelled ==> Replays(fingerprint, hist, body, deps, r.value)
      ensures r.Ok? && !run.cancelled ==> Paying(nodes, world, body, old(run.paid), run.paid)
      ensures r.Ok? ==> AllCurrent(Table(), deps)
      ensures r.Err? ==> Because(r.error, run)
      decreases Room(queries, run.stack), 3, body, 1
    {
      hide Inv, Advances, Settled, Replays, Explained, AllCurrent, NoRepeats, Room, HistoryGrows, Provenance, Untouched, Afforded, Ledger,
        Active, Cancellable, PartOf, Allowed, Taken, Follows, StampsBelow, Paying, Reads, Raises;
      ghost var a := See(run);
      PartOfStep(queries[run.stack[|run.stack| - 1]], body);
      var o := External(k, kind, SourceRevision(sourceRevisions, k));
      StampKnown(fingerprint, Table(), hist, world, k);
      var answer := Look(world, k);
      var rest := if answer in answers then Some(answers[answer]) else None;
      if rest.Some? { FollowsLook(body, answer); }
      r, deps := Record(body, o, rest, run, c);
      AdvancesBasics(a, See(run), run.stack);
      KeptSources(a.h, hist);
      if r.Ok? {
        assert deps == [o] + deps[1..];
        ReplayObserve(fingerprint, hist, kind, k, answers, o, deps[1..], r.value);
        if !run.cancelled { PayingLook(nodes, world, body, old(run.paid), run.paid); }
      }
    }

    // ---------- the public operations ----------

    /** Verifies `key`: whatever state earlier runs, failed or not, left behind, an
        answer is the one full recomputation gives on the present sources. */
    method Verify(key: Key, budgets: Budgets, ghost keep: map<Key, nat>) returns (r: Result<Value>, ghost run: Run)
      requires Valid()
      modifies this
      ensures Valid() && (old(StampsBelow(Table())) ==> StampsBelow(Table()))
      ensures queries == old(queries) && world == old(world) && sourceRevisions == old(sourceRevisions)
      // an answer is what recomputation with the callbacks behind the memos gives, and so
      // with the registered ones where no accepted memo is another callback's
      ensures r.Ok? ==> Denotes(Trusted(Table(), hist), world, key, r.value)
      ensures old(Sound()) ==> Sound() && (r.Ok? ==> Denotes(queries, world, key, r.value))
      ensures forall k :: old(FaithfulAt(Table(), hist, k)) ==> FaithfulAt(Table(), hist, k)
      ensures Provenance(old(Table()), old(hist), Table(), hist) && hist.lost == old(hist.lost) && old(nextRevision) <= nextRevision
      ensures r.Ok? ==> Clean(nodes, key) && nodes[key].value == Some(r.value)
      ensures fresh(run) && run.Valid(queries) && run.stack == []
      ensures run.root == key && run.budgets == budgets
      ensures r.Err? ==> Explained(r.error, old(Table()), key, budgets, old(continuations), continuations)
      ensures r.Ok? ==> continuations == old(continuations)
      ensures forall t :: t in old(continuations) ==> t in continuations && continuations[t] == old(continuations)[t]
      // where nothing stands in the way, there is an answer
      ensures Unhindered(old(Table()), key, budgets) ==> r.Ok?
      // an answer was paid for in full: each body that ran, with all it charged on its way
      ensures |run.executed| <= run.work <= budgets.maxWork && Covers(budgets, run.Spent())
      ensures r.Ok? ==> run.Spent() == Bill(queries, nodes, world, run.executed)
      ensures r.Ok? ==> Grounded(queries, nodes, world, run.executed) && forall k :: k in run.executed ==> Clean(nodes, k)
      // every body runs at most once, and only with cause
      ensures Economical(old(Table()), Table(), run.executed)
      // verifying what is already confirmed runs nothing and changes nothing
      ensures old(Clean(nodes, key)) && budgets.maxDepth >= 1 ==>
                r.Ok? && nodes == old(nodes) && run.executed == [] && run.work == 0
      // memos whose observations all still hold are confirmed, never recomputed
      ensures Fresh(old(Table()), keep) && key in keep && keep[key] < budgets.maxDepth ==>
                r.Ok? && run.executed == [] && old(nodes[key].value) == Some(r.value) && reverse == old(reverse)
    {
      hide Inv, Advances, Fresh, OnlyConfirmed, Settled, Replays, Room, Truthful, Justified, Provenance, FaithfulAt, Denotes, Trusted,
        StampsBelow, Explained, Untouched, Afforded, Ledger, Cancellable, Unhindered, Economical, Bill, Grounded, Clean;
      ghost var a, h := Table(), hist;
      if Fresh(a, keep) && key in keep { FreshRegistered(a, keep, key); }
      var active := new Run(key, budgets, Table(), continuations);
      run := active;
      NothingSettled(nodes);
      NothingSpent(queries);
      NothingBilled(queries, nodes, world);
      ghost var before := See(active);
      r := Evaluate(key, active, keep);
      AdvancesBasics(before, See(active), []);
      AdvancesWhole(before, See(active));
      if r.Ok? {
        LedgerClosed(queries, nodes, world, active.executed, active.Spent());
        SettledAll(nodes, active.executed);
      }
      forall k | FaithfulAt(a, h, k) ensures FaithfulAt(Table(), hist, k) {
        ProvenanceFaithful(fingerprint, a, h, world, Table(), hist, k);
      }
      if r.Err? {
        if Unhindered(a, key, budgets) { UnhinderedAnswers(r.error, a, key, budgets, active.tokens, continuations); }
      } else {
        CleanDenotes(fingerprint, Table(), hist, world, key);
        if Faithful(a, h) { FaithfulDenotes(fingerprint, Table(), hist, world, key); }
      }
      if Fresh(a, keep) && key in keep && keep[key] < budgets.maxDepth {
        ConfirmedValue(before, See(active), key);
      }
    }

    /** Resumes the root a budget stop left behind; the token is spent on success. */
    method Resume(token: nat, budgets: Budgets, ghost keep: map<Key, nat>) returns (r: Result<Value>, ghost executed: seq<Key>)
      requires Valid()
      modifies this
      ensures Valid() && (old(StampsBelow(Table())) ==> StampsBelow(Table()))
      ensures queries == old(queries) && world == old(world) && sourceRevisions == old(sourceRevisions)
      ensures token !in old(continuations) ==>
                r == Err(UnknownContinuation(token)) && Table() == old(Table()) && continuations == old(continuations)
      ensures r.Ok? ==> token in old(continuations) && continuations == old(continuations) - {token}
      ensures r.Ok? ==> Covers(budgets, Bill(queries, nodes, world, executed)) && forall k :: k in executed ==> Clean(nodes, k)
      ensures token in old(continuations) ==> Economical(old(Table()), Table(), executed)
      ensures token in old(continuations) && Unhindered(old(Table()), old(continuations)[token], budgets) ==> r.Ok?
      ensures r.Ok? ==> Denotes(Trusted(Table(), hist), world, old(continuations)[token], r.value)
      ensures old(Sound()) ==> Sound() && (r.Ok? ==> Denotes(queries, world, old(continuations)[token], r.value))
      ensures r.Err? && token in old(continuations) ==>
                token in continuations && Explained(r.error, old(Table()), old(continuations)[token], budgets, old(continuations), continuations)
      ensures forall t :: t in old(continuations) && t != token ==> t in continuations && continuations[t] == old(continuations)[t]
      ensures token in old(continuations) && Fresh(old(Table()), keep) && old(continuations)[token] in keep &&
              keep[old(continuations)[token]] < budgets.maxDepth ==>
                old(continuations)[token] in old(nodes) && r.Ok? && old(nodes)[old(continuations)[token]].value == Some(r.value)
    {
      hide Inv, Denotes, StampsBelow, Justified, Provenance, FaithfulAt, Trusted, Explained, Fresh, Unhindered, Economical, Bill, Grounded;
      executed := [];
      if token !in continuations { return Err(UnknownContinuation(token)), []; }
      var root := continuations[token];
      ghost var run;
      if Fresh(Table(), keep) && root in keep { FreshRegistered(Table(), keep, root); }
      r, run := Verify(root, budgets, keep);
      executed := run.executed;
      if r.Ok? { continuations := continuations - {token}; }
    }

    /** Verifies the keys of `ordered` one after the other, stopping at the first error;
        `failed` is its place and `table` what that verification began with. */
    method VerifyMany(ordered: seq<Key>, budgets: Budgets) returns (r: Result<seq<(Key, Value)>>, ghost failed: nat, ghost table: State)
      requires Valid()
      modifies this
      ensures Valid() && (old(StampsBelow(Table())) ==> StampsBelow(Table()))
      ensures queries == old(queries) && world == old(world) && sourceRevisions == old(sourceRevisions)
      ensures r.Ok? ==> |r.value| == |ordered| && forall i :: 0 <= i < |ordered| ==> r.value[i].0 == ordered[i]
      ensures old(Sound()) ==> Sound() && (r.Ok? ==> forall i :: 0 <= i < |ordered| ==>
                Denotes(queries, world, ordered[i], r.value[i].1))
      ensures r.Ok? ==> continuations == old(continuations)
      ensures r.Err? ==> failed < |ordered| && table.queries == queries && table.sourceRevisions == sourceRevisions
      ensures r.Err? ==> Explained(r.error, table, ordered[failed], budgets, old(continuations), continuations)
      ensures (forall key :: key in ordered ==> Unhindered(old(Table()), key, budgets)) ==> r.Ok?
    {
      hide Inv, Denotes, StampsBelow, Justified, Provenance, FaithfulAt, Trusted, Explained, Unhindered, Faithful, Economical, Bill, Grounded;
      var out: seq<(Key, Value)> := [];
      failed, table := 0, Table();
      ghost var st, h := Table(), hist;
      ProvenanceSame(st, h);
      for i := 0 to |ordered|
        invariant Valid() && (old(StampsBelow(Table())) ==> StampsBelow(Table()))
        invariant queries == old(queries) && world == old(world) && sourceRevisions == old(sourceRevisions)
        invariant |out| == i && forall j :: 0 <= j < i ==> out[j].0 == ordered[j]
        invariant old(Sound()) ==> Sound() && forall j :: 0 <= j < i ==> Denotes(queries, world, ordered[j], out[j].1)
        invariant continuations == old(continuations) && Provenance(st, h, Table(), hist) && st.nextRevision <= nextRevision
      {
        ghost var run;
        var x;
        failed, table := i, Table();
        ghost var before := hist;
        if Unhindered(st, ordered[i], budgets) { UnhinderedKept(fingerprint, st, h, table, before, world, ordered[i], budgets); }
        x, run := Verify(ordered[i], budgets, map[]);
        assert ordered[i] in ordered;
        if x.Err? { return Err(x.error), failed, table; }
        ProvenanceTransitive(st, h, table, before, Table(), hist);
        out := out + [(ordered[i], x.value)];
      }
      r := Ok(out);
    }

    method MarkDirtyCascade(key: Key) returns (ghost dirtied: set<Key>)
      modifies this`nodes
      ensures nodes == MarkDirty(old(nodes), dirtied)
      ensures key in dirtied && ReverseClosed(reverse, dirtied) && OnlyReachable(reverse, key, dirtied)
    {
      nodes, dirtied := Cascade(nodes, reverse, key);
    }

    /** Registers a callback, new or in place of another; a memo the key has stays. */
    method RegisterQuery(key: Key, body: Body) returns (ghost dirtied: set<Key>)
      requires Valid()
      modifies this`queries, this`nodes
      ensures Valid() && (old(StampsBelow(Table())) ==> StampsBelow(Table()))
      ensures queries == old(queries)[key := body]
      ensures
        var node := if key in old(nodes) then old(nodes)[key].(dirty := true) else DEFAULT_NODE;
        nodes == MarkDirty(old(nodes)[key := node], dirtied)
      ensures key in dirtied && ReverseClosed(reverse, dirtied) && OnlyReachable(reverse, key, dirtied)
      // other memos are as trustworthy as before, and this one exactly in these cases
      ensures forall k :: k != key && old(FaithfulAt(Table(), hist, k)) ==> FaithfulAt(Table(), hist, k)
      ensures FaithfulAt(Table(), hist, key) <==>
                || key !in old(nodes) || old(nodes)[key].value.None?
                || (key in hist.made && hist.made[key] == body)
                || Outdated(old(nodes), sourceRevisions, old(nodes)[key].dependencies)
    {
      hide Inv, Replays, ReverseClosed, FaithfulAt, Outdated, OnlyReachable, MarkDirty, StampsBelow;
      ghost var st := Table();
      assert st == old(Table());
      queries := queries[key := body];
      nodes := nodes[key := if key in nodes then nodes[key].(dirty := true) else DEFAULT_NODE];
      dirtied := MarkDirtyCascade(key);
      RegisterKeepsInv(fingerprint, st, hist, world, key, body, dirtied);
      RegisterTrust(fingerprint, st, hist, world, key, body, dirtied, Table());
      if StampsBelow(st) { RegisterStamps(st, key, Table(), dirtied); }
    }

    /** Removes a query; if some memo still observes its key as an external one, the key is
        lost: announcing a change there no longer reaches that memo. */
    method RemoveQuery(key: Key) returns (removed: bool, ghost dirtied: set<Key>)
      requires Valid()
      modifies this`queries, this`nodes, this`reverse, this`hist
      ensures Valid() && (old(StampsBelow(Table())) ==> StampsBelow(Table()))
      ensures removed <==> key in old(queries)
      ensures queries == old(queries) - {key}
      ensures !removed ==> nodes == old(nodes) && reverse == old(reverse) && hist == old(hist)
      ensures removed ==> nodes == MarkDirty(old(nodes), dirtied) - {key}
      ensures removed ==> key in dirtied && ReverseClosed(old(reverse), dirtied) && OnlyReachable(old(reverse), key, dirtied)
      ensures removed ==> forall x :: x != key ==> Dependents(reverse, x) == Dependents(old(reverse), x) - {key}
      ensures removed && key in old(nodes) ==> Dependents(reverse, key) == {}
      ensures removed ==> hist == old(hist).(lost := if Unobserved(old(nodes), sourceRevisions, key) then old(hist.lost) else old(hist.lost) + {key})
      ensures forall k :: old(FaithfulAt(Table(), hist, k)) ==> FaithfulAt(Table(), hist, k)
    {
      hide Inv, Replays, ReverseClosed, Unobserved, OnlyReachable, FaithfulAt;
      dirtied := {};
      removed := key in queries;
      if removed {
        ghost var st, h := Table(), hist;
        queries := queries - {key};
        dirtied := MarkDirtyCascade(key);
        if key in nodes {
          reverse := Unlink(reverse, key, nodes[key].dependencies);
          nodes := nodes - {key};
          ghost var unlinked := reverse;
          reverse := reverse - {key};
          Detached(fingerprint, st, hist, world, key, unlinked, reverse);
        } else {
          assert nodes - {key} == nodes;
          Detached(fingerprint, st, hist, world, key, reverse, reverse);
        }
        if !Unobserved(st.nodes, st.sourceRevisions, key) { hist := hist.(lost := hist.lost + {key}); }
        RemoveKeepsInv(fingerprint, st, Table(), h, hist, world, key, dirtied);
        forall k | FaithfulAt(st, h, k) ensures FaithfulAt(Table(), hist, k) {
          RemoveFaithful(st, h, Table(), hist, key, dirtied, k);
        }
      } else {
        assert queries - {key} == queries;
        RegisteredOnly(fingerprint, Table(), hist, world, key);
      }
    }

    /** The outside changed at `key`, and the change is announced. The engine stays valid
        if the new stamp is unused and every confirmed memo that observes the key is
        reached; one that is not reached leaves it invalid. */
    method Invalidate(key: Key, now: World) returns (revision: nat, ghost dirtied: set<Key>)
      requires Valid()
      requires forall k :: k != key ==> Look(now, k) == Look(world, k)
      modifies this`nodes, this`sourceRevisions, this`nextRevision, this`world, this`hist
      ensures old(NextStampUnused(Table(), key)) && Tracked(old(Table()), key, dirtied) ==> Valid()
      ensures old(NextStampUnused(Table(), key)) && key !in old(hist.lost) ==> Valid()
      ensures old(NextStampUnused(Table(), key)) && !Tracked(old(Table()), key, dirtied) ==> !Valid()
      ensures old(StampsBelow(Table())) ==> StampsBelow(Table())
      ensures world == now && nodes == MarkDirty(old(nodes), dirtied)
      ensures key in dirtied && ReverseClosed(reverse, dirtied) && OnlyReachable(reverse, key, dirtied)
      ensures revision == old(nextRevision) && nextRevision == revision + 1 && sourceRevisions == old(sourceRevisions)[key := revision]
      ensures hist.lost == old(hist.lost)
      ensures old(NextStampUnused(Table(), key)) ==> forall k :: old(FaithfulAt(Table(), hist, k)) ==> FaithfulAt(Table(), hist, k)
    {
      hide Inv, Replays, ReverseClosed, NextStampUnused, StampsBelow, OnlyReachable, Tracked, FaithfulAt, MarkDirty, Stamped;
      ghost var st, h, before := Table(), hist, world;
      revision := nextRevision;
      nextRevision := nextRevision + 1;
      sourceRevisions := sourceRevisions[key := revision];
      world := now;
      dirtied := MarkDirtyCascade(key);
      hist := Stamped(hist, key, revision, Look(now, key));
      StampedKeeps(h, key, revision, Look(now, key));
      if StampsBelow(st) { StampsAfterInvalidate(st, key, dirtied); }
      if NextStampUnused(st, key) { Invalidated(fingerprint, st, h, before, now, key, dirtied); }
    }
  }

  /** What registering `body` for `key` does to the trust in the memo of `k`. */
  ghost predicate RegisterFaithfulness(st: State, st': State, h: History, key: Key, body: Body, k: Key) {
    if k != key then FaithfulAt(st, h, k) ==> FaithfulAt(st', h, k)
    else FaithfulAt(st', h, key) <==>
      || key !in st.nodes || st.nodes[key].value.None?
      || (key in h.made && h.made[key] == body)
      || Outdated(st.nodes, st.sourceRevisions, st.nodes[key].dependencies)
  }

  lemma RegisterTrust(fp: Value -> nat, st: State, h: History, world: World, key: Key, body: Body, dirtied: set<Key>, st': State)
    requires Inv(fp, st, h, world)
    requires var node := if key in st.nodes then st.nodes[key].(dirty := true) else DEFAULT_NODE;
      st' == st.(queries := st.queries[key := body], nodes := MarkDirty(st.nodes[key := node], dirtied))
    ensures forall k :: k != key && FaithfulAt(st, h, k) ==> FaithfulAt(st', h, k)
    ensures FaithfulAt(st', h, key) <==>
              || key !in st.nodes || st.nodes[key].value.None?
              || (key in h.made && h.made[key] == body)
              || Outdated(st.nodes, st.sourceRevisions, st.nodes[key].dependencies)
  {
    hide Inv, FaithfulAt, Outdated;
    RegisterFaithful(fp, st, h, world, key, body, st', key);
    forall k | k != key && FaithfulAt(st, h, k) ensures FaithfulAt(st', h, k) {
      RegisterFaithful(fp, st, h, world, key, body, st', k);
    }
  }

  lemma RegisterStamps(st: State, key: Key, st': State, dirtied: set<Key>)
    requires StampsBelow(st) && st'.sourceRevisions == st.sourceRevisions && st'.nextRevision == st.nextRevision
    requires var node := if key in st.nodes then st.nodes[key].(dirty := true) else DEFAULT_NODE;
      st'.nodes == MarkDirty(st.nodes[key := node], dirtied)
    ensures StampsBelow(st')
  {
  }

  lemma RegisterFaithful(fp: Value -> nat, st: State, h: History, world: World, key: Key, body: Body, st': State, k: Key)
    requires Inv(fp, st, h, world) && st'.queries == st.queries[key := body] && st'.sourceRevisions == st.sourceRevisions
    requires st'.nodes.Keys == st.nodes.Keys + {key}
    requires forall x :: x in st'.nodes ==> SameMemo(if x in st.nodes then st.nodes[x] else DEFAULT_NODE, st'.nodes[x])
    ensures RegisterFaithfulness(st, st', h, key, body, k)
  {
    hide Inv, Outdated;
    if k in st.nodes {
      assert SameMemo(st.nodes[k], st'.nodes[k]);
      RegisterOutdated(fp, st, h, world, key, st', k);
      RegisterNotOutdated(st, key, st', k);
    }
  }

  lemma RegisterNotOutdated(st: State, key: Key, st': State, k: Key)
    requires k in st.nodes && st'.sourceRevisions == st.sourceRevisions && st.nodes.Keys <= st'.nodes.Keys
    requires forall x :: x in st.nodes ==> st'.nodes[x].revision == st.nodes[x].revision
    ensures Outdated(st'.nodes, st'.sourceRevisions, st.nodes[k].dependencies) ==>
              Outdated(st.nodes, st.sourceRevisions, st.nodes[k].dependencies)
  {
  }

  lemma RemoveFaithful(st: State, h: History, st': State, h': History, key: Key, dirtied: set<Key>, k: Key)
    requires st' == st.(queries := st.queries - {key}, nodes := MarkDirty(st.nodes, dirtied) - {key}, reverse := st'.reverse)
    requires h' == h.(lost := h'.lost) && FaithfulAt(st, h, k)
    ensures FaithfulAt(st', h', k)
  {
    hide Outdated;
    if k in st'.nodes { OutdatedWithout(st.nodes, st.sourceRevisions, key, dirtied, st.nodes[k].dependencies); }
  }

  lemma Invalidated(fp: Value -> nat, st: State, h: History, world: World, world': World, key: Key, dirtied: set<Key>)
    requires Inv(fp, st, h, world) && NextStampUnused(st, key) && key in dirtied && ReverseClosed(st.reverse, dirtied)
    requires forall k :: k != key ==> Look(world', k) == Look(world, k)
    ensures var st' := st.(nodes := MarkDirty(st.nodes, dirtied), sourceRevisions := st.sourceRevisions[key := st.nextRevision],
                           nextRevision := st.nextRevision + 1);
      var h' := Stamped(h, key, st.nextRevision, Look(world', key));
      && (Inv(fp, st', h', world') <==> Tracked(st, key, dirtied)) && (key !in h.lost ==> Tracked(st, key, dirtied))
      && forall k :: FaithfulAt(st, h, k) ==> FaithfulAt(st', h', k)
  {
    hide Inv, NextStampUnused, ReverseClosed, Tracked, FaithfulAt;
    var st' := st.(nodes := MarkDirty(st.nodes, dirtied), sourceRevisions := st.sourceRevisions[key := st.nextRevision],
                   nextRevision := st.nextRevision + 1);
    var h' := Stamped(h, key, st.nextRevision, Look(world', key));
    if key !in h.lost { NotLostTracked(fp, st, h, world, key, dirtied); }
    if Tracked(st, key, dirtied) {
      InvalidateKeepsInv(fp, st, h, world, world', key, dirtied);
    } else {
      UntrackedBreaks(fp, st, st', h', world', key, dirtied);
    }
    forall k | FaithfulAt(st, h, k) ensures FaithfulAt(st', h', k) {
      InvalidateFaithful(fp, st, h, world, key, dirtied, st', h', k);
    }
  }

  lemma InvalidateFaithful(fp: Value -> nat, st: State, h: History, world: World, key: Key, dirtied: set<Key>,
      st': State, h': History, k: Key)
    requires Inv(fp, st, h, world) && NextStampUnused(st, key) && FaithfulAt(st, h, k)
    requires st' == st.(nodes := MarkDirty(st.nodes, dirtied), sourceRevisions := st.sourceRevisions[key := st.nextRevision],
                        nextRevision := st.nextRevision + 1)
    requires h' == h.(sources := h'.sources)
    ensures FaithfulAt(st', h', k)
  {
    hide Inv;
    if k in st.nodes && Outdated(st.nodes, st.sourceRevisions, st.nodes[k].dependencies) {
      RecordedBelow(fp, st, h, world, k);
      OutdatedStays(st.nodes, st.sourceRevisions, st'.nodes, st'.sourceRevisions, st.nodes[k].dependencies, st.nextRevision);
    }
  }

  /** A confirmed memo the cascade missed is left observing a stamp that has moved. */
  lemma UntrackedBreaks(fp: Value -> nat, st: State, st': State, h': History, world: World, key: Key, dirtied: set<Key>)
    requires NextStampUnused(st, key) && !Tracked(st, key, dirtied)
    requires st'.nodes == MarkDirty(st.nodes, dirtied) && st'.sourceRevisions == st.sourceRevisions[key := st.nextRevision]
    ensures !Inv(fp, st', h', world)
    ensures exists k :: Clean(st'.nodes, k) && !AllCurrent(st', st'.nodes[k].dependencies)
  {
    hide Replays;
    var k, d :| Clean(st.nodes, k) && k !in dirtied && d in st.nodes[k].dependencies && d.External? && d.key == key;
    assert Clean(st'.nodes, k) && !Current(st'.nodes, st'.sourceRevisions, d);
    assert !AllCurrent(st', st'.nodes[k].dependencies) && !CleanOk(st', h', k);
  }

  lemma ReuseAdvances(a: View, b: View, c: View, key: Key, below: seq<Key>)
    requires Advances(a, b, below)
    requires key in b.st.nodes && key !in below
    requires c.st == b.st.(nodes := b.st.nodes[key := b.st.nodes[key].(dirty := false)])
    requires c.world == b.world && c.continuations == b.continuations && c.executed == b.executed
    requires HistoryGrows(b.h, c.h) && c.h.made == b.h.made
    ensures Advances(a, c, below)
    ensures OnlyConfirmed(a, b) ==> OnlyConfirmed(a, c)
  {
    assert Provenance(b.st, b.h, c.st, c.h);
    ProvenanceTransitive(a.st, a.h, b.st, b.h, c.st, c.h);
    ReuseOnlyConfirms(a, b, c, key);
    ReuseLeavesAlone(a.st.nodes, b.st.nodes, key, below);
    ReuseWithCause(a, b, c, key, below);
    GrowsOn(a.h, b.h, c.h);
    StampsStay(b.st, key);
    hide OnlyConfirmed, LeftAlone, ChangedWithCause, StampsBelow, HistoryGrows, Provenance;
  }

  lemma ReuseLeavesAlone(nodes: map<Key, Node>, nodes': map<Key, Node>, key: Key, below: seq<Key>)
    requires LeftAlone(nodes, nodes', below) && key in nodes' && key !in below
    ensures LeftAlone(nodes, nodes'[key := nodes'[key].(dirty := false)], below)
  {
  }

  lemma ReuseWithCause(a: View, b: View, c: View, key: Key, below: seq<Key>)
    requires ChangedWithCause(a, b, below) && key in b.st.nodes && c.executed == b.executed
    requires c.st == b.st.(nodes := b.st.nodes[key := b.st.nodes[key].(dirty := false)])
    ensures ChangedWithCause(a, c, below)
  {
    hide Justified;
    forall k | k in c.executed[|a.executed|..] ensures k !in below && Justified(a.st, c.st, k) {
      JustifiedStill(a.st, b.st, key, k);
    }
  }

  lemma ReuseOnlyConfirms(a: View, b: View, c: View, key: Key)
    requires key in b.st.nodes && c.executed == b.executed
    requires c.st == b.st.(nodes := b.st.nodes[key := b.st.nodes[key].(dirty := false)])
    ensures OnlyConfirmed(a, b) ==> OnlyConfirmed(a, c)
  {
  }

  lemma GrowsOn(a: History, b: History, c: History)
    requires HistoryGrows(a, b) && HistoryGrows(b, c)
    ensures HistoryGrows(a, c)
  {
  }

  lemma StampsStay(st: State, key: Key)
    requires key in st.nodes
    ensures StampsBelow(st) ==> StampsBelow(st.(nodes := st.nodes[key := st.nodes[key].(dirty := false)]))
  {
  }

  lemma JustifiedStill(before: State, st: State, key: Key, k: Key)
    requires Justified(before, st, k) && key in st.nodes
    ensures Justified(before, st.(nodes := st.nodes[key := st.nodes[key].(dirty := false)]), k)
  {
    var st' := st.(nodes := st.nodes[key := st.nodes[key].(dirty := false)]);
    if k in before.nodes && before.nodes[k].value.Some? {
      var d :| d in before.nodes[k].dependencies && Moved(st, d);
      assert Moved(st', d);
    }
  }

  /** A memo whose reads were all refreshed and that still does not stand has seen a
      stamp move or a query it read change revision: equal revisions never differ in
      fingerprint. */
  lemma Overtaken(fp: Value -> nat, st: State, h: History, world: World, key: Key)
    requires Inv(fp, st, h, world) && key in st.nodes && st.nodes[key].value.Some?
    requires ReadsClean(st.nodes, st.nodes[key].dependencies)
    requires !AllCurrent(st, st.nodes[key].dependencies)
    ensures Justified(st, st, key)
  {
    var n := st.nodes[key];
    var d :| d in n.dependencies && !Current(st.nodes, st.sourceRevisions, d);
    assert NodeOk(fp, st, h, key);
    ReadsRecorded(fp, h, h.made[key], n.dependencies, n.value.value);
    if d.Read? { assert NodeOk(fp, st, h, d.key); }
    assert Moved(st, d);
  }

  lemma SettledBelow(a: View, b: View, below: seq<Key>, key: Key)
    requires Advances(a, b, below + [key])
    requires Settled(a.st.nodes, a.executed, below) && Settled(b.st.nodes, b.executed, below + [key])
    ensures Settled(b.st.nodes, b.executed, below)
  {
    forall k | k in b.executed ensures Clean(b.st.nodes, k) || k in below {
      if k in a.executed {
        assert Clean(a.st.nodes, k) || k in below;
      } else {
        assert b.executed == a.executed + b.executed[|a.executed|..];
        assert k in b.executed[|a.executed|..];
      }
    }
  }

  // Facts about the hidden predicates above, as the methods use them.

  lemma Pushed(stack: seq<Key>, key: Key)
    requires NoRepeats(stack) && key !in stack
    ensures NoRepeats(stack + [key]) && (stack + [key])[..|stack|] == stack
  {
  }

  lemma TopIsNew(stack: seq<Key>)
    requires NoRepeats(stack) && stack != []
    ensures stack[|stack| - 1] !in stack[..|stack| - 1]
  {
  }

  lemma NothingRead(nodes: map<Key, Node>)
    ensures ReadsClean(nodes, [])
  {
  }

  ghost function Everyone(reverse: map<Key, set<Key>>, key: Key): set<Key> {
    {key} + set x, k | x in reverse && k in reverse[x] :: k
  }

  lemma EveryoneCovers(reverse: map<Key, set<Key>>, key: Key)
    ensures key in Everyone(reverse, key) && forall x :: Dependents(reverse, x) <= Everyone(reverse, key)
  {
  }

  ghost predicate ExpandedInto(reverse: map<Key, set<Key>>, seen: set<Key>, known: set<Key>) {
    forall x :: x in seen ==> Dependents(reverse, x) <= known
  }

  lemma NothingExpanded(reverse: map<Key, set<Key>>, known: set<Key>)
    ensures ExpandedInto(reverse, {}, known)
  {
  }

  lemma ExpandedMore(reverse: map<Key, set<Key>>, seen: set<Key>, known: set<Key>, next: Key)
    requires ExpandedInto(reverse, seen, known)
    ensures ExpandedInto(reverse, seen + {next}, known + Dependents(reverse, next))
  {
  }

  lemma ExpandedCloses(reverse: map<Key, set<Key>>, seen: set<Key>)
    requires ExpandedInto(reverse, seen, seen)
    ensures ReverseClosed(reverse, seen)
  {
  }

  lemma NothingDirty(nodes: map<Key, Node>)
    ensures MarkDirty(nodes, {}) == nodes
  {
  }

  lemma StartReachable(reverse: map<Key, set<Key>>, key: Key)
    ensures OnlyReachable(reverse, key, {key})
  {
  }

  lemma StampsAfterInvalidate(st: State, key: Key, dirtied: set<Key>)
    requires StampsBelow(st)
    ensures StampsBelow(st.(nodes := MarkDirty(st.nodes, dirtied),
                            sourceRevisions := st.sourceRevisions[key := st.nextRevision],
                            nextRevision := st.nextRevision + 1))
  {
    var st' := st.(nodes := MarkDirty(st.nodes, dirtied),
                   sourceRevisions := st.sourceRevisions[key := st.nextRevision],
                   nextRevision := st.nextRevision + 1);
    forall k ensures SourceRevision(st'.sourceRevisions, k) < st'.nextRevision {
      assert SourceRevision(st.sourceRevisions, k) < st.nextRevision;
    }
  }

  lemma StampedKeeps(h: History, key: Key, revision: nat, seen: Option<Outside>)
    ensures Stamped(h, key, revision, seen).lost == h.lost
  {
  }

  lemma LedgerClosed(queries: map<Key, Body>, nodes: map<Key, Node>, world: World, executed: seq<Key>, spent: Spending)
    requires Ledger(queries, nodes, world, executed, spent, NOTHING)
    ensures spent == Bill(queries, nodes, world, executed) && Grounded(queries, nodes, world, executed)
  {
    hide Bill, Grounded;
  }

  lemma SettledAll(nodes: map<Key, Node>, executed: seq<Key>)
    requires Settled(nodes, executed, [])
    ensures forall k :: k in executed ==> Clean(nodes, k)
  {
  }

  lemma NothingSettled(nodes: map<Key, Node>)
    ensures Settled(nodes, [], []) && Untouched(nodes, nodes, [])
  {
  }

  lemma AdvancesWhole(a: View, b: View)
    requires Advances(a, b, []) && a.executed == []
    requires NoRepeats(b.executed) && forall k :: k in b.executed ==> k in a.st.queries
    ensures Economical(a.st, b.st, b.executed)
  {
    hide Provenance, HistoryGrows, StampsBelow, Justified, LeftAlone;
    RepetitionFreeBound(b.executed, a.st.queries.Keys);
    assert b.executed[|a.executed|..] == b.executed;
  }

  lemma ConfirmedValue(a: View, b: View, key: Key)
    requires OnlyConfirmed(a, b) && key in a.st.nodes
    ensures key in b.st.nodes && b.st.nodes[key].value == a.st.nodes[key].value && b.executed == a.executed
    ensures b.st.reverse == a.st.reverse
  {
    assert SameMemo(a.st.nodes[key], b.st.nodes[key]);
  }

  lemma RegisteredOnly(fp: Value -> nat, st: State, h: History, world: World, key: Key)
    requires Inv(fp, st, h, world) && key !in st.queries
    ensures key !in st.nodes && st.nodes - {key} == st.nodes
  {
  }

  lemma Detached(fp: Value -> nat, st: State, h: History, world: World, key: Key,
      unlinked: map<Key, set<Key>>, reverse: map<Key, set<Key>>)
    requires Inv(fp, st, h, world)
    requires var deps := if key in st.nodes then st.nodes[key].dependencies else [];
      forall x :: Dependents(unlinked, x) == Dependents(st.reverse, x) - (if Observes(deps, x) then {key} else {})
    requires reverse == if key in st.nodes then unlinked - {key} else unlinked
    ensures forall x :: x != key ==> Dependents(reverse, x) == Dependents(st.reverse, x) - {key}
    ensures Dependents(reverse, key) <= Dependents(st.reverse, key) - {key}
    ensures key !in st.nodes ==> Dependents(reverse, key) == Dependents(st.reverse, key) - {key}
  {
    forall x ensures Dependents(unlinked, x) == Dependents(st.reverse, x) - {key} {
    }
  }

  lemma FollowsAnswer(body: Body, v: Value)
    requires body.ReadThen? && v in body.next
    ensures Follows(body, body.next[v])
  {
  }

  lemma FollowsLook(body: Body, x: Option<Outside>)
    requires body.ObserveThen? && x in body.answers
    ensures Follows(body, body.answers[x])
  {
  }

  /** The active queries and one more are a way down from the root. */
  lemma DeepStack(st: State, root: Key, stack: seq<Key>, key: Key)
    requires Active(st, root, stack) && Called(st, root, stack, key) && NoRepeats(stack) && key !in stack
    requires key in st.queries && forall k :: k in stack ==> k in st.queries
    ensures Deep(st, root, |stack| + 1)
  {
    ActiveMore(st, root, stack, key);
    Pushed(stack, key);
    hide Asks, NoRepeats;
    var path := stack + [key];
    assert Chain(st, path) && path[0] == root;
  }

  lemma OneLeft(executed: seq<Key>, queries: map<Key, Body>, key: Key)
    requires NoRepeats(executed) && (forall k :: k in executed ==> k in queries) && key in queries && key !in executed
    ensures |executed| < |queries|
  {
    NoRepeatsMore(executed, key);
    RepetitionFreeBound(executed + [key], queries.Keys);
  }

  /** A memo that is refreshed is the one the run began with. */
  lemma StartMemo(start: map<Key, Node>, nodes: map<Key, Node>, executed: seq<Key>, below: seq<Key>, key: Key)
    requires Untouched(start, nodes, executed) && Settled(nodes, executed, below)
    requires key in nodes && !Clean(nodes, key) && key !in below
    ensures key in start && start[key].dependencies == nodes[key].dependencies
  {
  }

  /** What the memo of the active query read may be asked for. */
  lemma AsksAgain(st: State, root: Key, stack: seq<Key>, key: Key, deps: seq<Observation>, i: nat)
    requires stack != [] && key == stack[|stack| - 1] && key in st.queries && key in st.nodes && deps == st.nodes[key].dependencies
    requires i < |deps| && deps[i].Read?
    ensures Called(st, root, stack, deps[i].key)
  {
    assert deps[i] in st.nodes[key].dependencies;
  }

  lemma UntouchedMore(start: map<Key, Node>, nodes: map<Key, Node>, executed: seq<Key>, key: Key)
    requires Untouched(start, nodes, executed)
    ensures Untouched(start, nodes, executed + [key])
  {
  }

  lemma ReuseUntouched(start: map<Key, Node>, nodes: map<Key, Node>, executed: seq<Key>, key: Key)
    requires Untouched(start, nodes, executed) && key in nodes
    ensures Untouched(start, nodes[key := nodes[key].(dirty := false)], executed)
  {
  }

  lemma CommitUntouched(start: map<Key, Node>, nodes: map<Key, Node>, nodes': map<Key, Node>, executed: seq<Key>, key: Key)
    requires Untouched(start, nodes, executed) && key in executed && key in nodes' && nodes' == nodes[key := nodes'[key]]
    ensures Untouched(start, nodes', executed)
  {
  }

  /** A query to descend from is registered, not active, and within depth. */
  lemma DescendsFrom(st: State, keep: map<Key, nat>, key: Key, stack: seq<Key>, budgets: Budgets)
    requires Fresh(st, keep) && Descends(keep, key, stack, budgets)
    ensures key in st.queries && key !in stack && |stack| < budgets.maxDepth
  {
  }

  lemma DescendsMemo(st: State, keep: map<Key, nat>, key: Key, stack: seq<Key>, budgets: Budgets)
    requires Fresh(st, keep) && Descends(keep, key, stack, budgets)
    ensures key in st.nodes && st.nodes[key].value.Some?
  {
  }

  lemma OnlyConfirmedSame(a: View)
    ensures OnlyConfirmed(a, a)
  {
  }

  lemma SettledFact(nodes: map<Key, Node>, executed: seq<Key>, active: seq<Key>, key: Key)
    requires Settled(nodes, executed, active) && key !in active
    ensures key in executed ==> Clean(nodes, key)
  {
  }

  lemma SettledMore(nodes: map<Key, Node>, executed: seq<Key>, active: seq<Key>, more: seq<Key>)
    requires Settled(nodes, executed, active) && forall k :: k in active ==> k in more
    ensures Settled(nodes, executed, more)
  {
  }

  lemma SettledStart(nodes: map<Key, Node>, executed: seq<Key>, below: seq<Key>, key: Key)
    requires Settled(nodes, executed, below)
    ensures Settled(nodes, executed + [key], below + [key])
  {
  }

  lemma ReuseSettled(b: View, c: View, key: Key, below: seq<Key>)
    requires Settled(b.st.nodes, b.executed, below) && c.executed == b.executed && key in b.st.nodes
    requires c.st.nodes == b.st.nodes[key := b.st.nodes[key].(dirty := false)]
    ensures Settled(c.st.nodes, c.executed, below)
  {
  }

  lemma CommitSettled(d: View, e: View, key: Key, below: seq<Key>)
    requires Settled(d.st.nodes, d.executed, below + [key]) && e.executed == d.executed
    requires Clean(e.st.nodes, key) && e.st.nodes == d.st.nodes[key := e.st.nodes[key]]
    ensures Settled(e.st.nodes, e.executed, below)
  {
  }

  lemma NoMemo(fp: Value -> nat, st: State, h: History, world: World, key: Key)
    requires Inv(fp, st, h, world) && (key !in st.nodes || st.nodes[key].value.None?)
    ensures !Clean(st.nodes, key) && Justified(st, st, key)
  {
    assert key in st.nodes ==> NodeOk(fp, st, h, key);
  }

  lemma CleanIsRegistered(fp: Value -> nat, st: State, h: History, world: World, key: Key)
    requires Inv(fp, st, h, world)
    ensures Clean(st.nodes, key) ==> key in st.queries
  {
  }

  lemma CleanMeansCurrent(fp: Value -> nat, st: State, h: History, world: World, key: Key)
    requires Inv(fp, st, h, world)
    ensures Clean(st.nodes, key) ==> st.nodes[key].value.Some? && AllCurrent(st, st.nodes[key].dependencies)
  {
    assert Clean(st.nodes, key) ==> NodeOk(fp, st, h, key);
    assert Clean(st.nodes, key) ==> CleanOk(st, h, key);
  }

  lemma MemoRecorded(fp: Value -> nat, st: State, h: History, world: World, k: Key)
    requires Inv(fp, st, h, world) && Clean(st.nodes, k)
    ensures k in st.nodes && st.nodes[k].value.Some? && st.nodes[k].fingerprint == Some(fp(st.nodes[k].value.value))
    ensures (k, st.nodes[k].revision) in h.values && h.values[(k, st.nodes[k].revision)] == st.nodes[k].value.value
    ensures Current(st.nodes, st.sourceRevisions, Read(k, st.nodes[k].revision, st.nodes[k].fingerprint.value))
  {
    assert NodeOk(fp, st, h, k);
  }

  lemma StampKnown(fp: Value -> nat, st: State, h: History, world: World, k: Key)
    requires Inv(fp, st, h, world)
    ensures h.sources(k, SourceRevision(st.sourceRevisions, k)) == Look(world, k)
    ensures forall kind :: Current(st.nodes, st.sourceRevisions, External(k, kind, SourceRevision(st.sourceRevisions, k)))
  {
  }

  lemma KeptValue(h: History, h': History, p: (Key, nat))
    requires HistoryGrows(h, h') && p in h.values
    ensures p in h'.values && h'.values[p] == h.values[p]
  {
  }

  lemma KeptSources(h: History, h': History)
    requires HistoryGrows(h, h')
    ensures h'.sources == h.sources
  {
  }

  lemma ReplayReturn(fp: Value -> nat, h: History, v: Value)
    ensures Replays(fp, h, Return(v), [], v)
  {
  }

  lemma ReplayCharged(fp: Value -> nat, h: History, body: Body, deps: seq<Observation>, v: Value)
    requires body.ChargeWork? || body.ChargeOutput?
    ensures Replays(fp, h, body.rest, deps, v) ==> Replays(fp, h, body, deps, v)
  {
  }

  lemma ReplayRead(fp: Value -> nat, h: History, k: Key, next: imap<Value, Body>, o: Observation,
      deps: seq<Observation>, v: Value)
    requires o.Read? && o.key == k && (k, o.revision) in h.values
    requires o.fingerprint == fp(h.values[(k, o.revision)]) && h.values[(k, o.revision)] in next
    ensures Replays(fp, h, next[h.values[(k, o.revision)]], deps, v) ==> Replays(fp, h, ReadThen(k, next), [o] + deps, v)
  {
    assert ([o] + deps)[1..] == deps;
  }

  /** A read that went on to a result replays, and was paid for. */
  lemma ReadConcludes(fp: Value -> nat, b: View, d: View, held: seq<Key>, body: Body, answer: Value, o: Observation, deps: seq<Observation>,
      v: Value, paid: Spending, paid': Spending)
    requires Advances(b, d, held) && body.ReadThen? && answer in body.next && deps != [] && deps[0] == o
    requires o.Read? && o.key == body.key && (body.key, o.revision) in b.h.values && b.h.values[(body.key, o.revision)] == answer
    requires o.fingerprint == fp(answer) && Clean(b.st.nodes, body.key) && body.key in b.st.nodes && b.st.nodes[body.key].value == Some(answer)
    requires Replays(fp, d.h, body.next[answer], deps[1..], v) && Paying(d.st.nodes, d.world, body.next[answer], Charged(paid, body), paid')
    ensures Replays(fp, d.h, body, deps, v) && Paying(d.st.nodes, d.world, body, paid, paid')
  {
    hide Advances, Replays, Paying, Clean, HistoryGrows, Provenance;
    AdvancesBasics(b, d, held);
    KeptValue(b.h, d.h, (body.key, o.revision));
    assert deps == [o] + deps[1..];
    ReplayRead(fp, d.h, body.key, body.next, o, deps[1..], v);
    AdvancesClean(b, d, held, body.key);
    PayingRead(d.st.nodes, d.world, body, answer, paid, paid');
  }

  lemma ReplayObserve(fp: Value -> nat, h: History, kind: ExternalKind, k: Key, answers: imap<Option<Outside>, Body>,
      o: Observation, deps: seq<Observation>, v: Value)
    requires o.External? && o.key == k && o.kind == kind && h.sources(k, o.revision) in answers
    ensures Replays(fp, h, answers[h.sources(k, o.revision)], deps, v) ==>
              Replays(fp, h, ObserveThen(kind, k, answers), [o] + deps, v)
  {
    assert ([o] + deps)[1..] == deps;
  }

  lemma NothingObserved(st: State)
    ensures AllCurrent(st, [])
  {
  }

  lemma OneMoreCurrent(st: State, o: Observation, deps: seq<Observation>)
    requires Current(st.nodes, st.sourceRevisions, o) && AllCurrent(st, deps)
    ensures AllCurrent(st, [o] + deps)
  {
  }
}

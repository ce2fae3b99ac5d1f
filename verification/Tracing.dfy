/** Tracing collection planned on a read-only view of the heap: marking, the ephemeron
    fixpoint, the sweep and clear lists, and the limits that may refuse the plan. */
module Tracing {
  import opened Collections

  /** Managed identities are allocation ordinals. */
  type Id = nat

  datatype Edge =
    | Strong(edge: nat, target: Id)
    | Weak(edge: nat, target: Id)
    | Ephemeron(edge: nat, key: Id, value: Id)

  /** Outgoing edges of every live object, in edge order. */
  type Heap = map<Id, seq<Edge>>

  function Edges(h: Heap, id: Id): seq<Edge> {
    if id in h then h[id] else []
  }

  function Members(s: seq<Id>): set<Id> {
    set x | x in s
  }

  // ---------- what is live ----------

  /** What an edge of a member of `s` retains is in `s`. */
  ghost predicate Retained(e: Edge, s: set<Id>) {
    match e
    case Strong(_, target) => target in s
    case Weak(_, _) => true
    case Ephemeron(_, key, value) => key in s ==> value in s
  }

  ghost predicate TraceClosed(h: Heap, s: set<Id>) {
    forall id, e :: id in s && e in Edges(h, id) ==> Retained(e, s)
  }

  function Targets(e: Edge): set<Id> {
    match e
    case Strong(_, target) => {target}
    case Weak(_, target) => {target}
    case Ephemeron(_, key, value) => {key, value}
  }

  ghost predicate Reached(h: Heap, start: set<Id>, id: Id) {
    forall s: set<Id> :: start <= s && TraceClosed(h, s) ==> id in s
  }

  ghost function Named(h: Heap, start: set<Id>): set<Id> {
    start + set id, e, x | id in h && e in h[id] && x in Targets(e) :: x
  }

  /** The least set that holds `start`, what its members' strong edges name, and the
      value of each member's ephemerons whose key it holds. */
  ghost function Live(h: Heap, start: set<Id>): set<Id> {
    set id | id in Named(h, start) && Reached(h, start, id)
  }

  lemma LiveClosed(h: Heap, start: set<Id>)
    ensures start <= Live(h, start) && TraceClosed(h, Live(h, start))
  {
    hide Named;
    var live := Live(h, start);
    forall id ensures id in start ==> id in live { NamedAll(h, start); }
    forall id, e | id in live && e in Edges(h, id) ensures Retained(e, live) {
      forall x | x in Targets(e) && (e.Strong? || (e.Ephemeron? && e.key in live && x == e.value)) ensures x in live {
        NamedBy(h, start, id, e, x);
        forall s: set<Id> | start <= s && TraceClosed(h, s) ensures x in s {
          assert id in s && Retained(e, s);
          if e.Ephemeron? { assert Reached(h, start, e.key); }
        }
      }
    }
  }

  lemma NamedAll(h: Heap, start: set<Id>)
    ensures start <= Named(h, start)
  {
  }

  lemma NamedBy(h: Heap, start: set<Id>, id: Id, e: Edge, x: Id)
    requires e in Edges(h, id) && x in Targets(e)
    ensures x in Named(h, start)
  {
    assert id in h;
  }

  lemma LiveLeast(h: Heap, start: set<Id>, s: set<Id>)
    requires start <= s && TraceClosed(h, s)
    ensures Live(h, start) <= s
  {
  }

  // ---------- edges counted once per object ----------

  ghost function Degree(h: Heap, s: set<Id>): nat {
    Sum(s, (id: Id) => |Edges(h, id)|)
  }

  lemma DegreeAdd(h: Heap, s: set<Id>, x: Id)
    requires x !in s
    ensures Degree(h, s + {x}) == Degree(h, s) + |Edges(h, x)|
  {
    SumAdd(s, (id: Id) => |Edges(h, id)|, x);
  }

  lemma DegreeGrows(h: Heap, s: set<Id>, t: set<Id>)
    requires s <= t
    ensures Degree(h, s) <= Degree(h, t) && |s| <= |t|
  {
    SumGrows(s, t, (id: Id) => |Edges(h, id)|);
    SubsetSize(s, t);
  }

  // ---------- marking ----------

  datatype Limits = Limits(objects: nat, edges: nat, stack: nat, work: nat, clears: nat, finalizers: nat)

  datatype LimitKind = ObjectLimit | EdgeLimit | StackLimit | WorkLimit | ClearLimit | FinalizerLimit

  /** Why a plan was refused: a limit, or an edge to an object that is not there. */
  datatype Refusal = Limit(kind: LimitKind, limit: nat, required: nat) | Stale(id: Id)

  datatype Owned = Owned(owner: Id, edge: Edge)

  datatype Trace = Trace(marked: set<Id>, ephemerons: seq<Owned>, weak: seq<Owned>, edges: nat, work: nat)

  function StrongTargets(edges: seq<Edge>, marked: set<Id>): (r: seq<Id>)
    ensures |r| <= |edges|
    ensures forall x :: x in r <==> x !in marked && exists e :: e in edges && e.Strong? && e.target == x
  {
    if edges == [] then []
    else
      assert edges == edges[..|edges| - 1] + [edges[|edges| - 1]];
      StrongTargets(edges[..|edges| - 1], marked) +
      (if edges[|edges| - 1].Strong? && edges[|edges| - 1].target !in marked then [edges[|edges| - 1].target] else [])
  }

  function WeakOf(id: Id, edges: seq<Edge>): (r: seq<Owned>)
    ensures forall o :: o in r <==> o.owner == id && o.edge in edges && o.edge.Weak?
  {
    if edges == [] then []
    else
      assert edges == edges[..|edges| - 1] + [edges[|edges| - 1]];
      WeakOf(id, edges[..|edges| - 1]) +
      (if edges[|edges| - 1].Weak? then [Owned(id, edges[|edges| - 1])] else [])
  }

  function EphemeronsOf(id: Id, edges: seq<Edge>): (r: seq<Owned>)
    ensures forall o :: o in r <==> o.owner == id && o.edge in edges && o.edge.Ephemeron?
  {
    if edges == [] then []
    else
      assert edges == edges[..|edges| - 1] + [edges[|edges| - 1]];
      EphemeronsOf(id, edges[..|edges| - 1]) +
      (if edges[|edges| - 1].Ephemeron? then [Owned(id, edges[|edges| - 1])] else [])
  }

  lemma {:induction false} KindsFit(id: Id, edges: seq<Edge>)
    ensures |WeakOf(id, edges)| + |EphemeronsOf(id, edges)| <= |edges|
    decreases |edges|
  {
    if edges != [] { KindsFit(id, edges[..|edges| - 1]); }
  }

  function Mark(h: Heap, t: Trace, id: Id): Trace {
    var edges := Edges(h, id);
    Trace(t.marked + {id}, t.ephemerons + EphemeronsOf(id, edges), t.weak + WeakOf(id, edges),
          t.edges + |edges|, t.work + 1 + |edges|)
  }

  /** The lists hold exactly the weak and ephemeron edges of marked objects. */
  ghost predicate Listed(h: Heap, t: Trace) {
    && (forall o :: o in t.weak <==> o.owner in t.marked && o.edge in Edges(h, o.owner) && o.edge.Weak?)
    && (forall o :: o in t.ephemerons <==> o.owner in t.marked && o.edge in Edges(h, o.owner) && o.edge.Ephemeron?)
    && t.edges == Degree(h, t.marked) && |t.weak| + |t.ephemerons| <= t.edges
  }

  /** What strong edges of marked objects name is marked or pending. */
  ghost predicate Frontier(h: Heap, marked: set<Id>, pending: seq<Id>) {
    forall id, e :: id in marked && e in Edges(h, id) && e.Strong? ==> e.target in marked || e.target in pending
  }

  ghost predicate Sound(h: Heap, start: set<Id>, t: Trace, pending: seq<Id>) {
    && t.marked <= h.Keys && t.marked <= Live(h, start) && (forall x :: x in pending ==> x in Live(h, start))
    && Frontier(h, t.marked, pending) && Listed(h, t)
  }

  /** From `t0` with `pending0` still to visit, to `t` with `pending`. */
  ghost predicate Marking(h: Heap, start: set<Id>, t0: Trace, pending0: seq<Id>, t: Trace, pending: seq<Id>) {
    && Sound(h, start, t, pending)
    && t0.marked <= t.marked && (forall x :: x in pending0 ==> x in t.marked || x in pending)
    && t0.edges <= t.edges && |t0.marked| <= |t.marked|
    && t.work == t0.work + (|t.marked| - |t0.marked|) + (t.edges - t0.edges)
    && |pending| <= |pending0| + (t.edges - t0.edges)
  }

  lemma MarkedMore(h: Heap, start: set<Id>, t0: Trace, pending0: seq<Id>, t: Trace, rest: seq<Id>, id: Id)
    requires Marking(h, start, t0, pending0, t, rest + [id]) && id !in t.marked && id in h
    ensures Marking(h, start, t0, pending0, Mark(h, t, id), rest + StrongTargets(h[id], t.marked + {id}))
  {
    hide Live, Degree, Listed, Frontier;
    var t', pending := Mark(h, t, id), rest + StrongTargets(h[id], t.marked + {id});
    assert id in rest + [id];
    MarkedLists(h, t, id);
    LiveClosed(h, start);
    MarkedFrontier(h, t, rest, id);
    forall x | x in pending ensures x in Live(h, start) {
      if x !in rest {
        var e :| e in h[id] && e.Strong? && e.target == x;
        assert Retained(e, Live(h, start));
      } else {
        assert x in rest + [id];
      }
    }
    forall x | x in pending0 ensures x in t'.marked || x in pending {
      assert x in t.marked || x in rest + [id];
    }
    assert |t'.marked| == |t.marked| + 1;
  }

  lemma MarkedLists(h: Heap, t: Trace, id: Id)
    requires Listed(h, t) && id !in t.marked && id in h
    ensures Listed(h, Mark(h, t, id))
  {
    hide Degree;
    DegreeAdd(h, t.marked, id);
    KindsFit(id, h[id]);
  }

  lemma MarkedFrontier(h: Heap, t: Trace, rest: seq<Id>, id: Id)
    requires Frontier(h, t.marked, rest + [id]) && id in h
    ensures Frontier(h, t.marked + {id}, rest + StrongTargets(h[id], t.marked + {id}))
  {
    var marked, pending := t.marked + {id}, rest + StrongTargets(h[id], t.marked + {id});
    forall x, e | x in marked && e in Edges(h, x) && e.Strong? ensures e.target in marked || e.target in pending {
      if x == id {
        assert e.target in marked || e.target in StrongTargets(h[id], marked);
      } else {
        assert e.target in t.marked || e.target in rest + [id];
      }
    }
  }

  lemma MarkedAlready(h: Heap, start: set<Id>, t0: Trace, pending0: seq<Id>, t: Trace, rest: seq<Id>, id: Id)
    requires Marking(h, start, t0, pending0, t, rest + [id]) && id in t.marked
    ensures Marking(h, start, t0, pending0, t, rest)
  {
    hide Live, Degree, Listed;
    forall x, e | x in t.marked && e in Edges(h, x) && e.Strong? ensures e.target in t.marked || e.target in rest {
      assert e.target in t.marked || e.target in rest + [id];
    }
    assert forall x :: x in rest ==> x in rest + [id];
  }

  /** What marking can need at most, given what it starts from. */
  lemma MarkingBounds(h: Heap, start: set<Id>, t0: Trace, pending0: seq<Id>, t: Trace, pending: seq<Id>)
    requires Marking(h, start, t0, pending0, t, pending)
    ensures t.edges <= Degree(h, Live(h, start)) && |t.marked| <= |h|
    ensures |pending| + t0.edges <= |pending0| + Degree(h, Live(h, start))
    ensures t.work + |t0.marked| + t0.edges <= t0.work + |h| + Degree(h, Live(h, start))
  {
    hide Live, Degree;
    DegreeGrows(h, t.marked, Live(h, start));
    DegreeGrows(h, t.marked, h.Keys);
    assert |h| == |h.Keys|;
  }

  /** A refusal while marking: no more edges than the live objects have, and no more stack
      and work than given. */
  ghost predicate Overrun(h: Heap, start: set<Id>, limits: Limits, refusal: Refusal, stack: int, work: int) {
    match refusal
    case Stale(id) => id in Live(h, start) && id !in h
    case Limit(kind, limit, required) =>
      && required > limit
      && match kind
         case EdgeLimit => limit == limits.edges && required <= Degree(h, Live(h, start))
         case StackLimit => limit == limits.stack && required <= stack
         case WorkLimit => limit == limits.work && required <= work
         case _ => false
  }

  // ---------- the mark stack ----------

  /** One object is marked: all above it on the stack was marked before; it goes, and its
      strong targets that are not marked come on top in edge order. */
  ghost predicate Pops(h: Heap, marked: set<Id>, before: seq<Id>, id: Id, after: seq<Id>) {
    exists n :: 0 <= n < |before| && before[n] == id && id !in marked && (forall k :: n < k < |before| ==> before[k] in marked) &&
      after == before[..n] + StrongTargets(Edges(h, id), marked + {id})
  }

  /** A course of marking: the objects newly marked, and the stack left after each. */
  datatype Phase = Phase(pending: seq<Id>, ids: seq<Id>, stacks: seq<seq<Id>>)

  function Stack(ph: Phase, i: nat): seq<Id>
    requires i <= |ph.stacks|
  {
    if i == 0 then ph.pending else ph.stacks[i - 1]
  }

  ghost predicate Phased(h: Heap, marked: set<Id>, ph: Phase) {
    |ph.stacks| == |ph.ids| &&
    forall i :: 0 <= i < |ph.ids| ==> Pops(h, marked + Members(ph.ids[..i]), Stack(ph, i), ph.ids[i], ph.stacks[i])
  }

  /** Nothing is left on the stack but what is marked. */
  ghost predicate Emptied(marked: set<Id>, ph: Phase) {
    forall x :: x in Stack(ph, |ph.stacks|) ==> x in marked + Members(ph.ids)
  }

  /** The first `n` of its stacks were no larger than this. */
  ghost predicate KeptTo(ph: Phase, n: nat, limit: nat) {
    forall i :: 0 <= i < n && i < |ph.stacks| ==> |ph.stacks[i]| <= limit
  }

  lemma PhasedMore(h: Heap, marked: set<Id>, ph: Phase, id: Id, after: seq<Id>)
    requires Phased(h, marked, ph) && Pops(h, marked + Members(ph.ids), Stack(ph, |ph.stacks|), id, after)
    ensures Phased(h, marked, Phase(ph.pending, ph.ids + [id], ph.stacks + [after]))
  {
    hide Pops;
    var more := Phase(ph.pending, ph.ids + [id], ph.stacks + [after]);
    forall i | 0 <= i < |more.ids|
      ensures Pops(h, marked + Members(more.ids[..i]), Stack(more, i), more.ids[i], more.stacks[i])
    {
      if i < |ph.ids| {
        assert more.ids[..i] == ph.ids[..i] && Stack(more, i) == Stack(ph, i);
      } else {
        assert more.ids[..i] == ph.ids && Stack(more, i) == Stack(ph, |ph.stacks|);
      }
    }
  }

  /** The heap and the start decide the whole course. */
  lemma {:induction false} PhaseUnique(h: Heap, marked: set<Id>, a: Phase, b: Phase, i: nat)
    requires Phased(h, marked, a) && Phased(h, marked, b) && a.pending == b.pending && Emptied(marked, b) && i <= |a.ids|
    ensures i <= |b.ids| && a.ids[..i] == b.ids[..i] && a.stacks[..i] == b.stacks[..i]
    decreases i
  {
    hide Phased, Emptied, Pops;
    PhasedLength(h, marked, a);
    PhasedLength(h, marked, b);
    if i > 0 {
      var n := i - 1;
      PhaseUnique(h, marked, a, b, n);
      PhasedAt(h, marked, a, n);
      assert Stack(a, n) == Stack(b, n) by { if n > 0 { assert a.stacks[..n][n - 1] == b.stacks[..n][n - 1]; } }
      GoesOn(h, marked, a, b, n);
      PhasedAt(h, marked, b, n);
      PopsOne(h, marked + Members(a.ids[..n]), Stack(a, n), a.ids[n], a.stacks[n], b.ids[n], b.stacks[n]);
      assert a.ids[..i] == a.ids[..n] + [a.ids[n]] && b.ids[..i] == b.ids[..n] + [b.ids[n]];
      assert a.stacks[..i] == a.stacks[..n] + [a.stacks[n]] && b.stacks[..i] == b.stacks[..n] + [b.stacks[n]];
    }
  }

  lemma PhasedLength(h: Heap, marked: set<Id>, ph: Phase)
    requires Phased(h, marked, ph)
    ensures |ph.stacks| == |ph.ids|
  {
  }

  lemma PhasedAt(h: Heap, marked: set<Id>, ph: Phase, i: nat)
    requires Phased(h, marked, ph) && i < |ph.ids|
    ensures |ph.stacks| == |ph.ids| && Pops(h, marked + Members(ph.ids[..i]), Stack(ph, i), ph.ids[i], ph.stacks[i])
  {
  }

  /** A course does not end before its stack is emptied. */
  lemma GoesOn(h: Heap, marked: set<Id>, a: Phase, b: Phase, n: nat)
    requires n < |a.ids| && |a.stacks| == |a.ids| && |b.stacks| == |b.ids| >= n && a.ids[..n] == b.ids[..n] && Stack(a, n) == Stack(b, n)
    requires Emptied(marked, b) && Pops(h, marked + Members(a.ids[..n]), Stack(a, n), a.ids[n], a.stacks[n])
    ensures n < |b.ids|
  {
    assert |b.ids| == n ==> b.ids[..n] == b.ids;
    PopsFound(h, marked + Members(a.ids[..n]), Stack(a, n), a.ids[n], a.stacks[n]);
    hide Pops;
  }

  lemma PopsFound(h: Heap, marked: set<Id>, before: seq<Id>, id: Id, after: seq<Id>)
    requires Pops(h, marked, before, id, after)
    ensures id in before && id !in marked
  {
  }

  lemma PopsOne(h: Heap, marked: set<Id>, before: seq<Id>, x: Id, after: seq<Id>, y: Id, after': seq<Id>)
    requires Pops(h, marked, before, x, after) && Pops(h, marked, before, y, after')
    ensures x == y && after == after'
  {
  }

  /** Strong targets come in edge order, one for each edge to an unmarked object. */
  lemma {:induction false} TargetsSplit(a: seq<Edge>, b: seq<Edge>, marked: set<Id>)
    ensures StrongTargets(a + b, marked) == StrongTargets(a, marked) + StrongTargets(b, marked)
    decreases |b|
  {
    hide StrongTargets;
    if b == [] {
      assert a + b == a;
      NoTargets(marked);
    } else {
      var n := |b| - 1;
      assert b == b[..n] + [b[n]] && a + b == (a + b[..n]) + [b[n]];
      TargetsSplit(a, b[..n], marked);
      TargetsLast(a + b[..n], b[n], marked);
      TargetsLast(b[..n], b[n], marked);
    }
  }

  lemma NoTargets(marked: set<Id>)
    ensures StrongTargets([], marked) == []
  {
  }

  lemma TargetsLast(front: seq<Edge>, e: Edge, marked: set<Id>)
    ensures StrongTargets(front + [e], marked) == StrongTargets(front, marked) + if e.Strong? && e.target !in marked then [e.target] else []
  {
    assert (front + [e])[..|front|] == front;
  }

  lemma TargetsOne(e: Edge, marked: set<Id>)
    ensures StrongTargets([e], marked) == if e.Strong? && e.target !in marked then [e.target] else []
  {
    TargetsLast([], e, marked);
    assert [] + [e] == [e];
  }

  /** The ephemerons and the weak edges of these objects, object by object. */
  function Ephemerals(h: Heap, ids: seq<Id>): seq<Owned> {
    if ids == [] then [] else Ephemerals(h, ids[..|ids| - 1]) + EphemeronsOf(ids[|ids| - 1], Edges(h, ids[|ids| - 1]))
  }

  function Weaklings(h: Heap, ids: seq<Id>): seq<Owned> {
    if ids == [] then [] else Weaklings(h, ids[..|ids| - 1]) + WeakOf(ids[|ids| - 1], Edges(h, ids[|ids| - 1]))
  }

  /** The course of marking from `t0` to `t`, with `pending` on the stack now. */
  ghost predicate Coursed(h: Heap, t0: Trace, pending0: seq<Id>, t: Trace, pending: seq<Id>, ph: Phase, limit: nat) {
    && Phased(h, t0.marked, ph) && ph.pending == pending0 && KeptTo(ph, |ph.stacks|, limit)
    && t.marked == t0.marked + Members(ph.ids) && pending <= Stack(ph, |ph.stacks|)
    && (forall k :: |pending| <= k < |Stack(ph, |ph.stacks|)| ==> Stack(ph, |ph.stacks|)[k] in t.marked)
    && t.ephemerons == t0.ephemerons + Ephemerals(h, ph.ids) && t.weak == t0.weak + Weaklings(h, ph.ids)
  }

  lemma CoursedStart(h: Heap, t0: Trace, pending0: seq<Id>, limit: nat)
    ensures Coursed(h, t0, pending0, t0, pending0, Phase(pending0, [], []), limit)
  {
  }

  lemma CoursedSkip(h: Heap, t0: Trace, pending0: seq<Id>, t: Trace, rest: seq<Id>, id: Id, ph: Phase, limit: nat)
    requires Coursed(h, t0, pending0, t, rest + [id], ph, limit) && id in t.marked
    ensures Coursed(h, t0, pending0, t, rest, ph, limit)
  {
    hide Phased, Ephemerals, Weaklings;
  }

  lemma CoursedMore(h: Heap, t0: Trace, pending0: seq<Id>, t: Trace, rest: seq<Id>, id: Id, ph: Phase, limit: nat)
    requires Coursed(h, t0, pending0, t, rest + [id], ph, limit) && id !in t.marked
    ensures var after := rest + StrongTargets(Edges(h, id), t.marked + {id});
      var more := Phase(ph.pending, ph.ids + [id], ph.stacks + [after]);
      && Phased(h, t0.marked, more) && KeptTo(more, |ph.stacks|, limit)
      && (|after| <= limit ==> Coursed(h, t0, pending0, Mark(h, t, id), after, more, limit))
  {
    hide StrongTargets, Edges, WeakOf, EphemeronsOf, Phased, Pops, Ephemerals, Weaklings;
    var after := rest + StrongTargets(Edges(h, id), t.marked + {id});
    var before := Stack(ph, |ph.stacks|);
    PopsTop(h, t.marked, before, rest, id);
    PhasedMore(h, t0.marked, ph, id, after);
    RecordedMore(h, ph.ids, id);
  }

  lemma PopsTop(h: Heap, marked: set<Id>, before: seq<Id>, rest: seq<Id>, id: Id)
    requires rest + [id] <= before && id !in marked && forall k :: |rest| + 1 <= k < |before| ==> before[k] in marked
    ensures Pops(h, marked, before, id, rest + StrongTargets(Edges(h, id), marked + {id}))
  {
    hide StrongTargets, Edges;
    assert before[|rest|] == (rest + [id])[|rest|] && before[..|rest|] == rest;
  }

  lemma RecordedMore(h: Heap, ids: seq<Id>, id: Id)
    ensures Members(ids + [id]) == Members(ids) + {id}
    ensures Ephemerals(h, ids + [id]) == Ephemerals(h, ids) + EphemeronsOf(id, Edges(h, id))
    ensures Weaklings(h, ids + [id]) == Weaklings(h, ids) + WeakOf(id, Edges(h, id))
  {
    assert (ids + [id])[..|ids|] == ids;
  }

  lemma CoursedEnd(h: Heap, t0: Trace, pending0: seq<Id>, t: Trace, ph: Phase, limit: nat)
    requires Coursed(h, t0, pending0, t, [], ph, limit)
    ensures Emptied(t0.marked, ph)
  {
    hide Phased, Ephemerals, Weaklings;
  }

  /** A stack that was refused was the one left after marking one more object. */
  ghost predicate StackRefused(h: Heap, marked: set<Id>, pending: seq<Id>, limit: nat, refusal: Refusal, ph: Phase) {
    refusal.Limit? && refusal.kind == StackLimit ==>
      && Phased(h, marked, ph) && ph.pending == pending && ph.stacks != [] && KeptTo(ph, |ph.stacks| - 1, limit)
      && refusal.required == |ph.stacks[|ph.stacks| - 1]|
  }

  /** Empties the mark stack; the stack is charged after each object's edges are pushed. */
  method MarkLoop(h: Heap, ghost start: set<Id>, limits: Limits, t0: Trace, pending0: seq<Id>)
      returns (refused: Option<Refusal>, t: Trace, ghost ph: Phase)
    requires Marking(h, start, t0, pending0, t0, pending0)
    requires t0.work <= limits.work && t0.edges <= limits.edges
    ensures refused.None? ==> Marking(h, start, t0, pending0, t, []) && t.work <= limits.work && t.edges <= limits.edges
    ensures refused.None? ==> Coursed(h, t0, pending0, t, [], ph, limits.stack)
    ensures refused.Some? ==> Overrun(h, start, limits, refused.value, |pending0| + Degree(h, Live(h, start)) - t0.edges,
                                      t0.work + |h| + Degree(h, Live(h, start)) - |t0.marked| - t0.edges)
    ensures refused.Some? ==> StackRefused(h, t0.marked, pending0, limits.stack, refused.value, ph)
  {
    hide Marking, Live, Degree, StrongTargets, Edges, Coursed, Phased, KeptTo, Mark;
    t := t0;
    var pending := pending0;
    ph := Phase(pending0, [], []);
    CoursedStart(h, t0, pending0, limits.stack);
    while pending != []
      invariant Marking(h, start, t0, pending0, t, pending) && t.work <= limits.work && t.edges <= limits.edges
      invariant Coursed(h, t0, pending0, t, pending, ph, limits.stack) && ph.pending == pending0
      decreases h.Keys - t.marked, |pending|
    {
      var id, rest := pending[|pending| - 1], pending[..|pending| - 1];
      assert pending == rest + [id];
      if id in t.marked {
        MarkedAlready(h, start, t0, pending0, t, rest, id);
        CoursedSkip(h, t0, pending0, t, rest, id, ph, limits.stack);
        pending := rest;
      } else {
        PendingLive(h, start, t0, pending0, t, pending, id);
        if id !in h { return Some(Stale(id)), t, ph; }
        MarkedMore(h, start, t0, pending0, t, rest, id);
        CoursedMore(h, t0, pending0, t, rest, id, ph, limits.stack);
        EdgesOf(h, id);
        ghost var before, stacks := t.marked, ph.stacks;
        MarkMarks(h, t, id);
        t := Mark(h, t, id);
        pending := rest + StrongTargets(h[id], t.marked);
        ph := Phase(ph.pending, ph.ids + [id], ph.stacks + [pending]);
        MarkingBounds(h, start, t0, pending0, t, pending);
        if t.edges > limits.edges { return Some(Limit(EdgeLimit, limits.edges, t.edges)), t, ph; }
        if t.work > limits.work { return Some(Limit(WorkLimit, limits.work, t.work)), t, ph; }
        if |pending| > limits.stack { return Some(Limit(StackLimit, limits.stack, |pending|)), t, ph; }
        assert id in h.Keys - before && id !in h.Keys - t.marked;
      }
    }
    refused := None;
  }

  lemma MarkMarks(h: Heap, t: Trace, id: Id)
    ensures Mark(h, t, id).marked == t.marked + {id}
  {
  }

  lemma EdgesOf(h: Heap, id: Id)
    requires id in h
    ensures Edges(h, id) == h[id]
  {
  }

  lemma PendingLive(h: Heap, start: set<Id>, t0: Trace, pending0: seq<Id>, t: Trace, pending: seq<Id>, id: Id)
    requires Marking(h, start, t0, pending0, t, pending) && id in pending
    ensures id in Live(h, start)
  {
  }

  // ---------- the ephemeron fixpoint ----------

  /** The ephemerons that fire: their key is marked and their value is not. */
  ghost predicate Fires(t: Trace, o: Owned) {
    o.edge.Ephemeron? && o.edge.key in t.marked && o.edge.value !in t.marked
  }

  /** The values of those that fire, in the order they were recorded. */
  function Firing(owned: seq<Owned>, marked: set<Id>): seq<Id> {
    if owned == [] then []
    else
      var o := owned[|owned| - 1];
      Firing(owned[..|owned| - 1], marked) +
      (if o.edge.Ephemeron? && o.edge.key in marked && o.edge.value !in marked then [o.edge.value] else [])
  }

  lemma {:induction false} FiringSplit(a: seq<Owned>, b: seq<Owned>, marked: set<Id>)
    ensures Firing(a + b, marked) == Firing(a, marked) + Firing(b, marked)
    decreases |b|
  {
    if b == [] {
      assert a + b == a;
    } else {
      var n := |b| - 1;
      assert (a + b)[..|a + b| - 1] == a + b[..n] && (a + b)[|a + b| - 1] == b[n];
      FiringSplit(a, b[..n], marked);
    }
  }

  /** One round over the recorded ephemerons, one unit of work each. */
  method Scan(t: Trace, limit: nat) returns (refused: Option<Refusal>, work: nat, pending: seq<Id>)
    requires t.work <= limit
    ensures refused.Some? ==> exists required: nat ::
              refused.value == Limit(WorkLimit, limit, required) && limit < required <= t.work + |t.ephemerons|
    ensures refused.None? ==> work == t.work + |t.ephemerons| <= limit && |pending| <= |t.ephemerons|
    ensures refused.None? ==> forall x :: x in pending <==> exists o :: o in t.ephemerons && Fires(t, o) && o.edge.value == x
    ensures refused.None? ==> pending == Firing(t.ephemerons, t.marked)
  {
    work, pending := t.work, [];
    for i := 0 to |t.ephemerons|
      invariant work == t.work + i <= limit && |pending| <= i && pending == Firing(t.ephemerons[..i], t.marked)
      invariant forall x :: x in pending <==> exists o :: o in t.ephemerons[..i] && Fires(t, o) && o.edge.value == x
    {
      var o := t.ephemerons[i];
      assert t.ephemerons[..i + 1] == t.ephemerons[..i] + [o];
      work := work + 1;
      if work > limit { return Some(Limit(WorkLimit, limit, work)), work, []; }
      ghost var before := pending;
      if o.edge.Ephemeron? && o.edge.key in t.marked && o.edge.value !in t.marked {
        pending := pending + [o.edge.value];
      }
      ScanMore(t, i, before, pending);
    }
    assert t.ephemerons[..|t.ephemerons|] == t.ephemerons;
    refused := None;
  }

  lemma ScanMore(t: Trace, i: nat, before: seq<Id>, pending: seq<Id>)
    requires i < |t.ephemerons|
    requires forall x :: x in before <==> exists o :: o in t.ephemerons[..i] && Fires(t, o) && o.edge.value == x
    requires pending == if Fires(t, t.ephemerons[i]) then before + [t.ephemerons[i].edge.value] else before
    ensures forall x :: x in pending <==> exists o :: o in t.ephemerons[..i + 1] && Fires(t, o) && o.edge.value == x
  {
    var o := t.ephemerons[i];
    assert t.ephemerons[..i + 1] == t.ephemerons[..i] + [o];
    forall x ensures x in pending <==> exists o :: o in t.ephemerons[..i + 1] && Fires(t, o) && o.edge.value == x {
      if x in before {
        var q :| q in t.ephemerons[..i] && Fires(t, q) && q.edge.value == x;
        assert q in t.ephemerons[..i + 1];
      }
    }
  }

  /** Work that always suffices for `p` initial entries, `n` objects and `e` edges. */
  function Needed(p: nat, n: nat, e: nat): nat {
    p + n + (n + 2) * e
  }

  /** After `rounds` rounds that changed something, each of which marked a new object. */
  ghost predicate Rounds(h: Heap, start: set<Id>, p: nat, t: Trace, rounds: nat) {
    && Sound(h, start, t, []) && start <= t.marked
    && rounds <= |t.marked|
    && p + |t.marked| + t.edges <= t.work <= p + |t.marked| + t.edges + rounds * Degree(h, Live(h, start))
  }

  lemma FirstRound(h: Heap, start: set<Id>, pending0: seq<Id>, t: Trace)
    requires start == Members(pending0)
    requires Marking(h, start, Trace({}, [], [], 0, |pending0|), pending0, t, [])
    ensures Rounds(h, start, |pending0|, t, 0)
  {
    hide Live, Degree;
  }

  /** Nothing fires: the marked set is exactly the live one. */
  lemma Settled(h: Heap, start: set<Id>, p: nat, t: Trace, rounds: nat)
    requires Rounds(h, start, p, t, rounds) && forall o :: o in t.ephemerons ==> !Fires(t, o)
    ensures t.marked == Live(h, start)
  {
    hide Live, Degree;
    forall id, e | id in t.marked && e in Edges(h, id) ensures Retained(e, t.marked) {
      if e.Ephemeron? { assert Owned(id, e) in t.ephemerons && !Fires(t, Owned(id, e)); }
    }
    LiveLeast(h, start, t.marked);
  }

  /** What fires is live, so marking may go on from it. */
  lemma RoundStarts(h: Heap, start: set<Id>, p: nat, t: Trace, rounds: nat, t': Trace, pending: seq<Id>)
    requires Rounds(h, start, p, t, rounds) && t' == t.(work := t.work + |t.ephemerons|)
    requires forall x :: x in pending ==> exists o :: o in t.ephemerons && Fires(t, o) && o.edge.value == x
    ensures Marking(h, start, t', pending, t', pending)
  {
    hide Live, Degree;
    LiveClosed(h, start);
    forall x | x in pending ensures x in Live(h, start) {
      var o :| o in t.ephemerons && Fires(t, o) && o.edge.value == x;
      assert o.edge in Edges(h, o.owner) && Retained(o.edge, Live(h, start));
    }
  }

  lemma RoundEnds(h: Heap, start: set<Id>, p: nat, t: Trace, rounds: nat, t': Trace, pending: seq<Id>, t'': Trace)
    requires Rounds(h, start, p, t, rounds) && t' == t.(work := t.work + |t.ephemerons|)
    requires pending != [] && forall x :: x in pending ==> x !in t.marked
    requires Marking(h, start, t', pending, t'', [])
    ensures Rounds(h, start, p, t'', rounds + 1) && t.marked < t''.marked
  {
    hide Live, Degree, Sound;
    assert pending[0] in t''.marked;
    assert |t.marked| < |t''.marked| by { StrictlyMore(t.marked, t''.marked); }
    EphemeronBound(h, start, t);
    RoundCost(rounds, Degree(h, Live(h, start)));
  }

  lemma EphemeronBound(h: Heap, start: set<Id>, t: Trace)
    requires Sound(h, start, t, [])
    ensures |t.ephemerons| <= t.edges <= Degree(h, Live(h, start)) && |t.marked| <= |h|
  {
    hide Live;
    DegreeGrows(h, t.marked, Live(h, start));
    DegreeGrows(h, t.marked, h.Keys);
    assert |h| == |h.Keys|;
  }

  lemma StrictlyMore(a: set<Id>, b: set<Id>)
    requires a < b
    ensures |a| < |b|
  {
    assert b - a != {} by { assert !(b <= a); }
    var x :| x in b - a;
    SubsetSize(a, b - {x});
  }

  lemma RoundCost(rounds: nat, e: nat)
    ensures (rounds + 1) * e == rounds * e + e
  {
  }

  /** Nothing that happens in or after a round needs more work than `Needed`. */
  lemma RoundWithin(h: Heap, start: set<Id>, p: nat, t: Trace, rounds: nat)
    requires Rounds(h, start, p, t, rounds)
    ensures var most := Degree(h, Live(h, start));
      && t.work + |t.ephemerons| + (|h| - |t.marked|) + (most - t.edges) <= Needed(p, |h|, most)
      && |t.marked| <= |h| && |t.ephemerons| <= t.edges <= most
  {
    hide Live, Degree, Sound;
    EphemeronBound(h, start, t);
    var most := Degree(h, Live(h, start));
    RoundCost(rounds, most);
    Scaled(most, rounds + 1, |h| + 1);
    Spread(|h|, most);
  }

  lemma Spread(n: nat, e: nat)
    ensures (n + 2) * e == (n + 1) * e + e
  {
  }

  // ---------- the whole course of marking ----------

  ghost function MarkedBy(log: seq<Phase>): set<Id> {
    if log == [] then {} else MarkedBy(log[..|log| - 1]) + Members(log[|log| - 1].ids)
  }

  ghost function OwnedBy(h: Heap, log: seq<Phase>): seq<Owned> {
    if log == [] then [] else OwnedBy(h, log[..|log| - 1]) + Ephemerals(h, log[|log| - 1].ids)
  }

  /** Where the next phase begins: at the entries, and then at what fires. */
  ghost function Begins(h: Heap, entries: seq<Id>, log: seq<Phase>): seq<Id> {
    if log == [] then entries else Firing(OwnedBy(h, log), MarkedBy(log))
  }

  /** One unit for each ephemeron recorded so far, in every scan before a later phase. */
  ghost function Scanned(h: Heap, log: seq<Phase>): nat {
    if |log| <= 1 then 0 else Scanned(h, log[..|log| - 1]) + |OwnedBy(h, log[..|log| - 1])|
  }

  ghost predicate LogOk(h: Heap, entries: seq<Id>, log: seq<Phase>) {
    forall k :: 0 <= k < |log| ==>
      Phased(h, MarkedBy(log[..k]), log[k]) && Emptied(MarkedBy(log[..k]), log[k]) && log[k].pending == Begins(h, entries, log[..k])
  }

  /** No stack left after marking an object was larger than this. */
  ghost predicate StacksWithin(log: seq<Phase>, limit: nat) {
    forall k :: 0 <= k < |log| ==> KeptTo(log[k], |log[k].stacks|, limit)
  }

  /** What has been marked and recorded so far is what the phases of the log say. */
  ghost predicate Followed(h: Heap, entries: seq<Id>, t: Trace, log: seq<Phase>, limit: nat) {
    && LogOk(h, entries, log) && StacksWithin(log, limit) && t.marked == MarkedBy(log) && t.ephemerons == OwnedBy(h, log)
    && t.work == |entries| + |t.marked| + t.edges + Scanned(h, log)
  }

  lemma FollowedMore(h: Heap, entries: seq<Id>, t: Trace, log: seq<Phase>, limit: nat, t': Trace, pending: seq<Id>, t'': Trace, ph: Phase)
    requires Followed(h, entries, t, log, limit) && t' == t.(work := t.work + if log == [] then 0 else |t.ephemerons|)
    requires t''.work == t'.work + (|t''.marked| - |t'.marked|) + (t''.edges - t'.edges)
    requires pending == Begins(h, entries, log) && Coursed(h, t', pending, t'', [], ph, limit)
    ensures Followed(h, entries, t'', log + [ph], limit)
  {
    hide Phased, Emptied, KeptTo, Begins, Ephemerals, MarkedBy, OwnedBy, Weaklings, Scanned;
    CoursedEnd(h, t', pending, t'', ph, limit);
    var more := log + [ph];
    LogMore(h, log, ph);
    forall k | 0 <= k < |more|
      ensures Phased(h, MarkedBy(more[..k]), more[k]) && Emptied(MarkedBy(more[..k]), more[k]) && more[k].pending == Begins(h, entries, more[..k])
      ensures KeptTo(more[k], |more[k].stacks|, limit)
    {
      assert more[..k] == log[..k];
      assert k == |log| ==> log[..k] == log;
    }
  }

  lemma LogMore(h: Heap, log: seq<Phase>, ph: Phase)
    ensures MarkedBy(log + [ph]) == MarkedBy(log) + Members(ph.ids) && OwnedBy(h, log + [ph]) == OwnedBy(h, log) + Ephemerals(h, ph.ids)
    ensures Scanned(h, log + [ph]) == if log == [] then 0 else Scanned(h, log) + |OwnedBy(h, log)|
    ensures log == [] ==> Scanned(h, log) == 0
  {
    assert (log + [ph])[..|log|] == log;
  }

  /** A refused stack is one this heap really comes to. */
  ghost predicate StackJustified(h: Heap, entries: seq<Id>, limit: nat, refusal: Refusal) {
    refusal.Limit? && refusal.kind == StackLimit ==>
      || refusal.required == |entries|
      || exists log, ph :: LogOk(h, entries, log) && StacksWithin(log, limit) &&
           StackRefused(h, MarkedBy(log), Begins(h, entries, log), limit, refusal, ph)
  }

  /** Marking ran its whole course, with every stack within the limit and exactly this much
      work: a unit for each entry, each marked object, each of its edges, and each ephemeron
      in every scan. */
  ghost predicate RanWithin(h: Heap, entries: seq<Id>, limit: nat, marked: set<Id>, work: nat) {
    |entries| <= limit && exists log :: RanBy(h, entries, limit, marked, work, log)
  }

  ghost predicate RanBy(h: Heap, entries: seq<Id>, limit: nat, marked: set<Id>, work: nat, log: seq<Phase>) {
    && LogOk(h, entries, log) && log != [] && StacksWithin(log, limit) && Begins(h, entries, log) == [] && marked == MarkedBy(log)
    && work == |entries| + |marked| + Degree(h, marked) + Scanned(h, log) + |OwnedBy(h, log)|
  }

  // ---------- refusals ----------

  /** A refusal names a limit that was too small for a need the heap really has, or an
      object that is live but not there. */
  ghost predicate Justified(h: Heap, start: set<Id>, p: nat, limits: Limits, refusal: Refusal) {
    match refusal
    case Stale(id) => id in Live(h, start) && id !in h
    case Limit(kind, limit, required) =>
      && required > limit
      && var most := Degree(h, Live(h, start));
      match kind
      case ObjectLimit => limit == limits.objects && required == |h|
      case EdgeLimit => limit == limits.edges && required <= most
      case StackLimit => limit == limits.stack && required <= p + most
      case WorkLimit => limit == limits.work && required <= Needed(p, |h|, most)
      case ClearLimit => limit == limits.clears && required <= most
      case FinalizerLimit => false
  }

  /** Limits that cover the heap's own size. */
  ghost predicate Ample(h: Heap, start: set<Id>, p: nat, limits: Limits) {
    var most := Degree(h, Live(h, start));
    && limits.objects >= |h| && limits.edges >= most && limits.stack >= p + most
    && limits.work >= Needed(p, |h|, most) && limits.clears >= most
  }

  /** Ample limits and a heap without dangling live references are never refused. */
  lemma NeverRefused(h: Heap, start: set<Id>, p: nat, limits: Limits, refusal: Refusal)
    requires Ample(h, start, p, limits) && Live(h, start) <= h.Keys
    ensures !Justified(h, start, p, limits, refusal)
  {
    hide Live, Degree, Needed;
  }

  lemma FirstJustified(h: Heap, start: set<Id>, p: nat, limits: Limits, refusal: Refusal)
    requires var most := Degree(h, Live(h, start)); Overrun(h, start, limits, refusal, p + most, p + |h| + most)
    ensures Justified(h, start, p, limits, refusal)
  {
    hide Live, Degree;
    Scaled(Degree(h, Live(h, start)), 1, |h| + 2);
  }

  /** Rounds of the fixpoint until no ephemeron fires; each round that changes something
      marks a new object, so there are at most as many as objects. */
  method Fixpoint(h: Heap, ghost start: set<Id>, ghost p: nat, limits: Limits, t0: Trace, ghost entries: seq<Id>, ghost first: Phase)
      returns (refused: Option<Refusal>, t: Trace)
    requires Rounds(h, start, p, t0, 0) && t0.work <= limits.work && t0.edges <= limits.edges
    requires Followed(h, entries, t0, [first], limits.stack) && |entries| <= limits.stack
    ensures refused.None? ==> Sound(h, start, t, []) && t.marked == Live(h, start)
    ensures refused.None? ==> p + |t.marked| + t.edges <= t.work && t.work + (|h| - |t.marked|) <= Needed(p, |h|, t.edges)
    ensures refused.None? ==> t.work <= limits.work && t.edges <= limits.edges
    ensures refused.None? ==> RanWithin(h, entries, limits.stack, t.marked, t.work)
    ensures refused.Some? ==> Justified(h, start, p, limits, refused.value) && StackJustified(h, entries, limits.stack, refused.value)
  {
    hide Rounds, Marking, Sound, Live, Degree, Needed, Fires, Firing, Coursed, LogOk, StacksWithin, StackRefused, OwnedBy, MarkedBy, Scanned;
    t := t0;
    ghost var rounds, log := 0, [first];
    while true
      invariant Rounds(h, start, p, t, rounds) && t.work <= limits.work && t.edges <= limits.edges
      invariant Followed(h, entries, t, log, limits.stack) && log != []
      decreases h.Keys - t.marked
    {
      var work, pending;
      refused, work, pending := Scan(t, limits.work);
      RoundWithin(h, start, p, t, rounds);
      if refused.Some? {
        ScanRefused(h, start, p, limits, t, refused.value);
        return;
      }
      var t' := t.(work := work);
      if pending == [] {
        NothingFires(t, pending);
        FixpointReached(h, start, p, t, rounds);
        SoundEdges(h, start, t');
        assert RanBy(h, entries, limits.stack, t'.marked, t'.work, log);
        t := t';
        return;
      }
      RoundStarts(h, start, p, t, rounds, t', pending);
      var t'';
      ghost var ph;
      refused, t'', ph := MarkLoop(h, start, limits, t', pending);
      if refused.Some? {
        RoundRefused(h, start, p, limits, t, rounds, t', pending, refused.value);
        assert StackRefused(h, MarkedBy(log), Begins(h, entries, log), limits.stack, refused.value, ph);
        return;
      }
      FiringUnmarked(t, pending);
      RoundEnds(h, start, p, t, rounds, t', pending, t'');
      RoundMarksLive(h, start, p, t'', rounds + 1);
      assert exists x :: x in t''.marked && x !in t.marked;
      MarkingWork(h, start, t', pending, t'');
      FollowedMore(h, entries, t, log, limits.stack, t', pending, t'', ph);
      rounds, t, log := rounds + 1, t'', log + [ph];
    }
  }

  lemma SoundEdges(h: Heap, start: set<Id>, t: Trace)
    requires Sound(h, start, t, [])
    ensures t.edges == Degree(h, t.marked)
  {
    hide Degree, Live;
  }

  lemma MarkingWork(h: Heap, start: set<Id>, t: Trace, pending: seq<Id>, t': Trace)
    requires Marking(h, start, t, pending, t', [])
    ensures t'.work == t.work + (|t'.marked| - |t.marked|) + (t'.edges - t.edges)
  {
    hide Sound;
  }

  lemma RoundMarksLive(h: Heap, start: set<Id>, p: nat, t: Trace, rounds: nat)
    requires Rounds(h, start, p, t, rounds)
    ensures t.marked <= h.Keys
  {
    hide Live, Degree, Listed, Frontier;
  }

  lemma NothingFires(t: Trace, pending: seq<Id>)
    requires pending == []
    requires forall x :: x in pending <==> exists o :: o in t.ephemerons && Fires(t, o) && o.edge.value == x
    ensures forall o :: o in t.ephemerons ==> !Fires(t, o)
  {
    forall o | o in t.ephemerons ensures !Fires(t, o) {
      assert o.edge.Ephemeron? ==> o.edge.value !in pending;
    }
  }

  lemma FiringUnmarked(t: Trace, pending: seq<Id>)
    requires forall x :: x in pending <==> exists o :: o in t.ephemerons && Fires(t, o) && o.edge.value == x
    ensures forall x :: x in pending ==> x !in t.marked
  {
  }

  lemma ScanRefused(h: Heap, start: set<Id>, p: nat, limits: Limits, t: Trace, refusal: Refusal)
    requires exists required: nat ::
      refusal == Limit(WorkLimit, limits.work, required) && limits.work < required <= t.work + |t.ephemerons|
    requires |t.marked| <= |h| && t.edges <= Degree(h, Live(h, start))
    requires t.work + |t.ephemerons| + (|h| - |t.marked|) + (Degree(h, Live(h, start)) - t.edges) <=
      Needed(p, |h|, Degree(h, Live(h, start)))
    ensures Justified(h, start, p, limits, refusal)
  {
    hide Live, Degree, Needed;
  }

  lemma FixpointReached(h: Heap, start: set<Id>, p: nat, t: Trace, rounds: nat)
    requires Rounds(h, start, p, t, rounds) && forall o :: o in t.ephemerons ==> !Fires(t, o)
    ensures t.marked == Live(h, start)
    ensures var t' := t.(work := t.work + |t.ephemerons|);
      Sound(h, start, t', []) && p + |t'.marked| + t'.edges <= t'.work && t'.work + (|h| - |t'.marked|) <= Needed(p, |h|, t.edges)
  {
    hide Live, Degree, Needed, Frontier;
    Settled(h, start, p, t, rounds);
    RoundWithin(h, start, p, t, rounds);
    assert t.edges == Degree(h, t.marked);
  }

  lemma RoundRefused(h: Heap, start: set<Id>, p: nat, limits: Limits, t: Trace, rounds: nat, t': Trace, pending: seq<Id>,
                     refusal: Refusal)
    requires Rounds(h, start, p, t, rounds) && t' == t.(work := t.work + |t.ephemerons|) && |pending| <= |t.ephemerons|
    requires var most := Degree(h, Live(h, start));
      Overrun(h, start, limits, refusal, |pending| + most - t'.edges, t'.work + |h| + most - |t'.marked| - t'.edges)
    ensures Justified(h, start, p, limits, refusal)
  {
    hide Live, Degree, Needed, Rounds;
    RoundWithin(h, start, p, t, rounds);
  }

  // ---------- the plan ----------

  datatype Plan = Plan(marked: set<Id>, edges: nat, work: nat, weak: seq<Owned>, ephemerons: seq<Owned>, swept: seq<Id>)

  datatype Planning = Planned(plan: Plan) | Refused(refusal: Refusal)

  /** The members of `all` outside `marked`, in the order of `all`. */
  function Unmarked(all: seq<Id>, marked: set<Id>): (r: seq<Id>)
    ensures forall x :: x in r <==> x in all && x !in marked
    ensures |r| <= |all|
  {
    if all == [] then []
    else
      assert all == all[..|all| - 1] + [all[|all| - 1]];
      Unmarked(all[..|all| - 1], marked) + (if all[|all| - 1] in marked then [] else [all[|all| - 1]])
  }

  function Cleared(owned: seq<Owned>, marked: set<Id>): (r: seq<Owned>)
    ensures forall o :: o in r <==> o in owned && Dead(o.edge, marked)
    ensures |r| <= |owned|
  {
    if owned == [] then []
    else
      assert owned == owned[..|owned| - 1] + [owned[|owned| - 1]];
      Cleared(owned[..|owned| - 1], marked) + (if Dead(owned[|owned| - 1].edge, marked) then [owned[|owned| - 1]] else [])
  }

  /** The edges a collection clears: weak with an unmarked target, ephemeron with an
      unmarked key. */
  predicate Dead(e: Edge, marked: set<Id>) {
    (e.Weak? && e.target !in marked) || (e.Ephemeron? && e.key !in marked)
  }

  lemma {:induction false} UnmarkedCount(all: seq<Id>, marked: set<Id>)
    requires Increasing(all) && forall x :: x in marked ==> x in all
    ensures |Unmarked(all, marked)| + |marked| == |all|
    decreases |all|
  {
    if all == [] {
      assert marked == {};
    } else {
      hide Unmarked;
      var front, last := all[..|all| - 1], all[|all| - 1];
      UnmarkedLast(all, marked);
      forall x | x in marked - {last} ensures x in front { assert x in front + [last]; }
      UnmarkedCount(front, marked - {last});
      SameUnmarked(front, marked, last);
      CountWithout(marked, last);
    }
  }

  lemma UnmarkedLast(all: seq<Id>, marked: set<Id>)
    requires Increasing(all) && all != []
    ensures var front, last := all[..|all| - 1], all[|all| - 1];
      && all == front + [last] && last !in front && Increasing(front)
      && |Unmarked(all, marked)| == |Unmarked(front, marked)| + if last in marked then 0 else 1
  {
  }

  lemma {:induction false} UnmarkedIncreasing(all: seq<Id>, marked: set<Id>)
    requires Increasing(all)
    ensures Increasing(Unmarked(all, marked))
    decreases |all|
  {
    if all != [] {
      var n := |all| - 1;
      UnmarkedIncreasing(all[..n], marked);
      var rest := Unmarked(all[..n], marked);
      forall i | 0 <= i < |rest| ensures rest[i] < all[n] {
        assert rest[i] in all[..n];
      }
    }
  }

  lemma {:induction false} SameUnmarked(all: seq<Id>, marked: set<Id>, x: Id)
    requires x !in all
    ensures Unmarked(all, marked - {x}) == Unmarked(all, marked)
    decreases |all|
  {
    if all != [] {
      assert all == all[..|all| - 1] + [all[|all| - 1]];
      SameUnmarked(all[..|all| - 1], marked, x);
    }
  }

  /** What a plan says: mark exactly the live objects, sweep the others in allocation
      order, clear exactly the dead edges of the survivors, count each edge once. */
  ghost predicate Faithful(h: Heap, start: set<Id>, plan: Plan) {
    && plan.marked == Live(h, start) && plan.marked <= h.Keys
    && plan.edges == Degree(h, plan.marked)
    && (forall x :: x in plan.swept <==> x in h && x !in plan.marked)
    && Increasing(plan.swept) && |plan.swept| + |plan.marked| == |h|
    && (forall o :: o in plan.weak <==> o.owner in plan.marked && o.edge in Edges(h, o.owner) && o.edge.Weak? && Dead(o.edge, plan.marked))
    && (forall o :: o in plan.ephemerons <==>
          o.owner in plan.marked && o.edge in Edges(h, o.owner) && o.edge.Ephemeron? && Dead(o.edge, plan.marked))
  }

  lemma PlanFaithful(h: Heap, all: seq<Id>, start: set<Id>, t: Trace, plan: Plan)
    requires Increasing(all) && |all| == |h| && forall x :: x in all <==> x in h
    requires Sound(h, start, t, []) && t.marked == Live(h, start)
    requires plan.marked == t.marked && plan.edges == t.edges && plan.swept == Unmarked(all, t.marked)
    requires plan.weak == Cleared(t.weak, t.marked) && plan.ephemerons == Cleared(t.ephemerons, t.marked)
    ensures Faithful(h, start, plan)
    ensures |plan.weak| + |plan.ephemerons| <= t.edges && |plan.swept| == |h| - |t.marked|
  {
    hide Live, Degree, Frontier, Listed, Increasing, Unmarked, Cleared, Dead, Edges;
    UnmarkedCount(all, t.marked);
    UnmarkedIncreasing(all, t.marked);
    PlanClears(h, t);
  }

  lemma PlanClears(h: Heap, t: Trace)
    requires Listed(h, t)
    ensures t.edges == Degree(h, t.marked)
    ensures var weak := Cleared(t.weak, t.marked);
      forall o :: o in weak <==> o.owner in t.marked && o.edge in Edges(h, o.owner) && o.edge.Weak? && Dead(o.edge, t.marked)
    ensures var ephemerons := Cleared(t.ephemerons, t.marked);
      forall o :: o in ephemerons <==>
        o.owner in t.marked && o.edge in Edges(h, o.owner) && o.edge.Ephemeron? && Dead(o.edge, t.marked)
    ensures |Cleared(t.weak, t.marked)| + |Cleared(t.ephemerons, t.marked)| <= t.edges
  {
    hide Cleared, Dead, Degree;
  }

  /** The read-only half of a collection over the objects `all`, the roots and the
      kept-alive objects. */
  method MakePlan(h: Heap, all: seq<Id>, entries: seq<Id>, limits: Limits) returns (r: Planning)
    requires Increasing(all) && |all| == |h| && forall x :: x in all <==> x in h
    ensures var start := Members(entries);
      match r
      case Planned(plan) =>
        && Faithful(h, start, plan)
        && plan.edges <= limits.edges && plan.work <= limits.work
        && |entries| + |h| + plan.edges <= plan.work <= Needed(|entries|, |h|, plan.edges)
        && |plan.weak| + |plan.ephemerons| <= limits.clears && |h| <= limits.objects
        && |plan.swept| <= plan.work && RanWithin(h, entries, limits.stack, plan.marked, plan.work - |plan.swept|)
      case Refused(refusal) => Justified(h, start, |entries|, limits, refusal) && StackJustified(h, entries, limits.stack, refusal)
  {
    hide Live, Degree, Needed, Rounds, Marking, Sound, Faithful, Unmarked, Cleared, Coursed, RanWithin, StackRefused, Followed, Overrun;
    ghost var start := Members(entries);
    ghost var p := |entries|;
    if |all| > limits.objects { return Refused(Limit(ObjectLimit, limits.objects, |all|)); }
    if |entries| > limits.stack { return Refused(Limit(StackLimit, limits.stack, |entries|)); }
    hide LogOk, StacksWithin, MarkedBy, Begins;
    EntriesWork(h, start, p);
    if |entries| > limits.work { return Refused(Limit(WorkLimit, limits.work, |entries|)); }
    var t0 := Trace({}, [], [], 0, |entries|);
    StartMarking(h, entries, start, t0);
    NothingFollowed(h, entries, t0, limits.stack);
    ghost var first;
    var refused, t;
    refused, t, first := MarkLoop(h, start, limits, t0, entries);
    if refused.Some? {
      FirstJustified(h, start, p, limits, refused.value);
      FirstStackJustified(h, entries, limits.stack, refused.value, first);
      return Refused(refused.value);
    }
    FirstRound(h, start, entries, t);
    MarkingWork(h, start, t0, entries, t);
    FollowedMore(h, entries, t0, [], limits.stack, t0, entries, t, first);
    assert [] + [first] == [first];
    refused, t := Fixpoint(h, start, p, limits, t, entries, first);
    if refused.Some? { return Refused(refused.value); }
    var swept, weak, ephemerons := Unmarked(all, t.marked), Cleared(t.weak, t.marked), Cleared(t.ephemerons, t.marked);
    var work := t.work + |swept|;
    var plan := Plan(t.marked, t.edges, work, weak, ephemerons, swept);
    PlanFaithful(h, all, start, t, plan);
    assert t.edges == Degree(h, Live(h, start)) by { PlanDegree(h, start, plan); }
    if work > limits.work { return Refused(Limit(WorkLimit, limits.work, work)); }
    if |weak| + |ephemerons| > limits.clears { return Refused(Limit(ClearLimit, limits.clears, |weak| + |ephemerons|)); }
    r := Planned(plan);
  }

  lemma NothingFollowed(h: Heap, entries: seq<Id>, t0: Trace, limit: nat)
    requires t0 == Trace({}, [], [], 0, |entries|)
    ensures Followed(h, entries, t0, [], limit)
  {
  }

  lemma FirstStackJustified(h: Heap, entries: seq<Id>, limit: nat, refusal: Refusal, ph: Phase)
    requires StackRefused(h, {}, entries, limit, refusal, ph)
    ensures StackJustified(h, entries, limit, refusal)
  {
    hide StackRefused;
    assert LogOk(h, entries, []) && StacksWithin([], limit) && MarkedBy([]) == {} && Begins(h, entries, []) == entries;
  }

  lemma PlanDegree(h: Heap, start: set<Id>, plan: Plan)
    requires Faithful(h, start, plan)
    ensures plan.edges == Degree(h, Live(h, start))
  {
    hide Live, Degree;
  }

  lemma EntriesWork(h: Heap, start: set<Id>, p: nat)
    ensures p <= Needed(p, |h|, Degree(h, Live(h, start)))
  {
    hide Live, Degree;
    Scaled(Degree(h, Live(h, start)), 0, |h| + 2);
  }

  lemma StartMarking(h: Heap, entries: seq<Id>, start: set<Id>, t0: Trace)
    requires start == Members(entries) && t0 == Trace({}, [], [], 0, |entries|)
    ensures Marking(h, start, t0, entries, t0, entries)
  {
    hide Live;
    LiveClosed(h, start);
  }
}

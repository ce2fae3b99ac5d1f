/** Exceptions as managed objects with caller-typed relations, and the bounded projection
    of everything related to one of them. */
module Exceptions {
  import opened Collections
  import opened Ancestry

  type Id = nat

  /** One retaining relation; its edge identity is local to its parent. */
  datatype Relation<R> = Relation(edge: nat, role: R, target: Id)

  // ---------- one exception ----------

  datatype RelationError =
    | CapacityExceeded(cap: nat)
    | UnknownEdge(edge: nat)
    | TargetChanged(expected: Id, actual: Id)

  datatype Result<+T> = Ok(value: T) | Err(error: RelationError)

  /** The most edges an exception may own, in all and of the retaining kind. */
  datatype EdgeLimits = EdgeLimits(total: nat, strong: nat)

  /** Relation targets by edge identity, and the role of each edge, kept side by side. */
  class ManagedException<P, R(!new)> {
    var payload: P
    var strong: map<nat, Id>
    var nextEdge: nat
    var roles: map<nat, R>
    const limits: EdgeLimits

    ghost predicate Valid()
      reads this
    {
      && strong.Keys == roles.Keys && |strong| <= limits.total && |strong| <= limits.strong
      && forall e :: e in strong ==> e < nextEdge
    }

    constructor (payload: P, limits: EdgeLimits)
      ensures Valid() && this.payload == payload && strong == map[] && this.limits == limits
    {
      this.payload, strong, nextEdge, roles, this.limits := payload, map[], 0, map[], limits;
    }

    /** Adds a relation under an identity never used before. The total cap is looked at
        first. */
    method InsertRelation(role: R, target: Id) returns (r: Result<nat>)
      requires Valid()
      modifies this
      ensures Valid() && payload == old(payload) && old(nextEdge) <= nextEdge
      ensures match r
              case Ok(edge) =>
                && old(nextEdge) <= edge < nextEdge && edge !in old(strong)
                && strong == old(strong)[edge := target] && roles == old(roles)[edge := role]
              case Err(e) =>
                && strong == old(strong) && roles == old(roles) && nextEdge == old(nextEdge)
                && e == CapacityExceeded(if |strong| >= limits.total then limits.total else limits.strong)
      ensures r.Ok? <==> |old(strong)| < limits.total && |old(strong)| < limits.strong
    {
      if |strong| >= limits.total { return Err(CapacityExceeded(limits.total)); }
      if |strong| >= limits.strong { return Err(CapacityExceeded(limits.strong)); }
      var edge := nextEdge;
      nextEdge := nextEdge + 1;
      strong := strong[edge := target];
      roles := roles[edge := role];
      r := Ok(edge);
    }

    /** Removes a relation only if it still has the expected target; the role is there. */
    method RemoveRelation(edge: nat, expected: Id) returns (r: Result<(R, Id)>)
      requires Valid()
      modifies this
      ensures Valid() && payload == old(payload) && nextEdge == old(nextEdge)
      ensures match r
              case Ok(removed) =>
                && edge in old(strong) && old(strong)[edge] == expected && edge in old(roles) && removed == (old(roles)[edge], expected)
                && strong == old(strong) - {edge} && roles == old(roles) - {edge}
              case Err(e) =>
                && strong == old(strong) && roles == old(roles)
                && e == if edge in strong then TargetChanged(expected, strong[edge]) else UnknownEdge(edge)
      ensures r.Ok? <==> edge in old(strong) && old(strong)[edge] == expected
    {
      if edge !in strong { return Err(UnknownEdge(edge)); }
      if strong[edge] != expected { return Err(TargetChanged(expected, strong[edge])); }
      r := Ok((roles[edge], expected));
      strong := strong - {edge};
      roles := roles - {edge};
      assert strong.Keys == old(strong.Keys) - {edge};
      assert |strong| == |strong.Keys| && |old(strong)| == |old(strong.Keys)|;
    }

    /** The relations in edge order; every lookup of a role succeeds. */
    function Relations(): (r: seq<Relation<R>>)
      requires Valid()
      reads this
      ensures Ordered(r)
      ensures forall x :: x in r <==> x.edge in strong && x == Relation(x.edge, roles[x.edge], strong[x.edge])
    {
      RelationsBelow(strong, roles, nextEdge)
    }
  }

  ghost predicate Ordered<R>(r: seq<Relation<R>>) {
    forall i, j :: 0 <= i < j < |r| ==> r[i].edge < r[j].edge
  }

  function RelationsBelow<R(!new)>(strong: map<nat, Id>, roles: map<nat, R>, bound: nat): (r: seq<Relation<R>>)
    requires strong.Keys <= roles.Keys
    ensures Ordered(r)
    ensures forall x :: x in r <==> x.edge < bound && x.edge in strong && x == Relation(x.edge, roles[x.edge], strong[x.edge])
  {
    if bound == 0 then []
    else
      var front := RelationsBelow(strong, roles, bound - 1);
      assert forall i :: 0 <= i < |front| ==> front[i] in front;
      if bound - 1 in strong then front + [Relation(bound - 1, roles[bound - 1], strong[bound - 1])] else front
  }

  // ---------- everything related ----------

  /** The relations of every live exception. */
  type Objects<R> = map<Id, seq<Relation<R>>>

  datatype Row<R> = Row(parent: Id, relation: Relation<R>)

  function Targets<R>(relations: seq<Relation<R>>): (r: seq<Id>)
    ensures |r| == |relations| && forall i :: 0 <= i < |r| ==> r[i] == relations[i].target
  {
    seq(|relations|, i requires 0 <= i < |relations| => relations[i].target)
  }

  /** Targets as a graph: what is related to `root` is what it reaches here. */
  function TargetGraph<R>(objects: Objects<R>): Graph {
    map id | id in objects :: Targets(objects[id])
  }

  function RowsOf<R>(parent: Id, relations: seq<Relation<R>>): (r: seq<Row<R>>)
    ensures |r| == |relations| && forall i :: 0 <= i < |r| ==> r[i] == Row(parent, relations[i])
  {
    seq(|relations|, i requires 0 <= i < |relations| => Row(parent, relations[i]))
  }

  /** The targets not yet expanded, in order. */
  function Unexpanded<R>(relations: seq<Relation<R>>, expanded: set<Id>): (r: seq<Id>)
    ensures forall x :: x in r <==> x !in expanded && exists q :: q in relations && q.target == x
  {
    if relations == [] then []
    else
      var front, last := relations[..|relations| - 1], relations[|relations| - 1];
      assert relations == front + [last];
      Unexpanded(front, expanded) + (if last.target in expanded then [] else [last.target])
  }

  /** The rows of an unbounded walk, up to a missing object if one is met. */
  datatype Walked<R> = Walked(rows: seq<Row<R>>, missing: Option<Id>)

  function Walk<R>(objects: Objects<R>, queue: seq<Id>, expanded: set<Id>): Walked<R>
    decreases objects.Keys - expanded, |queue|
  {
    if queue == [] then Walked([], None)
    else
      var parent, rest := queue[0], queue[1..];
      if parent in expanded then Walk(objects, rest, expanded)
      else if parent !in objects then Walked([], Some(parent))
      else
        var expanded' := expanded + {parent};
        assert parent in objects.Keys - expanded && parent !in objects.Keys - expanded';
        var more := Walk(objects, rest + Unexpanded(objects[parent], expanded'), expanded');
        Walked(RowsOf(parent, objects[parent]) + more.rows, more.missing)
  }

  ghost predicate Walking<R>(objects: Objects<R>, root: Id, queue: seq<Id>, expanded: set<Id>) {
    var reached := Ancestors(TargetGraph(objects), root);
    && expanded <= objects.Keys && expanded <= reached && (forall x :: x in queue ==> x in reached)
    && (root in expanded || root in queue)
    && (forall id, q :: id in expanded && id in objects && q in objects[id] ==> q.target in expanded || q.target in queue)
  }

  /** The walk lists every relation of every object related to the root, or names one such
      object that is missing. */
  lemma {:induction false} WalkExact<R>(objects: Objects<R>, root: Id, queue: seq<Id>, expanded: set<Id>)
    requires Walking(objects, root, queue, expanded)
    ensures var w, reached := Walk(objects, queue, expanded), Ancestors(TargetGraph(objects), root);
      && (w.missing.Some? ==> w.missing.value in reached && w.missing.value !in objects)
      && (w.missing.None? ==> reached <= objects.Keys)
      && (w.missing.None? ==> forall row :: row in w.rows <==>
            row.parent in reached && row.parent !in expanded && row.parent in objects && row.relation in objects[row.parent])
    decreases objects.Keys - expanded, |queue|
  {
    hide Ancestors;
    if queue == [] {
      WalkDone(objects, root, expanded);
    } else {
      var parent, rest := queue[0], queue[1..];
      assert queue == [parent] + rest;
      if parent in expanded {
        WalkExact(objects, root, rest, expanded);
      } else if parent in objects {
        var expanded' := expanded + {parent};
        assert parent in objects.Keys - expanded && parent !in objects.Keys - expanded';
        WalkingNext(objects, root, queue, expanded);
        WalkExact(objects, root, rest + Unexpanded(objects[parent], expanded'), expanded');
        RowsMembers(parent, objects[parent]);
      }
    }
  }

  lemma RowsMembers<R>(parent: Id, relations: seq<Relation<R>>)
    ensures forall row :: row in RowsOf(parent, relations) <==> row.parent == parent && row.relation in relations
  {
    forall row: Row<R> | row.parent == parent && row.relation in relations ensures row in RowsOf(parent, relations) {
      var i :| 0 <= i < |relations| && relations[i] == row.relation;
      assert RowsOf(parent, relations)[i] == row;
    }
  }

  lemma WalkDone<R>(objects: Objects<R>, root: Id, expanded: set<Id>)
    requires Walking(objects, root, [], expanded)
    ensures Ancestors(TargetGraph(objects), root) == expanded
  {
    hide Ancestors;
    var g := TargetGraph(objects);
    forall n, p | n in expanded && p in Parents(g, n) ensures p in expanded {
      var i :| 0 <= i < |objects[n]| && objects[n][i].target == p;
      assert objects[n][i] in objects[n];
    }
    AncestorsLeast(g, root, expanded);
  }

  lemma WalkingNext<R>(objects: Objects<R>, root: Id, queue: seq<Id>, expanded: set<Id>)
    requires Walking(objects, root, queue, expanded) && queue != [] && queue[0] !in expanded && queue[0] in objects
    ensures var expanded' := expanded + {queue[0]};
      Walking(objects, root, queue[1..] + Unexpanded(objects[queue[0]], expanded'), expanded')
  {
    hide Ancestors;
    var g, parent := TargetGraph(objects), queue[0];
    var expanded' := expanded + {parent};
    var queue' := queue[1..] + Unexpanded(objects[parent], expanded');
    assert queue == [parent] + queue[1..];
    AncestorsClosed(g, root);
    forall x | x in Unexpanded(objects[parent], expanded') ensures x in Ancestors(g, root) {
      var q :| q in objects[parent] && q.target == x;
      var i :| 0 <= i < |objects[parent]| && objects[parent][i] == q;
      assert Targets(objects[parent])[i] == x;
      assert x in Parents(g, parent);
    }
    forall id, q | id in expanded' && id in objects && q in objects[id] ensures q.target in expanded' || q.target in queue' {
      if id == parent {
        assert q.target in expanded' || q.target in Unexpanded(objects[parent], expanded');
      }
    }
  }

  /** No relation is listed twice, and none of an object in `expanded`. */
  ghost predicate Once<R>(rows: seq<Row<R>>, expanded: set<Id>) {
    && (forall i, j :: 0 <= i < j < |rows| ==> rows[i].parent != rows[j].parent || rows[i].relation.edge != rows[j].relation.edge)
    && (forall i :: 0 <= i < |rows| ==> rows[i].parent !in expanded)
  }

  lemma {:induction false} WalkOnce<R>(objects: Objects<R>, queue: seq<Id>, expanded: set<Id>)
    requires forall id :: id in objects ==> Ordered(objects[id])
    ensures Once(Walk(objects, queue, expanded).rows, expanded)
    decreases objects.Keys - expanded, |queue|
  {
    if queue != [] {
      var parent, rest := queue[0], queue[1..];
      if parent in expanded {
        hide Once;
        WalkOnce(objects, rest, expanded);
      } else if parent in objects {
        var expanded' := expanded + {parent};
        assert parent in objects.Keys - expanded && parent !in objects.Keys - expanded';
        WalkOnce(objects, rest + Unexpanded(objects[parent], expanded'), expanded');
      }
    }
  }

  // ---------- the order of the rows ----------

  /** The targets the rows name, in order. */
  function Named<R>(rows: seq<Row<R>>): (r: seq<Id>)
    ensures |r| == |rows| && forall i :: 0 <= i < |r| ==> r[i] == rows[i].relation.target
  {
    seq(|rows|, i requires 0 <= i < |rows| => rows[i].relation.target)
  }

  /** The relations of these objects, object by object in edge order. */
  function Listing<R>(objects: Objects<R>, order: seq<Id>): seq<Row<R>> {
    if order == [] then []
    else
      var id := order[|order| - 1];
      Listing(objects, order[..|order| - 1]) + (if id in objects then RowsOf(id, objects[id]) else [])
  }

  /** The objects in the order they are first named, the root first of all. */
  function NamedOrder<R>(root: Id, rows: seq<Row<R>>): seq<Id> {
    Firsts([root] + Named(rows))
  }

  /** Breadth first: objects are expanded in the order they are first named, all of them or
      all before the first that is missing. */
  ghost predicate BreadthFirst<R>(objects: Objects<R>, root: Id, rows: seq<Row<R>>, missing: Option<Id>) {
    exists n :: 0 <= n <= |NamedOrder(root, rows)| && ExpandedTo(objects, NamedOrder(root, rows), n, rows, missing)
  }

  ghost predicate ExpandedTo<R>(objects: Objects<R>, order: seq<Id>, n: nat, rows: seq<Row<R>>, missing: Option<Id>)
    requires n <= |order|
  {
    && rows == Listing(objects, order[..n]) && (forall i :: 0 <= i < n ==> order[i] in objects)
    && match missing
       case None => n == |order|
       case Some(id) => n < |order| && order[n] == id && id !in objects
  }

  lemma {:induction false} UnexpandedAre<R>(relations: seq<Relation<R>>, expanded: set<Id>)
    ensures Unexpanded(relations, expanded) == Without(Targets(relations), expanded)
    decreases |relations|
  {
    hide Without, Unexpanded;
    if relations == [] {
      WithoutNothing<Id>(expanded);
      NoneUnexpanded<R>(expanded);
    } else {
      var n := |relations| - 1;
      UnexpandedAre(relations[..n], expanded);
      assert Targets(relations) == Targets(relations[..n]) + [relations[n].target];
      WithoutLast(Targets(relations[..n]), expanded, relations[n].target);
      assert relations == relations[..n] + [relations[n]];
      UnexpandedLast(relations[..n], relations[n], expanded);
    }
  }

  lemma NoneUnexpanded<R>(expanded: set<Id>)
    ensures Unexpanded<R>([], expanded) == []
  {
  }

  lemma UnexpandedLast<R>(front: seq<Relation<R>>, last: Relation<R>, expanded: set<Id>)
    ensures Unexpanded(front + [last], expanded) == Unexpanded(front, expanded) + if last.target in expanded then [] else [last.target]
  {
    assert (front + [last])[..|front|] == front;
  }

  lemma NamedMore<R>(rows: seq<Row<R>>, parent: Id, relations: seq<Relation<R>>)
    ensures Named(rows + RowsOf(parent, relations)) == Named(rows) + Targets(relations)
  {
  }

  /** Expanding the next object: it moves from what is named to what is expanded, and what
      it names follows. */
  lemma NamedNext(mentioned: seq<Id>, order: seq<Id>, parent: Id, rest: seq<Id>, targets: seq<Id>, expanded: set<Id>)
    requires Firsts(mentioned) == order + Firsts(Without([parent] + rest, expanded)) && parent !in expanded && Elements(order) == expanded
    ensures var expanded' := expanded + {parent};
      Firsts(mentioned + targets) == order + [parent] + Firsts(Without(rest + Without(targets, expanded'), expanded'))
  {
    hide Firsts, Without;
    var expanded' := expanded + {parent};
    var kept := Without(rest, expanded');
    HeadFirst(parent, rest, expanded);
    forall x ensures x in mentioned <==> x in expanded' || x in kept {
      FirstsElements(mentioned, x);
      FirstsElements(kept, x);
      assert x in Firsts(mentioned) <==> x in order || x == parent || x in Firsts(kept);
    }
    assert Elements(mentioned) == expanded' + Elements(kept);
    FirstsAppend(mentioned, targets);
    WithoutAppend(rest, Without(targets, expanded'), expanded');
    WithoutTwice(targets, expanded', expanded');
    assert expanded' + expanded' == expanded';
    FirstsAppend(kept, Without(targets, expanded'));
    WithoutTwice(targets, expanded', Elements(kept));
  }

  lemma HeadFirst(parent: Id, rest: seq<Id>, expanded: set<Id>)
    requires parent !in expanded
    ensures Firsts(Without([parent] + rest, expanded)) == [parent] + Firsts(Without(rest, expanded + {parent}))
  {
    hide Firsts, Without;
    WithoutAppend([parent], rest, expanded);
    WithoutLast([], expanded, parent);
    WithoutNothing<Id>(expanded);
    assert [] + [parent] == [parent];
    FirstsAppend([parent], Without(rest, expanded));
    FirstsLast([], parent);
    WithoutTwice(rest, expanded, Elements([parent]));
    assert expanded + Elements([parent]) == expanded + {parent};
  }

  /** The walk from any point of it on. */
  lemma {:induction false} WalkOrdered<R>(objects: Objects<R>, root: Id, order: seq<Id>, rows: seq<Row<R>>, queue: seq<Id>, expanded: set<Id>)
    requires NamedOrder(root, rows) == order + Firsts(Without(queue, expanded)) && Elements(order) == expanded
    requires rows == Listing(objects, order) && forall x :: x in order ==> x in objects
    ensures var w := Walk(objects, queue, expanded); BreadthFirst(objects, root, rows + w.rows, w.missing)
    decreases objects.Keys - expanded, |queue|
  {
    hide Firsts, Without, Unexpanded, Listing, BreadthFirst;
    if queue == [] {
      WithoutNothing<Id>(expanded);
      OrderDone(objects, root, order, rows, None);
      assert rows + [] == rows;
    } else {
      var parent, rest := queue[0], queue[1..];
      assert queue == [parent] + rest;
      if parent in expanded {
        WithoutAppend([parent], rest, expanded);
        WithoutLast([], expanded, parent);
        WithoutNothing<Id>(expanded);
        assert [] + [parent] == [parent] && Without(queue, expanded) == Without(rest, expanded);
        WalkOrdered(objects, root, order, rows, rest, expanded);
      } else if parent !in objects {
        HeadFirst(parent, rest, expanded);
        OrderDone(objects, root, order, rows, Some(parent));
        assert rows + [] == rows;
      } else {
        var expanded', more := expanded + {parent}, rows + RowsOf(parent, objects[parent]);
        assert parent in objects.Keys - expanded && parent !in objects.Keys - expanded';
        NamedMore(rows, parent, objects[parent]);
        UnexpandedAre(objects[parent], expanded');
        assert [root] + Named(more) == ([root] + Named(rows)) + Targets(objects[parent]);
        NamedNext([root] + Named(rows), order, parent, rest, Targets(objects[parent]), expanded);
        ListingMore(objects, order, parent);
        WalkOrdered(objects, root, order + [parent], more, rest + Unexpanded(objects[parent], expanded'), expanded');
        var w := Walk(objects, rest + Unexpanded(objects[parent], expanded'), expanded');
        assert rows + (RowsOf(parent, objects[parent]) + w.rows) == more + w.rows;
      }
    }
  }

  lemma ListingMore<R>(objects: Objects<R>, order: seq<Id>, id: Id)
    requires id in objects
    ensures Listing(objects, order + [id]) == Listing(objects, order) + RowsOf(id, objects[id])
  {
    assert (order + [id])[..|order|] == order;
  }

  lemma OrderDone<R>(objects: Objects<R>, root: Id, order: seq<Id>, rows: seq<Row<R>>, missing: Option<Id>)
    requires rows == Listing(objects, order) && (forall x :: x in order ==> x in objects) && order <= NamedOrder(root, rows)
    requires missing.None? ==> order == NamedOrder(root, rows)
    requires missing.Some? ==> missing.value !in objects && |order| < |NamedOrder(root, rows)| && NamedOrder(root, rows)[|order|] == missing.value
    ensures BreadthFirst(objects, root, rows, missing)
  {
    hide Firsts, Listing;
    var all := NamedOrder(root, rows);
    assert all[..|order|] == order;
    assert ExpandedTo(objects, all, |order|, rows, missing);
  }

  /** The whole walk is breadth first. */
  lemma WalkBreadthFirst<R>(objects: Objects<R>, root: Id)
    ensures var w := Walk(objects, [root], {}); BreadthFirst(objects, root, w.rows, w.missing)
  {
    hide Firsts, Without, Walk, BreadthFirst;
    var none: seq<Row<R>> := [];
    assert [root] + Named(none) == [root];
    WithoutLast([], {}, root);
    WithoutNothing<Id>({});
    assert [] + [root] == [root];
    assert [] + Firsts([root]) == Firsts([root]);
    WalkOrdered(objects, root, [], none, [root], {});
    assert none + Walk(objects, [root], {}).rows == Walk(objects, [root], {}).rows;
  }

  // ---------- the bounded projection ----------

  datatype View<R> = View(rows: seq<Row<R>>, truncated: bool)

  datatype Projection<R> = Projected(view: View<R>) | Stale(id: Id)

  /** The first `budget` rows of the whole walk, marked when there are more; a missing
      object is reported only if the rows before it fit. */
  ghost function Bounded<R>(w: Walked<R>, budget: nat): Projection<R> {
    if |w.rows| > budget then Projected(View(w.rows[..budget], true))
    else if w.missing.Some? then Stale(w.missing.value)
    else Projected(View(w.rows, false))
  }

  /** Lists the relations of one object while they fit, and the targets to visit next. */
  method ListRelations<R>(parent: Id, relations: seq<Relation<R>>, expanded: set<Id>, rows0: seq<Row<R>>, budget: nat)
      returns (full: bool, rows: seq<Row<R>>, added: seq<Id>)
    requires |rows0| <= budget
    ensures full <==> |rows0| + |relations| > budget
    ensures full ==> rows == (rows0 + RowsOf(parent, relations))[..budget]
    ensures !full ==> rows == rows0 + RowsOf(parent, relations) && added == Unexpanded(relations, expanded)
  {
    full, rows, added := false, rows0, [];
    for i := 0 to |relations|
      invariant |rows| <= budget
      invariant rows == rows0 + RowsOf(parent, relations[..i]) && added == Unexpanded(relations[..i], expanded)
    {
      RowsPrefix(parent, relations, i);
      assert relations[..i + 1][..i] == relations[..i];
      if |rows| == budget { return true, rows, added; }
      rows := rows + [Row(parent, relations[i])];
      if relations[i].target !in expanded { added := added + [relations[i].target]; }
    }
    assert relations[..|relations|] == relations;
  }

  /** What is listed and what is left to walk make up the whole. */
  ghost predicate Splits<R>(objects: Objects<R>, whole: Walked<R>, rows: seq<Row<R>>, queue: seq<Id>, expanded: set<Id>) {
    var more := Walk(objects, queue, expanded);
    whole.rows == rows + more.rows && whole.missing == more.missing
  }

  lemma SplitsNext<R>(objects: Objects<R>, whole: Walked<R>, rows: seq<Row<R>>, queue: seq<Id>, expanded: set<Id>)
    requires Splits(objects, whole, rows, queue, expanded) && queue != []
    ensures queue[0] in expanded ==> Splits(objects, whole, rows, queue[1..], expanded)
    ensures queue[0] !in expanded && queue[0] !in objects ==> whole == Walked(rows, Some(queue[0]))
    ensures queue[0] !in expanded && queue[0] in objects ==>
              var all, expanded' := rows + RowsOf(queue[0], objects[queue[0]]), expanded + {queue[0]};
              all <= whole.rows && Splits(objects, whole, all, queue[1..] + Unexpanded(objects[queue[0]], expanded'), expanded')
  {
    hide Unexpanded;
  }

  /** Breadth-first projection that expands each object once. */
  method Project<R>(objects: Objects<R>, root: Id, budget: nat) returns (r: Projection<R>)
    ensures r == Bounded(Walk(objects, [root], {}), budget)
  {
    hide Unexpanded, Splits, RowsOf;
    ghost var whole := Walk(objects, [root], {});
    if root !in objects { return Stale(root); }
    hide Walk;
    var queue, expanded, rows := [root], {}, [];
    SplitsStart(objects, root);
    while queue != []
      invariant |rows| <= budget && Splits(objects, whole, rows, queue, expanded)
      decreases objects.Keys - expanded, |queue|
    {
      var parent, rest := queue[0], queue[1..];
      SplitsNext(objects, whole, rows, queue, expanded);
      if parent in expanded {
        queue := rest;
      } else {
        if parent !in objects { return Stale(parent); }
        ghost var before := expanded;
        expanded := expanded + {parent};
        assert parent in objects.Keys - before && parent !in objects.Keys - expanded;
        ghost var all := rows + RowsOf(parent, objects[parent]);
        var full, added;
        full, rows, added := ListRelations(parent, objects[parent], expanded, rows, budget);
        if full {
          assert whole.rows[..budget] == all[..budget];
          return Projected(View(rows, true));
        }
        queue := rest + added;
      }
    }
    assert whole == Walked(rows, None) by { SplitsEnd(objects, whole, rows, expanded); }
    r := Projected(View(rows, false));
  }

  lemma SplitsStart<R>(objects: Objects<R>, root: Id)
    ensures Splits(objects, Walk(objects, [root], {}), [], [root], {})
  {
  }

  lemma SplitsEnd<R>(objects: Objects<R>, whole: Walked<R>, rows: seq<Row<R>>, expanded: set<Id>)
    requires Splits(objects, whole, rows, [], expanded)
    ensures whole == Walked(rows, None)
  {
  }

  lemma RowsPrefix<R>(parent: Id, relations: seq<Relation<R>>, i: nat)
    requires i < |relations|
    ensures RowsOf(parent, relations[..i + 1]) == RowsOf(parent, relations[..i]) + [Row(parent, relations[i])]
    ensures RowsOf(parent, relations[..i]) <= RowsOf(parent, relations) && |RowsOf(parent, relations)| > i
  {
  }

  /** With every related object live, an unbounded projection lists exactly the relations of
      the related objects, and a bounded one lists the first rows of that list. */
  lemma ProjectionExact<R>(objects: Objects<R>, root: Id, budget: nat)
    requires Ancestors(TargetGraph(objects), root) <= objects.Keys
    ensures var reached, w := Ancestors(TargetGraph(objects), root), Walk(objects, [root], {});
      && w.missing.None?
      && (forall row :: row in w.rows <==> row.parent in reached && row.parent in objects && row.relation in objects[row.parent])
      && Bounded(w, budget) == Projected(View(if |w.rows| > budget then w.rows[..budget] else w.rows, |w.rows| > budget))
  {
    hide Ancestors, Walk;
    AncestorsClosed(TargetGraph(objects), root);
    WalkExact(objects, root, [root], {});
  }
}

/** The iterative post-order traversal of declared parents, with an explicit stack, a
    work meter, a node budget and cycle evidence. */
module Traversal {
  import opened Collections
  import opened C3
  import opened Ancestry
  import opened Lineage

  const ACTIVE := 1
  const DONE := 2

  /** A stack entry: a class to enter, or a class to leave once its parents are done. */
  datatype Entry = Entry(node: Class, leaving: bool)

  /** The loop's variables; `stack` has its top in front. */
  datatype Walk = Walk(
    state: map<Class, nat>, path: seq<Class>, order: seq<Class>, stack: seq<Entry>)

  function ToEnter(parents: seq<Class>): seq<Entry> {
    seq(|parents|, i requires 0 <= i < |parents| => Entry(parents[i], false))
  }

  /** The stack while `path` is active and the first `taken[i]` parents of `path[i]`
      have been taken from it. */
  ghost function Pending(g: Graph, path: seq<Class>, taken: seq<nat>): seq<Entry>
    requires |taken| == |path|
    decreases |path|
  {
    if path == [] then []
    else
      var top := |path| - 1;
      var ps := Parents(g, path[top]);
      (if taken[top] <= |ps| then ToEnter(ps[taken[top]..]) else [])
        + [Entry(path[top], true)] + Pending(g, path[..top], taken[..top])
  }

  /** Parents taken from an active class are finished, except `next`, the last one
      taken, if the path goes on with it. */
  ghost predicate Frames(g: Graph, path: seq<Class>, taken: seq<nat>, order: seq<Class>, next: Option<Class>)
    decreases |path|
  {
    && |taken| == |path|
    && (path != [] ==>
          var top := |path| - 1;
          var ps := Parents(g, path[top]);
          && taken[top] <= |ps|
          && (next.None? ==> forall p :: p in ps[..taken[top]] ==> p in order)
          && (next.Some? ==> taken[top] >= 1 && ps[taken[top] - 1] == next.value
                             && forall p :: p in ps[..taken[top] - 1] ==> p in order)
          && Frames(g, path[..top], taken[..top], order, Some(path[top])))
  }

  /** The state map says exactly which classes are on the path and which are finished. */
  ghost predicate Coloured(w: Walk) {
    && (forall n :: n in w.state <==> n in w.path || n in w.order)
    && (forall n :: n in w.path ==> w.state[n] == ACTIVE)
    && (forall n :: n in w.order ==> w.state[n] == DONE)
  }

  ghost predicate Rooted(root: Class, w: Walk) {
    if w.path != [] then w.path[0] == root else w.order != [] && w.order[|w.order| - 1] == root
  }

  ghost predicate Walking(g: Graph, root: Class, w: Walk, taken: seq<nat>, spent: nat) {
    && Frames(g, w.path, taken, w.order, None)
    && NoRepeats(w.path) && NoRepeats(w.order) && Topological(g, w.order)
    && Coloured(w) && Rooted(root, w)
    && w.state.Keys <= Ancestors(g, root)
    && w.stack == Pending(g, w.path, taken)
    && spent + |w.stack| == 1 + Load(g, w.state.Keys)
  }

  /** Before the root is taken from the stack. */
  ghost predicate Starting(root: Class, w: Walk, spent: nat) {
    w == Walk(map[], [], [], [Entry(root, false)]) && spent == 0
  }

  function Enter(g: Graph, w: Walk, node: Class): Walk
    requires w.stack != []
  {
    Walk(w.state[node := ACTIVE], w.path + [node], w.order,
         ToEnter(Parents(g, node)) + [Entry(node, true)] + w.stack[1..])
  }

  ghost function TakeOne(taken: seq<nat>): seq<nat>
    requires taken != []
  {
    taken[..|taken| - 1] + [taken[|taken| - 1] + 1]
  }

  // ---------- the top of the stack ----------

  lemma PendingTop(g: Graph, path: seq<Class>, taken: seq<nat>, order: seq<Class>)
    requires path != [] && Frames(g, path, taken, order, None)
    ensures |taken| == |path|
    ensures
      var top, stack := |path| - 1, Pending(g, path, taken);
      var ps := Parents(g, path[top]);
      && stack != [] && taken[top] <= |ps|
      && (taken[top] < |ps| ==> stack[0] == Entry(ps[taken[top]], false) && stack[1..] == Pending(g, path, TakeOne(taken)))
      && (taken[top] == |ps| ==> stack[0] == Entry(path[top], true) && stack[1..] == Pending(g, path[..top], taken[..top]))
  {
    var top := |path| - 1;
    var ps := Parents(g, path[top]);
    if taken[top] < |ps| {
      assert TakeOne(taken)[..top] == taken[..top];
      assert ToEnter(ps[taken[top]..])[1..] == ToEnter(ps[taken[top] + 1..]);
    } else {
      assert ToEnter(ps[taken[top]..]) == [];
    }
  }

  lemma NothingPending(g: Graph, root: Class, w: Walk, taken: seq<nat>, spent: nat)
    requires Walking(g, root, w, taken, spent) && w.stack == []
    ensures w.path == []
  {
    if w.path != [] { PendingTop(g, w.path, taken, w.order); }
  }

  // ---------- frames ----------

  lemma {:induction false} FramesLater(g: Graph, path: seq<Class>, taken: seq<nat>, order: seq<Class>, next: Option<Class>, n: Class)
    requires Frames(g, path, taken, order, next)
    ensures Frames(g, path, taken, order + [n], next)
    decreases |path|
  {
    if path != [] {
      var top := |path| - 1;
      FramesLater(g, path[..top], taken[..top], order, Some(path[top]), n);
    }
  }

  /** Finishing the class the path went on with. */
  lemma FramesClose(g: Graph, path: seq<Class>, taken: seq<nat>, order: seq<Class>, n: Class)
    requires Frames(g, path, taken, order, Some(n))
    ensures Frames(g, path, taken, order + [n], None)
  {
    FramesLater(g, path, taken, order, Some(n), n);
    if path != [] {
      var top := |path| - 1;
      var ps := Parents(g, path[top]);
      assert ps[..taken[top]] == ps[..taken[top] - 1] + [n];
    }
  }

  lemma FramesOpen(g: Graph, path: seq<Class>, taken: seq<nat>, order: seq<Class>)
    requires Frames(g, path, taken, order, None) && path != []
    requires taken[|path| - 1] < |Parents(g, path[|path| - 1])|
    ensures Frames(g, path, TakeOne(taken), order, Some(Parents(g, path[|path| - 1])[taken[|path| - 1]]))
  {
    assert TakeOne(taken)[..|path| - 1] == taken[..|path| - 1];
  }

  lemma FramesSkip(g: Graph, path: seq<Class>, taken: seq<nat>, order: seq<Class>)
    requires Frames(g, path, taken, order, None) && path != []
    requires taken[|path| - 1] < |Parents(g, path[|path| - 1])|
    requires Parents(g, path[|path| - 1])[taken[|path| - 1]] in order
    ensures Frames(g, path, TakeOne(taken), order, None)
  {
    var top := |path| - 1;
    var ps := Parents(g, path[top]);
    assert ps[..taken[top] + 1] == ps[..taken[top]] + [ps[taken[top]]];
    assert TakeOne(taken)[..top] == taken[..top];
  }

  lemma FramesEnter(g: Graph, path: seq<Class>, taken: seq<nat>, order: seq<Class>, node: Class)
    requires Frames(g, path, taken, order, Some(node))
    ensures Frames(g, path + [node], taken + [0], order, None)
    ensures Pending(g, path + [node], taken + [0]) ==
            ToEnter(Parents(g, node)) + [Entry(node, true)] + Pending(g, path, taken)
  {
    assert (path + [node])[..|path|] == path && (taken + [0])[..|path|] == taken;
    assert Parents(g, node)[0..] == Parents(g, node) && Parents(g, node)[..0] == [];
  }

  /** Each class on the path is a parent of the one before it. */
  lemma {:induction false} PathLinked(g: Graph, path: seq<Class>, taken: seq<nat>, order: seq<Class>, next: Option<Class>, i: nat)
    requires Frames(g, path, taken, order, next)
    requires if next.Some? then i < |path| else i + 1 < |path|
    ensures (if i + 1 == |path| then next.value else path[i + 1]) in Parents(g, path[i])
    decreases |path|
  {
    var top := |path| - 1;
    if i == top {
      assert next.value in Parents(g, path[top]);
    } else {
      PathLinked(g, path[..top], taken[..top], order, Some(path[top]), i);
    }
  }

  // ---------- the four things a step can do ----------

  lemma LeaveStep(g: Graph, root: Class, w: Walk, taken: seq<nat>, spent: nat)
    requires Walking(g, root, w, taken, spent) && w.stack != [] && w.stack[0].leaving
    ensures
      var node := w.stack[0].node;
      && w.path != [] && w.path[|w.path| - 1] == node && |taken| == |w.path| && node in w.state
      && Walking(g, root, Walk(w.state[node := DONE], w.path[..|w.path| - 1], w.order + [node], w.stack[1..]),
                 taken[..|w.path| - 1], spent + 1)
  {
    hide Ancestors, Load, Topological, NoRepeats, Coloured;
    var node, top := w.stack[0].node, |w.path| - 1;
    assert w.path != [];
    PendingTop(g, w.path, taken, w.order);
    var w' := Walk(w.state[node := DONE], w.path[..top], w.order + [node], w.stack[1..]);
    LeaveColours(w, w', node);
    FramesClose(g, w'.path, taken[..top], w.order, node);
    assert Parents(g, node)[..taken[top]] == Parents(g, node);
    Finished(g, w.order, node);
    assert w'.path != [] ==> w'.path[0] == w.path[0];
  }

  lemma Finished(g: Graph, order: seq<Class>, node: Class)
    requires Topological(g, order) && forall p :: p in Parents(g, node) ==> p in order
    ensures Topological(g, order + [node])
  {
    var more := order + [node];
    forall i, p | 0 <= i < |more| && p in Parents(g, more[i]) ensures p in more[..i] {
      if i == |order| { assert more[..i] == order; } else { assert more[..i] == order[..i]; }
    }
  }

  lemma LeaveColours(w: Walk, w': Walk, node: Class)
    requires Coloured(w) && NoRepeats(w.path) && NoRepeats(w.order) && w.path != [] && node == w.path[|w.path| - 1]
    requires w'.state == w.state[node := DONE] && w'.path == w.path[..|w.path| - 1] && w'.order == w.order + [node]
    ensures Coloured(w') && NoRepeats(w'.path) && NoRepeats(w'.order) && w'.state.Keys == w.state.Keys && node in w.state
  {
    NoRepeatsLast(w.path);
    assert node in w.path && node !in w.order;
    NoRepeatsMore(w.order, node);
    hide NoRepeats;
  }

  lemma SkipStep(g: Graph, root: Class, w: Walk, taken: seq<nat>, spent: nat)
    requires Walking(g, root, w, taken, spent) && w.stack != [] && !w.stack[0].leaving
    requires w.stack[0].node in w.state && w.state[w.stack[0].node] == DONE
    ensures w.path != [] && taken != []
    ensures Walking(g, root, w.(stack := w.stack[1..]), TakeOne(taken), spent + 1)
  {
    hide Ancestors, Load, Topological, NoRepeats, Frames, Pending, TakeOne;
    var node, top := w.stack[0].node, |w.path| - 1;
    PathNonEmpty(g, w, taken);
    PendingTop(g, w.path, taken, w.order);
    assert node in w.order;
    FramesSkip(g, w.path, taken, w.order);
  }

  lemma PathNonEmpty(g: Graph, w: Walk, taken: seq<nat>)
    requires Frames(g, w.path, taken, w.order, None) && w.stack == Pending(g, w.path, taken) && w.stack != []
    ensures w.path != [] && |taken| == |w.path|
  {
  }

  /** Meeting an active class: the path from it back to it is a real parent cycle. */
  lemma CycleFound(g: Graph, root: Class, w: Walk, taken: seq<nat>, spent: nat, start: nat)
    requires Walking(g, root, w, taken, spent) && w.stack != [] && !w.stack[0].leaving
    requires start < |w.path| && w.path[start] == w.stack[0].node
    ensures
      var cycle := w.path[start..] + [w.stack[0].node];
      IsCycle(g, cycle) && NoRepeats(cycle[..|cycle| - 1]) && cycle[0] in Ancestors(g, root)
  {
    hide Ancestors, Load, Topological, Frames, Pending, TakeOne, NoRepeats;
    var node := w.stack[0].node;
    var cycle := w.path[start..] + [node];
    PendingTop(g, w.path, taken, w.order);
    FramesOpen(g, w.path, taken, w.order);
    forall i | 0 <= i < |cycle| - 1 ensures cycle[i + 1] in Parents(g, cycle[i]) {
      PathLinked(g, w.path, TakeOne(taken), w.order, Some(node), start + i);
    }
    assert cycle[..|cycle| - 1] == w.path[start..];
    SuffixDistinct(w.path, start);
    assert node in w.path;
  }

  lemma SuffixDistinct(path: seq<Class>, start: nat)
    requires NoRepeats(path) && start <= |path|
    ensures NoRepeats(path[start..])
  {
  }

  lemma EnterRoot(g: Graph, root: Class, w: Walk, spent: nat)
    requires Starting(root, w, spent)
    ensures root in Ancestors(g, root) && Walking(g, root, Enter(g, w, root), [0], spent + 1)
  {
    hide Ancestors, Load;
    AncestorsClosed(g, root);
    LoadAdd(g, {}, root);
    EmptyLoad(g);
    var w' := Enter(g, w, root);
    assert w'.state.Keys == {} + {root} && w'.path == [root];
    assert Parents(g, root)[0..] == Parents(g, root);
    assert Frames(g, [], [], [], Some(root));
    assert Frames(g, w'.path, [0], w'.order, None);
    assert Pending(g, [root], [0]) == ToEnter(Parents(g, root)) + [Entry(root, true)] + Pending(g, [], []);
  }

  lemma EnterStep(g: Graph, root: Class, w: Walk, taken: seq<nat>, spent: nat)
    requires Walking(g, root, w, taken, spent) && w.stack != [] && !w.stack[0].leaving
    requires w.stack[0].node !in w.state
    ensures taken != [] && w.stack[0].node in Ancestors(g, root)
    ensures Walking(g, root, Enter(g, w, w.stack[0].node), TakeOne(taken) + [0], spent + 1)
  {
    hide Ancestors, Load, Topological, NoRepeats, Coloured, Frames, Pending, TakeOne;
    var node := w.stack[0].node;
    PathNonEmpty(g, w, taken);
    PendingTop(g, w.path, taken, w.order);
    AncestorsClosed(g, root);
    var w' := Enter(g, w, node);
    EnterColours(w, w', node);
    LoadAdd(g, w.state.Keys, node);
    FramesOpen(g, w.path, taken, w.order);
    FramesEnter(g, w.path, TakeOne(taken), w.order, node);
  }

  lemma EmptyLoad(g: Graph)
    ensures Load(g, {}) == 0
  {
  }

  lemma EnterColours(w: Walk, w': Walk, node: Class)
    requires Coloured(w) && NoRepeats(w.path) && w.path != [] && node !in w.state
    requires w'.state == w.state[node := ACTIVE] && w'.path == w.path + [node] && w'.order == w.order
    ensures Coloured(w') && NoRepeats(w'.path) && w'.state.Keys == w.state.Keys + {node}
    ensures w.path[|w.path| - 1] in w.state
  {
    assert w.path[|w.path| - 1] in w.path;
  }

  // ---------- the traversal ----------

  datatype Visited = Visited(order: seq<Class>, parents: map<Class, seq<Class>>)

  /** A finished traversal: every ancestor once, parents first, the root last. */
  ghost predicate Complete(g: Graph, root: Class, v: Visited) {
    && NoRepeats(v.order) && Topological(g, v.order)
    && (forall n :: n in v.order <==> n in Ancestors(g, root))
    && v.order != [] && v.order[|v.order| - 1] == root
    && v.parents.Keys == Ancestors(g, root)
    && forall n :: n in v.parents ==> v.parents[n] == Parents(g, n)
  }

  /** Evidence of a failed traversal. */
  ghost predicate Justified(g: Graph, root: Class, budget: Budget, e: Error) {
    match e
    case Cycle(path) => IsCycle(g, path) && NoRepeats(path[..|path| - 1]) && path[0] in Ancestors(g, root)
    case NodeBudgetExhausted(limit, required) =>
      limit == budget.nodes && required == limit + 1 && |Ancestors(g, root)| > limit
    case WorkBudgetExhausted(limit, performed) =>
      limit == performed == budget.work && budget.work < 1 + Load(g, Ancestors(g, root))
    case ConflictingPrecedence(_, _, _) => false
  }

  ghost predicate Recorded(g: Graph, parents: map<Class, seq<Class>>, keys: set<Class>) {
    parents.Keys == keys && forall n :: n in parents ==> parents[n] == Parents(g, n)
  }

  lemma RecordedMore(g: Graph, parents: map<Class, seq<Class>>, state: map<Class, nat>, n: Class)
    requires Recorded(g, parents, state.Keys) && n !in state
    ensures Recorded(g, parents[n := Parents(g, n)], state[n := ACTIVE].Keys)
    ensures |state[n := ACTIVE]| == |state| + 1
  {
    OneMoreKey(state, n);
  }

  lemma OneMoreKey(state: map<Class, nat>, n: Class)
    requires n !in state
    ensures state[n := ACTIVE].Keys == state.Keys + {n} && |state[n := ACTIVE]| == |state| + 1
  {
    assert state[n := ACTIVE].Keys == state.Keys + {n};
    assert |state[n := ACTIVE]| == |state[n := ACTIVE].Keys| && |state| == |state.Keys|;
  }

  lemma SameKeys(state: map<Class, nat>, n: Class)
    requires n in state
    ensures state[n := DONE].Keys == state.Keys && |state[n := DONE]| == |state|
  {
    assert state[n := DONE].Keys == state.Keys;
    assert |state[n := DONE]| == |state[n := DONE].Keys| && |state| == |state.Keys|;
  }

  method Postorder(g: Graph, root: Class, budget: Budget) returns (r: Result<Visited>, spent: nat)
    ensures spent <= budget.work
    ensures r.Ok? ==> Complete(g, root, r.value) && spent == 1 + Load(g, Ancestors(g, root))
    ensures r.Ok? ==> |Ancestors(g, root)| <= budget.nodes
    ensures r.Err? ==> Justified(g, root, budget, r.error)
  {
    hide Walking, Starting, Ancestors, Load, IsCycle, NoRepeats, Complete, Recorded, TakeOne, Parents;
    var w := Walk(map[], [], [], [Entry(root, false)]);
    var parents: map<Class, seq<Class>> := map[];
    ghost var taken: seq<nat> := [];
    ghost var started := false;
    spent := 0;
    NotStarted(g, root);
    while w.stack != []
      invariant spent <= budget.work && |w.state| <= budget.nodes
      invariant if started then Walking(g, root, w, taken, spent) else Starting(root, w, spent)
      invariant Recorded(g, parents, w.state.Keys) && (w.stack == [] ==> started)
      decreases budget.work - spent
    {
      if spent == budget.work {
        OutOfWork(g, root, w, taken, spent, started);
        return Err(WorkBudgetExhausted(budget.work, spent)), spent;
      }
      var top := w.stack[0];
      if !started { StartsAtRoot(root, w, spent); }
      if top.leaving {
        LeaveStep(g, root, w, taken, spent);
        SameKeys(w.state, top.node);
        taken := taken[..|w.path| - 1];
        w := Walk(w.state[top.node := DONE], w.path[..|w.path| - 1], w.order + [top.node], w.stack[1..]);
      } else if top.node in w.state {
        ColourOf(g, root, w, taken, spent, top.node);
        if w.state[top.node] == DONE {
          SkipStep(g, root, w, taken, spent);
          taken := TakeOne(taken);
          w := w.(stack := w.stack[1..]);
        } else {
          var start := IndexOf(w.path, top.node);
          CycleFound(g, root, w, taken, spent, start);
          return Err(Cycle(w.path[start..] + [top.node])), spent;
        }
      } else {
        if started {
          EnterStep(g, root, w, taken, spent);
          taken := TakeOne(taken) + [0];
        } else {
          EnterRoot(g, root, w, spent);
          taken := [0];
        }
        if |w.state| + 1 > budget.nodes {
          TooManyNodes(g, root, w, taken, spent, started, top.node);
          return Err(NodeBudgetExhausted(budget.nodes, |w.state| + 1)), spent + 1;
        }
        RecordedMore(g, parents, w.state, top.node);
        parents := parents[top.node := Parents(g, top.node)];
        w := Enter(g, w, top.node);
        started := true;
      }
      spent := spent + 1;
    }
    AllVisited(g, root, w, taken, spent, parents);
    r := Ok(Visited(w.order, parents));
  }

  lemma NotStarted(g: Graph, root: Class)
    ensures Recorded(g, map[], {}) && Starting(root, Walk(map[], [], [], [Entry(root, false)]), 0)
  {
  }

  lemma StartsAtRoot(root: Class, w: Walk, spent: nat)
    requires Starting(root, w, spent)
    ensures w.stack == [Entry(root, false)] && w.state == map[]
  {
  }

  lemma ColourOf(g: Graph, root: Class, w: Walk, taken: seq<nat>, spent: nat, n: Class)
    requires Walking(g, root, w, taken, spent) && n in w.state
    ensures w.state[n] == DONE || n in w.path
  {
  }

  lemma OutOfWork(g: Graph, root: Class, w: Walk, taken: seq<nat>, spent: nat, started: bool)
    requires if started then Walking(g, root, w, taken, spent) else Starting(root, w, spent)
    requires w.stack != []
    ensures spent < 1 + Load(g, Ancestors(g, root))
  {
    if started { LoadGrows(g, w.state.Keys, Ancestors(g, root)); }
  }

  lemma TooManyNodes(g: Graph, root: Class, w: Walk, taken: seq<nat>, spent: nat, started: bool, node: Class)
    requires w.stack != [] && w.stack[0].node == node && node !in w.state
    requires Walking(g, root, Enter(g, w, node), taken, spent + 1)
    ensures |Ancestors(g, root)| > |w.state|
  {
    var w' := Enter(g, w, node);
    assert w'.state.Keys == w.state.Keys + {node};
    LoadGrows(g, w'.state.Keys, Ancestors(g, root));
  }

  lemma AllVisited(g: Graph, root: Class, w: Walk, taken: seq<nat>, spent: nat, parents: map<Class, seq<Class>>)
    requires Walking(g, root, w, taken, spent) && w.stack == []
    requires Recorded(g, parents, w.state.Keys)
    ensures Complete(g, root, Visited(w.order, parents))
    ensures spent == 1 + Load(g, Ancestors(g, root)) && |w.state| == |Ancestors(g, root)|
  {
    hide Load;
    NothingPending(g, root, w, taken, spent);
    var done := w.state.Keys;
    assert forall n :: n in done <==> n in w.order;
    forall n, p | n in done && p in Parents(g, n) ensures p in done {
      var i :| 0 <= i < |w.order| && w.order[i] == n;
      assert p in w.order[..i];
    }
    assert root in w.order;
    AncestorsLeast(g, root, done);
    assert done == Ancestors(g, root);
    assert |w.state| == |done|;
  }

  /** With room for every ancestor and its parents, a traversal fails exactly on a
      reachable parent cycle. */
  lemma CycleExactly(g: Graph, root: Class, budget: Budget, r: Result<Visited>)
    requires r.Ok? ==> Complete(g, root, r.value)
    requires r.Err? ==> Justified(g, root, budget, r.error)
    requires budget.nodes >= |Ancestors(g, root)| && budget.work >= 1 + Load(g, Ancestors(g, root))
    ensures r.Err? <==> exists path :: IsCycle(g, path) && path[0] in Ancestors(g, root)
    ensures r.Err? ==> r.error.Cycle?
  {
    if r.Err? {
      assert IsCycle(g, r.error.path) && r.error.path[0] in Ancestors(g, root);
    } else {
      forall path | IsCycle(g, path) ensures path[0] !in Ancestors(g, root) {
        TopologicalAcyclic(g, r.value.order, path);
      }
    }
  }
}

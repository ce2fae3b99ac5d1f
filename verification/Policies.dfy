/** The two linearization policies behind one interface, and why a linearization may be
    reused: it depends only on the declared parents of the classes it lists. */
module Policies {
  import opened Collections
  import opened C3
  import opened Lineage
  import opened Ancestry
  import opened Traversal
  import opened Linearization
  import opened DeclaredOrder

  datatype Policy = C3Policy | DeclaredOrderPolicy

  /** `lin` is what the policy assigns to `root`. */
  ghost predicate LinearizedBy(policy: Policy, g: Graph, root: Class, lin: seq<Class>) {
    match policy
    case C3Policy => C3Of(g, root, lin)
    case DeclaredOrderPolicy => DeclaredOf(g, root, lin)
  }

  ghost predicate Sufficient(policy: Policy, g: Graph, root: Class, budget: Budget) {
    && budget.nodes >= |Ancestors(g, root)|
    && budget.work >= match policy
                      case C3Policy => Enough(g, root)
                      case DeclaredOrderPolicy => EnoughForBoth(g, root)
  }

  /** The budget covers exactly what linearizing takes. */
  ghost predicate Affords(policy: Policy, g: Graph, root: Class, budget: Budget) {
    && budget.nodes >= |Ancestors(g, root)|
    && match policy
       case C3Policy => EnoughWork(g, root, budget.work)
       case DeclaredOrderPolicy => budget.work >= EnoughForBoth(g, root)
  }

  /** Why there is no linearization, or none within the budget. */
  ghost predicate Evident(policy: Policy, g: Graph, root: Class, budget: Budget, e: Error) {
    match e
    case ConflictingPrecedence(_, _, _) => policy == C3Policy && Conflict(g, root, e)
    case WorkBudgetExhausted(limit, performed) =>
      && limit == performed == budget.work
      && (if policy == C3Policy then TooLittle(g, root, budget.work) else budget.work < EnoughForBoth(g, root))
    case _ => Justified(g, root, budget, e)
  }

  lemma LinearizedSound(policy: Policy, g: Graph, root: Class, lin: seq<Class>)
    requires LinearizedBy(policy, g, root, lin)
    ensures lin != [] && lin[0] == root && NoRepeats(lin) && forall x :: x in lin <==> x in Ancestors(g, root)
  {
    hide Ancestors, NoRepeats, C3Table, PreOrder;
    if policy == C3Policy {
      var t :| C3Table(g, t) && root in t && t[root] == lin;
      C3Sound(g, t, root);
    } else {
      PreOrderSound(g, root);
    }
  }

  lemma LinearizedUnique(policy: Policy, g: Graph, root: Class, a: seq<Class>, b: seq<Class>)
    requires LinearizedBy(policy, g, root, a) && LinearizedBy(policy, g, root, b)
    ensures a == b
  {
    hide C3Table, PreOrder;
    if policy == C3Policy {
      var t :| C3Table(g, t) && root in t && t[root] == a;
      var t' :| C3Table(g, t') && root in t' && t'[root] == b;
      C3Unique(g, t, g, t', root);
    }
  }

  /** Graphs that agree on the listed classes have the same linearization. */
  lemma LinearizedLocal(policy: Policy, g: Graph, g': Graph, root: Class, lin: seq<Class>)
    requires LinearizedBy(policy, g, root, lin)
    requires forall x :: x in lin ==> Parents(g', x) == Parents(g, x)
    ensures LinearizedBy(policy, g', root, lin) && Ancestors(g', root) == Ancestors(g, root)
  {
    hide C3Table, PreOrder, Ancestors, Acyclic, NoRepeats;
    LinearizedSound(policy, g, root, lin);
    if policy == C3Policy {
      var t :| C3Table(g, t) && root in t && t[root] == lin;
      C3Local(g, t, g', root);
    } else {
      PreOrderLocal(g, g', root);
      AcyclicLocal(g, g', root);
    }
    SameAncestors(g, g', root);
  }

  lemma AcyclicLocal(g: Graph, g': Graph, root: Class)
    requires Acyclic(g, root) && forall x :: x in Ancestors(g, root) ==> Parents(g', x) == Parents(g, x)
    ensures Acyclic(g', root)
  {
    hide Ancestors;
    SameAncestors(g, g', root);
    AncestorsClosed(g, root);
    forall path | IsCycle(g', path) ensures path[0] !in Ancestors(g', root) {
      if path[0] in Ancestors(g, root) {
        ChainInside(g, g', Ancestors(g, root), path);
      }
    }
  }

  lemma {:induction false} ChainInside(g: Graph, g': Graph, s: set<Class>, path: seq<Class>)
    requires IsCycle(g', path) && path[0] in s && ParentClosed(g, s) && forall x :: x in s ==> Parents(g', x) == Parents(g, x)
    ensures IsCycle(g, path)
  {
    var i := 0;
    while i < |path| - 1
      invariant 0 <= i <= |path| - 1 && path[i] in s
      invariant forall k :: 0 <= k < i ==> path[k + 1] in Parents(g, path[k])
    {
      assert path[i + 1] in Parents(g', path[i]);
      i := i + 1;
    }
  }

  method Linearize(policy: Policy, g: Graph, root: Class, budget: Budget) returns (r: Result<seq<Class>>)
    // a linearization is found exactly if there is one and the budget covers it
    ensures forall lin :: r == Ok(lin) <==> LinearizedBy(policy, g, root, lin) && Affords(policy, g, root, budget)
    ensures r.Err? ==> Evident(policy, g, root, budget, r.error)
    ensures Sufficient(policy, g, root, budget) ==> forall lin :: LinearizedBy(policy, g, root, lin) <==> r == Ok(lin)
  {
    hide C3Of, DeclaredOf, Ancestors, Enough, EnoughForBoth, Conflict, Justified, EnoughWork, TooLittle;
    if policy == C3Policy {
      r := C3Linearize(g, root, budget);
      if Sufficient(policy, g, root, budget) { C3Exact(g, root, budget, r); }
    } else {
      r := DeclaredLinearize(g, root, budget);
      if r.Err? { NoConflict(g, root, budget, r.error); }
      if Sufficient(policy, g, root, budget) { DeclaredExact(g, root, budget, r); }
    }
    forall lin ensures r == Ok(lin) <==> LinearizedBy(policy, g, root, lin) && Affords(policy, g, root, budget) {
      if LinearizedBy(policy, g, root, lin) {
        if r.Ok? { LinearizedUnique(policy, g, root, lin, r.value); } else { EvidentFails(policy, g, root, budget, r.error, lin); }
      }
    }
  }

  lemma NoConflict(g: Graph, root: Class, budget: Budget, e: Error)
    ensures e.ConflictingPrecedence? ==> !Justified(g, root, budget, e)
  {
  }

  /** With such evidence there is no linearization or the budget does not cover it. */
  lemma EvidentFails(policy: Policy, g: Graph, root: Class, budget: Budget, e: Error, lin: seq<Class>)
    requires Evident(policy, g, root, budget, e) && LinearizedBy(policy, g, root, lin)
    ensures !Affords(policy, g, root, budget)
  {
    hide Ancestors, Merge, Respects, C3Work, C3Table, PreOrder, Enough;
    if policy == C3Policy {
      var t :| C3Table(g, t) && root in t && t[root] == lin;
      if e.ConflictingPrecedence? || e.Cycle? { NoFailure(g, root, Budget(|Ancestors(g, root)|, Enough(g, root)), e, t); }
    }
  }

  /** A lookup per listed class is defined exactly when every ancestor has an entry. */
  lemma LookupsDefined(policy: Policy, g: Graph, root: Class, lin: seq<Class>)
    requires LinearizedBy(policy, g, root, lin)
    ensures (forall x :: x in lin ==> x in g) <==> Ancestors(g, root) <= g.Keys
  {
    hide LinearizedBy, Ancestors;
    LinearizedSound(policy, g, root, lin);
  }
}

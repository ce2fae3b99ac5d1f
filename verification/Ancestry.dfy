/** Declared parents as a graph: ancestors, cycles, topological orders, and the amount
    of work a traversal of a set of classes takes. */
module Ancestry {
  import opened Collections
  import opened C3

  /** Declared parents in declaration order; a class without an entry has none. */
  type Graph = map<Class, seq<Class>>

  function Parents(g: Graph, n: Class): seq<Class> {
    if n in g then g[n] else []
  }

  ghost predicate ParentClosed(g: Graph, s: set<Class>) {
    forall n, p :: n in s && p in Parents(g, n) ==> p in s
  }

  ghost function Universe(g: Graph, root: Class): set<Class> {
    {root} + set n, p | n in g && p in g[n] :: p
  }

  /** The least set that holds `root` and the parents of its members. */
  ghost function Ancestors(g: Graph, root: Class): set<Class> {
    set n | n in Universe(g, root) && Inherited(g, root, n)
  }

  ghost predicate Inherited(g: Graph, root: Class, n: Class) {
    forall s: set<Class> :: root in s && ParentClosed(g, s) ==> n in s
  }

  lemma AncestorsClosed(g: Graph, root: Class)
    ensures root in Ancestors(g, root) && ParentClosed(g, Ancestors(g, root))
  {
    forall n, p | n in Ancestors(g, root) && p in Parents(g, n) ensures p in Ancestors(g, root) {
      assert n in g && p in g[n];
      forall s: set<Class> | root in s && ParentClosed(g, s) ensures p in s {
        assert n in s;
      }
    }
  }

  lemma AncestorsLeast(g: Graph, root: Class, s: set<Class>)
    requires root in s && ParentClosed(g, s)
    ensures Ancestors(g, root) <= s
  {
  }

  /** A parent chain that returns to where it started. */
  ghost predicate IsCycle(g: Graph, path: seq<Class>) {
    && |path| >= 2 && path[0] == path[|path| - 1]
    && forall i :: 0 <= i < |path| - 1 ==> path[i + 1] in Parents(g, path[i])
  }

  /** Every class comes after all its parents. */
  ghost predicate Topological(g: Graph, order: seq<Class>) {
    forall i, p :: 0 <= i < |order| && p in Parents(g, order[i]) ==> p in order[..i]
  }

  /** Walking a parent chain inside a topological order moves strictly towards its front. */
  lemma {:induction false} ChainDescends(g: Graph, order: seq<Class>, path: seq<Class>, at: nat, j: nat) returns (k: nat)
    requires Topological(g, order) && at < |order| && j < |path| && path[0] == order[at]
    requires forall i :: 0 <= i < |path| - 1 ==> path[i + 1] in Parents(g, path[i])
    ensures k < |order| && order[k] == path[j] && k + j <= at
    decreases j
  {
    if j == 0 {
      k := at;
    } else {
      var m := ChainDescends(g, order, path, at, j - 1);
      assert path[j - 1 + 1] in Parents(g, path[j - 1]);
      k :| 0 <= k < m && order[..m][k] == path[j];
    }
  }

  lemma TopologicalAcyclic(g: Graph, order: seq<Class>, path: seq<Class>)
    requires NoRepeats(order) && Topological(g, order) && IsCycle(g, path)
    ensures path[0] !in order
  {
    if path[0] in order {
      var at :| 0 <= at < |order| && order[at] == path[0];
      var k := ChainDescends(g, order, path, at, |path| - 1);
    }
  }

  // ---------- work ----------

  /** One unit for leaving each class of `s` and one for each of its declared parents. */
  ghost function Load(g: Graph, s: set<Class>): nat {
    Sum(s, (x: Class) => |Parents(g, x)| + 1)
  }

  lemma LoadAdd(g: Graph, s: set<Class>, x: Class)
    requires x !in s
    ensures Load(g, s + {x}) == Load(g, s) + |Parents(g, x)| + 1
  {
    SumAdd(s, (x: Class) => |Parents(g, x)| + 1, x);
  }

  lemma LoadGrows(g: Graph, s: set<Class>, t: set<Class>)
    requires s <= t
    ensures Load(g, s) <= Load(g, t) && |s| <= |t|
  {
    SumGrows(s, t, (x: Class) => |Parents(g, x)| + 1);
    SubsetSize(s, t);
  }

  lemma {:induction false} LoadAtLeast(g: Graph, s: set<Class>)
    ensures Load(g, s) >= |s|
    decreases |s|
  {
    if s != {} {
      var x :| x in s;
      assert s == (s - {x}) + {x};
      LoadAdd(g, s - {x}, x);
      LoadAtLeast(g, s - {x});
    }
  }
}

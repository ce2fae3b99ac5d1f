/** C3 linearization of a class graph: the table every computation fills in, what it
    guarantees, that it is unique and local, and the bounded computation itself. */
module Linearization {
  import opened Collections
  import opened C3
  import opened Ancestry
  import opened Lineage
  import opened Traversal

  type Table = map<Class, seq<Class>>

  ghost predicate ParentsIn(g: Graph, t: Table, n: Class) {
    forall p :: p in Parents(g, n) ==> p in t
  }

  /** What is merged below `n`: its parents' linearizations and its parent list. */
  function Inputs(g: Graph, t: Table, n: Class): seq<seq<Class>>
    requires ParentsIn(g, t, n)
  {
    var ps := Parents(g, n);
    seq(|ps|, i requires 0 <= i < |ps| => t[ps[i]]) + [ps]
  }

  ghost predicate Row(g: Graph, t: Table, n: Class)
    requires n in t
  {
    && ParentsIn(g, t, n)
    && Merge(Inputs(g, t, n)).Some? && t[n] == [n] + Merge(Inputs(g, t, n)).value
  }

  /** Every entry is its class followed by the merge of its inputs. */
  ghost predicate C3Table(g: Graph, t: Table) {
    forall n :: n in t ==> Row(g, t, n)
  }

  /** `lin` is the C3 linearization of `n`. */
  ghost predicate C3Of(g: Graph, n: Class, lin: seq<Class>) {
    exists t :: C3Table(g, t) && n in t && t[n] == lin
  }

  // ---------- one row ----------

  lemma InputAt(g: Graph, t: Table, n: Class, p: Class)
    requires ParentsIn(g, t, n) && p in Parents(g, n)
    ensures exists i :: 0 <= i < |Inputs(g, t, n)| && Inputs(g, t, n)[i] == t[p]
  {
    var i :| 0 <= i < |Parents(g, n)| && Parents(g, n)[i] == p;
    assert Inputs(g, t, n)[i] == t[p];
  }

  lemma RowRespects(g: Graph, t: Table, n: Class, p: Class)
    requires n in t && Row(g, t, n) && p in Parents(g, n)
    ensures Subsequence(t[p], t[n][1..]) && |t[p]| < |t[n]|
    ensures Subsequence(Parents(g, n), t[n][1..]) && NoRepeats(t[n][1..])
  {
    var inputs := Inputs(g, t, n);
    MergeSound(inputs);
    assert t[n][1..] == Merge(inputs).value;
    InputAt(g, t, n, p);
    var i :| 0 <= i < |inputs| && inputs[i] == t[p];
    assert inputs[|inputs| - 1] == Parents(g, n);
    SubsequenceLength(t[p], t[n][1..]);
  }

  /** The classes in a row: the class itself and those in its parents' rows. */
  lemma RowElements(g: Graph, t: Table, n: Class, x: Class)
    requires C3Table(g, t) && n in t
    ensures x in t[n] <==> x == n || exists p :: p in Parents(g, n) && p in t && x in t[p]
  {
    var inputs := Inputs(g, t, n);
    assert Row(g, t, n);
    MergeSound(inputs);
    assert x in t[n] <==> x == n || x in Merge(inputs).value;
    if Occurs(x, inputs) {
      var i :| 0 <= i < |inputs| && x in inputs[i];
      if i == |inputs| - 1 {
        assert x in Parents(g, n) && Row(g, t, x) && t[x][0] == x;
      } else {
        assert inputs[i] == t[Parents(g, n)[i]] && Parents(g, n)[i] in Parents(g, n);
      }
    }
    if p :| p in Parents(g, n) && p in t && x in t[p] {
      InputAt(g, t, n, p);
    }
  }

  // ---------- soundness of a table ----------

  /** A row contains the whole row of each of its classes. */
  lemma {:induction false} RowContains(g: Graph, t: Table, n: Class, x: Class)
    requires C3Table(g, t) && n in t && x in t[n]
    ensures x in t && |t[x]| <= |t[n]| && forall y :: y in t[x] ==> y in t[n]
    decreases |t[n]|
  {
    hide Row, Merge;
    if x != n {
      RowElements(g, t, n, x);
      var p :| p in Parents(g, n) && p in t && x in t[p];
      RowOf(g, t, n);
      RowRespects(g, t, n, p);
      RowContains(g, t, p, x);
      forall y | y in t[x] ensures y in t[n] {
        RowElements(g, t, n, y);
      }
    }
  }

  lemma RowOf(g: Graph, t: Table, n: Class)
    requires C3Table(g, t) && n in t
    ensures Row(g, t, n) && ParentsIn(g, t, n) && t[n] != [] && t[n][0] == n && n in t[n]
  {
    assert t[n][0] == n;
  }

  /** C3 soundness: a linearization starts with its class, repeats nothing, contains
      exactly the ancestors, and keeps every parent's linearization and the declared
      parent order. */
  lemma C3Sound(g: Graph, t: Table, n: Class)
    requires C3Table(g, t) && n in t
    ensures t[n] != [] && t[n][0] == n && NoRepeats(t[n])
    ensures forall x :: x in t[n] <==> x in Ancestors(g, n)
    ensures forall p :: p in Parents(g, n) ==> p in t && Subsequence(t[p], t[n])
    ensures Subsequence(Parents(g, n), t[n])
  {
    hide Row, Merge, NoRepeats, Ancestors;
    RowOf(g, t, n);
    var lin := t[n];
    assert lin == [n] + lin[1..];
    assert n !in lin[1..] && NoRepeats(lin[1..]) by { HeadNotInTail(g, t, n); }
    HeadIsNew(n, lin[1..]);
    forall p | p in Parents(g, n) ensures p in t && Subsequence(t[p], lin) && Subsequence(Parents(g, n), lin) {
      RowRespects(g, t, n, p);
      SubsequenceLater(t[p], lin);
      SubsequenceLater(Parents(g, n), lin);
    }
    if Parents(g, n) == [] {
    } else {
      assert Parents(g, n)[0] in Parents(g, n);
    }
    RowIsAncestors(g, t, n);
  }

  /** C3 is monotonic: a linearization keeps the linearization of every ancestor. */
  lemma {:induction false} C3Monotone(g: Graph, t: Table, n: Class, x: Class)
    requires C3Table(g, t) && n in t && x in t[n]
    ensures x in t && Subsequence(t[x], t[n])
    decreases |t[n]|
  {
    hide Row, Merge, NoRepeats, Ancestors;
    RowOf(g, t, n);
    C3Sound(g, t, n);
    if x == n {
      SubsequenceSelf(t[n]);
    } else {
      RowElements(g, t, n, x);
      var p :| p in Parents(g, n) && p in t && x in t[p];
      RowRespects(g, t, n, p);
      C3Monotone(g, t, p, x);
      SubsequenceTransitive(t[x], t[p], t[n]);
    }
  }

  lemma {:induction false} SubsequenceSelf(s: seq<Class>)
    ensures Subsequence(s, s)
    decreases |s|
  {
    if s != [] { SubsequenceSelf(s[1..]); }
  }

  lemma HeadNotInTail(g: Graph, t: Table, n: Class)
    requires C3Table(g, t) && n in t
    ensures t[n] != [] && n !in t[n][1..] && NoRepeats(t[n][1..])
  {
    RowOf(g, t, n);
    var inputs := Inputs(g, t, n);
    MergeSound(inputs);
    assert t[n][1..] == Merge(inputs).value;
    if n in t[n][1..] {
      var i :| 0 <= i < |inputs| && n in inputs[i];
      var p := if i == |inputs| - 1 then n else Parents(g, n)[i];
      assert p in Parents(g, n) && n in t[p] by {
        if i == |inputs| - 1 { assert inputs[i] == Parents(g, n); }
      }
      RowRespects(g, t, n, p);
      RowContains(g, t, p, n);
    }
  }

  lemma RowIsAncestors(g: Graph, t: Table, n: Class)
    requires C3Table(g, t) && n in t
    ensures forall x :: x in t[n] <==> x in Ancestors(g, n)
  {
    hide Row, Merge, Ancestors;
    RowOf(g, t, n);
    var row := set x | x in t[n];
    forall x, p | x in row && p in Parents(g, x) ensures p in row {
      RowContains(g, t, n, x);
      RowOf(g, t, x);
      RowOf(g, t, p);
      RowElements(g, t, x, p);
    }
    AncestorsLeast(g, n, row);
    forall x | x in t[n] ensures x in Ancestors(g, n) {
      AncestorsClosed(g, n);
      RowInherited(g, t, n, x, Ancestors(g, n));
    }
  }

  lemma {:induction false} RowInherited(g: Graph, t: Table, n: Class, x: Class, s: set<Class>)
    requires C3Table(g, t) && n in t && x in t[n] && n in s && ParentClosed(g, s)
    ensures x in s
    decreases |t[n]|
  {
    if x != n {
      RowElements(g, t, n, x);
      var p :| p in Parents(g, n) && p in t && x in t[p];
      RowOf(g, t, n);
      RowRespects(g, t, n, p);
      RowInherited(g, t, p, x, s);
    }
  }

  // ---------- uniqueness and locality ----------

  /** A linearization depends only on the parents declared within it. */
  lemma {:induction false} C3Unique(g: Graph, t: Table, g': Graph, t': Table, n: Class)
    requires C3Table(g, t) && C3Table(g', t') && n in t && n in t'
    requires forall x :: x in t[n] ==> Parents(g', x) == Parents(g, x)
    ensures t'[n] == t[n]
    decreases |t[n]|
  {
    hide Merge;
    RowOf(g, t, n);
    RowOf(g', t', n);
    forall p | p in Parents(g, n) ensures t'[p] == t[p] {
      RowRespects(g, t, n, p);
      RowOf(g, t, p);
      RowElements(g, t, n, p);
      RowContains(g, t, n, p);
      C3Unique(g, t, g', t', p);
    }
    assert Inputs(g', t', n) == Inputs(g, t, n);
  }

  lemma C3Local(g: Graph, t: Table, g': Graph, n: Class)
    requires C3Table(g, t) && n in t
    requires forall x :: x in t[n] ==> Parents(g', x) == Parents(g, x)
    ensures C3Of(g', n, t[n])
  {
    hide Merge;
    var part: Table := map x | x in t && x in t[n] :: t[x];
    RowOf(g, t, n);
    forall x | x in part ensures Row(g', part, x) {
      RowOf(g, t, x);
      forall p | p in Parents(g, x) ensures p in part {
        RowOf(g, t, p);
        RowElements(g, t, x, p);
        RowContains(g, t, n, x);
      }
      assert Inputs(g', part, x) == Inputs(g, t, x);
    }
    assert part[n] == t[n];
  }

  /** A class with a C3 linearization has no cycle above it. */
  lemma TableAcyclic(g: Graph, t: Table, n: Class, path: seq<Class>)
    requires C3Table(g, t) && n in t && path != [] && path[0] in t[n]
    ensures !IsCycle(g, path)
  {
    if IsCycle(g, path) {
      RowContains(g, t, n, path[0]);
      ChainShrinks(g, t, path, |path| - 1);
    }
  }

  lemma {:induction false} ChainShrinks(g: Graph, t: Table, path: seq<Class>, j: nat)
    requires C3Table(g, t) && IsCycle(g, path) && path[0] in t && j < |path|
    ensures path[j] in t && |t[path[j]]| + j <= |t[path[0]]|
    decreases j
  {
    if j > 0 {
      ChainShrinks(g, t, path, j - 1);
      assert path[j - 1 + 1] in Parents(g, path[j - 1]);
      RowOf(g, t, path[j - 1]);
      RowRespects(g, t, path[j - 1], path[j]);
    }
  }

  // ---------- the bounded computation ----------

  /** Work that always suffices: the traversal, and one round of merging per ancestor
      for each list that is merged. */
  ghost function Enough(g: Graph, root: Class): nat {
    Allowance(g, root, Ancestors(g, root))
  }

  /** The part of it the rows of `keys` may have used. */
  ghost function Allowance(g: Graph, root: Class, keys: set<Class>): nat {
    1 + Load(g, Ancestors(g, root)) + |Ancestors(g, root)| * Load(g, keys)
  }

  /** The heads looked at for one row of a table. */
  ghost function RowLooks(g: Graph, t: Table, n: Class): nat {
    if ParentsIn(g, t, n) then Looks(Inputs(g, t, n)) else 0
  }

  ghost function RowsLooks(g: Graph, t: Table, keys: set<Class>): nat {
    Sum(keys, (n: Class) => RowLooks(g, t, n))
  }

  /** The work it takes to linearize `root`: the traversal, and every head looked at. */
  ghost function C3Work(g: Graph, t: Table, root: Class): nat {
    1 + Load(g, Ancestors(g, root)) + RowsLooks(g, t, Ancestors(g, root))
  }

  /** Whatever the linearization of `root` is, this is enough work for it. */
  ghost predicate EnoughWork(g: Graph, root: Class, work: nat) {
    forall t :: C3Table(g, t) && root in t ==> work >= C3Work(g, t, root)
  }

  /** Rows of tables that agree are equally costly. */
  lemma RowsAgree(g: Graph, t: Table, t': Table, keys: set<Class>)
    requires C3Table(g, t) && C3Table(g, t') && keys <= t.Keys && keys <= t'.Keys
    ensures RowsLooks(g, t, keys) == RowsLooks(g, t', keys)
  {
    hide Looks, Inputs;
    forall n | n in keys ensures RowLooks(g, t, n) == RowLooks(g, t', n) { RowAgrees(g, t, t', n); }
    SumSame(keys, (n: Class) => RowLooks(g, t, n), (n: Class) => RowLooks(g, t', n));
  }

  lemma RowAgrees(g: Graph, t: Table, t': Table, n: Class)
    requires C3Table(g, t) && C3Table(g, t') && n in t && n in t'
    ensures ParentsIn(g, t, n) && ParentsIn(g, t', n) && Inputs(g, t, n) == Inputs(g, t', n)
  {
    hide Merge, C3Table;
    RowOf(g, t, n);
    RowOf(g, t', n);
    forall p | p in Parents(g, n) ensures t[p] == t'[p] { C3Unique(g, t, g, t', p); }
  }

  /** Below some ancestor, the linearizations its parents have and the order it declares
      them in cannot all be respected, and the reported precedence is one they demand. */
  ghost predicate Conflict(g: Graph, root: Class, e: Error) {
    && e.ConflictingPrecedence? && e.parents == (e.after, e.before)
    && exists n, t :: ConflictAt(g, root, e, n, t)
  }

  ghost predicate ConflictAt(g: Graph, root: Class, e: Error, n: Class, t: Table)
    requires e.ConflictingPrecedence?
  {
    && n in Ancestors(g, root) && C3Table(g, t) && ParentsIn(g, t, n)
    && (forall order :: !Respects(order, Inputs(g, t, n)))
    && exists l :: l in Inputs(g, t, n) && Precedes(l, e.before, e.after)
  }

  /** Whatever the linearization of `root` is, this is not enough work for it. */
  ghost predicate TooLittle(g: Graph, root: Class, work: nat) {
    forall t :: C3Table(g, t) && root in t ==> work < C3Work(g, t, root)
  }

  method C3Linearize(g: Graph, root: Class, budget: Budget) returns (r: Result<seq<Class>>)
    ensures r.Ok? ==> C3Of(g, root, r.value) && |Ancestors(g, root)| <= budget.nodes && EnoughWork(g, root, budget.work)
    ensures r.Err? ==> match r.error
              case ConflictingPrecedence(_, _, _) => Conflict(g, root, r.error)
              case WorkBudgetExhausted(limit, performed) =>
                limit == performed == budget.work && budget.work < Enough(g, root) && TooLittle(g, root, budget.work)
              case _ => Justified(g, root, budget, r.error)
  {
    hide Ancestors, Load, C3Table, Complete, Conflict, Merge, Precedes, Occurs, Enough, C3Of, EnoughWork, TooLittle, Looks, C3Work, Justified,
      Filled, RowsLooks, Inputs, Allowance;
    var visited;
    var spent: nat;
    visited, spent := Postorder(g, root, budget);
    EnoughForWalk(g, root);
    if visited.Err? {
      WalkTooLittle(g, root, budget, visited.error);
      return Err(visited.error);
    }
    var order, parents := visited.value.order, visited.value.parents;
    ghost var all := Ancestors(g, root);
    var complete: Table := map[];
    NoRows(g, root, visited.value, spent);
    for i := 0 to |order|
      invariant spent <= budget.work
      invariant Filled(g, root, visited.value, i, complete, spent)
    {
      var node := order[i];
      NextInputs(g, root, visited.value, i, complete, spent);
      var direct := parents[node];
      var lists := seq(|direct|, j requires 0 <= j < |direct| => complete[direct[j]]) + [direct];
      assert lists == Inputs(g, complete, node) by { InputsAre(g, complete, node); }
      var merged;
      ghost var before := spent;
      merged, spent := MergeLists(node, lists, budget.work, spent, all - {node});
      if merged.Err? {
        if merged.error.ConflictingPrecedence? {
          ConflictThere(g, root, merged.error, node, complete);
        } else {
          WorkShort(g, root, visited.value, i, complete, before, budget.work);
          RowTooLittle(g, root, visited.value, i, complete, before, budget.work);
        }
        return Err(merged.error);
      }
      FilledStep(g, root, visited.value, i, complete, before, spent);
      complete := complete[node := merged.value];
    }
    RootFilled(g, root, visited.value, complete, spent);
    r := Ok(complete[root]);
  }

  /** The first `i` rows are filled in, within the work they may take. */
  ghost predicate Filled(g: Graph, root: Class, v: Visited, i: nat, t: Table, spent: nat) {
    && Complete(g, root, v) && i <= |v.order|
    && C3Table(g, t)
    && t.Keys == (set n | n in v.order[..i])
    && spent <= Allowance(g, root, t.Keys)
    && spent == 1 + Load(g, Ancestors(g, root)) + RowsLooks(g, t, t.Keys)
  }

  lemma WalkTooLittle(g: Graph, root: Class, budget: Budget, e: Error)
    requires Justified(g, root, budget, e)
    ensures e.WorkBudgetExhausted? ==> e.limit == e.performed == budget.work && budget.work < 1 + Load(g, Ancestors(g, root)) && TooLittle(g, root, budget.work)
    ensures !e.ConflictingPrecedence?
  {
    hide Ancestors, Load, C3Table;
  }

  /** Running out of work in a row means that the whole takes more. */
  lemma RowTooLittle(g: Graph, root: Class, v: Visited, i: nat, t: Table, before: nat, limit: nat)
    requires Filled(g, root, v, i, t, before) && i < |v.order| && ParentsIn(g, t, v.order[i])
    requires limit < before + Looks(Inputs(g, t, v.order[i]))
    ensures TooLittle(g, root, limit)
  {
    hide Ancestors, Load, C3Table, Merge, Looks, Inputs, NoRepeats, Allowance;
    var node := v.order[i];
    RowLoad(g, root, v, i, t);
    assert node in v.order && forall n :: n in v.order[..i] ==> n in v.order;
    forall full | C3Table(g, full) && root in full ensures limit < C3Work(g, full, root) {
      AncestorsTabled(g, full, root);
      RowsAgree(g, t, full, t.Keys);
      InputsAgree(g, t, full, node);
      var f := (n: Class) => RowLooks(g, full, n);
      SumAdd(t.Keys, f, node);
      SumGrows(t.Keys + {node}, Ancestors(g, root), f);
    }
  }

  lemma AncestorsTabled(g: Graph, t: Table, root: Class)
    requires C3Table(g, t) && root in t
    ensures Ancestors(g, root) <= t.Keys
  {
    hide Ancestors, C3Table, Merge, NoRepeats;
    C3Sound(g, t, root);
    forall x | x in Ancestors(g, root) ensures x in t { RowContains(g, t, root, x); }
  }

  lemma InputsAgree(g: Graph, t: Table, full: Table, n: Class)
    requires C3Table(g, t) && C3Table(g, full) && ParentsIn(g, t, n) && n in full
    ensures RowLooks(g, full, n) == Looks(Inputs(g, t, n))
  {
    hide Merge, C3Table, Looks;
    RowOf(g, full, n);
    forall p | p in Parents(g, n) ensures t[p] == full[p] { C3Unique(g, t, g, full, p); }
    assert Inputs(g, t, n) == Inputs(g, full, n);
  }

  lemma EnoughForWalk(g: Graph, root: Class)
    ensures 1 + Load(g, Ancestors(g, root)) <= Enough(g, root)
  {
  }

  lemma NoRows(g: Graph, root: Class, v: Visited, spent: nat)
    requires Complete(g, root, v) && spent == 1 + Load(g, Ancestors(g, root))
    ensures Filled(g, root, v, 0, map[], spent)
  {
    hide Complete, Load, Ancestors;
    var none: Table := map[];
    SumNothing((n: Class) => RowLooks(g, none, n));
    assert none.Keys == {} && (set n | n in v.order[..0]) == {};
  }

  /** Post-order makes every parent's row available, and the class new to all of them. */
  lemma NextInputs(g: Graph, root: Class, v: Visited, i: nat, t: Table, spent: nat)
    requires Filled(g, root, v, i, t, spent) && i < |v.order|
    ensures v.order[i] in v.parents && v.parents[v.order[i]] == Parents(g, v.order[i])
    ensures v.order[i] in Ancestors(g, root) && C3Table(g, t)
    ensures ParentsIn(g, t, v.order[i])
    ensures forall x :: Occurs(x, Inputs(g, t, v.order[i])) ==> x in Ancestors(g, root) - {v.order[i]}
  {
    hide Ancestors, Load, C3Table, Allowance, Occurs, Inputs, NoRepeats;
    var n := v.order[i];
    assert n in v.order;
    forall p | p in Parents(g, n) ensures p in t { assert p in v.order[..i]; }
    forall x | Occurs(x, Inputs(g, t, n)) ensures x in Ancestors(g, root) - {n} {
      OccursInTable(g, t, n, x);
      OnlyOnce(v.order, i, x);
    }
  }

  lemma OccursInTable(g: Graph, t: Table, n: Class, x: Class)
    requires C3Table(g, t) && ParentsIn(g, t, n) && Occurs(x, Inputs(g, t, n))
    ensures x in t
  {
    hide C3Table, Merge;
    var inputs := Inputs(g, t, n);
    var j :| 0 <= j < |inputs| && x in inputs[j];
    if j < |inputs| - 1 {
      var p := Parents(g, n)[j];
      assert p in Parents(g, n);
      RowContains(g, t, p, x);
    }
  }

  lemma OnlyOnce(order: seq<Class>, i: nat, x: Class)
    requires NoRepeats(order) && i < |order| && x in order[..i]
    ensures x != order[i] && x in order
  {
    var k :| 0 <= k < i && order[..i][k] == x;
    assert order[k] == x;
  }

  lemma InputsAre(g: Graph, t: Table, n: Class)
    requires ParentsIn(g, t, n)
    ensures var ps := Parents(g, n);
      Inputs(g, t, n) == seq(|ps|, i requires 0 <= i < |ps| => t[ps[i]]) + [ps] && |Inputs(g, t, n)| == |ps| + 1
  {
  }

  lemma ConflictThere(g: Graph, root: Class, e: Error, n: Class, t: Table)
    requires e.ConflictingPrecedence? && e.parents == (e.after, e.before) && n in Ancestors(g, root) && C3Table(g, t) && ParentsIn(g, t, n)
    requires Merge(Inputs(g, t, n)).None?
    requires exists l :: l in Inputs(g, t, n) && Precedes(l, e.before, e.after)
    ensures Conflict(g, root, e)
  {
    hide Merge, Precedes, C3Table, Ancestors;
    forall order ensures !Respects(order, Inputs(g, t, n)) {
      MergeComplete(Inputs(g, t, n), order);
    }
    assert ConflictAt(g, root, e, n, t);
  }

  lemma RowLoad(g: Graph, root: Class, v: Visited, i: nat, t: Table)
    requires Complete(g, root, v) && i < |v.order| && t.Keys == (set n | n in v.order[..i])
    ensures v.order[i] !in t && |Ancestors(g, root) - {v.order[i]}| + 1 == |Ancestors(g, root)|
    ensures Load(g, t.Keys + {v.order[i]}) == Load(g, t.Keys) + |Parents(g, v.order[i])| + 1
    ensures Load(g, t.Keys + {v.order[i]}) <= Load(g, Ancestors(g, root))
  {
    hide Ancestors, Load;
    var n := v.order[i];
    assert n in v.order;
    if n in t { OnlyOnce(v.order, i, n); }
    LoadAdd(g, t.Keys, n);
    LoadGrows(g, t.Keys + {n}, Ancestors(g, root));
  }

  lemma AllowanceNext(g: Graph, root: Class, v: Visited, i: nat, t: Table)
    requires Complete(g, root, v) && i < |v.order| && t.Keys == (set n | n in v.order[..i])
    ensures Allowance(g, root, t.Keys + {v.order[i]}) ==
            Allowance(g, root, t.Keys) + (|Parents(g, v.order[i])| + 1) * (|Ancestors(g, root) - {v.order[i]}| + 1)
    ensures Allowance(g, root, t.Keys + {v.order[i]}) <= Enough(g, root)
  {
    hide Ancestors, Load, Complete, Parents, Allowance, NoRepeats;
    RowLoad(g, root, v, i, t);
    AllowanceMore(g, root, t.Keys, t.Keys + {v.order[i]}, |Parents(g, v.order[i])| + 1);
  }

  lemma AllowanceMore(g: Graph, root: Class, keys: set<Class>, keys': set<Class>, more: nat)
    requires Load(g, keys') == Load(g, keys) + more <= Load(g, Ancestors(g, root))
    ensures Allowance(g, root, keys') == Allowance(g, root, keys) + more * |Ancestors(g, root)|
    ensures Allowance(g, root, keys') <= Enough(g, root)
  {
    hide Ancestors, Load;
    Distributes(|Ancestors(g, root)|, Load(g, keys), more);
    Scaled(|Ancestors(g, root)|, Load(g, keys'), Load(g, Ancestors(g, root)));
  }

  lemma Distributes(n: nat, a: nat, b: nat)
    ensures n * (a + b) == n * a + b * n
  {
  }

  lemma WorkShort(g: Graph, root: Class, v: Visited, i: nat, t: Table, before: nat, limit: nat)
    requires Filled(g, root, v, i, t, before) && i < |v.order|
    requires before <= limit < before + (|Parents(g, v.order[i])| + 1) * (|Ancestors(g, root) - {v.order[i]}| + 1)
    ensures limit < Enough(g, root)
  {
    hide Ancestors, Load, C3Table, Complete, Allowance, Enough;
    AllowanceNext(g, root, v, i, t);
  }

  lemma FilledCost(g: Graph, root: Class, v: Visited, i: nat, t: Table, before: nat, spent: nat)
    requires Filled(g, root, v, i, t, before) && i < |v.order|
    requires spent - before <= (|Parents(g, v.order[i])| + 1) * (|Ancestors(g, root) - {v.order[i]}| + 1)
    ensures spent <= Allowance(g, root, t.Keys + {v.order[i]}) && v.order[i] !in t
  {
    hide Ancestors, Load, Complete, Allowance, C3Table, RowsLooks;
    AllowanceNext(g, root, v, i, t);
    RowLoad(g, root, v, i, t);
  }

  lemma FilledNext(g: Graph, root: Class, v: Visited, i: nat, t: Table, before: nat, spent: nat)
    requires Filled(g, root, v, i, t, before) && i < |v.order| && ParentsIn(g, t, v.order[i])
    requires Merge(Inputs(g, t, v.order[i])).Some? && v.order[i] !in t
    requires spent == before + Looks(Inputs(g, t, v.order[i])) && spent <= Allowance(g, root, t.Keys + {v.order[i]})
    ensures Filled(g, root, v, i + 1, t[v.order[i] := [v.order[i]] + Merge(Inputs(g, t, v.order[i])).value], spent)
  {
    hide Ancestors, Load, Complete, Merge, Allowance, C3Table, RowsLooks, Looks, Parents, Inputs;
    var node := v.order[i];
    var more := t[node := [node] + Merge(Inputs(g, t, node)).value];
    assert v.order[..i + 1] == v.order[..i] + [node];
    assert more.Keys == t.Keys + {node};
    TableNext(g, t, node);
    RowsNext(g, t, more, node);
  }

  lemma FilledStep(g: Graph, root: Class, v: Visited, i: nat, t: Table, before: nat, spent: nat)
    requires Filled(g, root, v, i, t, before) && i < |v.order| && ParentsIn(g, t, v.order[i])
    requires Merge(Inputs(g, t, v.order[i])).Some?
    requires spent - before <= (|Parents(g, v.order[i])| + 1) * (|Ancestors(g, root) - {v.order[i]}| + 1)
    requires spent == before + Looks(Inputs(g, t, v.order[i]))
    ensures Filled(g, root, v, i + 1, t[v.order[i] := [v.order[i]] + Merge(Inputs(g, t, v.order[i])).value], spent)
  {
    hide Filled, Ancestors, Merge, Looks, Inputs, Parents, Allowance;
    FilledCost(g, root, v, i, t, before, spent);
    FilledNext(g, root, v, i, t, before, spent);
  }

  lemma RowsNext(g: Graph, t: Table, more: Table, node: Class)
    requires C3Table(g, t) && C3Table(g, more) && node !in t && node in more && ParentsIn(g, t, node) && t.Keys <= more.Keys
    ensures RowsLooks(g, more, t.Keys + {node}) == RowsLooks(g, t, t.Keys) + Looks(Inputs(g, t, node))
  {
    hide C3Table, Looks, Merge, Inputs;
    RowsAgree(g, t, more, t.Keys);
    InputsAgree(g, t, more, node);
    SumAdd(t.Keys, (n: Class) => RowLooks(g, more, n), node);
  }

  lemma TableNext(g: Graph, t: Table, node: Class)
    requires C3Table(g, t) && node !in t && ParentsIn(g, t, node) && Merge(Inputs(g, t, node)).Some?
    ensures C3Table(g, t[node := [node] + Merge(Inputs(g, t, node)).value])
  {
    hide Merge;
    var more := t[node := [node] + Merge(Inputs(g, t, node)).value];
    forall n | n in more ensures Row(g, more, n) {
      if n != node { assert Row(g, t, n); }
      assert Inputs(g, more, n) == Inputs(g, t, n);
    }
  }

  lemma RootFilled(g: Graph, root: Class, v: Visited, t: Table, spent: nat)
    requires Filled(g, root, v, |v.order|, t, spent)
    ensures root in t && C3Of(g, root, t[root])
    ensures spent >= 0 && (forall work: nat :: work >= spent ==> EnoughWork(g, root, work))
  {
    hide Ancestors, Load, Allowance, NoRepeats, C3Table, RowsLooks;
    assert v.order[..|v.order|] == v.order;
    assert root in v.order;
    assert t.Keys == Ancestors(g, root);
    forall full | C3Table(g, full) && root in full ensures spent == C3Work(g, full, root) {
      AncestorsTabled(g, full, root);
      RowsAgree(g, t, full, t.Keys);
    }
  }

  /** C3 completeness: given enough budget, linearizing succeeds exactly on the classes
      that have a C3 linearization, and then with that one. */
  lemma C3Exact(g: Graph, root: Class, budget: Budget, r: Result<seq<Class>>)
    requires budget.nodes >= |Ancestors(g, root)| && budget.work >= Enough(g, root)
    requires r.Ok? ==> C3Of(g, root, r.value)
    requires r.Err? ==> match r.error
               case ConflictingPrecedence(_, _, _) => Conflict(g, root, r.error)
               case WorkBudgetExhausted(_, _) => budget.work < Enough(g, root)
               case _ => Justified(g, root, budget, r.error)
    ensures forall lin :: C3Of(g, root, lin) <==> r == Ok(lin)
  {
    hide Merge, Respects, Enough, Ancestors;
    forall lin | C3Of(g, root, lin) ensures r == Ok(lin) {
      var t :| C3Table(g, t) && root in t && t[root] == lin;
      if r.Ok? {
        var t' :| C3Table(g, t') && root in t' && t'[root] == r.value;
        C3Unique(g, t, g, t', root);
      } else {
        NoFailure(g, root, budget, r.error, t);
      }
    }
  }

  lemma NoFailure(g: Graph, root: Class, budget: Budget, e: Error, t: Table)
    requires C3Table(g, t) && root in t
    requires budget.nodes >= |Ancestors(g, root)|
    requires !e.WorkBudgetExhausted?
    ensures !Justified(g, root, budget, e) && !Conflict(g, root, e)
  {
    hide Merge, Respects, Ancestors, C3Table;
    RowIsAncestors(g, t, root);
    if e.Cycle? && e.path != [] && e.path[0] in t[root] {
      TableAcyclic(g, t, root, e.path);
    }
    if Conflict(g, root, e) {
      var n, t' :| ConflictAt(g, root, e, n, t');
      SameInputs(g, root, t, n, t');
    }
  }

  lemma SameInputs(g: Graph, root: Class, t: Table, n: Class, t': Table)
    requires C3Table(g, t) && root in t && n in t[root]
    requires C3Table(g, t') && ParentsIn(g, t', n)
    ensures Merge(Inputs(g, t', n)).Some? && Respects(Merge(Inputs(g, t', n)).value, Inputs(g, t', n))
  {
    hide Merge, Respects;
    RowContains(g, t, root, n);
    RowOf(g, t, n);
    forall p | p in Parents(g, n) ensures t'[p] == t[p] {
      C3Unique(g, t, g, t', p);
    }
    assert Inputs(g, t', n) == Inputs(g, t, n);
    MergeSound(Inputs(g, t', n));
  }
}

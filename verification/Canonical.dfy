/** Which order a C3 linearization is, told without merging: of all the classes that could
    come next, the one that the earliest parent inherits. */
module Canonical {
  import opened Collections
  import opened C3
  import opened Ancestry
  import opened Linearization

  /** Some direct parent inherits `a`, and neither it nor a parent declared before it
      inherits `b`. */
  ghost predicate Nearer(g: Graph, t: Table, n: Class, a: Class, b: Class) {
    exists i :: 0 <= i < |Parents(g, n)| && Inherits(t, Parents(g, n)[i], a) &&
      forall k :: 0 <= k <= i ==> !Inherits(t, Parents(g, n)[k], b)
  }

  ghost predicate Inherits(t: Table, p: Class, x: Class) {
    p in t && x in t[p]
  }

  /** Whatever a direct parent's linearization or the declared list puts before `d` has
      come already. */
  ghost predicate MayCome(g: Graph, t: Table, n: Class, come: seq<Class>, d: Class) {
    && (forall p, x :: p in Parents(g, n) && p in t && Precedes(t[p], x, d) ==> x in come)
    && (forall x :: Precedes(Parents(g, n), x, d) ==> x in come)
  }

  /** The class, then exactly what its parents inherit, once each, in an order that keeps
      the parents' linearizations and the declared order; and of two classes that both could
      come at a place, the one an earlier declared parent inherits comes first. */
  ghost predicate Canonical(g: Graph, t: Table, n: Class, lin: seq<Class>) {
    && lin != [] && lin[0] == n && NoRepeats(lin[1..])
    && (forall x :: x in lin[1..] <==> exists p :: p in Parents(g, n) && Inherits(t, p, x))
    && (forall p :: p in Parents(g, n) ==> p in t && Subsequence(t[p], lin[1..])) && Subsequence(Parents(g, n), lin[1..])
    && (forall k, j :: 0 <= k < j < |lin[1..]| && MayCome(g, t, n, lin[1..][..k], lin[1..][j]) ==> Nearer(g, t, n, lin[1..][k], lin[1..][j]))
  }

  /** Every class in the table inherits itself. */
  ghost predicate Reflexive(t: Table) {
    forall p :: p in t ==> p in t[p]
  }

  lemma MayComeReady(g: Graph, t: Table, n: Class, come: seq<Class>, d: Class)
    requires ParentsIn(g, t, n)
    ensures MayCome(g, t, n, come, d) <==> Ready(Inputs(g, t, n), come, d)
  {
    hide Precedes;
    var inputs, ps := Inputs(g, t, n), Parents(g, n);
    if MayCome(g, t, n, come, d) {
      forall i, x | 0 <= i < |inputs| && Precedes(inputs[i], x, d) ensures x in come {
        if i < |ps| { assert inputs[i] == t[ps[i]] && ps[i] in ps; }
      }
    }
    if Ready(inputs, come, d) {
      forall p, x | p in ps && p in t && Precedes(t[p], x, d) ensures x in come {
        InputAt(g, t, n, p);
        var i :| 0 <= i < |inputs| && inputs[i] == t[p];
        ReadyAfter(inputs, come, d, i, x);
      }
      forall x | Precedes(ps, x, d) ensures x in come {
        assert inputs[|ps|] == ps;
        ReadyAfter(inputs, come, d, |ps|, x);
      }
    }
  }

  lemma NearerSooner(g: Graph, t: Table, n: Class, a: Class, b: Class)
    requires ParentsIn(g, t, n) && Reflexive(t)
    ensures Nearer(g, t, n, a, b) <==> Sooner(Inputs(g, t, n), a, b)
  {
    var inputs, ps := Inputs(g, t, n), Parents(g, n);
    assert forall i :: 0 <= i < |ps| ==> ps[i] in ps && inputs[i] == t[ps[i]];
    if Nearer(g, t, n, a, b) {
      var i :| 0 <= i < |ps| && Inherits(t, ps[i], a) && forall k :: 0 <= k <= i ==> !Inherits(t, ps[k], b);
      forall k | 0 <= k <= i ensures b !in inputs[k] { assert !Inherits(t, ps[k], b); }
      assert a in inputs[i];
    }
    if Sooner(inputs, a, b) {
      var i :| 0 <= i < |inputs| && a in inputs[i] && forall k :: 0 <= k <= i ==> b !in inputs[k];
      var m :| 0 <= m < |ps| && m <= i && a in inputs[m] by {
        if i == |ps| {
          var m :| 0 <= m < |ps| && ps[m] == a;
          assert a in inputs[m];
        }
      }
      forall k | 0 <= k <= m ensures !Inherits(t, ps[k], b) { assert b !in inputs[k]; }
      assert Inherits(t, ps[m], a);
    }
  }

  lemma InheritedOccurs(g: Graph, t: Table, n: Class, x: Class)
    requires ParentsIn(g, t, n) && Reflexive(t)
    ensures Occurs(x, Inputs(g, t, n)) <==> exists p :: p in Parents(g, n) && Inherits(t, p, x)
  {
    var inputs, ps := Inputs(g, t, n), Parents(g, n);
    if Occurs(x, inputs) {
      var i :| 0 <= i < |inputs| && x in inputs[i];
      if i < |ps| {
        assert ps[i] in ps && Inherits(t, ps[i], x);
      } else {
        assert x in ps && Inherits(t, x, x);
      }
    }
    if p :| p in ps && Inherits(t, p, x) {
      InputAt(g, t, n, p);
      var i :| 0 <= i < |inputs| && inputs[i] == t[p];
      assert x in inputs[i];
    }
  }

  lemma KeepsInputs(g: Graph, t: Table, n: Class, order: seq<Class>)
    requires ParentsIn(g, t, n)
    ensures Respects(order, Inputs(g, t, n)) <==>
            NoRepeats(order) && Subsequence(Parents(g, n), order) && forall p :: p in Parents(g, n) ==> Subsequence(t[p], order)
  {
    hide NoRepeats, Subsequence;
    var inputs, ps := Inputs(g, t, n), Parents(g, n);
    assert inputs[|ps|] == ps && forall i :: 0 <= i < |ps| ==> ps[i] in ps && inputs[i] == t[ps[i]];
    if Respects(order, inputs) {
      forall p | p in ps ensures Subsequence(t[p], order) {
        InputAt(g, t, n, p);
      }
    }
  }

  /** One row: the merge of its inputs is exactly the canonical order. */
  lemma CanonicalRow(g: Graph, t: Table, n: Class)
    requires n in t && ParentsIn(g, t, n) && Reflexive(t)
    ensures Canonical(g, t, n, t[n]) <==> Row(g, t, n)
  {
    hide Merge, Nearer, MayCome, Precedes, Subsequence, NoRepeats, Inherits, Reflexive, Occurs, Ready, Sooner, Respects;
    var inputs, lin := Inputs(g, t, n), t[n];
    var order := if lin == [] then [] else lin[1..];
    MergeCharacterised(inputs, order);
    KeepsInputs(g, t, n, order);
    forall x ensures Occurs(x, inputs) <==> exists p :: p in Parents(g, n) && Inherits(t, p, x) { InheritedOccurs(g, t, n, x); }
    forall come, d ensures MayCome(g, t, n, come, d) <==> Ready(inputs, come, d) { MayComeReady(g, t, n, come, d); }
    forall a, b ensures Nearer(g, t, n, a, b) <==> Sooner(inputs, a, b) { NearerSooner(g, t, n, a, b); }
    if Row(g, t, n) { assert t[n][1..] == Merge(inputs).value; }
    if Canonical(g, t, n, t[n]) { assert t[n] == [n] + t[n][1..]; }
  }

  /** C3 linearizations are exactly the tables of canonical rows. */
  lemma C3Canonical(g: Graph, t: Table)
    ensures C3Table(g, t) <==> forall n :: n in t ==> Canonical(g, t, n, t[n])
  {
    hide Row, Canonical;
    if C3Table(g, t) {
      forall p | p in t ensures p in t[p] { RowOf(g, t, p); }
      forall n | n in t ensures Canonical(g, t, n, t[n]) {
        RowOf(g, t, n);
        CanonicalRow(g, t, n);
      }
    }
    if forall n :: n in t ==> Canonical(g, t, n, t[n]) {
      forall n | n in t ensures n in t[n] && ParentsIn(g, t, n) { CanonicalStarts(g, t, n); }
      forall n | n in t ensures Row(g, t, n) { CanonicalRow(g, t, n); }
    }
  }

  lemma CanonicalStarts(g: Graph, t: Table, n: Class)
    requires n in t && Canonical(g, t, n, t[n])
    ensures n in t[n] && ParentsIn(g, t, n)
  {
  }

  /** Neighbours after the class itself that no parent and no declared order puts this way
      round: the first is inherited by a parent declared before any that inherits the
      second. */
  lemma TieBreak(g: Graph, t: Table, n: Class, i: nat)
    requires C3Table(g, t) && n in t && 1 <= i < |t[n]| - 1
    requires forall p :: p in Parents(g, n) && p in t ==> !Precedes(t[p], t[n][i], t[n][i + 1])
    requires !Precedes(Parents(g, n), t[n][i], t[n][i + 1])
    ensures Nearer(g, t, n, t[n][i], t[n][i + 1])
  {
    hide Nearer, Precedes, Subsequence, Inherits, NoRepeats;
    C3Canonical(g, t);
    assert Canonical(g, t, n, t[n]);
    var order, c, d := t[n][1..], t[n][i], t[n][i + 1];
    assert order[i - 1] == c && order[i] == d;
    forall p, x | p in Parents(g, n) && p in t && Precedes(t[p], x, d) ensures x in order[..i - 1] { BeforeInOrder(t[p], order, x, i); }
    forall x | Precedes(Parents(g, n), x, d) ensures x in order[..i - 1] { BeforeInOrder(Parents(g, n), order, x, i); }
    assert MayCome(g, t, n, order[..i - 1], order[i]);
  }

  lemma BeforeInOrder(l: seq<Class>, order: seq<Class>, x: Class, i: nat)
    requires NoRepeats(order) && Subsequence(l, order) && 1 <= i < |order| && Precedes(l, x, order[i]) && !Precedes(l, order[i - 1], order[i])
    ensures x in order[..i - 1]
  {
    var p, q :| 0 <= p < q < |l| && l[p] == x && l[q] == order[i];
    SubsequenceOrder(l, order, p, q);
    var a, b :| 0 <= a < b < |order| && order[a] == x && order[b] == order[i];
    assert x != order[i - 1];
    assert order[..i - 1][a] == x;
  }
}

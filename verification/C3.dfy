/** The C3 merge: a greedy interleaving of precedence lists, what it guarantees, and
    why it gives up only when no interleaving exists at all. */
module C3 {
  import opened Collections

  /** Class identities; only their equality matters here. */
  type Class = nat

  /** `s` can be obtained from `order` by leaving elements out. */
  ghost predicate Subsequence(s: seq<Class>, order: seq<Class>)
    decreases |order|
  {
    if s == [] then true
    else if order == [] then false
    else if s[0] == order[0] then Subsequence(s[1..], order[1..])
    else Subsequence(s, order[1..])
  }

  ghost predicate Precedes(l: seq<Class>, a: Class, b: Class) {
    exists p, q :: 0 <= p < q < |l| && l[p] == a && l[q] == b
  }

  /** A duplicate-free order that respects every one of the lists. */
  ghost predicate Respects(order: seq<Class>, lists: seq<seq<Class>>) {
    && NoRepeats(order)
    && forall i :: 0 <= i < |lists| ==> Subsequence(lists[i], order)
  }

  function NonEmpty(lists: seq<seq<Class>>): (r: seq<seq<Class>>)
    ensures forall i :: 0 <= i < |r| ==> r[i] != [] && r[i] in lists
    ensures forall l :: l in lists && l != [] ==> l in r
    ensures |r| <= |lists|
  {
    if lists == [] then []
    else
      assert forall l :: l in lists <==> l == lists[0] || l in lists[1..];
      (if lists[0] == [] then [] else [lists[0]]) + NonEmpty(lists[1..])
  }

  /** Some list still wants another class before `c`. */
  predicate Blocked(lists: seq<seq<Class>>, c: Class)
    requires forall i :: 0 <= i < |lists| ==> lists[i] != []
  {
    exists i | 0 <= i < |lists| :: c in lists[i][1..]
  }

  /** The first list whose head nothing blocks, from position `from` on. */
  function FirstFree(lists: seq<seq<Class>>, from: nat): (r: Option<nat>)
    requires from <= |lists| && forall i :: 0 <= i < |lists| ==> lists[i] != []
    ensures r.Some? ==> from <= r.value < |lists| && !Blocked(lists, lists[r.value][0])
    ensures forall i :: from <= i < (if r.Some? then r.value else |lists|) ==> Blocked(lists, lists[i][0])
    decreases |lists| - from
  {
    if from == |lists| then None
    else if !Blocked(lists, lists[from][0]) then Some(from)
    else FirstFree(lists, from + 1)
  }

  function Drop(l: seq<Class>, c: Class): seq<Class> {
    if l != [] && l[0] == c then l[1..] else l
  }

  function Advance(lists: seq<seq<Class>>, c: Class): (r: seq<seq<Class>>)
    ensures |r| == |lists| && forall i :: 0 <= i < |lists| ==> r[i] == Drop(lists[i], c)
  {
    seq(|lists|, i requires 0 <= i < |lists| => Drop(lists[i], c))
  }

  function Size(lists: seq<seq<Class>>): nat {
    if lists == [] then 0 else |lists[0]| + Size(lists[1..])
  }

  lemma {:induction false} SizeNonEmpty(lists: seq<seq<Class>>)
    ensures Size(NonEmpty(lists)) == Size(lists)
    decreases |lists|
  {
    if lists != [] {
      SizeNonEmpty(lists[1..]);
      if lists[0] != [] {
        assert NonEmpty(lists) == [lists[0]] + NonEmpty(lists[1..]);
      } else {
        assert NonEmpty(lists) == NonEmpty(lists[1..]);
      }
    }
  }

  lemma {:induction false} SizeAdvance(lists: seq<seq<Class>>, c: Class, i: nat)
    requires i < |lists| && lists[i] != [] && lists[i][0] == c
    ensures Size(Advance(lists, c)) < Size(lists)
    decreases |lists|
  {
    assert Advance(lists, c)[1..] == Advance(lists[1..], c);
    SizeAdvanceAtMost(lists[1..], c);
    if i > 0 {
      SizeAdvance(lists[1..], c, i - 1);
    }
  }

  lemma {:induction false} SizeAdvanceAtMost(lists: seq<seq<Class>>, c: Class)
    ensures Size(Advance(lists, c)) <= Size(lists)
    decreases |lists|
  {
    if lists != [] {
      assert Advance(lists, c)[1..] == Advance(lists[1..], c);
      SizeAdvanceAtMost(lists[1..], c);
    }
  }

  /** The merge itself: repeatedly take the first head that no list wants later. */
  function Merge(lists: seq<seq<Class>>): Option<seq<Class>>
    decreases Size(lists)
  {
    var live := NonEmpty(lists);
    if live == [] then Some([])
    else
      var free := FirstFree(live, 0);
      if free.None? then None
      else
        var c := live[free.value][0];
        SizeNonEmpty(lists);
        SizeAdvance(live, c, free.value);
        var rest := Merge(Advance(live, c));
        if rest.None? then None else Some([c] + rest.value)
  }

  // ---------- subsequences ----------

  lemma {:induction false} SubsequenceElements(s: seq<Class>, order: seq<Class>, x: Class)
    requires Subsequence(s, order) && x in s
    ensures x in order
    decreases |order|
  {
    if s[0] == order[0] {
      if x != s[0] {
        assert x in s[1..];
        SubsequenceElements(s[1..], order[1..], x);
      }
    } else {
      SubsequenceElements(s, order[1..], x);
    }
  }

  lemma {:induction false} SubsequenceTail(s: seq<Class>, order: seq<Class>)
    requires Subsequence(s, order) && s != []
    ensures Subsequence(s[1..], order)
    decreases |order|, 1
  {
    if s[0] != order[0] {
      SubsequenceTail(s, order[1..]);
    }
    SubsequenceLater(s[1..], order);
  }

  lemma {:induction false} SubsequenceLater(s: seq<Class>, order: seq<Class>)
    requires order != [] && Subsequence(s, order[1..])
    ensures Subsequence(s, order)
    decreases |order|, 0
  {
    if s != [] && s[0] == order[0] {
      SubsequenceTail(s, order[1..]);
    }
  }

  lemma {:induction false} SubsequenceLength(s: seq<Class>, order: seq<Class>)
    requires Subsequence(s, order)
    ensures |s| <= |order|
    decreases |order|
  {
    if s != [] {
      if s[0] == order[0] {
        SubsequenceLength(s[1..], order[1..]);
      } else {
        SubsequenceLength(s, order[1..]);
      }
    }
  }

  lemma {:induction false} SubsequenceTransitive(a: seq<Class>, b: seq<Class>, c: seq<Class>)
    requires Subsequence(a, b) && Subsequence(b, c)
    ensures Subsequence(a, c)
    decreases |c|
  {
    if a != [] {
      if b[0] != c[0] {
        SubsequenceTransitive(a, b, c[1..]);
      } else if a[0] == b[0] {
        SubsequenceTransitive(a[1..], b[1..], c[1..]);
      } else {
        SubsequenceTransitive(a, b[1..], c[1..]);
      }
      if a[0] == c[0] && (b[0] != c[0] || a[0] != b[0]) { SubsequenceTail(a, c[1..]); }
    }
  }

  lemma {:induction false} SubsequenceNoRepeats(s: seq<Class>, order: seq<Class>)
    requires Subsequence(s, order) && NoRepeats(order)
    ensures NoRepeats(s)
    decreases |order|
  {
    if s != [] {
      assert NoRepeats(order[1..]);
      if s[0] == order[0] {
        SubsequenceNoRepeats(s[1..], order[1..]);
        assert s == [s[0]] + s[1..];
        forall x | x in s[1..] ensures x != s[0] {
          SubsequenceElements(s[1..], order[1..], x);
        }
        HeadIsNew(s[0], s[1..]);
      } else {
        SubsequenceNoRepeats(s, order[1..]);
      }
    }
  }

  /** A subsequence keeps the order of its elements. */
  lemma {:induction false} SubsequenceOrder(s: seq<Class>, order: seq<Class>, i: nat, j: nat)
    requires Subsequence(s, order) && i < j < |s|
    ensures Precedes(order, s[i], s[j])
    decreases |order|
  {
    if s[0] == order[0] {
      if i == 0 {
        assert s[1..][j - 1] == s[j];
        SubsequenceElements(s[1..], order[1..], s[j]);
        var q :| 0 <= q < |order[1..]| && order[1..][q] == s[j];
        assert order[0] == s[i] && order[q + 1] == s[j];
      } else {
        SubsequenceOrder(s[1..], order[1..], i - 1, j - 1);
        LaterPrecedes(order, s[i], s[j]);
      }
    } else {
      SubsequenceOrder(s, order[1..], i, j);
      LaterPrecedes(order, s[i], s[j]);
    }
  }

  lemma LaterPrecedes(order: seq<Class>, a: Class, b: Class)
    requires order != [] && Precedes(order[1..], a, b)
    ensures Precedes(order, a, b)
  {
    var p, q :| 0 <= p < q < |order[1..]| && order[1..][p] == a && order[1..][q] == b;
    assert order[p + 1] == a && order[q + 1] == b;
  }

  // ---------- soundness ----------

  ghost predicate Occurs(x: Class, lists: seq<seq<Class>>) {
    exists i :: 0 <= i < |lists| && x in lists[i]
  }

  lemma DropElements(l: seq<Class>, c: Class, x: Class)
    ensures x in Drop(l, c) ==> x in l
    ensures x in l && x != c ==> x in Drop(l, c)
  {
    if l != [] { assert l == [l[0]] + l[1..]; }
  }

  /** After taking an unblocked head it occurs nowhere, and everything else still does. */
  lemma TakenIsGone(lists: seq<seq<Class>>, live: seq<seq<Class>>, free: nat, x: Class)
    requires live == NonEmpty(lists) && free < |live| && !Blocked(live, live[free][0])
    ensures Occurs(x, lists) <==> x == live[free][0] || Occurs(x, Advance(live, live[free][0]))
    ensures !Occurs(live[free][0], Advance(live, live[free][0]))
  {
    var c := live[free][0];
    var next := Advance(live, c);
    hide Drop;
    if Occurs(x, lists) {
      var i :| 0 <= i < |lists| && x in lists[i];
      assert lists[i] in live;
      var j :| 0 <= j < |live| && live[j] == lists[i];
      DropElements(live[j], c, x);
    }
    if Occurs(x, next) {
      var j :| 0 <= j < |next| && x in next[j];
      DropElements(live[j], c, x);
      var i :| 0 <= i < |lists| && lists[i] == live[j];
    }
    assert c in live[free] && live[free] in lists;
    var k :| 0 <= k < |lists| && lists[k] == live[free];
    assert Occurs(c, lists);
    NowhereLeft(live, c);
  }

  lemma NowhereLeft(live: seq<seq<Class>>, c: Class)
    requires (forall j :: 0 <= j < |live| ==> live[j] != []) && !Blocked(live, c)
    ensures !Occurs(c, Advance(live, c))
  {
    var next := Advance(live, c);
    forall j | 0 <= j < |next| ensures c !in next[j] {
      assert c !in live[j][1..];
      assert live[j] == [live[j][0]] + live[j][1..];
    }
  }

  lemma NothingOccurs(lists: seq<seq<Class>>)
    requires NonEmpty(lists) == []
    ensures NoRepeats<Class>([]) && forall x :: !Occurs(x, lists)
  {
    forall i | 0 <= i < |lists| ensures lists[i] == [] {
      assert lists[i] in lists;
    }
  }

  lemma HeadIsNew(c: Class, rest: seq<Class>)
    requires NoRepeats(rest) && c !in rest
    ensures NoRepeats([c] + rest)
  {
  }

  /** A merge is duplicate-free, contains exactly what occurs, and respects every list. */
  lemma {:induction false} MergeSound(lists: seq<seq<Class>>)
    requires Merge(lists).Some?
    ensures Respects(Merge(lists).value, lists)
    ensures forall x :: x in Merge(lists).value <==> Occurs(x, lists)
    decreases Size(lists)
  {
    hide NoRepeats, Occurs, Blocked, Size, FirstFree;
    var live := NonEmpty(lists);
    if live == [] {
      NothingOccurs(lists);
      forall i | 0 <= i < |lists| ensures lists[i] == [] {
        assert lists[i] in lists;
      }
    } else {
      var free := FirstFree(live, 0).value;
      var c := live[free][0];
      var next := Advance(live, c);
      SizeNonEmpty(lists);
      SizeAdvance(live, c, free);
      MergeSound(next);
      var rest := Merge(next).value;
      assert Merge(lists).value == [c] + rest;
      TakenIsGone(lists, live, free, c);
      assert NoRepeats([c] + rest) by { assert c !in rest; HeadIsNew(c, rest); }
      forall x ensures x in [c] + rest <==> Occurs(x, lists) {
        TakenIsGone(lists, live, free, x);
      }
      forall i | 0 <= i < |lists| ensures Subsequence(lists[i], [c] + rest) {
        RespectsHead(lists, live, c, rest, i);
      }
    }
  }

  lemma RespectsHead(lists: seq<seq<Class>>, live: seq<seq<Class>>, c: Class, rest: seq<Class>, i: nat)
    requires live == NonEmpty(lists) && i < |lists|
    requires forall j :: 0 <= j < |live| ==> Subsequence(Drop(live[j], c), rest)
    ensures Subsequence(lists[i], [c] + rest)
  {
    if lists[i] != [] {
      assert lists[i] in lists;
      var j :| 0 <= j < |live| && live[j] == lists[i];
      assert ([c] + rest)[1..] == rest;
      if lists[i][0] != c {
        SubsequenceLater(lists[i], [c] + rest);
      }
    }
  }

  // ---------- completeness ----------

  ghost predicate AllHeadsBlocked(lists: seq<seq<Class>>) {
    && (forall i :: 0 <= i < |lists| ==> lists[i] != [])
    && forall i :: 0 <= i < |lists| ==> Blocked(lists, lists[i][0])
  }

  /** A blocked head cannot come first in a duplicate-free order. */
  lemma BlockedNotFirst(lists: seq<seq<Class>>, order: seq<Class>, i: nat)
    requires AllHeadsBlocked(lists) && Respects(order, lists) && i < |lists|
    ensures order != [] && lists[i][0] != order[0]
  {
    hide NoRepeats, Subsequence;
    assert Subsequence(lists[i], order);
    SubsequenceNonEmpty(lists[i], order);
    if lists[i][0] == order[0] {
      assert Blocked(lists, order[0]);
      var j :| 0 <= j < |lists| && order[0] in lists[j][1..];
      LaterInOrder(lists[j], order, order[0]);
      FirstNotLater(order);
    }
  }

  lemma LaterInOrder(s: seq<Class>, order: seq<Class>, x: Class)
    requires Subsequence(s, order) && s != [] && x in s[1..]
    ensures order != [] && x in order[1..]
  {
    if s[0] == order[0] {
      SubsequenceElements(s[1..], order[1..], x);
    } else {
      assert s == [s[0]] + s[1..];
      SubsequenceElements(s, order[1..], x);
    }
  }

  lemma SubsequenceNonEmpty(s: seq<Class>, order: seq<Class>)
    requires Subsequence(s, order) && s != []
    ensures order != []
  {
  }

  lemma FirstNotLater(order: seq<Class>)
    requires NoRepeats(order) && order != []
    ensures order[0] !in order[1..] && NoRepeats(order[1..])
  {
    forall i | 0 <= i < |order[1..]| ensures order[1..][i] != order[0] {
      assert order[1..][i] == order[i + 1];
    }
  }

  /** If every head is blocked, no duplicate-free order respects the lists. */
  lemma {:induction false} AllBlocked(lists: seq<seq<Class>>, order: seq<Class>)
    requires lists != [] && AllHeadsBlocked(lists)
    ensures !Respects(order, lists)
    decreases |order|
  {
    hide NoRepeats, AllHeadsBlocked;
    if Respects(order, lists) {
      forall i | 0 <= i < |lists| ensures order != [] && Subsequence(lists[i], order[1..]) {
        BlockedNotFirst(lists, order, i);
        assert Subsequence(lists[i], order);
      }
      assert Subsequence(lists[0], order[1..]);
      FirstNotLater(order);
      AllBlocked(lists, order[1..]);
    }
  }

  /** The merge gives up only if no duplicate-free order respects the lists. */
  lemma {:induction false} MergeComplete(lists: seq<seq<Class>>, order: seq<Class>)
    requires Merge(lists).None?
    ensures !Respects(order, lists)
    decreases Size(lists)
  {
    var live := NonEmpty(lists);
    if Respects(order, lists) {
      forall j | 0 <= j < |live| ensures Subsequence(live[j], order) {
        var i :| 0 <= i < |lists| && lists[i] == live[j];
      }
      var free := FirstFree(live, 0);
      if free.None? {
        AllBlocked(live, order);
      } else {
        var c := live[free.value][0];
        var next := Advance(live, c);
        SizeNonEmpty(lists);
        SizeAdvance(live, c, free.value);
        forall j | 0 <= j < |next| ensures Subsequence(next[j], order) {
          if live[j][0] == c { SubsequenceTail(live[j], order); }
        }
        MergeComplete(next, order);
      }
    }
  }

  /** Both together: a merge exists exactly when some respecting order does. */
  lemma MergeExact(lists: seq<seq<Class>>)
    ensures Merge(lists).Some? <==> exists order :: Respects(order, lists)
  {
    if Merge(lists).Some? {
      MergeSound(lists);
      assert Respects(Merge(lists).value, lists);
    }
    if order :| Respects(order, lists) {
      if Merge(lists).None? { MergeComplete(lists, order); }
    }
  }

  // ---------- which of the respecting orders ----------

  /** In every list, all that comes before `d` is in `taken`. */
  ghost predicate Ready(lists: seq<seq<Class>>, taken: seq<Class>, d: Class) {
    forall i, x :: 0 <= i < |lists| && Precedes(lists[i], x, d) ==> x in taken
  }

  /** Some list has `a`, and neither it nor a list before it has `b`. */
  ghost predicate Sooner(lists: seq<seq<Class>>, a: Class, b: Class) {
    exists i :: 0 <= i < |lists| && a in lists[i] && forall k :: 0 <= k <= i ==> b !in lists[k]
  }

  /** Of all that could come at a place, what comes is what an earlier list has. */
  ghost predicate Earliest(lists: seq<seq<Class>>, order: seq<Class>) {
    forall k, j :: 0 <= k < j < |order| && Ready(lists, order[..k], order[j]) ==> Sooner(lists, order[k], order[j])
  }

  lemma {:induction false} SoonerNonEmpty(lists: seq<seq<Class>>, a: Class, b: Class)
    requires Sooner(NonEmpty(lists), a, b)
    ensures Sooner(lists, a, b)
    decreases |lists|
  {
    hide Sooner;
    if lists == [] {
      NoneSooner(a, b);
    } else if lists[0] == [] {
      assert NonEmpty(lists) == NonEmpty(lists[1..]);
      SoonerNonEmpty(lists[1..], a, b);
      SoonerLater(lists, a, b);
    } else {
      assert NonEmpty(lists) == [lists[0]] + NonEmpty(lists[1..]);
      SoonerParts(lists[0], NonEmpty(lists[1..]), a, b);
      if Sooner(NonEmpty(lists[1..]), a, b) {
        SoonerNonEmpty(lists[1..], a, b);
        SoonerLater(lists, a, b);
      } else {
        SoonerFirst(lists, a, b);
      }
    }
  }

  lemma NoneSooner(a: Class, b: Class)
    ensures !Sooner([], a, b)
  {
  }

  lemma SoonerFirst(lists: seq<seq<Class>>, a: Class, b: Class)
    requires lists != [] && a in lists[0] && b !in lists[0]
    ensures Sooner(lists, a, b)
  {
  }

  lemma SoonerParts(first: seq<Class>, rest: seq<seq<Class>>, a: Class, b: Class)
    requires Sooner([first] + rest, a, b)
    ensures b !in first && (a in first || Sooner(rest, a, b))
  {
    var lists := [first] + rest;
    var i :| 0 <= i < |lists| && a in lists[i] && forall k :: 0 <= k <= i ==> b !in lists[k];
    assert lists[0] == first;
    if i > 0 {
      assert a in rest[i - 1];
      forall k | 0 <= k <= i - 1 ensures b !in rest[k] { assert rest[k] == lists[k + 1]; }
    }
  }

  lemma SoonerLater(lists: seq<seq<Class>>, a: Class, b: Class)
    requires lists != [] && b !in lists[0] && Sooner(lists[1..], a, b)
    ensures Sooner(lists, a, b)
  {
    var i :| 0 <= i < |lists[1..]| && a in lists[1..][i] && forall k :: 0 <= k <= i ==> b !in lists[1..][k];
    forall k | 0 <= k <= i + 1 ensures b !in lists[k] {
      if k > 0 { assert lists[k] == lists[1..][k - 1]; }
    }
    assert a in lists[i + 1];
  }

  lemma SoonerAdvance(live: seq<seq<Class>>, c: Class, a: Class, b: Class)
    requires Sooner(Advance(live, c), a, b) && b != c
    ensures Sooner(live, a, b)
  {
    hide Drop;
    var next := Advance(live, c);
    var i :| 0 <= i < |next| && a in next[i] && forall k :: 0 <= k <= i ==> b !in next[k];
    DropElements(live[i], c, a);
    forall k | 0 <= k <= i ensures b !in live[k] { DropElements(live[k], c, b); }
  }

  /** What is ready after `c` and more were taken is ready after those in what `c` leaves. */
  lemma ReadyAdvance(lists: seq<seq<Class>>, live: seq<seq<Class>>, c: Class, taken: seq<Class>, d: Class)
    requires live == NonEmpty(lists) && Ready(lists, [c] + taken, d) && !Occurs(c, Advance(live, c))
    ensures Ready(Advance(live, c), taken, d)
  {
    var next := Advance(live, c);
    forall i, x | 0 <= i < |next| && Precedes(next[i], x, d) ensures x in taken {
      var p, q :| 0 <= p < q < |next[i]| && next[i][p] == x && next[i][q] == d;
      assert x in next[i];
      var o := |live[i]| - |next[i]|;
      assert live[i][p + o] == x && live[i][q + o] == d;
      assert live[i] in lists;
      var k :| 0 <= k < |lists| && lists[k] == live[i];
      assert Precedes(lists[k], x, d);
      assert x in [c] + taken;
    }
  }

  /** What is ready from the start is in no list up to the one the merge takes from. */
  lemma FirstSooner(lists: seq<seq<Class>>, live: seq<seq<Class>>, free: nat, d: Class)
    requires live == NonEmpty(lists) && FirstFree(live, 0) == Some(free) && d != live[free][0] && Ready(lists, [], d)
    ensures Sooner(lists, live[free][0], d)
  {
    forall k | 0 <= k < |live| ensures d in live[k] ==> d == live[k][0] && !Blocked(live, d) { ReadyHead(lists, live, k, d); }
    assert live[free][0] in live[free];
    assert forall k :: 0 <= k <= free ==> d !in live[k];
    SoonerNonEmpty(lists, live[free][0], d);
  }

  lemma ReadyAfter(lists: seq<seq<Class>>, taken: seq<Class>, d: Class, i: nat, x: Class)
    requires Ready(lists, taken, d) && i < |lists| && Precedes(lists[i], x, d)
    ensures x in taken
  {
  }

  lemma ReadyHead(lists: seq<seq<Class>>, live: seq<seq<Class>>, k: nat, d: Class)
    requires live == NonEmpty(lists) && k < |live| && Ready(lists, [], d)
    ensures d in live[k] ==> d == live[k][0]
    ensures !Blocked(live, d)
  {
    forall j | 0 <= j < |live| ensures d !in live[j][1..] {
      if d in live[j][1..] {
        var q :| 0 <= q < |live[j][1..]| && live[j][1..][q] == d;
        assert live[j][q + 1] == d && live[j] in lists;
        var i :| 0 <= i < |lists| && lists[i] == live[j];
        assert lists[i][0] == live[j][0] && lists[i][q + 1] == d;
        ReadyAfter(lists, [], d, i, live[j][0]);
      }
    }
    assert live[k] == [live[k][0]] + live[k][1..];
  }

  lemma {:induction false} MergeEarliest(lists: seq<seq<Class>>)
    requires Merge(lists).Some?
    ensures Earliest(lists, Merge(lists).value)
    decreases Size(lists)
  {
    hide Blocked, Size, Ready, Sooner, Occurs, NoRepeats;
    var live := NonEmpty(lists);
    if live != [] {
      var free := FirstFree(live, 0).value;
      var c := live[free][0];
      var next := Advance(live, c);
      SizeNonEmpty(lists);
      SizeAdvance(live, c, free);
      MergeEarliest(next);
      MergeSound(lists);
      TakenIsGone(lists, live, free, c);
      var rest := Merge(next).value;
      var order := [c] + rest;
      assert Merge(lists).value == order;
      forall k, j | 0 <= k < j < |order| && Ready(lists, order[..k], order[j]) ensures Sooner(lists, order[k], order[j]) {
        EarliestStep(lists, live, free, rest, k, j);
      }
    }
  }

  lemma EarliestStep(lists: seq<seq<Class>>, live: seq<seq<Class>>, free: nat, rest: seq<Class>, k: nat, j: nat)
    requires live == NonEmpty(lists) && FirstFree(live, 0) == Some(free)
    requires Earliest(Advance(live, live[free][0]), rest) && NoRepeats([live[free][0]] + rest)
    requires !Occurs(live[free][0], Advance(live, live[free][0]))
    requires k < j < |rest| + 1 && Ready(lists, ([live[free][0]] + rest)[..k], ([live[free][0]] + rest)[j])
    ensures Sooner(lists, ([live[free][0]] + rest)[k], ([live[free][0]] + rest)[j])
  {
    hide Ready, Sooner, Occurs, Blocked;
    var c := live[free][0];
    var order := [c] + rest;
    assert order[j] == rest[j - 1] && order[j] != order[0];
    if k == 0 {
      assert order[..0] == [];
      FirstSooner(lists, live, free, order[j]);
    } else {
      assert order[..k] == [c] + rest[..k - 1];
      ReadyAdvance(lists, live, c, rest[..k - 1], order[j]);
      SoonerAdvance(live, c, order[k], order[j]);
      SoonerNonEmpty(lists, order[k], order[j]);
    }
  }

  // ---------- and no other ----------

  lemma SoonerNotBoth(lists: seq<seq<Class>>, a: Class, b: Class)
    requires Sooner(lists, a, b)
    ensures !Sooner(lists, b, a)
  {
  }

  /** In a respecting order everything before an element is there when its turn comes. */
  lemma ReadyInTurn(lists: seq<seq<Class>>, order: seq<Class>, k: nat)
    requires Respects(order, lists) && k < |order|
    ensures Ready(lists, order[..k], order[k])
  {
    forall i, x | 0 <= i < |lists| && Precedes(lists[i], x, order[k]) ensures x in order[..k] {
      var p, q :| 0 <= p < q < |lists[i]| && lists[i][p] == x && lists[i][q] == order[k];
      SubsequenceOrder(lists[i], order, p, q);
      var a, b :| 0 <= a < b < |order| && order[a] == x && order[b] == order[k];
      assert order[..k][a] == x;
    }
  }

  /** Two such orders of the same classes agree on every prefix. */
  lemma {:induction false} EarliestUnique(lists: seq<seq<Class>>, a: seq<Class>, b: seq<Class>, k: nat)
    requires Respects(a, lists) && Respects(b, lists) && Earliest(lists, a) && Earliest(lists, b)
    requires (forall x :: x in a <==> x in b) && k <= |a|
    ensures k <= |b| && a[..k] == b[..k]
    decreases k
  {
    hide Ready, Sooner;
    if k > 0 {
      EarliestUnique(lists, a, b, k - 1);
      var n := k - 1;
      assert forall q :: 0 <= q < n ==> a[q] == a[..n][q] == b[..n][q] == b[q];
      assert a[n] in b;
      var j :| 0 <= j < |b| && b[j] == a[n];
      assert j >= n;
      if j > n {
        assert b[n] in a;
        var i :| 0 <= i < |a| && a[i] == b[n];
        assert i >= n;
        ReadyInTurn(lists, a, n);
        ReadyInTurn(lists, b, n);
        assert Sooner(lists, b[n], a[n]) && Sooner(lists, a[n], b[n]);
        SoonerNotBoth(lists, a[n], b[n]);
      }
      assert a[..k] == a[..n] + [a[n]] && b[..k] == b[..n] + [b[n]];
    }
  }

  /** The merge without its algorithm: the respecting order of exactly the listed classes in
      which, of all that could come next, the one in the earliest list does. */
  lemma MergeCharacterised(lists: seq<seq<Class>>, order: seq<Class>)
    ensures Merge(lists) == Some(order) <==>
            Respects(order, lists) && (forall x :: x in order <==> Occurs(x, lists)) && Earliest(lists, order)
  {
    hide Occurs, Earliest, Merge, Respects;
    if Merge(lists).Some? {
      MergeSound(lists);
      MergeEarliest(lists);
    }
    if Respects(order, lists) && (forall x :: x in order <==> Occurs(x, lists)) && Earliest(lists, order) {
      if Merge(lists).None? { MergeComplete(lists, order); }
      EarliestUnique(lists, Merge(lists).value, order, |Merge(lists).value|);
      EarliestUnique(lists, order, Merge(lists).value, |order|);
      assert order[..|order|] == order && Merge(lists).value[..|Merge(lists).value|] == Merge(lists).value;
    }
  }
}

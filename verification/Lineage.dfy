/** Class lineage: bounded traversal of declared parents with cycle evidence, and the
    C3 and declared-order linearizations built on it. */
module Lineage {
  import opened Collections
  import opened C3

  datatype Error =
    | Cycle(path: seq<Class>)
    | ConflictingPrecedence(parents: (Class, Class), before: Class, after: Class)
    | NodeBudgetExhausted(limit: nat, required: nat)
    | WorkBudgetExhausted(limit: nat, performed: nat)

  datatype Result<+T> = Ok(value: T) | Err(error: Error)

  datatype Budget = Budget(nodes: nat, work: nat)

  // ---------- merging within a work limit ----------

  ghost predicate Suffix(r: seq<Class>, l: seq<Class>) {
    |r| <= |l| && l[|l| - |r|..] == r
  }

  /** Every remaining list is what is left of an input list. */
  ghost predicate LeftOf(lists: seq<seq<Class>>, inputs: seq<seq<Class>>) {
    forall r :: r in lists ==> exists l :: l in inputs && Suffix(r, l)
  }

  lemma LeftOfAdvance(lists: seq<seq<Class>>, inputs: seq<seq<Class>>, c: Class)
    requires LeftOf(lists, inputs)
    ensures LeftOf(NonEmpty(lists), inputs) && LeftOf(Advance(lists, c), inputs)
  {
    forall r | r in NonEmpty(lists) ensures exists l :: l in inputs && Suffix(r, l) {
      var i :| 0 <= i < |NonEmpty(lists)| && NonEmpty(lists)[i] == r;
    }
    forall r | r in Advance(lists, c) ensures exists l :: l in inputs && Suffix(r, l) {
      var i :| 0 <= i < |lists| && Advance(lists, c)[i] == r;
      assert lists[i] in lists;
      var l :| l in inputs && Suffix(lists[i], l);
      SuffixDrop(lists[i], l, c);
    }
  }

  lemma SuffixDrop(r: seq<Class>, l: seq<Class>, c: Class)
    requires Suffix(r, l)
    ensures Suffix(Drop(r, c), l)
  {
    if r != [] { assert l[|l| - (|r| - 1)..] == l[|l| - |r|..][1..]; }
  }

  lemma SuffixPrecedes(r: seq<Class>, l: seq<Class>, b: Class)
    requires Suffix(r, l) && r != [] && b in r[1..]
    ensures Precedes(l, r[0], b)
  {
    var q :| 0 <= q < |r[1..]| && r[1..][q] == b;
    var d := |l| - |r|;
    assert l[d] == r[0] && l[d + 1 + q] == b;
  }

  /** The first free list, one unit of work per candidate examined. */
  /** How many heads are looked at until one is free. */
  function LooksOnce(lists: seq<seq<Class>>): (n: nat)
    requires forall i :: 0 <= i < |lists| ==> lists[i] != []
    ensures n <= |lists|
  {
    var free := FirstFree(lists, 0);
    if free.Some? then free.value + 1 else |lists|
  }

  /** How many heads a whole merge looks at. */
  function Looks(lists: seq<seq<Class>>): nat
    decreases Size(lists)
  {
    var live := NonEmpty(lists);
    if live == [] then 0
    else
      var free := FirstFree(live, 0);
      if free.None? then LooksOnce(live)
      else
        SizeNonEmpty(lists);
        SizeAdvance(live, live[free.value][0], free.value);
        LooksOnce(live) + Looks(Advance(live, live[free.value][0]))
  }

  /** Every merged class was looked at. */
  lemma {:induction false} LooksAtLeast(lists: seq<seq<Class>>)
    requires Merge(lists).Some?
    ensures |Merge(lists).value| <= Looks(lists)
    decreases Size(lists)
  {
    var live := NonEmpty(lists);
    if live != [] {
      var free := FirstFree(live, 0).value;
      SizeNonEmpty(lists);
      SizeAdvance(live, live[free][0], free);
      LooksAtLeast(Advance(live, live[free][0]));
    }
  }

  lemma LooksUnfolds(lists: seq<seq<Class>>)
    ensures var live := NonEmpty(lists);
      && (live == [] ==> Looks(lists) == 0)
      && (live != [] && FirstFree(live, 0).None? ==> Looks(lists) == LooksOnce(live))
      && (live != [] && FirstFree(live, 0).Some? ==>
            Looks(lists) == LooksOnce(live) + Looks(Advance(live, live[FirstFree(live, 0).value][0])))
  {
  }

  method Select(lists: seq<seq<Class>>, limit: nat, used: nat) returns (r: Result<Option<nat>>, spent: nat)
    requires used <= limit && forall i :: 0 <= i < |lists| ==> lists[i] != []
    ensures r.Ok? ==> r.value == FirstFree(lists, 0) && spent == used + LooksOnce(lists) <= limit
    ensures r.Err? ==> r.error == WorkBudgetExhausted(limit, limit) && limit < used + LooksOnce(lists) && spent == limit
  {
    spent := used;
    for i := 0 to |lists|
      invariant spent == used + i <= limit
      invariant FirstFree(lists, i) == FirstFree(lists, 0)
    {
      if spent == limit { return Err(WorkBudgetExhausted(limit, spent)), spent; }
      spent := spent + 1;
      if !Blocked(lists, lists[i][0]) { return Ok(Some(i)), spent; }
    }
    r := Ok(None);
  }

  /** The first list that wants something before `c`: it exists because `c` is blocked. */
  method Blocker(lists: seq<seq<Class>>, c: Class) returns (index: nat)
    requires (forall i :: 0 <= i < |lists| ==> lists[i] != []) && Blocked(lists, c)
    ensures index < |lists| && c in lists[index][1..]
    ensures forall j :: 0 <= j < index ==> c !in lists[j][1..]
  {
    index := 0;
    while c !in lists[index][1..]
      invariant index < |lists| && forall j :: 0 <= j < index ==> c !in lists[j][1..]
      decreases |lists| - index
    {
      if index + 1 == |lists| {
        assert forall j :: 0 <= j < |lists| ==> c !in lists[j][1..];
      }
      index := index + 1;
    }
  }

  /** What the loop has taken: distinct classes that occur nowhere any more. */
  ghost predicate Taken(merged: seq<Class>, lists: seq<seq<Class>>, elements: set<Class>) {
    && NoRepeats(merged)
    && (forall x :: x in merged ==> x in elements && !Occurs(x, lists))
    && forall x :: Occurs(x, lists) ==> x in elements
  }

  lemma TakenMore(merged: seq<Class>, lists: seq<seq<Class>>, elements: set<Class>, live: seq<seq<Class>>, free: nat)
    requires Taken(merged, lists, elements)
    requires live == NonEmpty(lists) && free < |live| && !Blocked(live, live[free][0])
    ensures Taken(merged + [live[free][0]], Advance(live, live[free][0]), elements)
  {
    hide Blocked, Occurs;
    var c := live[free][0];
    TakenIsGone(lists, live, free, c);
    forall x ensures Occurs(x, lists) <==> x == c || Occurs(x, Advance(live, c)) {
      TakenIsGone(lists, live, free, x);
    }
  }

  /** Merges the inputs below `node`. A conflict is reported only if no duplicate-free
      order respects the inputs, and names a precedence one of them really demands. */
  method MergeLists(node: Class, inputs: seq<seq<Class>>, limit: nat, used: nat, ghost elements: set<Class>)
      returns (r: Result<seq<Class>>, spent: nat)
    requires used <= limit && forall x :: Occurs(x, inputs) ==> x in elements
    ensures used <= spent <= limit
    ensures r.Ok? ==> Merge(inputs).Some? && r.value == [node] + Merge(inputs).value
    ensures r.Err? && r.error.ConflictingPrecedence? ==>
              && Merge(inputs).None?
              && r.error.parents == (r.error.after, r.error.before)
              && exists l :: l in inputs && Precedes(l, r.error.before, r.error.after)
    ensures r.Err? ==> r.error.ConflictingPrecedence? || r.error == WorkBudgetExhausted(limit, limit)
    // work: exactly one unit per head looked at
    ensures r.Ok? || r.error.ConflictingPrecedence? ==> spent == used + Looks(inputs)
    ensures r.Err? && r.error.WorkBudgetExhausted? ==> limit < used + Looks(inputs)
    // at most one round per occurring class and one more
    ensures spent - used <= |inputs| * (|elements| + 1)
    ensures r.Err? && r.error.WorkBudgetExhausted? ==> limit - used < |inputs| * (|elements| + 1)
  {
    hide Merging, Occurs, Blocked, Precedes, NonEmpty, Advance, Merge, Looks, LooksOnce;
    var lists, merged := inputs, [];
    spent := used;
    StartMerge(inputs, elements);
    while true
      invariant used <= spent <= limit && |lists| <= |inputs|
      invariant spent - used <= |inputs| * |merged| && spent - used + Looks(lists) == Looks(inputs)
      invariant Merging(inputs, elements, lists, merged)
      decreases Size(lists)
    {
      MergingFacts(inputs, elements, lists, merged);
      LooksUnfolds(lists);
      var live := NonEmpty(lists);
      RoomForRound(|inputs|, |merged|, |elements|, |live|, spent - used);
      if live == [] { return Ok([node] + merged), spent; }
      var selected;
      selected, spent := Select(live, limit, spent);
      if selected.Err? { return Err(selected.error), spent; }
      if selected.value.None? {
        var after := live[0][0];
        var index := Blocker(live, after);
        MergingConflict(inputs, elements, lists, merged, index);
        return Err(ConflictingPrecedence((after, live[index][0]), live[index][0], after)), spent;
      }
      MergingStep(inputs, elements, lists, merged);
      var c := live[selected.value.value][0];
      RoundCharged(|inputs|, |merged|, |live|);
      merged := merged + [c];
      lists := Advance(live, c);
    }
  }

  /** Loop invariant: taking `merged` first leaves exactly the merge of `lists`. */
  ghost predicate Merging(inputs: seq<seq<Class>>, elements: set<Class>, lists: seq<seq<Class>>, merged: seq<Class>) {
    && Taken(merged, lists, elements)
    && LeftOf(lists, inputs)
    && Merge(inputs) == Prefixed(merged, Merge(lists))
  }

  lemma MergingFacts(inputs: seq<seq<Class>>, elements: set<Class>, lists: seq<seq<Class>>, merged: seq<Class>)
    requires Merging(inputs, elements, lists, merged)
    ensures |merged| <= |elements|
    ensures NonEmpty(lists) == [] ==> Merge(inputs) == Some(merged)
    ensures |NonEmpty(lists)| <= |lists| && forall i :: 0 <= i < |NonEmpty(lists)| ==> NonEmpty(lists)[i] != []
  {
    hide Taken, LeftOf;
    TakenBound(merged, lists, elements);
    MergeUnfolds(lists);
    assert merged + [] == merged;
  }

  lemma MergingStep(inputs: seq<seq<Class>>, elements: set<Class>, lists: seq<seq<Class>>, merged: seq<Class>)
    requires Merging(inputs, elements, lists, merged)
    requires NonEmpty(lists) != [] && FirstFree(NonEmpty(lists), 0).Some?
    ensures
      var live := NonEmpty(lists);
      var c := live[FirstFree(live, 0).value][0];
      && Merging(inputs, elements, Advance(live, c), merged + [c])
      && Size(Advance(live, c)) < Size(lists) && |Advance(live, c)| == |live|
  {
    hide Taken, LeftOf, Merge;
    var live := NonEmpty(lists);
    var free := FirstFree(live, 0).value;
    var c := live[free][0];
    MergeUnfolds(lists);
    TakenMore(merged, lists, elements, live, free);
    LeftOfAdvance(lists, inputs, c);
    LeftOfAdvance(live, inputs, c);
    SizeNonEmpty(lists);
    SizeAdvance(live, c, free);
    PrefixedMore(merged, c, Merge(Advance(live, c)));
  }

  lemma MergingConflict(inputs: seq<seq<Class>>, elements: set<Class>, lists: seq<seq<Class>>, merged: seq<Class>, index: nat)
    requires Merging(inputs, elements, lists, merged)
    requires NonEmpty(lists) != [] && FirstFree(NonEmpty(lists), 0).None?
    requires index < |NonEmpty(lists)| && NonEmpty(lists)[0][0] in NonEmpty(lists)[index][1..]
    ensures Merge(inputs).None?
    ensures exists l :: l in inputs && Precedes(l, NonEmpty(lists)[index][0], NonEmpty(lists)[0][0])
  {
    hide Taken, LeftOf, Merge;
    MergeUnfolds(lists);
    LeftOfAdvance(lists, inputs, 0);
    LeftOverPrecedes(NonEmpty(lists), inputs, index, NonEmpty(lists)[0][0]);
  }

  function Prefixed(front: seq<Class>, rest: Option<seq<Class>>): Option<seq<Class>> {
    if rest.None? then None else Some(front + rest.value)
  }

  lemma PrefixedMore(front: seq<Class>, c: Class, rest: Option<seq<Class>>)
    ensures Prefixed(front, Prefixed([c], rest)) == Prefixed(front + [c], rest)
  {
    if rest.Some? { assert front + ([c] + rest.value) == front + [c] + rest.value; }
  }

  lemma MergeUnfolds(lists: seq<seq<Class>>)
    ensures var live := NonEmpty(lists);
      && (live == [] ==> Merge(lists) == Some([]))
      && (live != [] && FirstFree(live, 0).None? ==> Merge(lists).None?)
      && (live != [] && FirstFree(live, 0).Some? ==>
            var c := live[FirstFree(live, 0).value][0];
            Merge(lists) == Prefixed([c], Merge(Advance(live, c))))
  {
  }

  lemma StartMerge(inputs: seq<seq<Class>>, elements: set<Class>)
    requires forall x :: Occurs(x, inputs) ==> x in elements
    ensures Merging(inputs, elements, inputs, [])
  {
    hide Merge, Occurs, LeftOf;
    LeftOfItself(inputs);
    PrefixedNothing(Merge(inputs));
  }

  lemma LeftOfItself(lists: seq<seq<Class>>)
    ensures LeftOf(lists, lists)
  {
    forall r | r in lists ensures exists l :: l in lists && Suffix(r, l) {
      assert Suffix(r, r);
    }
  }

  lemma PrefixedNothing(m: Option<seq<Class>>)
    ensures Prefixed([], m) == m
  {
    if m.Some? { assert [] + m.value == m.value; }
  }

  lemma TakenBound(merged: seq<Class>, lists: seq<seq<Class>>, elements: set<Class>)
    requires Taken(merged, lists, elements)
    ensures |merged| <= |elements|
  {
    RepetitionFreeBound(merged, elements);
  }

  lemma LeftOverPrecedes(live: seq<seq<Class>>, inputs: seq<seq<Class>>, index: nat, after: Class)
    requires LeftOf(live, inputs) && index < |live| && live[index] != [] && after in live[index][1..]
    ensures exists l :: l in inputs && Precedes(l, live[index][0], after)
  {
    assert live[index] in live;
    var l :| l in inputs && Suffix(live[index], l);
    SuffixPrecedes(live[index], l, after);
  }

  lemma RoomForRound(inputs: nat, merged: nat, elements: nat, live: nat, charged: nat)
    requires merged <= elements && live <= inputs && charged <= inputs * merged
    ensures charged + live <= inputs * (elements + 1)
  {
    assert inputs * merged + inputs == inputs * (merged + 1);
    assert inputs * (merged + 1) <= inputs * (elements + 1);
  }

  lemma RoundCharged(inputs: nat, merged: nat, live: nat)
    requires live <= inputs
    ensures inputs * merged + live <= inputs * (merged + 1)
  {
    assert inputs * merged + inputs == inputs * (merged + 1);
  }
}

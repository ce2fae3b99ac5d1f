/** At-most-once finalization registrations. */
module Finalization {
  import opened Collections
  import opened Tracing

  datatype Stage = Registered | Cancelled | Admitted

  datatype Registration = Registration(target: Id, stage: Stage)

  datatype Record = Record(registration: nat, target: Id)

  type Entries = map<nat, Registration>

  /** Waiting for a target that is among `swept`. */
  predicate Waits(entries: Entries, swept: set<Id>, k: nat) {
    k in entries && entries[k].stage == Registered && entries[k].target in swept
  }

  /** The waiting registrations below `bound`, in the order they were made. */
  function Ready(entries: Entries, swept: set<Id>, bound: nat): (r: seq<Record>)
    ensures forall x :: x in r <==> x.registration < bound && Waits(entries, swept, x.registration) && x.target == entries[x.registration].target
  {
    if bound == 0 then []
    else
      Ready(entries, swept, bound - 1) +
      (if Waits(entries, swept, bound - 1) then [Record(bound - 1, entries[bound - 1].target)] else [])
  }

  function Numbers(records: seq<Record>): (r: seq<nat>)
    ensures |r| == |records| && forall i :: 0 <= i < |r| ==> r[i] == records[i].registration
  {
    seq(|records|, i requires 0 <= i < |records| => records[i].registration)
  }

  lemma {:induction false} ReadyIncreasing(entries: Entries, swept: set<Id>, bound: nat)
    ensures Increasing(Numbers(Ready(entries, swept, bound)))
  {
    if bound > 0 {
      ReadyIncreasing(entries, swept, bound - 1);
      var front := Ready(entries, swept, bound - 1);
      forall i | 0 <= i < |front| ensures front[i].registration < bound - 1 { assert front[i] in front; }
    }
  }

  lemma ReadyNumbers(entries: Entries, swept: set<Id>, bound: nat, k: nat)
    ensures k in Numbers(Ready(entries, swept, bound)) <==> k < bound && Waits(entries, swept, k)
  {
    hide Ready;
    var ready := Ready(entries, swept, bound);
    if k in Numbers(ready) {
      var i :| 0 <= i < |ready| && Numbers(ready)[i] == k;
      assert ready[i] in ready;
    }
    if k < bound && Waits(entries, swept, k) {
      assert Record(k, entries[k].target) in ready;
      var i :| 0 <= i < |ready| && ready[i] == Record(k, entries[k].target);
      assert Numbers(ready)[i] == k;
    }
  }

  lemma {:induction false} NothingReady(swept: set<Id>, bound: nat)
    ensures Ready(map[], swept, bound) == []
  {
    if bound > 0 { NothingReady(swept, bound - 1); }
  }

  /** `enqueued` lists, without repeats, exactly the registrations handed to the queue. */
  ghost predicate Logged(next: nat, entries: Entries, enqueued: seq<nat>) {
    && (forall k: nat :: k in entries <==> k < next)
    && (forall k :: k in enqueued <==> k in entries && entries[k].stage == Admitted)
    && NoRepeats(enqueued)
  }

  /** Targets never change, and a registration leaves the waiting stage once. */
  ghost predicate Later(entries: Entries, entries': Entries) {
    forall k :: k in entries ==>
      k in entries' && entries'[k].target == entries[k].target &&
      (entries[k].stage != Registered ==> entries'[k].stage == entries[k].stage)
  }

  lemma LaterTransitive(a: Entries, b: Entries, c: Entries)
    requires Later(a, b) && Later(b, c)
    ensures Later(a, c)
  {
  }

  /** The state after the waiting registrations are handed over. */
  function AdmittedAll(entries: Entries, records: seq<Record>): Entries {
    map k | k in entries :: if k in Numbers(records) then entries[k].(stage := Admitted) else entries[k]
  }

  lemma AdmittedLogged(next: nat, entries: Entries, enqueued: seq<nat>, swept: set<Id>)
    requires Logged(next, entries, enqueued)
    ensures var records := Ready(entries, swept, next);
      && Logged(next, AdmittedAll(entries, records), enqueued + Numbers(records))
      && Later(entries, AdmittedAll(entries, records))
  {
    hide Ready;
    var records := Ready(entries, swept, next);
    ReadyIncreasing(entries, swept, next);
    var numbers := Numbers(records);
    forall k: nat ensures k in numbers <==> Waits(entries, swept, k) { ReadyNumbers(entries, swept, next, k); }
    forall i, j | 0 <= i < j < |enqueued + numbers| ensures (enqueued + numbers)[i] != (enqueued + numbers)[j] {
      if i < |enqueued| <= j {
        assert enqueued[i] in enqueued && numbers[j - |enqueued|] in numbers;
      }
    }
  }

  class FinalizationRegistry {
    var next: nat
    var entries: Entries
    ghost var enqueued: seq<nat>

    ghost predicate Valid()
      reads this
    {
      Logged(next, entries, enqueued)
    }

    constructor ()
      ensures Valid() && next == 0 && entries == map[] && enqueued == []
    {
      next, entries, enqueued := 0, map[], [];
    }

    method Register(target: Id) returns (id: nat)
      requires Valid()
      modifies this
      ensures Valid() && Later(old(entries), entries) && enqueued == old(enqueued)
      ensures id == old(next) && id !in old(entries) && entries == old(entries)[id := Registration(target, Registered)] && next == id + 1
    {
      id := next;
      next := next + 1;
      entries := entries[id := Registration(target, Registered)];
    }

    /** Cancels a registration that still waits; any other is left as it is. */
    method Cancel(registration: nat) returns (done: bool)
      requires Valid()
      modifies this
      ensures Valid() && Later(old(entries), entries) && enqueued == old(enqueued) && next == old(next)
      ensures done <==> registration in old(entries) && old(entries)[registration].stage == Registered
      ensures entries == if done then old(entries)[registration := old(entries)[registration].(stage := Cancelled)] else old(entries)
    {
      if registration !in entries || entries[registration].stage != Registered { return false; }
      entries := entries[registration := entries[registration].(stage := Cancelled)];
      done := true;
    }

    method MarkAdmitted(records: seq<Record>, ghost swept: set<Id>)
      requires Valid() && records == Ready(entries, swept, next)
      modifies this
      ensures Valid() && Later(old(entries), entries) && next == old(next)
      ensures entries == AdmittedAll(old(entries), records) && enqueued == old(enqueued) + Numbers(records)
    {
      hide Ready;
      ghost var numbers := Numbers(records);
      AdmittedLogged(next, entries, enqueued, swept);
      for i := 0 to |records|
        invariant entries.Keys == old(entries.Keys) && next == old(next) && enqueued == old(enqueued)
        invariant forall k :: k in entries ==>
                    entries[k] == if k in numbers[..i] then old(entries)[k].(stage := Admitted) else old(entries)[k]
      {
        var k := records[i].registration;
        assert numbers[..i + 1] == numbers[..i] + [k];
        if k in entries { entries := entries[k := entries[k].(stage := Admitted)]; }
      }
      assert numbers[..|records|] == numbers;
      assert entries == AdmittedAll(old(entries), records);
      enqueued := enqueued + numbers;
    }
  }
}

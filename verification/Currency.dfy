/** Which cached views still stand: exactly those of which no listed class has declared
    anything since. */
module Currency {
  import opened CacheModel
  import opened Policies
  import opened Tracing
  import Arena

  /** The cached view of `c` matches every revision it was computed from. */
  ghost predicate CurrentIn<M>(objects: CacheObjects<M>, c: Id) {
    && IsClass(objects, c) && objects[c].payload.cached.Some?
    && var value := objects[c].payload.cached.value.value;
    && value in objects && objects[value].payload.Derived?
    && Matches(objects[value].payload.stamps, RevisionsOf(objects))
  }

  ghost function ViewOf<M>(objects: CacheObjects<M>, c: Id): CacheModel.View<M>
    requires CurrentIn(objects, c)
  {
    objects[objects[c].payload.cached.value.value].payload.view
  }

  /** The classes whose cached view still stands, with the classes it lists. */
  ghost function Standing<M>(objects: CacheObjects<M>): map<Id, seq<Id>> {
    map c | c in objects && CurrentIn(objects, c) :: ViewOf(objects, c).linearization
  }

  /** What is left standing once `c` has declared something. */
  ghost function Apart(standing: map<Id, seq<Id>>, c: Id): map<Id, seq<Id>> {
    map d | d in standing && d != c && c !in standing[d] :: standing[d]
  }

  // ---------- what a cached view is stamped with ----------

  lemma CachedFacts<M(!new)>(objects: CacheObjects<M>, manager: Id, hist: History<M>, policy: Policy, nextId: nat, d: Id)
    requires CacheInv(objects, manager, hist, policy, nextId) && IsClass(objects, d) && objects[d].payload.cached.Some?
    ensures var value := objects[d].payload.cached.value.value;
      && d != manager && value in objects && value != d && value != manager && objects[value].payload.Derived?
      && var stamps, lin := objects[value].payload.stamps, objects[value].payload.view.linearization;
      && lin != [] && lin[0] == d && (forall x :: x in lin <==> exists s :: s in stamps && s.id == x)
      && (forall s :: s in stamps ==> (s.id, s.revisions.parents) in hist.parents && (s.id, s.revisions.members) in hist.members)
  {
    hide LinearizedBy, Gather;
    assert ObjectOk(objects, manager, hist, policy, d);
    var value := objects[d].payload.cached.value.value;
    assert ObjectOk(objects, manager, hist, policy, value);
    var stamps, view := objects[value].payload.stamps, objects[value].payload.view;
    var g, members :| From(policy, hist, stamps, view, g, members);
    forall x ensures x in view.linearization <==> exists s :: s in stamps && s.id == x {
      if x in view.linearization {
        var i :| 0 <= i < |view.linearization| && view.linearization[i] == x;
        assert stamps[i] in stamps;
      }
      if s :| s in stamps && s.id == x {
        var i :| 0 <= i < |stamps| && stamps[i] == s;
      }
    }
  }

  /** Where a class, its view and the revisions are the same, so is its standing. */
  lemma SameStanding<M>(objects: CacheObjects<M>, objects': CacheObjects<M>, d: Id)
    requires d in objects && d in objects' && objects'[d].payload == objects[d].payload && RevisionsOf(objects') == RevisionsOf(objects)
    requires IsClass(objects, d) && objects[d].payload.cached.Some? ==>
      var value := objects[d].payload.cached.value.value; value in objects && value in objects' && objects'[value].payload == objects[value].payload
    ensures CurrentIn(objects', d) <==> CurrentIn(objects, d)
    ensures CurrentIn(objects, d) ==> ViewOf(objects', d) == ViewOf(objects, d)
  {
    hide RevisionsOf;
  }

  // ---------- discarding ----------

  lemma StandingDiscarded<M(!new)>(objects: CacheObjects<M>, manager: Id, hist: History<M>, policy: Policy, nextId: nat, c: Id)
    requires CacheInv(objects, manager, hist, policy, nextId) && IsClass(objects, c)
    ensures Standing(Discarded(objects, manager, c)) == Standing(objects) - {c}
  {
    hide CacheInv, CurrentIn;
    var objects' := Discarded(objects, manager, c);
    DiscardedKeeps(objects, manager, hist, policy, nextId, c);
    NotStanding(objects', c);
    if objects[c].payload.cached.Some? {
      DiscardedShape(objects, manager, hist, policy, nextId, c);
      forall d | d != c
        ensures d in objects' && CurrentIn(objects', d) <==> d in objects && CurrentIn(objects, d)
        ensures d in objects && CurrentIn(objects, d) ==> CurrentIn(objects', d) && ViewOf(objects', d) == ViewOf(objects, d)
      {
        DiscardedStanding(objects, manager, hist, policy, nextId, c, d);
      }
    } else {
      NotStanding(objects, c);
    }
  }

  lemma NotStanding<M>(objects: CacheObjects<M>, c: Id)
    requires IsClass(objects, c) && objects[c].payload.cached.None?
    ensures !CurrentIn(objects, c)
  {
  }

  lemma DiscardedStanding<M(!new)>(objects: CacheObjects<M>, manager: Id, hist: History<M>, policy: Policy, nextId: nat, c: Id, d: Id)
    requires CacheInv(objects, manager, hist, policy, nextId) && IsClass(objects, c) && objects[c].payload.cached.Some? && d != c
    ensures var objects' := Discarded(objects, manager, c);
      && (d in objects' && CurrentIn(objects', d) <==> d in objects && CurrentIn(objects, d))
      && (d in objects && CurrentIn(objects, d) ==> CurrentIn(objects', d) && ViewOf(objects', d) == ViewOf(objects, d))
  {
    var objects' := Discarded(objects, manager, c);
    DiscardedKeeps(objects, manager, hist, policy, nextId, c);
    DiscardedShape(objects, manager, hist, policy, nextId, c);
    if IsClass(objects, d) && objects[d].payload.cached.Some? {
      CachedFacts(objects, manager, hist, policy, nextId, c);
      CachedFacts(objects, manager, hist, policy, nextId, d);
      hide CacheInv, Discarded, ManagerOk, CurrentIn;
      SameStanding(objects, objects', d);
    }
  }

  // ---------- declaring ----------

  /** A class without a view declares something under a revision no view was stamped with:
      just the views that list it fall. */
  lemma StandingRewritten<M(!new)>(objects: CacheObjects<M>, manager: Id, hist: History<M>, policy: Policy, nextId: nat,
      c: Id, slot: Arena.Slot<Payload<M>>)
    requires CacheInv(objects, manager, hist, policy, nextId) && IsClass(objects, c) && objects[c].payload.cached.None?
    requires slot.payload.ClassObject? && slot.payload.cached.None? && Newer(objects[c].payload.revisions, slot.payload.revisions)
    ensures Standing(objects[c := slot]) == Apart(Standing(objects), c)
  {
    hide CacheInv, CurrentIn;
    var objects' := objects[c := slot];
    NotStanding(objects, c);
    NotStanding(objects', c);
    forall d | d != c && d in objects
      ensures CurrentIn(objects', d) <==> CurrentIn(objects, d) && c !in ViewOf(objects, d).linearization
      ensures CurrentIn(objects', d) ==> ViewOf(objects', d) == ViewOf(objects, d)
    {
      RewrittenStanding(objects, manager, hist, policy, nextId, c, slot, d);
    }
  }

  predicate Newer(a: Revisions, b: Revisions) {
    a.parents < b.parents || a.members < b.members
  }

  lemma RewrittenStanding<M(!new)>(objects: CacheObjects<M>, manager: Id, hist: History<M>, policy: Policy, nextId: nat,
      c: Id, slot: Arena.Slot<Payload<M>>, d: Id)
    requires CacheInv(objects, manager, hist, policy, nextId) && IsClass(objects, c) && d != c && d in objects
    requires slot.payload.ClassObject? && Newer(objects[c].payload.revisions, slot.payload.revisions)
    ensures var objects' := objects[c := slot];
      && (CurrentIn(objects', d) <==> CurrentIn(objects, d) && c !in ViewOf(objects, d).linearization)
      && (CurrentIn(objects', d) ==> ViewOf(objects', d) == ViewOf(objects, d))
  {
    hide ObjectOk, ManagerOk;
    if IsClass(objects, d) && objects[d].payload.cached.Some? {
      CachedFacts(objects, manager, hist, policy, nextId, d);
      var value := objects[d].payload.cached.value.value;
      RevisionsRewritten(objects, c, slot);
      StampsRewritten(objects, hist, nextId, objects[value].payload.stamps, c, slot);
      hide CacheInv, HistoryOk, RevisionsOf, Matches;
    }
  }

  lemma RevisionsRewritten<M>(objects: CacheObjects<M>, c: Id, slot: Arena.Slot<Payload<M>>)
    requires slot.payload.ClassObject?
    ensures RevisionsOf(objects[c := slot]) == RevisionsOf(objects)[c := slot.payload.revisions]
  {
  }

  lemma StampsRewritten<M>(objects: CacheObjects<M>, hist: History<M>, nextId: nat, stamps: seq<Stamp>, c: Id, slot: Arena.Slot<Payload<M>>)
    requires HistoryOk(objects, hist, nextId) && IsClass(objects, c) && slot.payload.ClassObject? && Newer(objects[c].payload.revisions, slot.payload.revisions)
    requires forall s :: s in stamps ==> (s.id, s.revisions.parents) in hist.parents && (s.id, s.revisions.members) in hist.members
    ensures Matches(stamps, RevisionsOf(objects)[c := slot.payload.revisions]) <==>
            Matches(stamps, RevisionsOf(objects)) && forall s :: s in stamps ==> s.id != c
  {
  }

  // ---------- new objects ----------

  /** A new object, a class or a view nobody refers to yet, changes nothing. */
  lemma StandingAdded<M(!new)>(objects: CacheObjects<M>, manager: Id, hist: History<M>, policy: Policy, nextId: nat, slot: Arena.Slot<Payload<M>>)
    requires CacheInv(objects, manager, hist, policy, nextId) && (slot.payload.ClassObject? ==> slot.payload.cached.None?)
    ensures Standing(objects[nextId := slot]) == Standing(objects)
  {
    hide CurrentIn, ObjectOk, ManagerOk, HistoryOk;
    var objects' := objects[nextId := slot];
    assert nextId !in objects;
    NotStandingNew(objects', nextId);
    forall d | d in objects
      ensures CurrentIn(objects', d) <==> CurrentIn(objects, d)
      ensures CurrentIn(objects, d) ==> ViewOf(objects', d) == ViewOf(objects, d)
    {
      AddedStanding(objects, manager, hist, policy, nextId, slot, d);
    }
  }

  lemma NotStandingNew<M>(objects: CacheObjects<M>, c: Id)
    requires c in objects && (objects[c].payload.ClassObject? ==> objects[c].payload.cached.None?)
    ensures !CurrentIn(objects, c)
  {
  }

  lemma AddedStanding<M(!new)>(objects: CacheObjects<M>, manager: Id, hist: History<M>, policy: Policy, nextId: nat, slot: Arena.Slot<Payload<M>>, d: Id)
    requires CacheInv(objects, manager, hist, policy, nextId) && d in objects && nextId !in objects
    ensures var objects' := objects[nextId := slot];
      && (CurrentIn(objects', d) <==> CurrentIn(objects, d)) && (CurrentIn(objects, d) ==> ViewOf(objects', d) == ViewOf(objects, d))
  {
    hide ObjectOk, ManagerOk;
    if IsClass(objects, d) && objects[d].payload.cached.Some? {
      CachedFacts(objects, manager, hist, policy, nextId, d);
      var stamps := objects[objects[d].payload.cached.value.value].payload.stamps;
      assert forall s :: s in stamps ==> s.id != nextId;
      assert Matches(stamps, RevisionsOf(objects[nextId := slot])) <==> Matches(stamps, RevisionsOf(objects));
    }
  }

  // ---------- installing ----------

  lemma StandingInstalled<M(!new)>(objects: CacheObjects<M>, manager: Id, hist: History<M>, policy: Policy, nextId: nat, c: Id, value: Id)
    requires CacheInv(objects, manager, hist, policy, nextId) && IsClass(objects, c) && objects[c].payload.cached.None? && c != manager
    requires manager in objects && objects[manager].payload.Manager?
    requires value in objects && objects[value].payload.Derived? && Matches(objects[value].payload.stamps, RevisionsOf(objects))
    ensures Standing(Installed(objects, manager, c, value)) == Standing(objects)[c := objects[value].payload.view.linearization]
  {
    hide CacheInv, CurrentIn;
    var objects' := Installed(objects, manager, c, value);
    assert RevisionsOf(objects') == RevisionsOf(objects);
    hide RevisionsOf;
    InstalledStands(objects, objects', c, value);
    forall d | d in objects && d != c
      ensures CurrentIn(objects', d) <==> CurrentIn(objects, d)
      ensures CurrentIn(objects, d) ==> ViewOf(objects', d) == ViewOf(objects, d)
    {
      InstalledOther(objects, manager, hist, policy, nextId, c, value, d);
    }
  }

  lemma InstalledStands<M>(objects: CacheObjects<M>, objects': CacheObjects<M>, c: Id, value: Id)
    requires IsClass(objects', c) && objects'[c].payload.cached.Some? && objects'[c].payload.cached.value.value == value
    requires value in objects && value in objects' && objects'[value].payload == objects[value].payload && objects[value].payload.Derived?
    requires Matches(objects[value].payload.stamps, RevisionsOf(objects'))
    ensures CurrentIn(objects', c) && ViewOf(objects', c) == objects[value].payload.view
  {
  }

  lemma InstalledOther<M(!new)>(objects: CacheObjects<M>, manager: Id, hist: History<M>, policy: Policy, nextId: nat, c: Id, value: Id, d: Id)
    requires CacheInv(objects, manager, hist, policy, nextId) && IsClass(objects, c) && c != manager && manager in objects && d in objects && d != c
    requires objects[manager].payload.Manager? && RevisionsOf(Installed(objects, manager, c, value)) == RevisionsOf(objects)
    ensures var objects' := Installed(objects, manager, c, value);
      && (CurrentIn(objects', d) <==> CurrentIn(objects, d)) && (CurrentIn(objects, d) ==> ViewOf(objects', d) == ViewOf(objects, d))
  {
    var objects' := Installed(objects, manager, c, value);
    if IsClass(objects, d) && objects[d].payload.cached.Some? { CachedFacts(objects, manager, hist, policy, nextId, d); }
    hide CacheInv, CurrentIn, RevisionsOf;
    if d != manager { SameStanding(objects, objects', d); } else { ManagerNeverStands(objects, objects', manager); }
  }

  lemma ManagerNeverStands<M>(objects: CacheObjects<M>, objects': CacheObjects<M>, manager: Id)
    requires manager in objects && manager in objects' && objects[manager].payload.Manager? && objects'[manager].payload.Manager?
    ensures !CurrentIn(objects, manager) && !CurrentIn(objects', manager)
  {
  }

  // ---------- collecting ----------

  lemma StandingCollected<M>(objects: CacheObjects<M>, objects': CacheObjects<M>, manager: Id)
    requires forall id :: id in objects' && id != manager ==> id in objects && objects'[id] == objects[id]
    requires forall id :: IsClass(objects', id) ==> (CurrentIn(objects', id) <==> CurrentIn(objects, id))
    requires (manager in objects ==> objects[manager].payload.Manager?) && (manager in objects' ==> objects'[manager].payload.Manager?)
    ensures Standing(objects') == map d | d in Standing(objects) && IsClass(objects', d) :: Standing(objects)[d]
  {
    forall d | d in objects' && CurrentIn(objects', d) ensures d in objects && CurrentIn(objects, d) && ViewOf(objects', d) == ViewOf(objects, d) {
      assert IsClass(objects', d) && d != manager;
      var value := objects'[d].payload.cached.value.value;
      assert value != manager;
    }
  }
}

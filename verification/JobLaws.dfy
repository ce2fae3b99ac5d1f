/** Laws of draining and of job programs that do not follow their definitions: units of work
    add up, one unit takes exactly the oldest job, and each step of a program does to the
    queues what it says. */
module JobLaws {
  import opened Collections
  import opened Jobs

  /** Draining in two portions is draining once. */
  lemma {:induction false} SelectAdds(s: State, c: JobClass, m: nat, n: nat)
    requires Inv(s)
    ensures var first := Select(s, c, m);
      var second := Select(first.0, c, n);
      Select(s, c, m + n) == (second.0, first.1 + second.1)
    decreases m
  {
    hide Inv, Later, Play, TakenFrom, Select;
    if Queue(s, c) == [] {
      SelectNothing(s, c, m);
      SelectNothing(s, c, n);
      SelectNothing(s, c, m + n);
    } else if m == 0 {
      SelectNone(s, c);
      assert [] + Select(s, c, n).1 == Select(s, c, n).1;
    } else {
      SelectUnfolds(s, c, m);
      SelectUnfolds(s, c, m + n);
      var entry, b := Queue(s, c)[0], TakenFrom(s, c);
      if entry.id in s.cancelled {
        SelectAdds(b, c, m - 1, n);
      } else {
        SelectAdds(Play(b, entry.run), c, m - 1, n);
        var first := Select(Play(b, entry.run), c, m - 1);
        assert [entry.id] + (first.1 + Select(first.0, c, n).1) == ([entry.id] + first.1) + Select(first.0, c, n).1;
      }
    }
  }

  lemma SelectNothing(s: State, c: JobClass, n: nat)
    requires Inv(s) && Queue(s, c) == []
    ensures Select(s, c, n) == (s, [])
  {
    hide Inv, Later;
  }

  lemma SelectNone(s: State, c: JobClass)
    requires Inv(s)
    ensures Select(s, c, 0) == (s, [])
  {
    hide Inv, Later;
  }

  /** One unit of work takes the oldest job of the class and no other of it unless that job
      does: it is reported exactly if it was not cancelled, and it counts either way. */
  lemma SelectOne(s: State, c: JobClass)
    requires Inv(s) && Queue(s, c) != []
    ensures var r, id := Select(s, c, 1), Queue(s, c)[0].id;
      && id in Past(r.0, c) && id !in Past(s, c) && Past(s, c) + [id] <= Past(r.0, c)
      && (id in s.cancelled ==> r.1 == [] && id in r.0.skipped && id !in r.0.ran && r.0.ran == s.ran && Past(r.0, c) == Past(s, c) + [id])
      && (id !in s.cancelled ==> r.1 == [id] && s.ran + [id] <= r.0.ran)
  {
    hide Inv, Later, Play, Select;
    var b, id := TakenFrom(s, c), Queue(s, c)[0].id;
    SelectUnfolds(s, c, 1);
    FrontQueued(s, c);
    QueuedNotTaken(s, id);
    TakenShape(s, c, c);
    NotPast(s, c);
    if id in s.cancelled {
      SelectNone(b, c);
    } else {
      var d := Play(b, Queue(s, c)[0].run);
      SelectNone(d, c);
      PastGrows(b, d, c);
      assert [id] + [] == [id];
    }
  }

  lemma NotPast(s: State, c: JobClass)
    requires Inv(s) && Queue(s, c) != []
    ensures Queue(s, c)[0].id !in Past(s, c)
  {
    if Queue(s, c)[0].id in Past(s, c) { PastBefore(s, c, Queue(s, c)[0].id); }
  }

  lemma PastGrows(s: State, s': State, c: JobClass)
    requires Later(s, s')
    ensures Past(s, c) <= Past(s', c) && s.ran <= s'.ran && forall x :: x in Past(s, c) ==> x in Past(s', c)
  {
    assert Past(s, c) <= Past(s', c);
  }

  // ---------- programs ----------

  /** A job that a program cancels while it waits never runs. */
  lemma PlayCancels(s: State, id: nat, rest: Job, s': State)
    requires Inv(s) && Queued(s, id)
    requires Inv(s') && Later(Play(s, CancelThen(id, rest)), s')
    ensures id !in s'.ran && id in s'.cancels
  {
    hide Inv, Later, Queued, Doomed;
    var b := CancelledIn(s, id);
    CancelledKeeps(s, id);
    PlayCancel(s, id, rest);
    LaterTransitive(b, Play(b, rest), s');
    NeverRuns(b, s', id);
    CancelsGrow(b, s');
  }

  lemma PlayCancel(s: State, id: nat, rest: Job)
    requires Inv(s) && Inv(CancelledIn(s, id))
    ensures Play(s, CancelThen(id, rest)) == Play(CancelledIn(s, id), rest)
  {
    hide Inv, Later;
  }

  lemma CancelsGrow(s: State, s': State)
    requires Later(s, s')
    ensures s.cancels <= s'.cancels
  {
  }

  /** A program that admits a job has it admitted at the end of its class under the next
      identity, exactly if there is room. */
  lemma PlayAdmits(s: State, c: JobClass, job: Job, next: imap<Option<nat>, Job>)
    requires Inv(s)
    ensures var r := Play(s, EnqueueThen(c, job, next));
      if s.admitted < s.admission
      then s.nextId in r.home && r.home[s.nextId] == c && s.nextId in r.jobs && r.jobs[s.nextId] == job && Admissions(s, c) + [s.nextId] <= Admissions(r, c)
      else None !in next ==> r == s
  {
    hide Inv, Later, Admissions;
    var b := AdmittedIfRoom(s, c, job);
    PlayAdmit(s, c, job, next);
    if s.admitted < s.admission {
      AdmittedAdmissions(s, c, job, c);
      AdmissionsKept(b, Play(s, EnqueueThen(c, job, next)), c);
    }
  }

  lemma PlayAdmit(s: State, c: JobClass, job: Job, next: imap<Option<nat>, Job>)
    requires Inv(s)
    ensures Later(AdmittedIfRoom(s, c, job), Play(s, EnqueueThen(c, job, next)))
    ensures s.admitted >= s.admission && None !in next ==> Play(s, EnqueueThen(c, job, next)) == s
  {
    hide Inv, Later;
    LaterSame(AdmittedIfRoom(s, c, job));
  }

  lemma AdmissionsKept(s: State, s': State, c: JobClass)
    requires Later(s, s')
    ensures Admissions(s, c) <= Admissions(s', c)
    ensures forall id :: id in s.home ==> id in s'.home && s'.home[id] == s.home[id]
    ensures forall id :: id in s.jobs ==> id in s'.jobs && s'.jobs[id] == s.jobs[id]
  {
    hide Admissions;
  }

  /** A program that drains has taken all that a drain of its own takes, and none of it is
      taken back. */
  lemma PlayDrains(s: State, c: JobClass, work: nat, next: imap<Drained, Job>)
    requires Inv(s)
    ensures Later(Select(s, c, work).0, Play(s, DrainThen(c, work, next)))
  {
    hide Inv, Later, Select;
    LaterSame(Select(s, c, work).0);
  }

  /** A finalizer's program tells the outside of its registration once, and does nothing
      else. */
  lemma PlayTells(s: State, registration: nat, target: nat)
    requires Inv(s)
    ensures Play(s, Finalize(registration, target)) == s.(notes := s.notes + [Note(registration, target)])
  {
    hide Inv, Later;
  }
}

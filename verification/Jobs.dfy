/** Typed FIFO job queues with bounded admission, cancellation and re-entrant jobs. */
module Jobs {
  import opened Collections

  /** Queue classes that never share a FIFO. */
  datatype JobClass = Finalization | LanguageMicrotask(profile: string)

  /** The largest value of the 64-bit counters. */
  const MAX_COUNT: nat := 0xFFFF_FFFF_FFFF_FFFF

  function SaturatingNext(n: nat): nat {
    if n < MAX_COUNT then n + 1 else MAX_COUNT
  }

  /** What a job does to the queues it runs in, as a finite program. A finalizer calls out
      of the system with its record. A job stops at an answer it has no branch for. */
  datatype Job =
    | Finish
    | Finalize(registration: nat, target: nat)
    | EnqueueThen(class_: JobClass, job: Job, admitted: imap<Option<nat>, Job>)
    | CancelThen(id: nat, rest: Job)
    | DrainThen(class_: JobClass, work: nat, drained: imap<Drained, Job>)
    | CheckpointThen(class_: JobClass, work: nat, settled: imap<Option<seq<nat>>, Job>)
    | RemainingThen(room: imap<nat, Job>)

  /** What a finalizer tells the outside. */
  datatype Note = Note(registration: nat, target: nat)

  datatype Drained = Drained(completed: seq<nat>, pending: bool)

  datatype Entry = Entry(id: nat, run: Job)

  /** The queues with their history: the class and program each job was admitted with, the
      jobs taken from each class in order, the jobs run in order, the jobs skipped, every
      identity ever cancelled, and the notes finalizers sent. */
  datatype State = State(
    queues: map<JobClass, seq<Entry>>, cancelled: set<nat>, nextId: nat, admitted: nat, admission: nat,
    home: map<nat, JobClass>, jobs: map<nat, Job>, past: map<JobClass, seq<nat>>, ran: seq<nat>, skipped: set<nat>,
    cancels: set<nat>, notes: seq<Note>)

  function Queue(s: State, c: JobClass): seq<Entry> {
    if c in s.queues then s.queues[c] else []
  }

  function Past(s: State, c: JobClass): seq<nat> {
    if c in s.past then s.past[c] else []
  }

  function Ids(q: seq<Entry>): (r: seq<nat>)
    ensures |r| == |q| && forall i :: 0 <= i < |q| ==> r[i] == q[i].id
  {
    seq(|q|, i requires 0 <= i < |q| => q[i].id)
  }

  /** Every job ever admitted to `c`, oldest first: the taken ones, then the queued ones. */
  function Admissions(s: State, c: JobClass): seq<nat> {
    Past(s, c) + Ids(Queue(s, c))
  }

  ghost predicate Taken(s: State, id: nat) {
    id in s.home && id in Past(s, s.home[id])
  }

  ghost predicate Queued(s: State, id: nat) {
    id in s.home && id in Ids(Queue(s, s.home[id]))
  }

  /** Cancelled while waiting. */
  ghost predicate Doomed(s: State, id: nat) {
    Queued(s, id) && id in s.cancelled
  }

  /** Identities count the admissions, so none is reused; each class's admissions are
      increasing; each admitted job belongs to one class and, once taken, either ran once
      or was skipped because it had been cancelled. */
  ghost predicate Inv(s: State) {
    && s.nextId == s.admitted <= s.admission <= MAX_COUNT
    && (forall id: nat :: id in s.home <==> id < s.nextId)
    && (forall c :: Increasing(Admissions(s, c)))
    && (forall c, id: nat :: id in Admissions(s, c) <==> id in s.home && s.home[id] == c)
    && (forall id: nat :: Taken(s, id) <==> id in s.ran || id in s.skipped)
    && (forall id :: id in s.ran ==> id !in s.skipped) && NoRepeats(s.ran)
    && s.skipped <= s.cancels && s.cancelled <= s.cancels
    && Programs(s)
  }

  /** Queued entries hold the programs they were admitted with. */
  ghost predicate Programs(s: State) {
    && s.jobs.Keys == s.home.Keys
    && forall c, e :: e in Queue(s, c) ==> Holds(s.jobs, e)
  }

  ghost predicate Holds(jobs: map<nat, Job>, e: Entry) {
    e.id in jobs && jobs[e.id] == e.run
  }

  /** Jobs still to be taken, now or after a later admission. */
  function Load(s: State, c: JobClass): int {
    |Queue(s, c)| + s.admission - s.admitted
  }

  ghost function Done(s: State): set<nat> {
    set id | id in s.home && (id in s.ran || id in s.skipped)
  }

  /** What every operation keeps: histories only grow, a doomed job stays doomed until it
      is skipped, and no class's load rises. */
  ghost predicate Later(s: State, s': State) {
    && s'.admission == s.admission && s.nextId <= s'.nextId
    && (forall id :: id in s.home ==> id in s'.home && s'.home[id] == s.home[id])
    && (forall id :: id in s.jobs ==> id in s'.jobs && s'.jobs[id] == s.jobs[id]) && s.notes <= s'.notes
    && (forall c :: Past(s, c) <= Past(s', c) && Admissions(s, c) <= Admissions(s', c))
    && s.ran <= s'.ran && s.skipped <= s'.skipped && s.cancels <= s'.cancels
    && (forall id :: Doomed(s, id) ==> Doomed(s', id) || id in s'.skipped)
    && (forall c :: Load(s', c) <= Load(s, c))
    && |Done(s)| <= |Done(s')|
  }

  lemma LaterSame(s: State)
    ensures Later(s, s)
  {
  }

  lemma LaterTransitive(a: State, b: State, c: State)
    requires Later(a, b) && Later(b, c)
    ensures Later(a, c)
  {
    hide Admissions, Past, Load, Done, Doomed;
    forall k ensures Past(a, k) <= Past(c, k) && Admissions(a, k) <= Admissions(c, k) {
      assert Past(a, k) <= Past(b, k) <= Past(c, k);
      assert Admissions(a, k) <= Admissions(b, k) <= Admissions(c, k);
    }
    forall k ensures Load(c, k) <= Load(a, k) {
      assert Load(c, k) <= Load(b, k) <= Load(a, k);
    }
  }

  /** A job cancelled while it waits never runs, whatever happens later. */
  lemma NeverRuns(s: State, s': State, id: nat)
    requires Inv(s) && Inv(s') && Later(s, s') && Doomed(s, id)
    ensures id !in s'.ran
  {
    if Doomed(s', id) { QueuedNotTaken(s', id); }
  }

  lemma QueuedNotTaken(s: State, id: nat)
    requires Inv(s) && Queued(s, id)
    ensures !Taken(s, id) && id !in s.ran && id !in s.skipped
  {
    hide NoRepeats;
    var c := s.home[id];
    assert Increasing(Admissions(s, c));
    IncreasingApart(Past(s, c), Ids(Queue(s, c)));
  }

  lemma IncreasingApart(a: seq<nat>, b: seq<nat>)
    requires Increasing(a + b)
    ensures forall x, y :: x in a && y in b ==> x < y
  {
    forall x, y | x in a && y in b ensures x < y {
      var i :| 0 <= i < |a| && a[i] == x;
      var j :| 0 <= j < |b| && b[j] == y;
      assert (a + b)[i] == x && (a + b)[|a| + j] == y;
    }
  }

  /** Every admitted job is in exactly one place: waiting, run, or skipped. */
  lemma OnePlace(s: State, id: nat)
    requires Inv(s) && id < s.nextId
    ensures (Queued(s, id) && id !in s.ran && id !in s.skipped) ||
            (!Queued(s, id) && id in s.ran && id !in s.skipped) ||
            (!Queued(s, id) && id !in s.ran && id in s.skipped && id in s.cancels)
  {
    hide NoRepeats, Increasing;
    var c := s.home[id];
    assert id in Admissions(s, c);
    if Queued(s, id) { QueuedNotTaken(s, id); }
  }

  lemma {:induction false} Below(ids: set<nat>, n: nat)
    requires forall id :: id in ids ==> id < n
    ensures |ids| <= n
  {
    if n > 0 {
      Below(ids - {n - 1}, n - 1);
    } else {
      assert ids == {};
    }
  }

  // ---------- single steps ----------

  function Admitted(s: State, c: JobClass, job: Job): State {
    s.(queues := s.queues[c := Queue(s, c) + [Entry(s.nextId, job)]], nextId := s.nextId + 1, admitted := s.admitted + 1,
       home := s.home[s.nextId := c], jobs := s.jobs[s.nextId := job])
  }

  lemma AdmittedAdmissions(s: State, c: JobClass, job: Job, k: JobClass)
    ensures var s' := Admitted(s, c, job);
      Admissions(s', k) == if k == c then Admissions(s, c) + [s.nextId] else Admissions(s, k)
  {
    var s' := Admitted(s, c, job);
    if k == c { assert Ids(Queue(s', c)) == Ids(Queue(s, c)) + [s.nextId]; }
  }

  lemma AdmissionsBelow(s: State, c: JobClass)
    requires Inv(s)
    ensures forall i :: 0 <= i < |Admissions(s, c)| ==> Admissions(s, c)[i] < s.nextId
  {
    hide Increasing, NoRepeats, Admissions, Taken;
    forall i | 0 <= i < |Admissions(s, c)| ensures Admissions(s, c)[i] < s.nextId {
      var id := Admissions(s, c)[i];
      assert id in Admissions(s, c);
      assert id in s.home;
    }
  }

  lemma AdmittedInv(s: State, c: JobClass, job: Job)
    requires Inv(s) && s.admitted < s.admission
    ensures Inv(Admitted(s, c, job))
  {
    hide NoRepeats, Admissions, Programs;
    AdmittedPrograms(s, c, job);
    var s' := Admitted(s, c, job);
    forall k ensures Increasing(Admissions(s', k)) && forall id :: id in Admissions(s', k) <==> id in s'.home && s'.home[id] == k {
      AdmittedHome(s, c, job, k);
    }
    forall id ensures Taken(s', id) <==> Taken(s, id) {
      if id in Past(s, c) { PastAdmitted(s, c, id); }
    }
  }

  lemma AdmittedHome(s: State, c: JobClass, job: Job, k: JobClass)
    requires Inv(s)
    ensures var s' := Admitted(s, c, job);
      Increasing(Admissions(s', k)) && forall id :: id in Admissions(s', k) <==> id in s'.home && s'.home[id] == k
  {
    hide NoRepeats, Admissions, Programs, Taken;
    AdmittedAdmissions(s, c, job, k);
    AdmissionsBelow(s, k);
    assert Increasing(Admissions(s, k));
  }

  lemma AdmittedPrograms(s: State, c: JobClass, job: Job)
    requires Programs(s) && s.nextId !in s.home
    ensures Programs(Admitted(s, c, job))
  {
    var s' := Admitted(s, c, job);
    forall k, e | e in Queue(s', k) ensures Holds(s'.jobs, e) {
      if e.id != s.nextId { assert e in Queue(s, k); }
      if e in Queue(s, k) { assert Holds(s.jobs, e); }
    }
  }

  lemma PastAdmitted(s: State, c: JobClass, id: nat)
    requires id in Past(s, c)
    ensures id in Admissions(s, c)
  {
  }

  lemma AdmittedLater(s: State, c: JobClass, job: Job)
    requires Inv(s) && s.admitted < s.admission
    ensures Later(s, Admitted(s, c, job))
  {
    hide NoRepeats, Increasing, Admissions, Inv;
    var s' := Admitted(s, c, job);
    NextUnused(s);
    forall k ensures Past(s, k) <= Past(s', k) && Admissions(s, k) <= Admissions(s', k) && Load(s', k) <= Load(s, k) {
      AdmittedAdmissions(s, c, job, k);
    }
    forall id | Doomed(s, id) ensures Doomed(s', id) {
      var k := s.home[id];
      assert Ids(Queue(s, k)) <= Ids(Queue(s', k));
    }
    assert Done(s) <= Done(s');
    SubsetSize(Done(s), Done(s'));
  }

  lemma NextUnused(s: State)
    requires Inv(s)
    ensures s.nextId !in s.home && s.nextId !in s.jobs
  {
  }

  /** Takes the oldest job of `c`: skips it if it was cancelled, and otherwise runs it. */
  function TakenFrom(s: State, c: JobClass): State
    requires Queue(s, c) != []
  {
    var id := Queue(s, c)[0].id;
    var t := s.(queues := s.queues[c := Queue(s, c)[1..]], past := s.past[c := Past(s, c) + [id]]);
    if id in s.cancelled then t.(cancelled := s.cancelled - {id}, skipped := s.skipped + {id})
    else t.(ran := s.ran + [id])
  }

  lemma TakenShape(s: State, c: JobClass, k: JobClass)
    requires Queue(s, c) != []
    ensures var s' := TakenFrom(s, c);
      && Queue(s', k) == (if k == c then Queue(s, c)[1..] else Queue(s, k))
      && Past(s', k) == (if k == c then Past(s, c) + [Queue(s, c)[0].id] else Past(s, k))
      && s'.admission == s.admission && s'.admitted == s.admitted
  {
  }

  lemma TakenAdmissions(s: State, c: JobClass, k: JobClass)
    requires Queue(s, c) != []
    ensures Admissions(TakenFrom(s, c), k) == Admissions(s, k)
  {
    hide TakenFrom, Past, Queue;
    TakenShape(s, c, k);
    if k == c { MovedAcross(Past(s, c), Queue(s, c)); }
  }

  lemma MovedAcross(past: seq<nat>, q: seq<Entry>)
    requires q != []
    ensures past + Ids(q) == (past + [q[0].id]) + Ids(q[1..])
  {
    assert Ids(q) == [q[0].id] + Ids(q[1..]);
  }

  lemma FrontQueued(s: State, c: JobClass)
    requires Inv(s) && Queue(s, c) != []
    ensures var id := Queue(s, c)[0].id;
      Queued(s, id) && s.home[id] == c && id !in s.ran && id !in s.skipped
  {
    hide NoRepeats, Increasing;
    var id := Queue(s, c)[0].id;
    assert Ids(Queue(s, c))[0] == id;
    assert id in Admissions(s, c);
    QueuedNotTaken(s, id);
  }

  lemma TakenInv(s: State, c: JobClass)
    requires Inv(s) && Queue(s, c) != []
    ensures Inv(TakenFrom(s, c))
  {
    hide Admissions, Increasing, Programs;
    TakenPrograms(s, c);
    var s', id := TakenFrom(s, c), Queue(s, c)[0].id;
    FrontQueued(s, c);
    forall k ensures Admissions(s', k) == Admissions(s, k) { TakenAdmissions(s, c, k); }
    forall x ensures Taken(s', x) <==> Taken(s, x) || x == id {
      if x in Past(s', c) && x !in Past(s, c) { assert x == id; }
      assert id in Past(s', c);
      if x in s.home && s.home[x] == c && x in Past(s, c) { assert x in Past(s', c); }
    }
    assert id in s.cancelled ==> id in s.cancels;
  }

  lemma TakenPrograms(s: State, c: JobClass)
    requires Programs(s) && Queue(s, c) != []
    ensures Programs(TakenFrom(s, c))
  {
    hide Past;
    var s' := TakenFrom(s, c);
    forall k, e | e in Queue(s', k) ensures Holds(s'.jobs, e) {
      assert e in Queue(s, k);
    }
  }

  lemma TakenLater(s: State, c: JobClass)
    requires Inv(s) && Queue(s, c) != []
    ensures Later(s, TakenFrom(s, c))
    ensures |Done(TakenFrom(s, c))| == |Done(s)| + 1 && Load(TakenFrom(s, c), c) == Load(s, c) - 1
  {
    hide Admissions, Increasing, NoRepeats, Inv;
    var s', id := TakenFrom(s, c), Queue(s, c)[0].id;
    FrontQueued(s, c);
    forall k ensures Past(s, k) <= Past(s', k) && Admissions(s, k) <= Admissions(s', k) && Load(s', k) <= Load(s, k) {
      TakenAdmissions(s, c, k);
      TakenShape(s, c, k);
    }
    forall x | Doomed(s, x) ensures Doomed(s', x) || x in s'.skipped { TakenDoomed(s, c, x); }
    TakenDone(s, c);
    TakenShape(s, c, c);
    hide Past, Queue, Done, Doomed;
  }

  lemma TakenDone(s: State, c: JobClass)
    requires Inv(s) && Queue(s, c) != []
    ensures |Done(TakenFrom(s, c))| == |Done(s)| + 1
  {
    hide Inv;
    FrontQueued(s, c);
    assert Done(TakenFrom(s, c)) == Done(s) + {Queue(s, c)[0].id};
  }

  lemma TakenDoomed(s: State, c: JobClass, x: nat)
    requires Queue(s, c) != [] && Doomed(s, x)
    ensures Doomed(TakenFrom(s, c), x) || x in TakenFrom(s, c).skipped
  {
    var s', id := TakenFrom(s, c), Queue(s, c)[0].id;
    var k := s.home[x];
    if k == c && x != id {
      var i :| 0 <= i < |Queue(s, c)| && Ids(Queue(s, c))[i] == x;
      assert Ids(Queue(s', c))[i - 1] == x;
    }
  }

  function CancelledIn(s: State, id: nat): State {
    s.(cancelled := s.cancelled + {id}, cancels := s.cancels + {id})
  }

  lemma CancelledSame(s: State, id: nat)
    ensures var s' := CancelledIn(s, id);
      && (forall c :: Admissions(s', c) == Admissions(s, c) && Past(s', c) == Past(s, c) && Load(s', c) == Load(s, c))
      && (forall x: nat :: (Taken(s', x) <==> Taken(s, x)) && (Queued(s', x) <==> Queued(s, x)))
      && Done(s') == Done(s) && (Programs(s) ==> Programs(s'))
  {
    var s' := CancelledIn(s, id);
    assert forall c :: Queue(s', c) == Queue(s, c);
  }

  lemma CancelledKeeps(s: State, id: nat)
    requires Inv(s)
    ensures Inv(CancelledIn(s, id)) && Later(s, CancelledIn(s, id))
    ensures Queued(s, id) ==> Doomed(CancelledIn(s, id), id)
  {
    hide Increasing, NoRepeats, Admissions, Past, Taken, Queued, Load, Done, Programs;
    CancelledSame(s, id);
  }

  function Noted(s: State, note: Note): State {
    s.(notes := s.notes + [note])
  }

  lemma NotedKeeps(s: State, note: Note)
    requires Inv(s)
    ensures Inv(Noted(s, note)) && Later(s, Noted(s, note))
  {
    var s' := Noted(s, note);
    assert forall c :: Admissions(s', c) == Admissions(s, c) && Past(s', c) == Past(s, c) && Queue(s', c) == Queue(s, c);
    assert forall x: nat :: (Taken(s', x) <==> Taken(s, x)) && (Queued(s', x) <==> Queued(s, x));
    assert Done(s') == Done(s);
  }

  /** Nothing more can be taken than was admitted. */
  lemma DoneWithin(s: State)
    requires Inv(s)
    ensures |Done(s)| <= s.admitted <= s.admission
  {
    hide Increasing, NoRepeats, Admissions, Taken;
    Below(Done(s), s.nextId);
  }

  // ---------- whole jobs ----------

  /** How many jobs may still be taken. */
  ghost function Left(s: State): nat
    requires Inv(s)
  {
    DoneWithin(s);
    s.admission - |Done(s)|
  }

  /** What running one job makes of the queues, everything it drains included. */
  ghost function Play(s: State, job: Job): (r: State)
    requires Inv(s)
    ensures Inv(r) && Later(s, r)
    decreases Left(s), 1, job
  {
    LaterSame(s);
    match job
    case Finish => s
    case Finalize(registration, target) =>
      NotedKeeps(s, Note(registration, target));
      Noted(s, Note(registration, target))
    case EnqueueThen(c, j, next) =>
      var answer, b := AdmissionAnswer(s), AdmittedIfRoom(s, c, j);
      Then(s, b, job, Branch(next, answer))
    case CancelThen(id, rest) =>
      CancelledKeeps(s, id);
      Then(s, CancelledIn(s, id), job, Some(rest))
    case DrainThen(c, work, next) =>
      var drained := Select(s, c, work);
      var answer := Drained(drained.1, Queue(drained.0, c) != []);
      Then(s, drained.0, job, Branch(next, answer))
    case CheckpointThen(c, work, next) =>
      var drained := Select(s, c, work);
      var answer := if Queue(drained.0, c) == [] then Some(drained.1) else None;
      Then(s, drained.0, job, Branch(next, answer))
    case RemainingThen(next) =>
      var answer: nat := s.admission - s.admitted;
      Then(s, s, job, Branch(next, answer))
  }

  /** Goes on from `b` with `rest` unless the job stops there. */
  ghost function Then(s: State, b: State, job: Job, rest: Option<Job>): (r: State)
    requires Inv(s) && Inv(b) && Later(s, b) && (rest.Some? ==> rest.value < job)
    ensures Inv(r) && Later(s, r)
    decreases Left(s), 1, job, 0
  {
    if rest.Some? then
      LaterDone(s, b);
      LaterTransitive(s, b, Play(b, rest.value));
      Play(b, rest.value)
    else b
  }

  function Branch<Answer(==)>(next: imap<Answer, Job>, answer: Answer): Option<Job> {
    if answer in next then Some(next[answer]) else None
  }

  function AdmissionAnswer(s: State): Option<nat> {
    if s.admitted < s.admission then Some(s.nextId) else None
  }

  ghost function AdmittedIfRoom(s: State, c: JobClass, job: Job): (r: State)
    requires Inv(s)
    ensures Inv(r) && Later(s, r)
  {
    LaterSame(s);
    if s.admitted < s.admission then
      AdmittedInv(s, c, job);
      AdmittedLater(s, c, job);
      Admitted(s, c, job)
    else s
  }

  /** What taking at most `limit` jobs of one class makes of the queues, and the jobs run. */
  ghost function Select(s: State, c: JobClass, limit: nat): (r: (State, seq<nat>))
    requires Inv(s)
    ensures Inv(r.0) && Later(s, r.0)
    decreases Left(s), 0, Finish, limit
  {
    LaterSame(s);
    if limit == 0 || Queue(s, c) == [] then (s, [])
    else
      var entry, b := Queue(s, c)[0], TakenFrom(s, c);
      TakenInv(s, c);
      TakenLater(s, c);
      if entry.id in s.cancelled then
        var rest := Select(b, c, limit - 1);
        LaterTransitive(s, b, rest.0);
        rest
      else
        var d := Play(b, entry.run);
        LaterDone(b, d);
        var rest := Select(d, c, limit - 1);
        LaterTransitive(s, b, d);
        LaterTransitive(s, d, rest.0);
        (rest.0, [entry.id] + rest.1)
  }

  // ---------- the queues ----------

  class JobQueues {
    var queues: map<JobClass, seq<Entry>>
    var cancelled: set<nat>
    var nextId: nat
    var admitted: nat
    const admission: nat
    ghost var home: map<nat, JobClass>
    ghost var jobs: map<nat, Job>
    ghost var past: map<JobClass, seq<nat>>
    ghost var ran: seq<nat>
    ghost var skipped: set<nat>
    ghost var cancels: set<nat>
    ghost var notes: seq<Note>

    ghost function See(): State
      reads this
    {
      State(queues, cancelled, nextId, admitted, admission, home, jobs, past, ran, skipped, cancels, notes)
    }

    ghost predicate Valid()
      reads this
    {
      Inv(See())
    }

    /** How many jobs may still be taken. */
    ghost function Budget(): nat
      requires Valid()
      reads this
    {
      Left(See())
    }

    constructor (admission: nat)
      requires admission <= MAX_COUNT
      ensures Valid() && See() == State(map[], {}, 0, 0, admission, map[], map[], map[], [], {}, {}, [])
    {
      this.admission := admission;
      queues, cancelled, nextId, admitted := map[], {}, 0, 0;
      home, jobs, past, ran, skipped, cancels, notes := map[], map[], map[], [], {}, {}, [];
    }

    function RemainingAdmission(): (r: nat)
      reads this
      ensures Valid() ==> r == admission - admitted
    {
      if admitted <= admission then admission - admitted else 0
    }

    /** Admits a job at the tail of its class; the saturating identity counter never
        saturates. */
    method Enqueue(c: JobClass, job: Job) returns (r: Option<nat>)
      requires Valid()
      modifies this
      ensures Valid() && Later(old(See()), See())
      ensures r == if old(admitted) < admission then Some(old(nextId)) else None
      ensures See() == if r.Some? then Admitted(old(See()), c, job) else old(See())
    {
      hide Inv, Later;
      LaterSame(See());
      if admitted >= admission { return None; }
      AdmittedInv(See(), c, job);
      AdmittedLater(See(), c, job);
      CountersFit(See());
      var id := nextId;
      nextId := SaturatingNext(nextId);
      admitted := admitted + 1;
      queues := queues[c := (if c in queues then queues[c] else []) + [Entry(id, job)]];
      home := home[id := c];
      jobs := jobs[id := job];
      r := Some(id);
      assert See() == Admitted(old(See()), c, job);
    }

    method CancelJob(id: nat)
      requires Valid()
      modifies this
      ensures Valid() && Later(old(See()), See())
      ensures See() == CancelledIn(old(See()), id)
      ensures old(Queued(See(), id)) ==> Doomed(See(), id)
    {
      CancelledKeeps(See(), id);
      cancelled := cancelled + {id};
      cancels := cancels + {id};
    }

    /** Runs one job to its end; it may use the queues it runs in. */
    method RunJob(job: Job)
      requires Valid()
      modifies this
      ensures Valid() && Later(old(See()), See())
      ensures See() == Play(old(See()), job)
      decreases Budget(), 1, job
    {
      hide Inv, Later, Done;
      ghost var a := See();
      LaterSame(a);
      match job
      case Finish =>
      case Finalize(registration, target) =>
        NotedKeeps(a, Note(registration, target));
        notes := notes + [Note(registration, target)];
      case EnqueueThen(c, j, next) =>
        var id := Enqueue(c, j);
        ghost var b := See();
        LaterDone(a, b);
        LaterSame(b);
        if id in next { RunJob(next[id]); LaterTransitive(a, b, See()); }
      case CancelThen(id, rest) =>
        CancelJob(id);
        ghost var b := See();
        LaterDone(a, b);
        RunJob(rest);
        LaterTransitive(a, b, See());
      case DrainThen(c, work, next) =>
        var receipt := Drain(c, work);
        ghost var b := See();
        LaterDone(a, b);
        if receipt in next { RunJob(next[receipt]); LaterTransitive(a, b, See()); }
      case CheckpointThen(c, work, next) =>
        var receipt := Checkpoint(c, work);
        ghost var b := See();
        LaterDone(a, b);
        if receipt in next { RunJob(next[receipt]); LaterTransitive(a, b, See()); }
      case RemainingThen(next) =>
        var left := RemainingAdmission();
        if left in next { RunJob(next[left]); }
    }

    /** Takes the oldest job of a class and, unless it was cancelled, runs it. */
    method TakeFront(c: JobClass) returns (id: nat, started: bool)
      requires Valid() && c in queues && queues[c] != []
      modifies this
      ensures Valid() && Later(old(See()), See())
      ensures id == old(queues[c][0].id) && started == (id !in old(cancelled))
      ensures old(Inv(TakenFrom(See(), c)))
      ensures See() == if started then Play(old(TakenFrom(See(), c)), old(queues[c][0].run)) else old(TakenFrom(See(), c))
      decreases Budget(), 0, Finish, 0
    {
      hide Inv, Later, Done, Load, TakenFrom, Play;
      ghost var s := See();
      ghost var b := TakenFrom(s, c);
      TakenInv(s, c);
      TakenLater(s, c);
      TakenFields(s, c);
      var entry := queues[c][0];
      id := entry.id;
      queues := queues[c := queues[c][1..]];
      past := past[c := Past(s, c) + [id]];
      started := id !in cancelled;
      if started {
        ran := ran + [id];
        assert See() == b;
        DoneWithin(b);
        RunJob(entry.run);
        LaterTransitive(s, b, See());
      } else {
        cancelled := cancelled - {id};
        skipped := skipped + {id};
        assert See() == b;
      }
    }

    /** Takes at most `limit` jobs of one class, oldest first, and lists those it ran. */
    method RunSelected(c: JobClass, limit: nat) returns (completed: seq<nat>)
      requires Valid()
      modifies this
      ensures Valid() && Later(old(See()), See())
      ensures (See(), completed) == Select(old(See()), c, limit)
      ensures RanHere(old(See()), See(), c, completed) && |completed| <= limit
      ensures Queue(See(), c) != [] ==> |completed| + SkippedSince(old(See()), See()) >= limit
      ensures limit >= old(Load(See(), c)) ==> Queue(See(), c) == []
      decreases Budget(), 0, Finish, 1
    {
      hide Inv, Later, Done, Load, RanHere, TakenFrom, SkippedSince, Select, Play, Splits, Progress;
      ghost var a := See();
      LaterSame(a);
      ProgressStart(a, c, limit);
      completed := [];
      var examined := 0;
      while examined < limit && c in queues && queues[c] != []
        invariant Valid() && examined <= limit && Progress(a, See(), c, limit, examined, completed)
        decreases limit - examined
      {
        ghost var s := See();
        ProgressBudget(a, s, c, limit, examined, completed);
        ProgressNext(a, s, c, limit, examined, completed);
        var id, started := TakeFront(c);
        examined := examined + 1;
        if started { completed := completed + [id]; }
      }
      ProgressEnd(a, See(), c, limit, examined, completed);
    }

    /** Takes at most `work` jobs of one class. */
    method Drain(c: JobClass, work: nat) returns (r: Drained)
      requires Valid()
      modifies this
      ensures Valid() && Later(old(See()), See())
      ensures (See(), r.completed) == Select(old(See()), c, work)
      ensures RanHere(old(See()), See(), c, r.completed) && |r.completed| <= work
      ensures r.pending <==> Queue(See(), c) != []
      ensures r.pending ==> |r.completed| + SkippedSince(old(See()), See()) >= work
      ensures work >= old(Load(See(), c)) ==> !r.pending
      decreases Budget(), 0, Finish, 2
    {
      hide Inv, Later, Done, Load, RanHere, SkippedSince;
      var completed := RunSelected(c, work);
      r := Drained(completed, c in queues && queues[c] != []);
    }

    /** Empties one class, re-entrant admissions included, or reports that it could not. */
    method Checkpoint(c: JobClass, work: nat) returns (r: Option<seq<nat>>)
      requires Valid()
      modifies this
      ensures Valid() && Later(old(See()), See())
      ensures See() == Select(old(See()), c, work).0 && (r.Some? ==> r.value == Select(old(See()), c, work).1)
      ensures r.Some? <==> Queue(See(), c) == []
      ensures r.Some? ==> RanHere(old(See()), See(), c, r.value) && |r.value| <= work
      ensures work >= old(Load(See(), c)) ==> r.Some?
      decreases Budget(), 0, Finish, 2
    {
      hide Inv, Later, Done, Load, RanHere, SkippedSince;
      var completed := RunSelected(c, work);
      if c in queues && queues[c] != [] { return None; }
      r := Some(completed);
    }
  }

  /** What has been taken and what is left to take make up the whole drain. */
  ghost predicate Splits(a: State, s: State, c: JobClass, limit: nat, examined: nat, completed: seq<nat>)
    requires Inv(a) && Inv(s)
  {
    && examined <= limit
    && Select(a, c, limit).0 == Select(s, c, limit - examined).0
    && Select(a, c, limit).1 == completed + Select(s, c, limit - examined).1
  }

  lemma SplitsStart(a: State, c: JobClass, limit: nat)
    requires Inv(a)
    ensures Splits(a, a, c, limit, 0, [])
  {
  }

  lemma SplitsNext(a: State, s: State, c: JobClass, limit: nat, examined: nat, completed: seq<nat>)
    requires Inv(a) && Inv(s) && Splits(a, s, c, limit, examined, completed) && examined < limit && Queue(s, c) != []
    ensures Inv(TakenFrom(s, c))
    ensures var entry, b := Queue(s, c)[0], TakenFrom(s, c);
      if entry.id in s.cancelled then Splits(a, b, c, limit, examined + 1, completed)
      else Splits(a, Play(b, entry.run), c, limit, examined + 1, completed + [entry.id])
  {
    hide Inv, Later, TakenFrom, Play;
    TakenInv(s, c);
    TakenLater(s, c);
    var entry, b := Queue(s, c)[0], TakenFrom(s, c);
    SelectUnfolds(s, c, limit - examined);
    if entry.id !in s.cancelled {
      var rest := Select(Play(b, entry.run), c, limit - examined - 1);
      assert completed + ([entry.id] + rest.1) == completed + [entry.id] + rest.1;
    }
  }

  lemma SelectUnfolds(s: State, c: JobClass, limit: nat)
    requires Inv(s) && limit > 0 && Queue(s, c) != []
    ensures Inv(TakenFrom(s, c))
    ensures var entry, b := Queue(s, c)[0], TakenFrom(s, c);
      Select(s, c, limit) ==
      if entry.id in s.cancelled then Select(b, c, limit - 1)
      else var rest := Select(Play(b, entry.run), c, limit - 1); (rest.0, [entry.id] + rest.1)
  {
    hide Inv, Later, TakenFrom, Play;
    TakenInv(s, c);
  }

  lemma SplitsEnd(a: State, s: State, c: JobClass, limit: nat, examined: nat, completed: seq<nat>)
    requires Inv(a) && Inv(s) && Splits(a, s, c, limit, examined, completed) && (examined >= limit || Queue(s, c) == [])
    ensures Select(a, c, limit) == (s, completed)
  {
    hide Inv, Later, Play;
    assert Select(s, c, limit - examined) == (s, []);
    assert completed + [] == completed;
  }

  /** A drain under way: what it has done so far, and what is left of it. */
  ghost predicate Progress(a: State, s: State, c: JobClass, limit: nat, examined: nat, completed: seq<nat>)
    requires Inv(a) && Inv(s)
  {
    && Later(a, s) && RanHere(a, s, c, completed) && Splits(a, s, c, limit, examined, completed)
    && |completed| <= examined <= |completed| + SkippedSince(a, s)
    && examined + Load(s, c) <= Load(a, c)
  }

  lemma ProgressStart(a: State, c: JobClass, limit: nat)
    requires Inv(a)
    ensures Progress(a, a, c, limit, 0, [])
  {
    hide Inv, Later, Done, Load, RanHere, Select, Splits;
    LaterSame(a);
    RanNone(a, c);
    SplitsStart(a, c, limit);
  }

  lemma ProgressBudget(a: State, s: State, c: JobClass, limit: nat, examined: nat, completed: seq<nat>)
    requires Inv(a) && Inv(s) && Progress(a, s, c, limit, examined, completed)
    ensures Left(s) <= Left(a)
  {
    hide Inv, Later, Done, Load, RanHere, Select, Splits;
    LaterDone(a, s);
  }

  /** Taking one more job. */
  lemma ProgressNext(a: State, s: State, c: JobClass, limit: nat, examined: nat, completed: seq<nat>)
    requires Inv(a) && Inv(s) && Progress(a, s, c, limit, examined, completed) && examined < limit && Queue(s, c) != []
    ensures Inv(TakenFrom(s, c))
    ensures var entry, b := Queue(s, c)[0], TakenFrom(s, c);
      if entry.id in s.cancelled then Progress(a, b, c, limit, examined + 1, completed)
      else Progress(a, Play(b, entry.run), c, limit, examined + 1, completed + [entry.id])
  {
    hide Inv, Later, Done, Load, RanHere, TakenFrom, SkippedSince, Select, Play, Splits;
    var entry, b := Queue(s, c)[0], TakenFrom(s, c);
    TakenInv(s, c);
    TakenLater(s, c);
    LaterTransitive(a, s, b);
    LaterDone(a, s);
    FrontProgram(s, c);
    SplitsNext(a, s, c, limit, examined, completed);
    if entry.id in s.cancelled {
      RanLater(a, s, b, c, completed);
      SkippedOne(a, s, c);
    } else {
      var d := Play(b, entry.run);
      LaterTransitive(a, b, d);
      LaterDone(b, d);
      ProgramRan(b, d, entry.id, entry.run);
      RanOne(a, s, d, c, completed);
      SkippedGrows(a, s, b);
      SkippedGrows(a, b, d);
    }
  }

  lemma ProgressEnd(a: State, s: State, c: JobClass, limit: nat, examined: nat, completed: seq<nat>)
    requires Inv(a) && Inv(s) && Progress(a, s, c, limit, examined, completed) && (examined >= limit || Queue(s, c) == [])
    ensures Later(a, s) && Select(a, c, limit) == (s, completed) && RanHere(a, s, c, completed) && |completed| <= limit
    ensures Queue(s, c) != [] ==> |completed| + SkippedSince(a, s) >= limit
    ensures limit >= Load(a, c) ==> Queue(s, c) == []
  {
    assert examined <= limit;
    hide Inv, Later, Done, Load, RanHere, Select, Splits, SkippedSince;
    SplitsEnd(a, s, c, limit, examined, completed);
    EmptyAtLoad(s, c);
  }

  lemma FrontProgram(s: State, c: JobClass)
    requires Inv(s) && Queue(s, c) != []
    ensures var entry := Queue(s, c)[0]; entry.id in TakenFrom(s, c).jobs && TakenFrom(s, c).jobs[entry.id] == entry.run
  {
    assert Queue(s, c)[0] in Queue(s, c) && Holds(s.jobs, Queue(s, c)[0]);
  }

  lemma ProgramRan(s: State, s': State, id: nat, job: Job)
    requires Later(s, s') && id in s.jobs && s.jobs[id] == job
    requires Inv(s) && s' == Play(s, job)
    ensures Delivered(s', id)
  {
    hide Inv;
  }

  lemma CountersFit(s: State)
    requires Inv(s) && s.admitted < s.admission
    ensures s.nextId == s.admitted < MAX_COUNT
  {
  }

  lemma LaterDone(s: State, s': State)
    requires Later(s, s')
    ensures |Done(s)| <= |Done(s')| && forall c :: Load(s', c) <= Load(s, c)
    ensures s'.admission == s.admission
  {
  }

  lemma TakenFields(s: State, c: JobClass)
    requires Queue(s, c) != []
    ensures var id := Queue(s, c)[0].id;
      var t := s.(queues := s.queues[c := Queue(s, c)[1..]], past := s.past[c := Past(s, c) + [id]]);
      TakenFrom(s, c) == if id in s.cancelled then t.(cancelled := s.cancelled - {id}, skipped := s.skipped + {id})
                         else t.(ran := s.ran + [id])
  {
  }

  lemma EmptyAtLoad(s: State, c: JobClass)
    requires Inv(s)
    ensures Load(s, c) >= 0 && (Load(s, c) == 0 ==> Queue(s, c) == [])
  {
  }

  // ---------- what one drain reports ----------

  /** The report lists jobs of the drained class that started since, oldest first, and the
      finalizers among them have sent their notes. */
  ghost predicate RanHere(s: State, s': State, c: JobClass, completed: seq<nat>) {
    && Increasing(completed)
    && forall i :: 0 <= i < |completed| ==>
         completed[i] in s'.ran && completed[i] !in s.ran && completed[i] in Past(s', c) && Delivered(s', completed[i])
  }

  ghost predicate Delivered(s: State, id: nat) {
    id in s.jobs && (s.jobs[id].Finalize? ==> Note(s.jobs[id].registration, s.jobs[id].target) in s.notes)
  }

  lemma RanNone(s: State, c: JobClass)
    ensures RanHere(s, s, c, [])
  {
  }

  lemma RanLater(a: State, s: State, b: State, c: JobClass, completed: seq<nat>)
    requires RanHere(a, s, c, completed) && Later(s, b)
    ensures RanHere(a, b, c, completed)
  {
    forall i | 0 <= i < |completed| ensures completed[i] in b.ran && completed[i] in Past(b, c) && Delivered(b, completed[i]) {
      assert s.ran <= b.ran && Past(s, c) <= Past(b, c) && s.notes <= b.notes;
    }
  }

  lemma RanOne(a: State, s: State, b: State, c: JobClass, completed: seq<nat>)
    requires Inv(s) && Queue(s, c) != [] && Queue(s, c)[0].id !in s.cancelled
    requires RanHere(a, s, c, completed) && Later(a, s) && Later(TakenFrom(s, c), b) && Later(s, TakenFrom(s, c))
    requires Delivered(b, Queue(s, c)[0].id)
    ensures RanHere(a, b, c, completed + [Queue(s, c)[0].id])
  {
    hide Load, Done, Doomed, Delivered, Later, Inv, Admissions;
    var id, t := Queue(s, c)[0].id, TakenFrom(s, c);
    FrontQueued(s, c);
    RanLater(a, s, t, c, completed);
    RanLater(a, t, b, c, completed);
    TakenRuns(s, c);
    LaterRan(t, b, c);
    LaterRan(a, s, c);
    forall i | 0 <= i < |completed| ensures completed[i] < id {
      PastBefore(s, c, completed[i]);
    }
  }

  ghost function SkippedSince(s: State, s': State): nat {
    |s'.skipped - s.skipped|
  }

  lemma SkippedGrows(a: State, s: State, b: State)
    requires Later(s, b)
    ensures SkippedSince(a, s) <= SkippedSince(a, b)
  {
    SubsetSize(s.skipped - a.skipped, b.skipped - a.skipped);
  }

  lemma SkippedOne(a: State, s: State, c: JobClass)
    requires Inv(s) && Later(a, s) && Queue(s, c) != [] && Queue(s, c)[0].id in s.cancelled
    ensures SkippedSince(a, TakenFrom(s, c)) == SkippedSince(a, s) + 1
  {
    hide Inv;
    var id := Queue(s, c)[0].id;
    FrontQueued(s, c);
    assert id !in a.skipped;
    assert TakenFrom(s, c).skipped - a.skipped == (s.skipped - a.skipped) + {id};
  }

  lemma TakenRuns(s: State, c: JobClass)
    requires Queue(s, c) != [] && Queue(s, c)[0].id !in s.cancelled
    ensures Queue(s, c)[0].id in TakenFrom(s, c).ran && Queue(s, c)[0].id in Past(TakenFrom(s, c), c)
  {
  }

  lemma LaterRan(s: State, s': State, c: JobClass)
    requires Later(s, s')
    ensures forall id :: (id in s.ran ==> id in s'.ran) && (id in Past(s, c) ==> id in Past(s', c))
  {
    assert s.ran <= s'.ran && Past(s, c) <= Past(s', c);
  }

  lemma PastBefore(s: State, c: JobClass, x: nat)
    requires Inv(s) && Queue(s, c) != [] && x in Past(s, c)
    ensures x < Queue(s, c)[0].id
  {
    assert Increasing(Admissions(s, c));
    IncreasingApart(Past(s, c), Ids(Queue(s, c)));
    assert Ids(Queue(s, c))[0] in Ids(Queue(s, c));
  }
}

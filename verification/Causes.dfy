/** Why a run may fail: the queries it can get to, what their callbacks may do there, and
    how much they may charge. */
module Causes {
  import opened Collections
  import opened Queries
  import opened Memo
  import opened Runs

  // ---------- what is left of a callback ----------

  /** `next` is what may be left of `body` after its first step. */
  ghost predicate Follows(body: Body, next: Body) {
    match body
    case Return(_) => false
    case Fail(_) => false
    case ReadThen(_, answers) => exists v :: v in answers && answers[v] == next
    case ObserveThen(_, _, answers) => exists x :: x in answers && answers[x] == next
    case ChargeWork(_, rest) => rest == next
    case ChargeOutput(_, rest) => rest == next
    case Cancel(rest) => rest == next
  }

  /** Whatever `body` may do, `whole` may do. */
  ghost predicate PartOf(whole: Body, body: Body) {
    && (forall e :: Raises(body, e) ==> Raises(whole, e))
    && (Cancels(body) ==> Cancels(whole))
    && (forall k :: Reads(body, k) ==> Reads(whole, k))
  }

  lemma PartOfItself(body: Body)
    ensures PartOf(body, body)
  {
  }

  lemma PartOfNext(whole: Body, body: Body, next: Body)
    requires PartOf(whole, body) && Follows(body, next)
    ensures PartOf(whole, next)
  {
    forall e | Raises(next, e) ensures Raises(whole, e) { assert Raises(body, e); }
    forall k | Reads(next, k) ensures Reads(whole, k) { assert Reads(body, k); }
  }

  lemma PartOfStep(whole: Body, body: Body)
    requires PartOf(whole, body)
    ensures body.Fail? ==> Raises(whole, body.error)
    ensures body.Cancel? ==> Cancels(whole)
    ensures body.ReadThen? ==> Reads(whole, body.key) && forall v :: v in body.next || Raises(whole, Cancelled)
    ensures body.ObserveThen? ==> forall x :: x in body.answers || Raises(whole, Cancelled)
  {
    assert body.Fail? ==> Raises(body, body.error);
    assert body.ReadThen? ==> Reads(body, body.key);
    if body.ReadThen? {
      forall v | v !in body.next ensures Raises(whole, Cancelled) { assert Raises(body, Cancelled); }
    }
    if body.ObserveThen? {
      forall x | x !in body.answers ensures Raises(whole, Cancelled) { assert Raises(body, Cancelled); }
    }
  }

  // ---------- the queries a run can get to ----------

  /** Evaluating `k` may evaluate `x`: its callback may read it, or its memo did. */
  ghost predicate Asks(st: State, k: Key, x: Key) {
    && k in st.queries
    && (Reads(st.queries[k], x) || (k in st.nodes && exists d :: d in st.nodes[k].dependencies && d.Read? && d.key == x))
  }

  ghost predicate Chain(st: State, path: seq<Key>) {
    path != [] && forall i :: 0 <= i < |path| - 1 ==> Asks(st, path[i], path[i + 1])
  }

  ghost predicate Reached(st: State, root: Key, k: Key) {
    exists path :: Chain(st, path) && path[0] == root && path[|path| - 1] == k
  }

  /** The active queries were asked for one by another, the first by the caller. */
  ghost predicate Active(st: State, root: Key, stack: seq<Key>) {
    stack != [] ==> stack[0] == root && Chain(st, stack)
  }

  /** `key` may be asked for now. */
  ghost predicate Called(st: State, root: Key, stack: seq<Key>, key: Key) {
    if stack == [] then key == root else Asks(st, stack[|stack| - 1], key)
  }

  lemma ActiveMore(st: State, root: Key, stack: seq<Key>, key: Key)
    requires Active(st, root, stack) && Called(st, root, stack, key)
    ensures Active(st, root, stack + [key]) && Chain(st, stack + [key]) && Reached(st, root, key)
  {
    hide Asks;
    assert Chain(st, stack + [key]);
  }

  lemma ActiveReached(st: State, root: Key, stack: seq<Key>)
    requires Active(st, root, stack) && stack != []
    ensures Reached(st, root, stack[|stack| - 1])
  {
  }

  lemma CalledBy(st: State, root: Key, stack: seq<Key>, k: Key)
    requires stack != [] && stack[|stack| - 1] in st.queries && Reads(st.queries[stack[|stack| - 1]], k)
    ensures Called(st, root, stack, k)
  {
  }

  // ---------- errors ----------

  /** Some query the run can get to has a callback that may end in this error. */
  ghost predicate Raised(st: State, root: Key, e: Error) {
    exists k :: Reached(st, root, k) && k in st.queries && Raises(st.queries[k], e)
  }

  ghost predicate Cancellable(st: State, root: Key) {
    exists k :: Reached(st, root, k) && k in st.queries && Cancels(st.queries[k])
  }

  /** A way down from the root through that many different registered queries. */
  ghost predicate Deep(st: State, root: Key, depth: nat) {
    exists path :: Chain(st, path) && path[0] == root && |path| == depth && NoRepeats(path) && forall k :: k in path ==> k in st.queries
  }

  function LimitOf(budgets: Budgets, kind: BudgetKind): nat {
    match kind
    case Work => budgets.maxWork
    case Observations => budgets.maxObservations
    case Depth => budgets.maxDepth
    case Output => budgets.maxOutput
  }

  /** Errors the engine raises itself tell the truth about the table the run began with. A
      budget error, and no other, leaves one new continuation. */
  ghost predicate Truthful(e: Error, st: State, root: Key, budgets: Budgets, before: map<nat, Key>, after: map<nat, Key>) {
    match e
    case UnknownQuery(k) => k !in st.queries && Reached(st, root, k) && after == before
    case Cycle(path) =>
      && |path| >= 2 && path[0] == path[|path| - 1] && NoRepeats(path[..|path| - 1])
      && Chain(st, path) && Reached(st, root, path[0]) && after == before
    case BudgetExceeded(kind, limit, consumed, token) =>
      && limit == LimitOf(budgets, kind) && consumed > limit
      && (if kind == Depth then consumed == limit + 1 && Deep(st, root, consumed) else Fits(st.queries, kind, consumed))
      && token.Some? && token.value !in before && after == before[token.value := root]
    case Cancelled => Cancellable(st, root) && after == before
    case UnknownContinuation(_) => false
  }

  /** An error is the engine's and true, or the own one of a callback the run can get to. */
  ghost predicate Explained(e: Error, st: State, root: Key, budgets: Budgets, before: map<nat, Key>, after: map<nat, Key>) {
    (Raised(st, root, e) && after == before) || Truthful(e, st, root, budgets, before, after)
  }

  lemma RaisedExplained(e: Error, st: State, root: Key, budgets: Budgets, tokens: map<nat, Key>, stack: seq<Key>)
    requires Active(st, root, stack) && stack != [] && stack[|stack| - 1] in st.queries && Raises(st.queries[stack[|stack| - 1]], e)
    ensures Explained(e, st, root, budgets, tokens, tokens)
  {
    ActiveReached(st, root, stack);
  }

  lemma CancelledBy(st: State, root: Key, stack: seq<Key>)
    requires Active(st, root, stack) && stack != [] && stack[|stack| - 1] in st.queries && Cancels(st.queries[stack[|stack| - 1]])
    ensures Cancellable(st, root)
  {
    ActiveReached(st, root, stack);
  }

  // ---------- what callbacks may charge ----------

  /** What the first step of a callback charges. */
  function Price(kind: BudgetKind, body: Body): nat {
    match body
    case ReadThen(_, _) => if kind == Observations then 1 else 0
    case ObserveThen(_, _, _) => if kind == Observations then 1 else 0
    case ChargeWork(units, _) => if kind == Work then units else 0
    case ChargeOutput(units, _) => if kind == Output then units else 0
    case _ => 0
  }

  /** No course of the callback charges more than `c`. */
  ghost predicate Costs(kind: BudgetKind, body: Body, c: nat) {
    Price(kind, body) <= c && var left := c - Price(kind, body);
    match body
    case Return(_) => true
    case Fail(_) => true
    case ReadThen(_, next) => forall v :: v in next ==> Costs(kind, next[v], left)
    case ObserveThen(_, _, answers) => forall x :: x in answers ==> Costs(kind, answers[x], left)
    case ChargeWork(_, rest) => Costs(kind, rest, left)
    case ChargeOutput(_, rest) => Costs(kind, rest, left)
    case Cancel(rest) => Costs(kind, rest, left)
  }

  ghost predicate Caps(kind: BudgetKind, queries: map<Key, Body>, c: nat) {
    forall k :: k in queries ==> Costs(kind, queries[k], c)
  }

  ghost function LeastCap(kind: BudgetKind, queries: map<Key, Body>, c: nat): (least: nat)
    requires Caps(kind, queries, c)
    ensures Caps(kind, queries, least) && forall d: nat :: Caps(kind, queries, d) ==> least <= d
  {
    if exists d: nat :: d < c && Caps(kind, queries, d)
    then var d: nat :| d < c && Caps(kind, queries, d); LeastCap(kind, queries, d)
    else c
  }

  /** The least that caps every registered callback, if anything does. */
  ghost function Rate(kind: BudgetKind, queries: map<Key, Body>): (rate: Option<nat>)
    ensures rate.Some? ==> Caps(kind, queries, rate.value)
    ensures forall c: nat :: Caps(kind, queries, c) ==> rate.Some? && rate.value <= c
  {
    if exists c: nat :: Caps(kind, queries, c)
    then var c: nat :| Caps(kind, queries, c); Some(LeastCap(kind, queries, c))
    else None
  }

  /** What the engine itself charges for running a callback. */
  function Upfront(kind: BudgetKind): nat {
    if kind == Work || kind == Output then 1 else 0
  }

  /** Each registered callback runs at most once, and no run charges more than that comes to. */
  ghost predicate Fits(queries: map<Key, Body>, kind: BudgetKind, charged: nat) {
    var rate := Rate(kind, queries);
    rate.Some? ==> charged <= |queries| * (rate.value + Upfront(kind))
  }

  /** So many units of each kind but depth. */
  datatype Spending = Spending(work: nat, observations: nat, output: nat)

  function Of(s: Spending, kind: BudgetKind): nat {
    match kind
    case Work => s.work
    case Observations => s.observations
    case Depth => 0
    case Output => s.output
  }

  function Less(a: nat, b: nat): nat {
    if b <= a then a - b else 0
  }

  /** What is left of an allowance after the first step of `body`. */
  function Paid(s: Spending, body: Body): Spending {
    Spending(Less(s.work, Price(Work, body)), Less(s.observations, Price(Observations, body)), Less(s.output, Price(Output, body)))
  }

  function Charged(s: Spending, body: Body): Spending {
    Spending(s.work + Price(Work, body), s.observations + Price(Observations, body), s.output + Price(Output, body))
  }

  /** After `started` callbacks: what was charged, and what the active ones may still charge,
      is what those may. */
  ghost predicate Afforded(queries: map<Key, Body>, spent: Spending, open: Spending, started: nat) {
    forall kind :: Rate(kind, queries).Some? ==> Of(spent, kind) + Of(open, kind) <= started * (Rate(kind, queries).value + Upfront(kind))
  }

  /** What is left of a callback may charge `c`, and that is set aside. */
  ghost predicate Allowed(queries: map<Key, Body>, body: Body, c: Spending, open: Spending) {
    forall kind :: kind != Depth && Rate(kind, queries).Some? ==> Costs(kind, body, Of(c, kind)) && Of(c, kind) <= Of(open, kind)
  }

  /** At most `c` was taken from what is set aside. */
  ghost predicate Taken(queries: map<Key, Body>, open: Spending, open': Spending, c: Spending) {
    forall kind :: Rate(kind, queries).Some? ==> Of(open, kind) <= Of(open', kind) + Of(c, kind)
  }

  lemma NothingSpent(queries: map<Key, Body>)
    ensures Afforded(queries, Spending(0, 0, 0), Spending(0, 0, 0), 0)
  {
  }

  lemma NothingTaken(queries: map<Key, Body>, open: Spending, c: Spending)
    ensures Taken(queries, open, open, c)
  {
  }

  lemma StartedBound(queries: map<Key, Body>, kind: BudgetKind, started: nat)
    requires started <= |queries| && Rate(kind, queries).Some?
    ensures started * (Rate(kind, queries).value + Upfront(kind)) <= |queries| * (Rate(kind, queries).value + Upfront(kind))
  {
    Scaled(Rate(kind, queries).value + Upfront(kind), started, |queries|);
  }

  /** What the first step of a callback charges fits, and leaves what its rest may. */
  lemma StepAfforded(queries: map<Key, Body>, body: Body, spent: Spending, open: Spending, c: Spending, started: nat)
    requires Afforded(queries, spent, open, started) && Allowed(queries, body, c, open) && started <= |queries|
    ensures forall kind :: kind != Depth ==> Fits(queries, kind, Of(spent, kind) + Price(kind, body))
    ensures Afforded(queries, Charged(spent, body), Paid(open, body), started)
  {
    hide Rate, Costs;
    forall kind | kind != Depth && Rate(kind, queries).Some? ensures Price(kind, body) <= Of(open, kind) { PriceAllowed(queries, body, c, open, kind); }
    forall kind | kind != Depth ensures Fits(queries, kind, Of(spent, kind) + Price(kind, body)) {
      if Rate(kind, queries).Some? { StartedBound(queries, kind, started); }
    }
  }

  lemma PriceAllowed(queries: map<Key, Body>, body: Body, c: Spending, open: Spending, kind: BudgetKind)
    requires Allowed(queries, body, c, open) && kind != Depth && Rate(kind, queries).Some?
    ensures Price(kind, body) <= Of(c, kind) <= Of(open, kind)
  {
    hide Rate;
    assert Costs(kind, body, Of(c, kind));
  }

  lemma StepAllowed(queries: map<Key, Body>, body: Body, next: Body, c: Spending, open: Spending)
    requires Allowed(queries, body, c, open) && Follows(body, next)
    ensures Allowed(queries, next, Paid(c, body), Paid(open, body))
  {
    hide Rate, Costs, Follows;
    forall kind | kind != Depth && Rate(kind, queries).Some?
      ensures Costs(kind, next, Of(Paid(c, body), kind)) && Of(Paid(c, body), kind) <= Of(Paid(open, body), kind)
    {
      PriceAllowed(queries, body, c, open, kind);
      CostsNext(kind, body, next, Of(c, kind));
    }
  }

  lemma CostsNext(kind: BudgetKind, body: Body, next: Body, c: nat)
    requires Costs(kind, body, c) && Follows(body, next)
    ensures Price(kind, body) <= c && Costs(kind, next, c - Price(kind, body))
  {
  }

  lemma StepTaken(queries: map<Key, Body>, body: Body, open: Spending, open': Spending, c: Spending)
    requires Allowed(queries, body, c, open) && Taken(queries, Paid(open, body), open', Paid(c, body))
    ensures Taken(queries, open, open', c)
  {
    hide Rate;
    forall kind | Rate(kind, queries).Some? ensures Of(open, kind) <= Of(open', kind) + Of(c, kind) {
      if kind != Depth { PriceAllowed(queries, body, c, open, kind); }
    }
  }

  /** What one callback may charge, as far as that is bounded. */
  ghost function Allowance(queries: map<Key, Body>): Spending {
    Spending(Bound(Work, queries), Bound(Observations, queries), Bound(Output, queries))
  }

  ghost function Bound(kind: BudgetKind, queries: map<Key, Body>): nat {
    var rate := Rate(kind, queries);
    if rate.Some? then rate.value else 0
  }

  /** What is set aside once one more callback has begun: its allowance, and the unit of
      output its result will cost. */
  ghost function Begun(queries: map<Key, Body>, open: Spending): Spending {
    var more := Allowance(queries);
    Spending(open.work + more.work, open.observations + more.observations, open.output + more.output + 1)
  }

  /** Another callback may begin: its unit of work fits, and its charges can be set aside. */
  lemma BeginAfforded(queries: map<Key, Body>, key: Key, spent: Spending, open: Spending, started: nat)
    requires Afforded(queries, spent, open, started) && started < |queries| && key in queries
    ensures Fits(queries, Work, spent.work + 1)
    ensures Afforded(queries, spent.(work := spent.work + 1), Begun(queries, open), started + 1)
    ensures Allowed(queries, queries[key], Allowance(queries), Begun(queries, open))
  {
    hide Rate, Costs;
    var spent', open' := spent.(work := spent.work + 1), Begun(queries, open);
    forall kind | Rate(kind, queries).Some?
      ensures Of(spent', kind) + Of(open', kind) <= (started + 1) * (Rate(kind, queries).value + Upfront(kind))
    {
      OneMore(started, Rate(kind, queries).value + Upfront(kind));
    }
    if Rate(Work, queries).Some? { StartedBound(queries, Work, started + 1); }
    forall kind | kind != Depth && Rate(kind, queries).Some? ensures Costs(kind, queries[key], Of(Allowance(queries), kind)) {
      assert Caps(kind, queries, Rate(kind, queries).value);
    }
  }

  lemma OneMore(n: nat, m: nat)
    ensures (n + 1) * m == n * m + m
  {
  }

  /** A callback that has no more than its first step charged goes on with its rest. */
  lemma StepOn(queries: map<Key, Body>, whole: Body, body: Body, next: Body, c: Spending, open: Spending)
    requires PartOf(whole, body) && Allowed(queries, body, c, open) && Follows(body, next)
    ensures PartOf(whole, next) && Allowed(queries, next, Paid(c, body), Paid(open, body))
  {
    hide PartOf, Allowed;
    PartOfNext(whole, body, next);
    StepAllowed(queries, body, next, c, open);
  }

  lemma CancelSteps(queries: map<Key, Body>, whole: Body, body: Body, c: Spending, open: Spending)
    requires PartOf(whole, body) && Allowed(queries, body, c, open) && body.Cancel?
    ensures PartOf(whole, body.rest) && Allowed(queries, body.rest, c, open) && Cancels(whole)
  {
    StepOn(queries, whole, body, body.rest, c, open);
  }

  /** Once it has ended, its result costs one more unit of output. */
  lemma EndAfforded(queries: map<Key, Body>, spent: Spending, open: Spending, open': Spending, started: nat)
    requires Afforded(queries, spent, open', started) && Taken(queries, Begun(queries, open), open', Allowance(queries))
    requires started <= |queries|
    ensures Fits(queries, Output, spent.output + 1)
    ensures Afforded(queries, spent.(output := spent.output + 1), open, started)
  {
    hide Rate;
    if Rate(Output, queries).Some? { StartedBound(queries, Output, started); }
  }

  // ---------- what a run did charge ----------

  function Plus(a: Spending, b: Spending): Spending {
    Spending(a.work + b.work, a.observations + b.observations, a.output + b.output)
  }

  const NOTHING := Spending(0, 0, 0)

  /** What a callback charges on its way to a result, reading confirmed memos and looking at
      this outside; none if it does not come to one. */
  ghost function Course(nodes: map<Key, Node>, world: World, body: Body): Option<Spending> {
    match body
    case Return(_) => Some(NOTHING)
    case Fail(_) => None
    case ReadThen(k, next) =>
      if Clean(nodes, k) && nodes[k].value.Some? && nodes[k].value.value in next
      then AfterStep(body, Course(nodes, world, next[nodes[k].value.value])) else None
    case ObserveThen(_, k, answers) =>
      if Look(world, k) in answers then AfterStep(body, Course(nodes, world, answers[Look(world, k)])) else None
    case ChargeWork(_, rest) => AfterStep(body, Course(nodes, world, rest))
    case ChargeOutput(_, rest) => AfterStep(body, Course(nodes, world, rest))
    case Cancel(_) => None
  }

  function AfterStep(body: Body, rest: Option<Spending>): Option<Spending> {
    if rest.None? then None else Some(Charged(rest.value, body))
  }

  /** What running the callback of `k` charges: its own course, one unit of work to start it
      and one of output for its result. */
  ghost function Fare(queries: map<Key, Body>, nodes: map<Key, Node>, world: World, k: Key): Spending {
    if k in queries && Course(nodes, world, queries[k]).Some?
    then Plus(Spending(1, 0, 1), Course(nodes, world, queries[k]).value) else NOTHING
  }

  /** The fares of those of these callbacks that have ended. */
  ghost function Bill(queries: map<Key, Body>, nodes: map<Key, Node>, world: World, executed: seq<Key>): Spending {
    if executed == [] then NOTHING
    else
      var k := executed[|executed| - 1];
      Plus(Bill(queries, nodes, world, executed[..|executed| - 1]), if Clean(nodes, k) then Fare(queries, nodes, world, k) else NOTHING)
  }

  /** Each callback that has ended came to a result by reading confirmed memos. */
  ghost predicate Grounded(queries: map<Key, Body>, nodes: map<Key, Node>, world: World, executed: seq<Key>) {
    forall k :: k in executed && Clean(nodes, k) ==> k in queries && Course(nodes, world, queries[k]).Some?
  }

  /** All that was charged is the fares of the callbacks that have ended and what the active
      ones have paid so far. */
  ghost predicate Ledger(queries: map<Key, Body>, nodes: map<Key, Node>, world: World, executed: seq<Key>, spent: Spending, paid: Spending) {
    Grounded(queries, nodes, world, executed) && spent == Plus(Bill(queries, nodes, world, executed), paid)
  }

  /** The callback came to its result, and that is what was paid for it. */
  ghost predicate Paying(nodes: map<Key, Node>, world: World, body: Body, paid: Spending, paid': Spending) {
    Course(nodes, world, body).Some? && paid' == Plus(paid, Course(nodes, world, body).value)
  }

  ghost predicate KeepsConfirmed(nodes: map<Key, Node>, nodes': map<Key, Node>) {
    forall k :: Clean(nodes, k) ==> k in nodes' && nodes'[k] == nodes[k]
  }

  lemma {:induction false} CourseKept(nodes: map<Key, Node>, nodes': map<Key, Node>, world: World, body: Body)
    requires KeepsConfirmed(nodes, nodes') && Course(nodes, world, body).Some?
    ensures Course(nodes', world, body) == Course(nodes, world, body)
  {
    match body
    case Return(_) =>
    case Fail(_) =>
    case ReadThen(k, next) => CourseKept(nodes, nodes', world, next[nodes[k].value.value]);
    case ObserveThen(_, k, answers) => CourseKept(nodes, nodes', world, answers[Look(world, k)]);
    case ChargeWork(_, rest) => CourseKept(nodes, nodes', world, rest);
    case ChargeOutput(_, rest) => CourseKept(nodes, nodes', world, rest);
    case Cancel(_) =>
  }

  /** As long as no more of them end, the bill stands. */
  lemma {:induction false} BillKept(queries: map<Key, Body>, nodes: map<Key, Node>, nodes': map<Key, Node>, world: World, executed: seq<Key>)
    requires KeepsConfirmed(nodes, nodes') && Grounded(queries, nodes, world, executed)
    requires forall k :: k in executed && Clean(nodes', k) ==> Clean(nodes, k)
    ensures Grounded(queries, nodes', world, executed)
    ensures Bill(queries, nodes', world, executed) == Bill(queries, nodes, world, executed)
    decreases |executed|
  {
    hide Course;
    if executed != [] {
      var n := |executed| - 1;
      assert executed == executed[..n] + [executed[n]] && executed[n] in executed;
      assert forall k :: k in executed[..n] ==> k in executed;
      BillKept(queries, nodes, nodes', world, executed[..n]);
      if Clean(nodes, executed[n]) { CourseKept(nodes, nodes', world, queries[executed[n]]); }
    }
  }

  lemma {:induction false} NothingBilled(queries: map<Key, Body>, nodes: map<Key, Node>, world: World)
    ensures Ledger(queries, nodes, world, [], NOTHING, NOTHING) && Bill(queries, nodes, world, []) == NOTHING
  {
    BillNone(queries, nodes, world);
    GroundedNone(queries, nodes, world);
    hide Bill, Grounded;
  }

  lemma GroundedNone(queries: map<Key, Body>, nodes: map<Key, Node>, world: World)
    ensures Grounded(queries, nodes, world, [])
  {
    hide Course, Clean;
  }

  lemma {:induction false} BillNone(queries: map<Key, Body>, nodes: map<Key, Node>, world: World)
    ensures Bill(queries, nodes, world, []) == NOTHING
  {
    hide Fare;
  }

  lemma {:induction false} BillLast(queries: map<Key, Body>, nodes: map<Key, Node>, world: World, front: seq<Key>, k: Key)
    ensures Bill(queries, nodes, world, front + [k]) ==
            Plus(Bill(queries, nodes, world, front), if Clean(nodes, k) then Fare(queries, nodes, world, k) else NOTHING)
  {
    hide Fare;
    assert (front + [k])[..|front|] == front;
  }

  lemma LedgerBegins(queries: map<Key, Body>, nodes: map<Key, Node>, world: World, executed: seq<Key>, spent: Spending, paid: Spending, key: Key)
    requires Ledger(queries, nodes, world, executed, spent, paid) && !Clean(nodes, key)
    ensures Ledger(queries, nodes, world, executed + [key], spent.(work := spent.work + 1), Plus(paid, Spending(1, 0, 0)))
  {
    hide Course, Fare, Bill;
    BillLast(queries, nodes, world, executed, key);
  }

  lemma LedgerStep(queries: map<Key, Body>, nodes: map<Key, Node>, world: World, executed: seq<Key>, spent: Spending, paid: Spending, body: Body)
    requires Ledger(queries, nodes, world, executed, spent, paid)
    ensures Ledger(queries, nodes, world, executed, Charged(spent, body), Charged(paid, body))
  {
    hide Bill, Grounded;
  }

  /** Confirming a memo that was not executed leaves the ledger as it is. */
  lemma LedgerReuse(queries: map<Key, Body>, nodes: map<Key, Node>, world: World, executed: seq<Key>, spent: Spending, paid: Spending, key: Key)
    requires Ledger(queries, nodes, world, executed, spent, paid) && key in nodes && (key in executed ==> Clean(nodes, key))
    ensures Ledger(queries, nodes[key := nodes[key].(dirty := false)], world, executed, spent, paid)
  {
    hide Course, Bill;
    BillKept(queries, nodes, nodes[key := nodes[key].(dirty := false)], world, executed);
  }

  lemma {:induction false} BillMore(queries: map<Key, Body>, nodes: map<Key, Node>, nodes': map<Key, Node>, world: World, executed: seq<Key>, key: Key)
    requires KeepsConfirmed(nodes, nodes') && Grounded(queries, nodes, world, executed) && NoRepeats(executed)
    requires !Clean(nodes, key) && Clean(nodes', key) && forall k :: k in executed && k != key && Clean(nodes', k) ==> Clean(nodes, k)
    ensures Bill(queries, nodes', world, executed) ==
            Plus(Bill(queries, nodes, world, executed), if key in executed then Fare(queries, nodes', world, key) else NOTHING)
    decreases |executed|
  {
    hide Course, Fare, Bill, KeepsConfirmed, NoRepeats;
    if executed == [] {
      NothingBilled(queries, nodes, world);
      NothingBilled(queries, nodes', world);
    } else {
      var n := |executed| - 1;
      NoRepeatsLast(executed);
      assert forall k :: k in executed[..n] ==> k in executed;
      BillMore(queries, nodes, nodes', world, executed[..n], key);
      BillLast(queries, nodes, world, executed[..n], executed[n]);
      BillLast(queries, nodes', world, executed[..n], executed[n]);
      assert executed[n] in executed && (Clean(nodes, executed[n]) ==> Clean(nodes', executed[n])) by { KeptClean(nodes, nodes', executed[n]); }
      if executed[n] != key && Clean(nodes, executed[n]) { FareKept(queries, nodes, nodes', world, executed[n]); }
    }
  }

  lemma KeptClean(nodes: map<Key, Node>, nodes': map<Key, Node>, k: Key)
    requires KeepsConfirmed(nodes, nodes')
    ensures Clean(nodes, k) ==> Clean(nodes', k)
  {
  }

  lemma FareKept(queries: map<Key, Body>, nodes: map<Key, Node>, nodes': map<Key, Node>, world: World, k: Key)
    requires KeepsConfirmed(nodes, nodes') && k in queries && Course(nodes, world, queries[k]).Some?
    ensures Fare(queries, nodes', world, k) == Fare(queries, nodes, world, k)
  {
    CourseKept(nodes, nodes', world, queries[k]);
  }

  /** A callback ends: what was paid for it, and one unit of output, becomes its fare. */
  lemma LedgerEnds(queries: map<Key, Body>, nodes: map<Key, Node>, nodes': map<Key, Node>, world: World, executed: seq<Key>,
      spent: Spending, paid: Spending, paid0: Spending, key: Key)
    requires Ledger(queries, nodes, world, executed, spent, paid) && NoRepeats(executed) && key in executed && key in queries
    requires !Clean(nodes, key) && Clean(nodes', key) && nodes' == nodes[key := nodes'[key]]
    requires Paying(nodes, world, queries[key], Plus(paid0, Spending(1, 0, 0)), paid)
    ensures Ledger(queries, nodes', world, executed, spent.(output := spent.output + 1), paid0)
  {
    hide Course, Bill, NoRepeats;
    assert KeepsConfirmed(nodes, nodes');
    BillMore(queries, nodes, nodes', world, executed, key);
    CourseKept(nodes, nodes', world, queries[key]);
    forall k | k in executed && Clean(nodes', k) ensures k in queries && Course(nodes', world, queries[k]).Some? {
      if k != key { CourseKept(nodes, nodes', world, queries[k]); }
    }
  }

  lemma PayingRead(nodes: map<Key, Node>, world: World, body: Body, v: Value, paid: Spending, paid': Spending)
    requires body.ReadThen? && Clean(nodes, body.key) && nodes[body.key].value == Some(v) && v in body.next
    requires Paying(nodes, world, body.next[v], Charged(paid, body), paid')
    ensures Paying(nodes, world, body, paid, paid')
  {
  }

  lemma PayingLook(nodes: map<Key, Node>, world: World, body: Body, paid: Spending, paid': Spending)
    requires body.ObserveThen? && Look(world, body.key) in body.answers
    requires Paying(nodes, world, body.answers[Look(world, body.key)], Charged(paid, body), paid')
    ensures Paying(nodes, world, body, paid, paid')
  {
  }

  lemma PayingCharge(nodes: map<Key, Node>, world: World, body: Body, paid: Spending, paid': Spending)
    requires body.ChargeWork? || body.ChargeOutput?
    requires Paying(nodes, world, body.rest, Charged(paid, body), paid')
    ensures Paying(nodes, world, body, paid, paid')
  {
  }

  lemma PayingNothing(nodes: map<Key, Node>, world: World, v: Value, paid: Spending)
    ensures Paying(nodes, world, Return(v), paid, paid)
  {
  }

  ghost predicate Covers(budgets: Budgets, s: Spending) {
    s.work <= budgets.maxWork && s.observations <= budgets.maxObservations && s.output <= budgets.maxOutput
  }

  /** Callbacks that have ended cost at least their start and their result. */
  lemma {:induction false} BillAtLeast(queries: map<Key, Body>, nodes: map<Key, Node>, world: World, executed: seq<Key>)
    requires Grounded(queries, nodes, world, executed) && forall k :: k in executed ==> Clean(nodes, k)
    ensures var bill := Bill(queries, nodes, world, executed); |executed| <= bill.work && |executed| <= bill.output
    decreases |executed|
  {
    hide Course;
    if executed != [] {
      var n := |executed| - 1;
      assert forall k :: k in executed[..n] ==> k in executed;
      assert executed[n] in executed;
      BillAtLeast(queries, nodes, world, executed[..n]);
    }
  }

  // ---------- runs that cannot fail ----------

  /** Every query the root can get to is registered, none of their callbacks fails or
      cancels, none leads back to itself, and the budgets cover what all may charge. */
  ghost predicate Unhindered(st: State, root: Key, budgets: Budgets) {
    && (forall k :: Reached(st, root, k) ==> k in st.queries)
    && (forall e :: !Raised(st, root, e)) && !Cancellable(st, root)
    && (forall path :: Chain(st, path) && |path| >= 2 && path[0] == path[|path| - 1] ==> !Reached(st, root, path[0]))
    && budgets.maxDepth >= |st.queries|
    && (forall kind :: kind != Depth ==>
          Rate(kind, st.queries).Some? && LimitOf(budgets, kind) >= |st.queries| * (Rate(kind, st.queries).value + Upfront(kind)))
  }

  lemma UnhinderedAnswers(e: Error, st: State, root: Key, budgets: Budgets, before: map<nat, Key>, after: map<nat, Key>)
    requires Unhindered(st, root, budgets)
    ensures !Explained(e, st, root, budgets, before, after)
  {
    hide Rate, Asks, Reached, Raised, Cancellable;
    if e.BudgetExceeded? && Deep(st, root, e.consumed) {
      var path :| Chain(st, path) && path[0] == root && |path| == e.consumed && NoRepeats(path) && forall k :: k in path ==> k in st.queries;
      RepetitionFreeBound(path, st.queries.Keys);
    }
  }

  /** What a replay read, its callback may read. */
  lemma {:induction false} ReplayReads(fp: Value -> nat, h: History, body: Body, deps: seq<Observation>, v: Value, d: Observation)
    requires Replays(fp, h, body, deps, v) && d in deps && d.Read?
    ensures Reads(body, d.key)
    decreases body
  {
    match body
    case Return(_) =>
    case Fail(_) =>
    case ReadThen(k, next) =>
      if d != deps[0] { ReplayReads(fp, h, next[h.values[(k, deps[0].revision)]], deps[1..], v, d); }
    case ObserveThen(_, k, answers) =>
      ReplayReads(fp, h, answers[h.sources(k, deps[0].revision)], deps[1..], v, d);
    case ChargeWork(_, rest) => ReplayReads(fp, h, rest, deps, v, d);
    case ChargeOutput(_, rest) => ReplayReads(fp, h, rest, deps, v, d);
    case Cancel(_) =>
  }

  /** A run leads to no query that could not be got to before. */
  lemma AsksKept(fp: Value -> nat, st: State, h: History, st': State, h': History, world: World, k: Key, x: Key)
    requires Inv(fp, st', h', world) && Provenance(st, h, st', h') && st'.queries == st.queries && Asks(st', k, x)
    ensures Asks(st, k, x)
  {
    hide Replays, Reads;
    if !Reads(st.queries[k], x) {
      var d :| d in st'.nodes[k].dependencies && d.Read? && d.key == x;
      assert NodeOk(fp, st', h', k);
      if k in h'.made && h'.made[k] == st'.queries[k] {
        ReplayReads(fp, h', h'.made[k], st'.nodes[k].dependencies, st'.nodes[k].value.value, d);
      }
    }
  }

  lemma ReachedKept(fp: Value -> nat, st: State, h: History, st': State, h': History, world: World, path: seq<Key>)
    requires Inv(fp, st', h', world) && Provenance(st, h, st', h') && st'.queries == st.queries && Chain(st', path)
    ensures Chain(st, path)
  {
    hide Asks, Inv, Provenance;
    forall i | 0 <= i < |path| - 1 ensures Asks(st, path[i], path[i + 1]) { AsksKept(fp, st, h, st', h', world, path[i], path[i + 1]); }
  }

  /** What stood in no question's way stands in none afterwards. */
  lemma UnhinderedKept(fp: Value -> nat, st: State, h: History, st': State, h': History, world: World, root: Key, budgets: Budgets)
    requires Inv(fp, st', h', world) && Provenance(st, h, st', h') && st'.queries == st.queries && Unhindered(st, root, budgets)
    ensures Unhindered(st', root, budgets)
  {
    hide Asks, Inv, Provenance, Rate;
    forall k | Reached(st', root, k) ensures Reached(st, root, k) {
      var path :| Chain(st', path) && path[0] == root && path[|path| - 1] == k;
      ReachedKept(fp, st, h, st', h', world, path);
    }
    forall e ensures !Raised(st', root, e) { assert !Raised(st, root, e); }
    forall path | Chain(st', path) && |path| >= 2 && path[0] == path[|path| - 1] ensures !Reached(st', root, path[0]) {
      ReachedKept(fp, st, h, st', h', world, path);
    }
  }

  /** Every registered callback and every memo only asks for registered queries of lower rank. */
  ghost predicate Layered(st: State, rank: map<Key, nat>) {
    && (forall k :: k in st.queries ==> k in rank)
    && forall k, x :: Asks(st, k, x) && k in st.queries ==> x in st.queries && x in rank && k in rank && rank[x] < rank[k]
  }

  ghost predicate Quiet(body: Body) {
    !Cancels(body) && forall e :: !Raises(body, e)
  }

  lemma {:induction false} ChainFalls(st: State, rank: map<Key, nat>, path: seq<Key>, i: nat)
    requires Layered(st, rank) && Chain(st, path) && path[0] in st.queries && i < |path|
    ensures path[i] in st.queries && path[i] in rank && path[0] in rank && rank[path[i]] + i <= rank[path[0]]
    decreases i
  {
    hide Asks;
    if i > 0 {
      ChainFalls(st, rank, path, i - 1);
      assert Asks(st, path[i - 1], path[i - 1 + 1]);
    }
  }

  /** A layered table of quiet callbacks with bounded charges leaves nothing in the way. */
  lemma LayeredUnhindered(st: State, rank: map<Key, nat>, root: Key, budgets: Budgets, c: nat)
    requires Layered(st, rank) && root in st.queries && forall k :: k in st.queries ==> Quiet(st.queries[k])
    requires forall kind :: kind != Depth ==> Caps(kind, st.queries, c)
    requires budgets.maxDepth >= |st.queries|
    requires forall kind :: kind != Depth ==> LimitOf(budgets, kind) >= |st.queries| * (c + 1)
    ensures Unhindered(st, root, budgets)
  {
    hide Asks, Costs, Caps, Rate, Layered;
    forall k | Reached(st, root, k) ensures k in st.queries && Quiet(st.queries[k]) {
      var path :| Chain(st, path) && path[0] == root && path[|path| - 1] == k;
      ChainFalls(st, rank, path, |path| - 1);
    }
    forall path | Chain(st, path) && |path| >= 2 && path[0] == path[|path| - 1] ensures !Reached(st, root, path[0]) {
      if path[0] in st.queries { ChainFalls(st, rank, path, |path| - 1); }
    }
    forall kind | kind != Depth
      ensures Rate(kind, st.queries).Some? && LimitOf(budgets, kind) >= |st.queries| * (Rate(kind, st.queries).value + Upfront(kind))
    {
      assert Caps(kind, st.queries, c);
      Scaled(|st.queries|, Rate(kind, st.queries).value + Upfront(kind), c + 1);
    }
  }
}

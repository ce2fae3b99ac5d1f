/** Query bodies, observations and the reference meaning of a query: plain
    recomputation of every query it reads, with no memo table at all. */
module Queries {
  import opened Collections

  /** Keys name queries and external observations alike; they are only compared. */
  type Key(==, !new)

  /** Memoized query values. */
  type Value(==, !new)

  /** What the outside world shows a body that looks at an external key. */
  type Outside(==, !new)

  datatype BudgetKind = Work | Observations | Depth | Output

  datatype Error =
    | UnknownQuery(key: Key)
    | Cycle(path: seq<Key>)
    | BudgetExceeded(kind: BudgetKind, limit: nat, consumed: nat, continuation: Option<nat>)
    | Cancelled
    | UnknownContinuation(token: nat)

  datatype Result<+T> = Ok(value: T) | Err(error: Error)

  datatype ExternalKind = Missing | Listing | Policy | Epoch | Custom(name: string)

  datatype Observation =
    | Read(key: Key, revision: nat, fingerprint: nat)
    | External(key: Key, kind: ExternalKind, revision: nat)

  /** A query callback as a deterministic interaction tree: it returns, gives up,
      reads another query, observes an external key and then looks at it, charges
      budget, or asks for cancellation. A failed read ends the body. An answer for
      which `next` has no branch is one on which the callback gives up. */
  datatype Body =
    | Return(value: Value)
    | Fail(error: Error)
    | ReadThen(key: Key, next: imap<Value, Body>)
    | ObserveThen(kind: ExternalKind, key: Key, answers: imap<Option<Outside>, Body>)
    | ChargeWork(units: nat, rest: Body)
    | ChargeOutput(units: nat, rest: Body)
    | Cancel(rest: Body)

  /** Some course of the callback ends in this error of its own; where it has no branch for
      an answer it gives up as if cancelled. */
  ghost predicate Raises(body: Body, e: Error) {
    match body
    case Return(_) => false
    case Fail(x) => x == e
    case ReadThen(_, next) => (e == Cancelled && exists v :: v !in next) || exists v :: v in next && Raises(next[v], e)
    case ObserveThen(_, _, answers) => (e == Cancelled && exists x :: x !in answers) || exists x :: x in answers && Raises(answers[x], e)
    case ChargeWork(_, rest) => Raises(rest, e)
    case ChargeOutput(_, rest) => Raises(rest, e)
    case Cancel(rest) => Raises(rest, e)
  }

  /** Some course of the callback asks for cancellation. */
  ghost predicate Cancels(body: Body) {
    match body
    case Return(_) => false
    case Fail(_) => false
    case ReadThen(_, next) => exists v :: v in next && Cancels(next[v])
    case ObserveThen(_, _, answers) => exists x :: x in answers && Cancels(answers[x])
    case ChargeWork(_, rest) => Cancels(rest)
    case ChargeOutput(_, rest) => Cancels(rest)
    case Cancel(_) => true
  }

  /** Some course of the callback reads this query. */
  ghost predicate Reads(body: Body, k: Key) {
    match body
    case Return(_) => false
    case Fail(_) => false
    case ReadThen(x, next) => x == k || exists v :: v in next && Reads(next[v], k)
    case ObserveThen(_, _, answers) => exists x :: x in answers && Reads(answers[x], k)
    case ChargeWork(_, rest) => Reads(rest, k)
    case ChargeOutput(_, rest) => Reads(rest, k)
    case Cancel(rest) => Reads(rest, k)
  }

  /** A callback that looks at one external key and tells two answers apart. */
  function Looks(source: Key, x: Outside, y: Outside, a: Value, b: Value): Body {
    ObserveThen(Epoch, source, imap[Some(x) := Return(a), Some(y) := Return(b)])
  }

  /** The environment the callbacks look at. */
  type World = map<Key, Outside>

  function Look(world: World, key: Key): Option<Outside> {
    if key in world then Some(world[key]) else None
  }

  /** Recomputation of `key` from nothing, nesting reads at most `depth` deep. */
  ghost function Scratch(queries: map<Key, Body>, world: World, key: Key, depth: nat): Option<Value>
    decreases depth, 0
  {
    if depth == 0 || key !in queries then None
    else ScratchBody(queries, world, queries[key], depth - 1)
  }

  ghost function ScratchBody(queries: map<Key, Body>, world: World, body: Body, depth: nat): Option<Value>
    decreases depth, 1, body
  {
    match body
    case Return(v) => Some(v)
    case Fail(_) => None
    case ReadThen(k, next) =>
      var answer := Scratch(queries, world, k, depth);
      if answer.Some? && answer.value in next
      then ScratchBody(queries, world, next[answer.value], depth) else None
    case ObserveThen(_, k, answers) =>
      if Look(world, k) in answers
      then ScratchBody(queries, world, answers[Look(world, k)], depth) else None
    case ChargeWork(_, rest) => ScratchBody(queries, world, rest, depth)
    case ChargeOutput(_, rest) => ScratchBody(queries, world, rest, depth)
    // a cancelled run never commits
    case Cancel(_) => None
  }

  /** Full recomputation of `key` on these sources succeeds with `value`. */
  ghost predicate Denotes(queries: map<Key, Body>, world: World, key: Key, value: Value) {
    exists depth: nat :: Scratch(queries, world, key, depth) == Some(value)
  }

  lemma {:induction false} ScratchMonotone(queries: map<Key, Body>, world: World, key: Key, low: nat, high: nat)
    requires low <= high
    requires Scratch(queries, world, key, low).Some?
    ensures Scratch(queries, world, key, high) == Scratch(queries, world, key, low)
    decreases low, 0
  {
    ScratchBodyMonotone(queries, world, queries[key], low - 1, high - 1);
  }

  lemma {:induction false} ScratchBodyMonotone(queries: map<Key, Body>, world: World, body: Body, low: nat, high: nat)
    requires low <= high
    requires ScratchBody(queries, world, body, low).Some?
    ensures ScratchBody(queries, world, body, high) == ScratchBody(queries, world, body, low)
    decreases low, 1, body
  {
    match body
    case Return(_) =>
    case Fail(_) =>
    case ReadThen(k, next) =>
      ScratchMonotone(queries, world, k, low, high);
      ScratchBodyMonotone(queries, world, next[Scratch(queries, world, k, low).value], low, high);
    case ObserveThen(_, k, answers) =>
      ScratchBodyMonotone(queries, world, answers[Look(world, k)], low, high);
    case ChargeWork(_, rest) => ScratchBodyMonotone(queries, world, rest, low, high);
    case ChargeOutput(_, rest) => ScratchBodyMonotone(queries, world, rest, low, high);
    case Cancel(_) =>
  }

  /** Recomputation is a function: no query denotes two values. */
  lemma DenotesUnique(queries: map<Key, Body>, world: World, key: Key, a: Value, b: Value)
    requires Denotes(queries, world, key, a) && Denotes(queries, world, key, b)
    ensures a == b
  {
    var m: nat :| Scratch(queries, world, key, m) == Some(a);
    var n: nat :| Scratch(queries, world, key, n) == Some(b);
    ScratchMonotone(queries, world, key, m, m + n);
    ScratchMonotone(queries, world, key, n, m + n);
  }
}

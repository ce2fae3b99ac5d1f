# Verified models of the incremental engine, the tracing collector and the class lineage

Three engines of the repository, modelled in Dafny with what holds of them on every run,
and two smaller pieces they rest on.

* **Incremental queries** (`Queries`, `Memo`, `Runs`, `Causes`, `Engine`, `Sessions`, `Boundaries`, `Snapshots`, `RestoreProof`).
  A query callback is a deterministic interaction tree. `Queries` says what plain
  recomputation gives, without any memo. `Memo` states the invariant of the memo table
  against a ghost history of every committed value and every stamped source, with the
  fingerprint an arbitrary function. `Causes` says what may make a run fail. `Engine` is the engine with its mutable maps, run
  state, budgets and continuations. `Sessions` concludes that every answer of every run is
  the recomputed one. `Boundaries` shows on the engine exactly when replacing and
  removing callbacks goes wrong. `Snapshots` and `RestoreProof` carry memos from one engine
  to another.
* **Tracing collection** (`Tracing`, `Arena`, `Finalization`, `Collector`, `HeapSessions`). The live set is
  defined as a least closed set; the marking loops, the ephemeron fixpoint and the limits
  are proved against it. `Collector` joins plan, sweep and finalizer admission over the
  arena, the registry and the job queues; `HeapSessions` follows all three over whole runs.
* **Class lineage and its cache** (`C3`, `Lineage`, `Ancestry`, `Traversal`, `Linearization`, `Canonical`, `DeclaredOrder`,
  `DeclaredLaw`, `Policies`, `CacheModel`, `Currency`, `ClassCaches`, `CacheSessions`, `CacheBoundaries`). Traversal with cycle evidence, the C3 merge with soundness and
  completeness, declared order, and a revision-stamped cache whose views are held by
  ephemerons. `CacheSessions` explains every run of the cache by a world without one;
  `CacheBoundaries` says what a failed replacement does to later hits.
* **Job queues** (`Jobs`, `JobLaws`) with re-entrant jobs as finite programs, and the bounded
  **exception graph** (`Exceptions`). `Collections` holds what all of these share.

Classes with mutable fields stay classes, loops stay loops; each method is proved against
a value-level specification whose properties are lemmas. Callbacks, the outside world,
fingerprints and job programs are parameters.

Some results are negative. Restoring a snapshot raises the revision counter over the node
revisions only, so a stamp that a restored memo observed can be handed out again:
`RestoreProof.RestoredStampsBelow` gives the exact condition, `RestoreProof.RestoredBehind`
and `RestoreProof.AnnouncedAgain` say what happens outside it. A
replacement of declared parents that runs into the edge cap can leave other classes'
cached views wrong. Which hits go wrong and which stay right is in
`CacheBoundaries.OverflowMisses`, `CacheBoundaries.OverflowDisorders`,
`CacheBoundaries.OverflowHarmless` and `CacheBoundaries.OverflowRepeats`; what a caller can
check before the call is whether the parents fit, and `CacheBoundaries.OverflowUnsafe` shows
that nothing less will do in every cache. A callback replaced over a memo that could still
be accepted is not asked (`Boundaries.ReplaceAndAsk`, `Boundaries.StaleAfterReplacing`), and
removing a query whose key others observe as an external one forgets those observers
(`Boundaries.RemoveObserved`, `Boundaries.ForgottenSource`).

Where code and comment disagree, the code is followed: snapshot nodes come out in
discovery order, not in key order (`crates/sim-incremental-core/src/snapshot.rs:83-131`).

`dafny verify dfyconfig.toml` checks the whole project.

## Model

| member | source | states |
|---|---|---|
| `Queries.DenotesUnique` | crates/sim-incremental-core/src/query.rs:10-41 | plain recomputation of a callback, with no memo at all, has at most one value however deep the reads are nested |
| `Queries.ScratchMonotone` | crates/sim-incremental-core/src/query.rs:38-55 | recomputation that succeeds within some nesting depth gives the same value within any larger one |
| `Memo.CleanDenotes` | crates/sim-incremental-core/src/engine.rs:235-335 | in every state that satisfies the engine invariant a confirmed memo holds exactly the value plain recomputation gives on the current outside with the callbacks that made the confirmed memos, for any fingerprint function |
| `Memo.FaithfulDenotes` | crates/sim-incremental-core/src/engine.rs:235-335 | and with the registered callbacks where each confirmed memo was made by its present one |
| `Memo.ReplayScratch` | crates/sim-incremental-core/src/query.rs:48-63 | replaying a callback against the answers its observations recorded, while those observations are current, is recomputing it |
| `Memo.ReplaysAgree` | crates/sim-incremental-core/src/engine.rs:320-335 | a replay depends only on the recorded answers, so histories that agree on them replay alike |
| `Memo.ReuseKeepsInv` | crates/sim-incremental-core/src/engine.rs:259-266 | clearing the dirty mark of a memo whose observations are all current keeps the invariant |
| `Memo.CommitKeepsInv` | crates/sim-incremental-core/src/engine.rs:272-318 | committing a replayable value with its observations keeps the invariant, early cutoff included, whatever the fingerprints collide on |
| `Memo.CascadeFrame` | crates/sim-incremental-core/src/engine.rs:460-475 | a memo left clean by a cascade observes nothing the cascade dirtied, and its observations stay current |
| `Memo.InvalidateKeepsInv` | crates/sim-incremental-core/src/engine.rs:76-81 | a source may change arbitrarily under a new stamp: after the cascade the invariant holds for the new outside |
| `Memo.RegisterKeepsInv` | crates/sim-incremental-core/src/engine.rs:50-54 | registering any callback, over any memo, keeps what is known about the memos: each is still what its maker produced |
| `Memo.RemoveKeepsInv` | crates/sim-incremental-core/src/engine.rs:65-72 | so does removing a query and detaching its node; a key that an acceptable memo still observes as an external one is no longer tracked |
| `Memo.ReadsRecorded` | crates/sim-incremental-core/src/engine.rs:337-346 | every read a replay consumes names a recorded value and carries its fingerprint |
| `Collections.RepetitionFreeBound` | crates/sim-incremental-core/src/engine.rs:187-196 | a repetition-free stack or execution list of registered keys is no longer than the number of registered queries |
| `Runs.AdvancesTransitive` | crates/sim-incremental-core/src/engine.rs:182-233 | what evaluation does to the memo table composes: clean memos and active queries untouched, only executed bodies change memos, each with cause |
| `Runs.CompactFresh` | crates/sim-incremental-core/src/engine.rs:182-198 | memos that still hold can be confirmed within a depth of as many queries as there are |
| `Causes.StepAfforded` | crates/sim-incremental-core/src/engine.rs:359-428 | as long as every body keeps within what its callback may charge, the next charge fits what all registered callbacks, each run once, may charge together |
| `Causes.BeginAfforded` | crates/sim-incremental-core/src/engine.rs:210 | another body may be started, with its own unit of work, within the same bound |
| `Causes.EndAfforded` | crates/sim-incremental-core/src/engine.rs:227 | and its result charged |
| `Causes.LedgerEnds` | crates/sim-incremental-core/src/engine.rs:226-232 | when a body ends, what was paid for it and one unit of output becomes its fare, and the bill of all ended bodies grows by exactly that |
| `Causes.BillAtLeast` | crates/sim-incremental-core/src/engine.rs:210-227 | bodies that ended cost at least one unit of work and one of output each |
| `Causes.UnhinderedAnswers` | crates/sim-incremental-core/src/engine.rs:182-233 | no error has a cause where everything the root can get to is registered, no callback there fails or cancels, none leads back to itself, and the budgets cover what all may charge |
| `Causes.LayeredUnhindered` | crates/sim-incremental-core/src/engine.rs:182-233 | which is so wherever callbacks and memos only ask for registered queries of lower rank, fail never and charge boundedly |
| `Causes.UnhinderedKept` | crates/sim-incremental-core/src/engine.rs:138-180 | a run leads to no query that could not be got to before, so what stood in no question's way stands in none afterwards |
| `Engine.CycleError` | crates/sim-incremental-core/src/engine.rs:187-190 | a reported cycle begins and ends with the repeated key, has no other repeat, and each of its queries asked for the next |
| `Engine.Unlink` | crates/sim-incremental-core/src/engine.rs:279-283 | afterwards the key depends on exactly what it did before minus the listed observations |
| `Engine.Link` | crates/sim-incremental-core/src/engine.rs:302-307 | afterwards every listed observation names the key as a dependent and nothing else changed |
| `Engine.Cascade` | crates/sim-incremental-core/src/engine.rs:460-475 | the worklist loop terminates and dirties exactly the existing nodes reachable over reverse edges |
| `Engine.IncrementalEngine.CommitValue` | crates/sim-incremental-core/src/engine.rs:272-318 | the memo becomes clean with the given value and observations; an equal value keeps its revision and an unequal one gets a new one; every other memo is untouched and the invariant holds |
| `Engine.IncrementalEngine.ChargeWork` | crates/sim-incremental-core/src/engine.rs:359-377 | succeeds exactly if the run is not cancelled and the units fit the budget, and then the counter grows by them; a refusal changes no counter and names the limit, the exact consumption and a new continuation |
| `Engine.IncrementalEngine.ChargeOutput` | crates/sim-incremental-core/src/engine.rs:379-397 | as for work, on the output counter |
| `Engine.IncrementalEngine.ChargeObservation` | crates/sim-incremental-core/src/engine.rs:412-428 | as for work, one unit on the observation counter, whether the run is cancelled or not |
| `Engine.IncrementalEngine.BudgetError` | crates/sim-incremental-core/src/engine.rs:438-453 | the error carries the configured limit and the consumption, and exactly one continuation is new, for the root |
| `Engine.IncrementalEngine.Admit` | crates/sim-incremental-core/src/engine.rs:182-192 | a key is entered exactly when the run is not cancelled and the key is registered, not active and within depth; otherwise the first of these checks that fails gives the error, which has its cause in what the run can get to |
| `Engine.IncrementalEngine.Evaluate` | crates/sim-incremental-core/src/engine.rs:182-198 | terminates on cyclic query graphs too; restores the stack on every path; an Ok value is the clean memo of the key; bodies run at most once and with cause; fresh memos are confirmed without running anything |
| `Engine.IncrementalEngine.EvaluateAdmitted` | crates/sim-incremental-core/src/engine.rs:193-198 | pushing an admitted key, evaluating it and popping leaves the stack as it was, on every path |
| `Engine.IncrementalEngine.EvaluatePushed` | crates/sim-incremental-core/src/engine.rs:200-233 | reuse or execution, with the same promises for the key on top of the stack |
| `Engine.IncrementalEngine.ConfirmMemo` | crates/sim-incremental-core/src/engine.rs:263-266 | clears exactly one dirty mark and keeps the invariant |
| `Engine.IncrementalEngine.Reuse` | crates/sim-incremental-core/src/engine.rs:259-266 | confirming the memo of the active query keeps everything else of the run as it was |
| `Engine.IncrementalEngine.TryReuseMemo` | crates/sim-incremental-core/src/engine.rs:235-270 | true exactly when the memo ends up clean; false only if an observed stamp moved or a query it read was removed or took a new revision; a clean memo costs nothing |
| `Engine.IncrementalEngine.ReuseOrNot` | crates/sim-incremental-core/src/engine.rs:246-269 | the same for a key that has a memo |
| `Engine.IncrementalEngine.Revalidate` | crates/sim-incremental-core/src/engine.rs:246-261 | after refreshing the reads, true exactly when all observations are current |
| `Engine.IncrementalEngine.Refresh` | crates/sim-incremental-core/src/engine.rs:252-257 | afterwards every read observation names a clean memo |
| `Engine.Overtaken` | crates/sim-incremental-core/src/engine.rs:285-300 | a memo whose reads were refreshed and that still does not stand saw a stamp move or a revision change: equal revisions never differ in fingerprint |
| `Engine.IncrementalEngine.Begin` | crates/sim-incremental-core/src/engine.rs:210 | charges exactly one unit of work for one body and counts it as started, with its charges set aside |
| `Engine.IncrementalEngine.Conclude` | crates/sim-incremental-core/src/engine.rs:226-232 | charges exactly one unit of output for the value and commits it; what the body paid becomes its fare |
| `Engine.IncrementalEngine.Execute` | crates/sim-incremental-core/src/engine.rs:210-233 | runs the body once and commits a value the body replays, for exactly what its course charges |
| `Engine.IncrementalEngine.RunBody` | crates/sim-incremental-core/src/query.rs:43-107 | the observations recorded while interpreting a body replay it to its result and are current when it returns |
| `Engine.IncrementalEngine.Record` | crates/sim-incremental-core/src/engine.rs:348-357 | an observation is charged and recorded, and the body goes on with what it leads to |
| `Engine.IncrementalEngine.Proceed` | crates/sim-incremental-core/src/query.rs:43-107 | what is left of a body stays within what is set aside for it |
| `Engine.IncrementalEngine.RunCharge` | crates/sim-incremental-core/src/query.rs:85-95 | charging work or output in a body changes no observation |
| `Engine.IncrementalEngine.ReadQuery` | crates/sim-incremental-core/src/query.rs:49-51 | what is recorded of a read is the clean memo of the query: its value under its present revision and fingerprint |
| `Engine.IncrementalEngine.RunRead` | crates/sim-incremental-core/src/query.rs:48-55 | a read evaluates the query and then records its revision and fingerprint; a failed read ends the body |
| `Engine.IncrementalEngine.RunObserve` | crates/sim-incremental-core/src/query.rs:57-63 | an external look is recorded with the current stamp, under which the history holds what was seen |
| `Engine.IncrementalEngine.Verify` | crates/sim-incremental-core/src/engine.rs:138-142 | in every state Ok means the value recomputed with the callbacks behind the accepted memos, and with the registered callbacks where no acceptable memo is another callback's; each body at most once and only with cause, so at most one run per registered query; other memos keep value and revision; verifying something clean runs nothing; an error names a cycle of queries that ask for each other below the root, a missing query asked for there, a budget below what all callbacks may charge, or is the own one of a callback there; where none of this can be, there is an answer; every started body has cost a unit of work, and an answer has cost exactly the sum over the bodies that ran of their start, their result and all they charge on their way |
| `Engine.IncrementalEngine.Resume` | crates/sim-incremental-core/src/engine.rs:144-154 | an unknown token is refused; success consumes exactly the token and returns the recomputed value of its root; failure keeps the token and has its cause |
| `Engine.IncrementalEngine.VerifyMany` | crates/sim-incremental-core/src/engine.rs:164-180 | one recomputed value per key, in the given order; an error has its cause in what the key it stopped at can get to, and there is none if nothing stands in any key's way |
| `Engine.IncrementalEngine.MarkDirtyCascade` | crates/sim-incremental-core/src/engine.rs:460-475 | dirties exactly the existing nodes reachable over reverse edges |
| `Engine.IncrementalEngine.RegisterQuery` | crates/sim-incremental-core/src/engine.rs:49-54 | installs any callback, dirties its node and everything reachable from it; the kept memo can mislead if and only if there is one, another callback made it, and nothing it observed has moved for good |
| `Engine.IncrementalEngine.RemoveQuery` | crates/sim-incremental-core/src/engine.rs:64-72 | removes query and node, unlinks the node everywhere else, dirties its dependents; tracking of the key is lost if and only if another acceptable memo observes it as an external one |
| `Engine.IncrementalEngine.Invalidate` | crates/sim-incremental-core/src/engine.rs:74-81 | stamps the source with the next revision for the changed outside and dirties its dependents; under a stamp never observed the engine stays valid if and only if every clean memo observing the key was dirtied |
| `Sessions.Session` | crates/sim-incremental-core/src/engine.rs:182-335 | from-scratch consistency over every script of register, remove, source change, verify and resume calls, failing ones included: each call returns its actual result; an answer is the recomputed one for the callbacks and the outside in force at that moment, an error has its cause in what the question can get to, a memo that still holds is always answered, and no call runs a body twice or without cause, and every answer is covered by its budgets |
| `Sessions.Perform` | crates/sim-incremental-core/src/engine.rs:49-154 | one call of such a script, its result and everything it leaves of callbacks, outside, stamps, memos and resumable roots |
| `Sessions.AlwaysAnswered` | crates/sim-incremental-core/src/engine.rs:138-142 | in every session a question with nothing in its way is answered |
| `Boundaries.ReplaceAndAsk` | crates/sim-incremental-core/src/engine.rs:49-54 | registering any callback over any memo and asking: with the reads up to date, the answer is the old memo if and only if nothing it observed has moved, and the recomputed value otherwise; no memo or an outdated one is always safe |
| `Boundaries.OutdatedExactly` | crates/sim-incremental-core/src/engine.rs:235-262 | once its reads are confirmed a memo is outdated exactly when one of its observations is not current |
| `Boundaries.StaleAfterReplacing` | crates/sim-incremental-core/src/engine.rs:259-266 | in every state where a memo's observations are all current, replacing its callback by one that returns anything else makes the next answer differ from recomputation |
| `Boundaries.RemoveObserved` | crates/sim-incremental-core/src/engine.rs:477-487 | removing a query keeps every source tracked if and only if no other memo that could still be accepted observes the key as an external one |
| `Boundaries.ForgottenSource` | crates/sim-incremental-core/src/engine.rs:65-81 | outside that condition, on the engine: remove, verify the observer, announce a change, and the observer is left confirmed on a stamp that has moved |
| `Boundaries.StaleAfterRemovingSource` | crates/sim-incremental-core/src/engine.rs:486 | a valid state outside that condition, what removing the source leaves of it, and its memos confirmed again: after a change of the source is announced the reader answers with a value other than the recomputed one |
| `Snapshots.Walk` | crates/sim-incremental-core/src/snapshot.rs:76-132 | collects exactly the read-closure of the roots, each node once, within both budgets; every refusal is justified by the closure itself |
| `Snapshots.TakeSnapshot` | crates/sim-incremental-core/src/snapshot.rs:67-133 | there is a snapshot exactly if the read-closure has no missing node and fits both budgets, and then it captures exactly that and leaves no continuation; a budget error names the limit, the exact count that passed it and one new continuation for a root |
| `Snapshots.WalkFits` | crates/sim-incremental-core/src/snapshot.rs:83-131 | the walk is complete exactly if the closure fits, whatever the order of discovery |
| `Snapshots.FirstDuplicate` | crates/sim-incremental-core/src/snapshot.rs:140-147 | finds the first repeated key if and only if one is repeated |
| `Snapshots.ImportNodes` | crates/sim-incremental-core/src/snapshot.rs:162-202 | every node comes back dirty with its value, revision, recomputed fingerprint and observations, and the counter rises above the node revisions |
| `Snapshots.NextAboveBounds` | crates/sim-incremental-core/src/snapshot.rs:152-202 | the restored counter is above every node revision and no higher than that needs |
| `Snapshots.RaiseStamps` | crates/sim-incremental-core/src/snapshot.rs:223-242 | for any stamps and any snapshot each key ends up with the maximum of its old stamp and every external revision the snapshot exports for it, and no key gets one without either |
| `Snapshots.RaiseAllLargest` | crates/sim-incremental-core/src/snapshot.rs:223-242 | the same of the function later proofs reason with |
| `Snapshots.RebuildReverse` | crates/sim-incremental-core/src/snapshot.rs:210-220 | the reverse edges are the exact inverse of the observations |
| `Snapshots.RestoreSnapshot` | crates/sim-incremental-core/src/snapshot.rs:135-208 | succeeds exactly on distinct keys and then rebuilds the whole state and counts the nodes that were not dirty; on a duplicate it changes nothing and names the first |
| `RestoreProof.ObservationRoundTrip` | crates/sim-incremental-core/src/snapshot.rs:179-190 | exporting and importing an observation of a confirmed memo gives it back, fingerprint included |
| `RestoreProof.RestoredMemo` | crates/sim-incremental-core/src/snapshot.rs:162-201 | restoring a snapshot of confirmed memos gives back exactly those memos, marked dirty |
| `RestoreProof.RestoredStamps` | crates/sim-incremental-core/src/snapshot.rs:223-242 | a fresh engine ends up with exactly the stamps the restored memos observed |
| `RestoreProof.RestoreKeepsInv` | crates/sim-incremental-core/src/snapshot.rs:149-208 | the restored engine satisfies the engine invariant |
| `RestoreProof.RestoredFresh` | crates/sim-incremental-core/src/snapshot.rs:164-166 | every restored memo still has all its observations met, so none needs to run |
| `RestoreProof.RestoredFaithful` | crates/sim-incremental-core/src/snapshot.rs:149-208 | restored memos are those of the callbacks registered in the new engine |
| `RestoreProof.CarryOver` | crates/sim-incremental-core/src/snapshot.rs:67-208 | snapshot, restore into a fresh engine with the same queries, verify: the same value, and no body is executed; any session may follow when no exported stamp can be handed out again |
| `RestoreProof.RestoredStampsBelow` | crates/sim-incremental-core/src/snapshot.rs:152-202 | no observed stamp can be handed out again after a restore if and only if every external observation of the snapshot is older than the restored counter |
| `RestoreProof.RestoredBehind` | crates/sim-incremental-core/src/snapshot.rs:152-202 | outside that condition some source has a stamp the counter has yet to come to, and every restored memo that observes the source saw that very stamp |
| `RestoreProof.AnnouncedAgain` | crates/sim-incremental-core/src/snapshot.rs:152-202 | announcing changes of that source until the counter has come to the stamp leaves every memo that held counting as current, whatever the outside shows by then |
| `RestoreProof.StampHandedOutTwice` | crates/sim-incremental-core/src/snapshot.rs:152-202 | for one such memo, left by the early cutoff, recomputation gives another value |
| `C3.MergeSound` | crates/sim-lib-class/src/lineage.rs:186-226 | a successful merge has no repeats, respects every input list and holds exactly their elements |
| `C3.MergeComplete` | crates/sim-lib-class/src/lineage.rs:204-218 | a merge that stops on a blocked head proves that no order respects all the lists |
| `C3.MergeExact` | crates/sim-lib-class/src/lineage.rs:187-226 | the greedy merge succeeds if and only if some order respects all the lists |
| `C3.MergeCharacterised` | crates/sim-lib-class/src/lineage.rs:186-226 | the merge is the respecting order of exactly the listed classes in which, of all that could come at a place, the one in the earliest list comes; there is no other such order |
| `Lineage.Select` | crates/sim-lib-class/src/lineage.rs:192-203 | finds the first head in no tail, charging exactly one unit per list looked at, or runs exactly out of work |
| `Lineage.Blocker` | crates/sim-lib-class/src/lineage.rs:205-210 | the search for the blocking list always finds one, the first |
| `Lineage.MergeLists` | crates/sim-lib-class/src/lineage.rs:187-226 | the in-place merge computes the merge with exactly one unit of work per head looked at, within a bound, and a reported precedence occurs in an input list |
| `Lineage.LooksAtLeast` | crates/sim-lib-class/src/lineage.rs:192-220 | every merged class costs at least one look |
| `Traversal.Postorder` | crates/sim-lib-class/src/lineage.rs:86-135 | success visits exactly the ancestors, parents before children, with exactly one unit of work for the root, each class and each declared parent; failures carry real evidence |
| `Traversal.CycleExactly` | crates/sim-lib-class/src/lineage.rs:107-114 | with budget for the ancestors the traversal fails if and only if a cycle is reachable, and then with a cycle |
| `Linearization.C3Sound` | crates/sim-lib-class/src/lineage.rs:177-228 | a linearization starts with its class, has no repeats, holds exactly the ancestors, and contains every direct parent's linearization and the declared parent order as subsequences; each parent lookup is defined |
| `Linearization.C3Unique` | crates/sim-lib-class/src/lineage.rs:177-228 | graphs that agree on the listed classes give the same linearization |
| `Linearization.C3Local` | crates/sim-lib-class/src/lineage.rs:177-228 | a linearization stays one when only other classes change |
| `Linearization.TableAcyclic` | crates/sim-lib-class/src/lineage.rs:109-114 | a class with a linearization has no cycle among its ancestors |
| `Linearization.C3Monotone` | crates/sim-lib-class/src/lineage.rs:177-228 | a C3 linearization contains the linearization of every class it lists as a subsequence |
| `Canonical.C3Canonical` | crates/sim-lib-class/src/lineage.rs:177-228 | C3 linearizations are exactly the orders that keep the parents' linearizations and the declared order, hold what the parents inherit, and put, of two classes that both could come at a place, the one first that an earlier declared parent inherits |
| `Canonical.TieBreak` | crates/sim-lib-class/src/lineage.rs:181-203 | neighbours that no parent and no declared order puts this way round: the first is inherited by a parent declared before any that inherits the second |
| `Linearization.C3Linearize` | crates/sim-lib-class/src/lineage.rs:166-230 | Ok is the C3 linearization and the budget covers its nodes and the exact work of traversal and merging; a conflict means that below some ancestor no order respects its parents; running out of work means that every linearization takes more |
| `Linearization.C3Exact` | crates/sim-lib-class/src/lineage.rs:166-230 | with N ancestors and E declared parents, nodes N and work 1+N+E+N*(N+E), the computation succeeds exactly on the classes that have a C3 linearization, with that one |
| `DeclaredOrder.PreOrderSound` | crates/sim-lib-class/src/lineage.rs:149-162 | recursive first-visit pre-order starts with the root, has no repeats and holds exactly the ancestors |
| `DeclaredOrder.PreOrderLocal` | crates/sim-lib-class/src/lineage.rs:149-162 | it depends only on the parents of the ancestors |
| `DeclaredOrder.RepeatedParents` | crates/sim-lib-class/src/lineage.rs:149-162 | repeating a declared parent later in its list changes no linearization |
| `DeclaredLaw.PreOrderJoins` | crates/sim-lib-class/src/lineage.rs:149-162 | declared order of an acyclic class is the class and then the orders of its parents one after the other, each class where it comes first |
| `DeclaredOrder.DeclaredLinearize` | crates/sim-lib-class/src/lineage.rs:137-164 | the stack-based result equals recursive first-visit pre-order; it succeeds only within the exact work and nodes it takes, and failures carry real evidence |
| `DeclaredOrder.DeclaredExact` | crates/sim-lib-class/src/lineage.rs:137-164 | with enough budget it succeeds if and only if no cycle is reachable |
| `Policies.LinearizedSound` | crates/sim-lib-class/src/lineage.rs:137-230 | under either policy a linearization starts with its class, has no repeats and holds exactly the ancestors |
| `Policies.LinearizedUnique` | crates/sim-lib-class/src/lineage.rs:137-230 | a class has at most one linearization under a policy |
| `Policies.LinearizedLocal` | crates/sim-lib-class/src/lineage.rs:137-230 | a linearization depends only on the declared parents of the classes it lists |
| `Policies.Linearize` | crates/sim-lib-class/src/lineage.rs:137-230 | a linearization is returned if and only if it is the policy's and the budget covers exactly what it takes; every error is evident |
| `Policies.EvidentFails` | crates/sim-lib-class/src/lineage.rs:137-230 | with such evidence there is no linearization or the budget does not cover it |
| `Policies.LookupsDefined` | crates/sim-lib-class/src/cache.rs:275-282 | a lookup for every listed class is defined if and only if every ancestor has an entry |
| `Tracing.LiveClosed` | crates/sim-lib-gc-tracing/src/collector.rs:81-147 | the live set contains where marking starts and is closed under strong edges and under ephemerons whose owner and key it holds |
| `Tracing.LiveLeast` | crates/sim-lib-gc-tracing/src/collector.rs:81-147 | it is the least such set |
| `Tracing.DegreeAdd` | crates/sim-lib-gc-tracing/src/collector.rs:99-100 | marking a new object adds exactly its out-degree to the edge count |
| `Tracing.TargetsSplit` | crates/sim-lib-gc-tracing/src/collector.rs:103-107 | the strong targets of an object come in edge order, one for each edge to an unmarked object |
| `Tracing.FiringSplit` | crates/sim-lib-gc-tracing/src/collector.rs:113-121 | the ephemerons that fire push their values in the order they were recorded |
| `Tracing.PhaseUnique` | crates/sim-lib-gc-tracing/src/collector.rs:90-111 | the heap and the start decide every object a marking loop marks and every stack it leaves |
| `Tracing.MarkLoop` | crates/sim-lib-gc-tracing/src/collector.rs:90-111 | empties the mark stack, visiting only live objects and each once, with exact edge and work counts; the stack left after each newly marked object follows from the one before and is within the limit; refusals name a need the heap has, a refused stack the one really come to |
| `Tracing.Scan` | crates/sim-lib-gc-tracing/src/collector.rs:113-121 | one round finds exactly the ephemerons with marked key and unmarked value, one unit of work each |
| `Tracing.Settled` | crates/sim-lib-gc-tracing/src/collector.rs:122-124 | when no ephemeron fires the marked set is exactly the live set |
| `Tracing.RoundEnds` | crates/sim-lib-gc-tracing/src/collector.rs:125-146 | every round that changes something marks a new object |
| `Tracing.Fixpoint` | crates/sim-lib-gc-tracing/src/collector.rs:112-147 | terminates with exactly the live set marked, each round starting from exactly what fires, every stack within the limit, and exactly one unit of work for each ephemeron in every scan, within p + n + (n+2)*E |
| `Tracing.UnmarkedCount` | crates/sim-lib-gc-tracing/src/collector.rs:148-154 | marked and swept objects add up to all objects |
| `Tracing.MakePlan` | crates/sim-lib-gc-tracing/src/collector.rs:77-170 | a plan marks exactly the live objects, sweeps exactly the others in allocation order, clears exactly the dead edges of survivors, counts each edge once, charges between p + n + E and p + n + (n+2)*E work and stays within all limits, the stack limit included at every mark; every refusal is justified |
| `Tracing.NeverRefused` | crates/sim-lib-gc-tracing/src/collector.rs:36-52 | limits of the heap's own size (objects n, edges E, stack p+E, work p+n+(n+2)*E, clears E) never refuse when nothing live is missing |
| `Arena.KeepTwice` | crates/sim-lib-mutation/src/managed/object.rs:325-342 | clearing edges in two passes is clearing them in one |
| `Arena.ClearEdges` | crates/sim-lib-mutation/src/managed/arena.rs:247-262 | each listed edge that is there goes, no other, and the receipt names exactly those |
| `Arena.CheckSwept` | crates/sim-lib-mutation/src/managed/arena.rs:236-243 | passes exactly when every listed object is there and none is rooted |
| `Arena.ClearAndSweep` | crates/sim-lib-mutation/src/managed/arena.rs:247-265 | clears the listed edges and removes the listed objects, with exact receipts for both kinds |
| `Arena.ManagedArena.Allocate` | crates/sim-lib-mutation/src/managed/arena.rs:56-72 | a new object gets an identity never used before; at the cap nothing changes |
| `Arena.ManagedArena.Update` | crates/sim-lib-mutation/src/managed/arena.rs:81-91 | replaces a live object and advances the epoch; a stale handle changes nothing |
| `Arena.ManagedArena.Upgrade` | crates/sim-lib-mutation/src/managed/arena.rs:93-100 | keeps a live object for the current epoch only |
| `Arena.ManagedArena.Root` | crates/sim-lib-mutation/src/managed/arena.rs:110-122 | roots a live object under a new root identity |
| `Arena.ManagedArena.ReleaseRoot` | crates/sim-lib-mutation/src/managed/arena.rs:124-134 | releases exactly the matching registration |
| `Arena.ManagedArena.Remove` | crates/sim-lib-mutation/src/managed/arena.rs:136-150 | removes exactly the live unrooted objects asked for; rooted objects always stay there |
| `Arena.ManagedArena.EntriesExactly` | crates/sim-lib-mutation/src/managed/arena.rs:287-297 | marking starts from exactly the rooted objects and those kept alive for the current epoch, all of which are there |
| `Arena.ManagedArena.ApplyCollection` | crates/sim-lib-mutation/src/managed/arena.rs:205-273 | all or nothing: an error changes nothing and says why; a plan for the current epoch whose objects are there and unrooted always applies; the epoch advances exactly if something was listed |
| `Collector.AfterSurvived` | crates/sim-lib-mutation/src/managed/arena.rs:247-265 | applying a faithful plan leaves exactly the marked objects, each without its dead edges and otherwise as it was |
| `Collector.NothingDangles` | crates/sim-lib-gc-tracing/src/collector.rs:148-191 | after a collection every surviving strong, weak and ephemeron edge points only to survivors |
| `Collector.EnqueueAll` | crates/sim-lib-gc-tracing/src/collector.rs:192-206 | with room checked before, no enqueue fails, and one finalizer per record is admitted in order |
| `Collector.CarryOut` | crates/sim-lib-mutation/src/managed/arena.rs:205-273 | applying a faithful plan cannot fail: exactly the marked objects stay, with exact receipts |
| `Collector.CollectWithFinalization` | crates/sim-lib-gc-tracing/src/collector.rs:68-218 | a refusal leaves objects, edges, registry and queues unchanged, is justified, and never meets limits of the heap's own size; success is within every limit and leaves exactly the live objects, no dangling edge, exact receipts, and hands over exactly the waiting registrations of swept targets, once each |
| `Collector.Collect` | crates/sim-lib-gc-tracing/src/collector.rs:54-66 | the same without finalization |
| `Collector.AmpleLimitsCollect` | crates/sim-lib-gc-tracing/src/collector.rs:77-190 | limits of the heap's own size with room for the finalizers are never refused |
| `Finalization.ReadyNumbers` | crates/sim-lib-gc-tracing/src/finalization.rs:48-60 | ready lists exactly the waiting registrations whose target was swept |
| `Finalization.ReadyIncreasing` | crates/sim-lib-gc-tracing/src/finalization.rs:48-60 | in the order they were made |
| `Finalization.AdmittedLogged` | crates/sim-lib-gc-tracing/src/finalization.rs:61-67 | handing over what is ready keeps the log of handed-over registrations exact and free of repeats |
| `Finalization.FinalizationRegistry.Register` | crates/sim-lib-gc-tracing/src/finalization.rs:29-36 | a new identity, waiting |
| `Finalization.FinalizationRegistry.Cancel` | crates/sim-lib-gc-tracing/src/finalization.rs:37-47 | succeeds exactly on a waiting registration and changes no other |
| `Finalization.FinalizationRegistry.MarkAdmitted` | crates/sim-lib-gc-tracing/src/finalization.rs:61-67 | exactly the given records become admitted and are logged |
| `HeapSessions.Attempt` | crates/sim-lib-gc-tracing/src/collector.rs:68-218 | one arena, registry or queue call: its result and the whole new state of arena, registry and queues; a collection is refused with a reason and no change, or sweeps exactly what is not live and hands over exactly what was due |
| `HeapSessions.Session` | crates/sim-lib-gc-tracing/src/collector.rs:171-207 | any script of such calls: every call is such a step from the state the last one left, and the hand-over log is what the collections reported |
| `HeapSessions.HandedWithTheSweep` | crates/sim-lib-gc-tracing/src/collector.rs:171-207 | in any run, a registration waiting when a collection comes to its live target is handed over by that very collection if and only if that collection removes the target, and then its finalizer is newly queued |
| `HeapSessions.HandedOnce` | crates/sim-lib-gc-tracing/src/finalization.rs:21-67 | over a whole run no registration is handed over by two collections, and none after its cancellation |
| `Jobs.NeverRuns` | crates/sim-lib-control/src/jobs.rs:127-134 | a job cancelled while it waits never runs, whatever re-entrant jobs do later |
| `Jobs.OnePlace` | crates/sim-lib-control/src/jobs.rs:170-185 | every admitted job is in exactly one place: waiting, run, or skipped after a cancellation |
| `Jobs.QueuedNotTaken` | crates/sim-lib-control/src/jobs.rs:174-183 | a waiting job has neither run nor been skipped |
| `Jobs.DoneWithin` | crates/sim-lib-control/src/jobs.rs:111-116 | no more jobs are ever taken than were admitted, so re-entrant draining terminates |
| `Jobs.LaterTransitive` | crates/sim-lib-control/src/jobs.rs:105-185 | what every operation keeps composes over runs: admissions and takings of each class only grow at the end, and no class's remaining load rises |
| `Jobs.JobQueues.Enqueue` | crates/sim-lib-control/src/jobs.rs:105-125 | admits at the tail under the next identity unless the limit is reached; the saturating counter never saturates, so identities are never reused and each class stays increasing |
| `Jobs.JobQueues.CancelJob` | crates/sim-lib-control/src/jobs.rs:127-134 | a waiting job becomes doomed; nothing else changes |
| `Jobs.Play` | crates/sim-lib-control/src/jobs.rs:181 | running any finite job program, with everything it admits, cancels and drains in turn, is defined and keeps the invariant and every history |
| `Jobs.Select` | crates/sim-lib-control/src/jobs.rs:170-185 | so does taking any number of jobs of one class |
| `Jobs.JobQueues.RunJob` | crates/sim-lib-control/src/jobs.rs:181 | a job run against the queues terminates with exactly the state its program prescribes |
| `Jobs.JobQueues.TakeFront` | crates/sim-lib-control/src/jobs.rs:174-183 | takes the oldest job of a class: skipped exactly if it was cancelled, otherwise run to the state its program prescribes |
| `Jobs.JobQueues.RunSelected` | crates/sim-lib-control/src/jobs.rs:170-185 | takes the oldest jobs first, exactly as prescribed; reports only jobs of the class that started since, in increasing order, with their notes sent; stops early only on an empty class |
| `Jobs.JobQueues.Drain` | crates/sim-lib-control/src/jobs.rs:136-148 | pending exactly when jobs remain; enough work always empties the class |
| `Jobs.JobQueues.Checkpoint` | crates/sim-lib-control/src/jobs.rs:150-168 | succeeds exactly when the class is empty at the end, and always when work is at least queue length plus remaining admission |
| `JobLaws.SelectAdds` | crates/sim-lib-control/src/jobs.rs:170-185 | draining in two portions of work is draining once |
| `JobLaws.SelectOne` | crates/sim-lib-control/src/jobs.rs:174-183 | one unit of work takes exactly the oldest job: reported if and only if it was not cancelled, and counted either way |
| `JobLaws.PlayCancels` | crates/sim-lib-control/src/jobs.rs:127-134 | a job that a program cancels while it waits never runs |
| `JobLaws.PlayAdmits` | crates/sim-lib-control/src/jobs.rs:105-125 | a job that a program admits is at the end of its class under the next identity exactly if there is room |
| `JobLaws.PlayDrains` | crates/sim-lib-control/src/jobs.rs:136-148 | what a program drains is taken for good |
| `JobLaws.PlayTells` | crates/sim-lib-control/src/jobs.rs:181 | a finalizer tells the outside once and does nothing else |
| `CacheModel.HitUpToDate` | crates/sim-lib-class/src/cache.rs:257-270 | a cached view whose stamps match holds exactly the linearization and members the policy gives now |
| `CacheModel.GatherLists` | crates/sim-lib-class/src/cache.rs:279-282 | gathered members are class after class as listed, each class's members in their own order and nothing else; there is no other such list |
| `CacheModel.ClassWritten` | crates/sim-lib-class/src/cache.rs:183-224 | allocating a class or replacing declarations under a new revision keeps the cache invariant |
| `CacheModel.DiscardedInv` | crates/sim-lib-class/src/cache.rs:329-345 | discarding a view keeps the invariant |
| `CacheModel.DiscardedKeeps` | crates/sim-lib-class/src/cache.rs:329-345 | it changes no declaration, member or revision |
| `CacheModel.InstalledInv` | crates/sim-lib-class/src/cache.rs:287-299 | installing a view keeps cached references and manager entries in agreement |
| `CacheModel.CollectedInv` | crates/sim-lib-class/src/cache.rs:312-315 | a collection keeps the invariant and changes no survivor but the manager |
| `CacheModel.ViewsRetainNoClass` | crates/sim-lib-class/src/cache.rs:306-315 | a class is live exactly when it is an ancestor of a class marking starts from: no cached view keeps one alive |
| `Currency.StandingRewritten` | crates/sim-lib-class/src/cache.rs:196-244 | a class that declares something makes exactly the views fall that list it |
| `Currency.StandingDiscarded` | crates/sim-lib-class/src/cache.rs:329-345 | discarding a view leaves every other standing |
| `Currency.StandingAdded` | crates/sim-lib-class/src/cache.rs:169-194 | so does allocating |
| `Currency.StandingInstalled` | crates/sim-lib-class/src/cache.rs:287-299 | installing a view makes it stand, and no other |
| `Currency.StandingCollected` | crates/sim-lib-class/src/cache.rs:312-315 | a collection leaves exactly the views of surviving classes standing |
| `ClassCaches.SnapshotGraph` | crates/sim-lib-class/src/cache.rs:347-369 | the snapshot is exactly the declarations, members and revisions of the live classes |
| `ClassCaches.FreshView` | crates/sim-lib-class/src/cache.rs:272-286 | every lookup for a fresh linearization is defined, and the new view is what its stamps say |
| `ClassCaches.ClassCache.AllocateClass` | crates/sim-lib-class/src/cache.rs:169-194 | declares and roots a new class, or changes nothing, and succeeds exactly when edges and objects have room; the cache stays valid if the parents are live |
| `ClassCaches.ClassCache.DiscardCached` | crates/sim-lib-class/src/cache.rs:329-345 | on a live class it cannot fail; view, manager entry and reference go together |
| `ClassCaches.ClassCache.Redeclare` | crates/sim-lib-class/src/cache.rs:213-223 | puts exactly the new parents in place of a class without a cached view, under a new revision |
| `ClassCaches.ClassCache.Truncate` | crates/sim-lib-class/src/cache.rs:213-222 | parents beyond the cap leave exactly those that fit, under the old revision |
| `ClassCaches.ClassCache.ReplaceParents` | crates/sim-lib-class/src/cache.rs:196-224 | replaces exactly the parents of a live class and keeps the cache valid if they are live, and exactly the views that list the class fall; too many parents fail part of the way, and the state left behind is stated |
| `CacheBoundaries.ValidHits` | crates/sim-lib-class/src/cache.rs:257-270 | in a valid cache every access that would be a hit shows what the policy gives now |
| `CacheBoundaries.OverflowHarmless` | crates/sim-lib-class/src/cache.rs:213-222 | after a replacement that did not fit every hit is still right if the parents that fit are the declared ones, or if no view that would be a hit lists the class |
| `CacheBoundaries.OverflowMisses` | crates/sim-lib-class/src/cache.rs:213-222 | under either policy a hit whose view lists the class but misses a parent it now has is wrong |
| `CacheBoundaries.OverflowDisorders` | crates/sim-lib-class/src/cache.rs:213-222 | under C3 a hit whose view lists them all is wrong if one is repeated or does not come after the class |
| `CacheBoundaries.OverflowRepeats` | crates/sim-lib-class/src/cache.rs:213-222 | in declared order every hit is right if, repetitions aside, the parents that fit are the declared ones |
| `CacheBoundaries.OverflowUnsafe` | crates/sim-lib-class/src/cache.rs:169-222 | for every list of classes that does not fit, and either policy, a run of a new cache that allocates classes, accesses one and replaces parents ends with a wrong hit |
| `CacheBoundaries.LookupFails` | crates/sim-lib-class/src/cache.rs:275-282 | a class whose declared parent is gone still has a linearization, but the parent's revision and members are not there to look up |
| `CacheBoundaries.LostParent` | crates/sim-lib-class/src/cache.rs:169-194 | a class that was released and collected is accepted as a parent, which leads there |
| `ClassCaches.ClassCache.RedeclareMembers` | crates/sim-lib-class/src/cache.rs:234-243 | puts exactly the new members in place under a new revision |
| `ClassCaches.ClassCache.ReplaceMembers` | crates/sim-lib-class/src/cache.rs:226-244 | replaces exactly the members of a live class and keeps the cache valid; exactly the views that list the class fall |
| `ClassCaches.ClassCache.Install` | crates/sim-lib-class/src/cache.rs:287-299 | stores a computed view behind its class, or fails without touching a declaration |
| `ClassCaches.ClassCache.Enlist` | crates/sim-lib-class/src/cache.rs:293-299 | enters a stored view with the manager and the class, and touches no other class |
| `ClassCaches.ClassCache.Recompute` | crates/sim-lib-class/src/cache.rs:271-304 | computes and stores the view of a class without one, members in the order of the linearization, within the budget; a failure is for lack of room or evident |
| `ClassCaches.ClassCache.DerivedView` | crates/sim-lib-class/src/cache.rs:246-304 | hit or recomputed, the view lists what the policy gives on the current declarations and, in that order, exactly what those classes declare; a hit happens exactly when every stamp still matches and changes nothing; a recomputation is within the budget; a lineage error is evident |
| `ClassCaches.AccessAndRecompute` | crates/sim-lib-class/src/cache.rs:416-456 | whatever an access returns equals a recomputation with sufficient budget |
| `ClassCaches.ClassCache.Release` | crates/sim-lib-class/src/cache.rs:306-310 | releases exactly the given root |
| `ClassCaches.ClassCache.Collect` | crates/sim-lib-class/src/cache.rs:312-315 | keeps exactly the ancestors of rooted classes, unchanged and with their current views; fails only on a limit |
| `ClassCaches.NothingStale` | crates/sim-lib-class/src/cache.rs:312-315 | nothing live in the cache points to a missing object |
| `CacheSessions.LiveLines` | crates/sim-lib-gc-tracing/src/collector.rs:99-121 | the edges a collection of the cache follows are the parents that inherited classes declare and the entries of the manager |
| `CacheSessions.LimitOverran` | crates/sim-lib-gc-tracing/src/collector.rs:36-52 | a refused collection needed more than a limit allows and no more than the world's classes, parents, roots and entries call for |
| `CacheSessions.Attempt` | crates/sim-lib-class/src/cache.rs:160-315 | one cache call is a step of a world without any cache, with its actual result; every error has its reason there, and what the cache stores grows by no more than the call adds |
| `CacheSessions.Perform` | crates/sim-lib-class/src/cache.rs:160-315 | every script of cache operations is explained by declared parents, members and roots alone: accesses show what the policy computes from them, and are hits exactly if nothing they list has declared anything since the last; collections drop exactly what no root inherits from, within their limits |
| `Exceptions.ManagedException.InsertRelation` | crates/sim-lib-control/src/exception.rs:43-56 | adds a relation and its role under an identity never used before; refused exactly at the total or the retaining cap, naming the one that is met first |
| `Exceptions.ManagedException.RemoveRelation` | crates/sim-lib-control/src/exception.rs:58-70 | removes exactly the expected relation, whose role is always there; an unknown edge and a changed target are told apart and change nothing |
| `Exceptions.ManagedException.Relations` | crates/sim-lib-control/src/exception.rs:72-83 | lists exactly the relations in increasing edge order; every role lookup succeeds |
| `Exceptions.WalkExact` | crates/sim-lib-control/src/exception.rs:161-183 | the unbounded breadth-first walk lists exactly the relations of the reachable objects, or names a reachable object that is missing |
| `Exceptions.WalkOnce` | crates/sim-lib-control/src/exception.rs:162-164 | no relation is listed twice |
| `Exceptions.WalkBreadthFirst` | crates/sim-lib-control/src/exception.rs:161-183 | objects are expanded in the order they are first named, all of them or all before the first that is missing, each with its relations in edge order |
| `Exceptions.ListRelations` | crates/sim-lib-control/src/exception.rs:166-182 | lists one object's relations while they fit and queues exactly the targets not expanded yet |
| `Exceptions.Project` | crates/sim-lib-control/src/exception.rs:146-188 | on any cyclic graph it terminates with the first rows of the unbounded walk, truncated exactly when there are more, stale exactly when a missing object is met before the budget |
| `Exceptions.ProjectionExact` | crates/sim-lib-control/src/exception.rs:146-188 | with every related object live the whole view lists every relation of every related object, and a budget b gives its first b rows |

## Left out

- Sessions.Session: skips a registration over a memo that could still be accepted and a removal of a key such a memo observes as an external one, because the code then answers wrong, as `Boundaries` shows; it starts where no observed stamp can be handed out again, which every engine that never restored a snapshot guarantees by itself (`RestoreProof.RestoredStampsBelow` for the others).
- CacheBoundaries.OverflowDisorders: which hits stay right when a view already lists all the parents that fit, in an order the policy allows, is decided only in the cases of `CacheBoundaries.OverflowRepeats`.
- Engine.IncrementalEngine.VerifyMany: takes the keys as a list in the order they are verified, because abstract keys have no order; for the same reason worklists pick an arbitrary pending key.
- Engine.IncrementalEngine.RunBody: a callback that swallows a failed read, asks `cancellation_requested`, or records a Read observation through `observe` is not representable; counters are unbounded, so the overflow of `run.work += units` is not modelled.
- Sessions.AlwaysAnswered: asks more than that recomputation succeeds, because refreshing old reads can raise errors recomputation would not; progress by repeated resume under small budgets is not stated.
- RestoreProof.CarryOver: the source engine's root must be clean and both engines must see the same outside; hand-made snapshots and changed sources are not covered.
- Jobs.JobQueues.RunJob: a callback is a finite program of enqueue, cancel, drain, checkpoint and admission queries ended by at most one note to the outside; what the callback computes besides is not modelled.
- Arena.ManagedArena.Allocate: the 64-bit exhaustion of object, root, epoch and safepoint counters is not modelled, nor are the safepoint sequence number and teardown; an object is a payload beside its numbered edges.
- Collector.CollectWithFinalization: marked objects are reported as a set rather than in allocation order.
- Finalization.FinalizationRegistry.Register: the registration counter is unbounded, so its saturation after 2^64 registrations is not modelled.
- Tracing.MarkLoop: the stack limit is stated where the code charges it, after an object's edges are pushed; the ephemeron values pushed between two charges may exceed it for a moment.
- ClassCaches.ClassCache.AllocateClass: with a parent that was collected the declarations are as stated but the cache is not claimed valid, since later lookups fail, as `CacheBoundaries.LookupFails` says.
- ClassCaches.ClassCache.ReplaceParents: the same; revision exhaustion is not modelled.
- CacheSessions.Perform: skips calls that name a collected class as a parent and replacements with more parents than fit.
- ClassCaches.ClassCache.ReplaceMembers: the 64-bit exhaustion of the revision, which would fail after the members were stored, is not modelled.
- ClassCaches.ClassCache.DerivedView: one policy is fixed per cache, because the cached view is not keyed by policy.
- ClassCaches.ClassCache.Release: the manager's own root is never handed out, so releasing it is excluded.
- Exceptions.Project: reads the relations of live objects from a map; the 64-bit exhaustion of edge identities is not modelled.
- The `dataflow` and `projection` modules of the incremental core and the model session: separate features.
- `sim-lib-exec`, dispatch, binding, functions, generators, async, restarts, resumable frames, close guards and the subclass query: validation plumbing or simpler relatives of the traversals above.
- Locks, threads, error texts, registration, codecs and build scripts: not part of the modelled behaviour.

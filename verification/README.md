# monigote call-expectation engine in Dafny

This project models the engine at the centre of monigote, a helper for
writing test doubles in Go. A double registers *setups* for a method name.
Each setup has optional exact arguments, optional predicate matchers, a
reply, a budget (`Times`: 1 by default, -1 persistent) and a match tally
(`WasCalled`). `Call` dispatches an invocation to the first setup, in
registration order, that accepts it. The winner is tallied and its budget
consumed, and it is removed once a positive budget reaches 0. A record is
appended to the method's call history. An invocation that no setup accepts
fails the test. `Reset` clears everything. `IsDone` reports whether every
remaining setup has budget exactly -1 and has been matched.

Modules, leaves first:

- `Wrappers` (`wrappers.dfy`): `Option`, which stands for a nil-able Go slice.
- `Values` (`values.dfy`): the dynamically typed `Value` passed through
  `interface{}`, and deep equality over it, proved to be structural equality.
- `Setups` (`setups.dfy`): `MonigoteSetup`, its builders, the per-setup
  matching test, and the bookkeeping a match does on the winner (`Consume`).
- `Mock` (`mock.dfy`): the registry `Monigote`. Its transitions are `Setup`,
  `Amend`, `RemoveSetupFrom` (over the list function `RemoveSetup`), `Call`
  and `Reset`, and `IsDone` is its query. It also has the
  reachability invariant `Valid` and `Run`, which plays a sequence of calls.
- `Scenarios` (`scenarios.dfy`): the two cases of `monigote_test.go`.

Modelling choices:

- The state is an immutable value and each operation is a pure function from
  state to state. The registry's mutex makes `Call`, `Reset` and `IsDone`
  atomic. `Setup` and the builders take no lock, so in Go they can race with a
  concurrent `Call`. The model treats them as atomic too.
- `*MonigoteSetup` pointers are modelled by an `id` field. The registry
  allocates ids from `nextId`. `removeSetup` compares pointers, so
  `RemoveSetup` compares ids. `Valid` says that ids are distinct within a list.
  Under `Valid`, removing by id removes exactly the winning slot. Every
  operation keeps `Valid`, so it holds in every reachable state.
- A builder called on the setup that `Setup` returned mutates the live object
  the registry holds, one field at a time. A builder call is modelled as data
  (`Setups.Builder`), and `Amend` applies a chain of them to whatever the
  registry's slot for that object holds at that moment. A pointer kept across
  a `Call` therefore keeps the tally and budget the call left
  (`Scenarios.HandleHeldAcrossCall`). A builder on an object no longer
  registered changes nothing in the registry.
- A variadic parameter given no arguments is a nil slice. So `WhenCalledWith()`
  and `WhenCalled()` leave their field `None`, which is a wildcard. An empty
  list is always read this way (see `Setups.WhenCalledWith` under "Left out").
- Matchers are total functions `seq<Value> -> bool`.
- `Call` returns `Found(reply)`, or `Fatal` for the `T.Fatalf` failure. On a
  fatal call the state is unchanged, and `Run` stops at the first one.
- A 64-bit platform is assumed. `WasCalled` is a Go `uint`, so its increment
  wraps modulo 2^64 (`Inc`). `Times` is a Go `int`, 64 bits wide. It is only decremented while positive, so it cannot
  overflow.

Three behaviours of the code are easy to misread, and the model follows the
code in each:

- `WhenCalledWith` does not clear the matchers. Only `WhenCalled` clears the
  exact arguments. A setup can therefore carry both filters, and `Call`
  applies both (`Setups.BothFiltersReachable`, `Setups.MatchesMeans`).
- A budget of 0 does not cause removal. No call removes the setup or moves
  its budget, so `IsDone` stays false (`Mock.NonPositiveBudgetNeverDone`,
  `Scenarios.ZeroBudgetPendingAfterCall`). That lasts until `Reset`, or
  until a builder through a held pointer changes the budget
  (`Scenarios.ZeroBudgetRevivedThroughHandle`).
- Every negative budget matches without being consumed, and its records are
  marked persistent. Only exactly -1 counts as done
  (`Setups.OnlyMinusOneCanBeDone`, `Mock.CallWinner`).

## Model

| member | source | states |
|---|---|---|
| `Values.DeepEqualIsEquality` | monigote.go:116 | deep equality of two values holds exactly when they are the same value, in both directions |
| `Values.DeepEqualSeqIsEquality` | monigote.go:116 | deep equality of two argument lists holds exactly when they are the same list: same length, same values in order |
| `Setups.NewMonigoteSetup` | monigote.go:30-35 | a fresh setup has budget 1, tally 0, no filters and an empty reply, and is not done |
| `Setups.WhenCalledWith` | monigote.go:38-41 | only the exact arguments change; they become the given list, or nil when none are given; the matchers are kept |
| `Setups.WhenCalled` | monigote.go:43-47 | only the matchers and exact arguments change; the exact arguments are cleared and the matchers become the given list, or nil when none are given |
| `Setups.ReplyWith` | monigote.go:49-52 | only the reply changes, to the given values |
| `Setups.ReplyTimes` | monigote.go:54-57 | only the budget changes, to `n` of any sign |
| `Setups.Persist` | monigote.go:59-62 | only the budget changes, to -1; the result is done exactly when it has already been matched |
| `Setups.Apply` | monigote.go:38-62 | a builder call changes neither the object's identity, its method nor its tally |
| `Setups.ApplyAll` | monigote.go:38-62 | a chain of builder calls changes neither the object's identity, its method nor its tally |
| `Setups.ApplyAllAppend` | monigote.go:38-62 | a chain of builder calls has the effect of its first part followed by its second |
| `Setups.BothFiltersReachable` | monigote.go:38-47 | exact arguments set after matchers leave both filters set, while matchers set after exact arguments clear the arguments |
| `Setups.AllAcceptMeansEvery` | monigote.go:121-132 | the matcher loop with early exit accepts exactly when every matcher accepts the arguments |
| `Setups.MatchesMeans` | monigote.go:114-132 | a candidate is accepted exactly when it is for the called method, its exact arguments are nil or equal the call's, and its matchers are nil or all accept; both filters apply when both are set |
| `Setups.EmptyFiltersAreWildcards` | monigote.go:38-47 | `WhenCalled()` with no matchers accepts every call of the method, and so does `WhenCalledWith()` with no arguments on a setup without matchers |
| `Setups.Inc` | monigote.go:134 | the tally increment is addition modulo 2^64 |
| `Setups.Consume` | monigote.go:134-146 | a match raises the tally by one modulo 2^64 and lowers a positive budget by one toward 0; a zero or negative budget is unchanged; nothing else changes |
| `Setups.OnlyMinusOneCanBeDone` | monigote.go:178 | a setup whose budget is not -1 is not done, and one with a non-positive budget stays not done after a match |
| `Mock.NewMonigote` | monigote.go:73-81 | a new registry is valid and done, with no setups and no history for any method |
| `Mock.ValidAfterChange` | monigote.go:84-158 | a transition that changes only one method, keeps that method's list and history in shape and never moves the allocator back keeps the whole registry valid |
| `Mock.Setup` | monigote.go:84-89 | exactly one new setup is appended at the end of the method's list; it has that method, budget 1, tally 0 and no filters; its identity is fresh; other methods and the history are unchanged; validity is kept |
| `Mock.Amend` | monigote.go:38-62 | builder calls through a pointer apply, in place, to the current value of every slot holding that object, and change no other slot, method or history; identity and tally of every slot are kept; validity is kept |
| `Mock.AmendChain` | monigote.go:38-62 | a chain applied through the pointer at once equals its builder calls made one after another |
| `Mock.ConfigureRegistered` | monigote.go:84-89 | registering, then applying a chain of builders through the returned pointer, leaves the old list followed by the fresh setup with the chain applied, and keeps validity |
| `Mock.RemoveSetup` | monigote.go:91-98 | a list without the object is unchanged; a list with it loses exactly one slot |
| `Mock.RemoveSetupAt` | monigote.go:91-98 | when slot `i` holds the first occurrence of the object, exactly that slot is removed and the order of the others is kept |
| `Mock.RemoveSetupFrom` | monigote.go:91-98 | removal works on the list of the setup's own method and touches no other method and no history |
| `Mock.FirstMatch` | monigote.go:114-132 | the scan returns the lowest index that matches, with no earlier index matching; it returns none exactly when no setup matches |
| `Mock.Commit` | monigote.go:134-146 | a match touches only the called method's list, never lengthens it, and leaves the history alone |
| `Mock.CommitShape` | monigote.go:136-146 | with distinct objects, a winner with budget 1 is removed and the rest keep their order; any other winner stays in its slot, consumed |
| `Mock.WinnerStepKeepsList` | monigote.go:136-146 | removing the winner's slot, or consuming the winner in place, keeps a list method-homogeneous with distinct objects |
| `Mock.Record` | monigote.go:148-150 | exactly one record is appended to its own method's history; other histories and all setups are unchanged |
| `Mock.Call` | monigote.go:101-158 | the call is fatal exactly when no setup of the method matches, and then nothing changes; otherwise exactly one found record with the call's arguments and the returned reply is appended; other methods are untouched |
| `Mock.CallWinner` | monigote.go:114-151 | the first match's reply is returned; the record is persistent exactly when its budget is negative; budget 1 removes it and keeps the others' order; otherwise it is consumed in place |
| `Mock.CommitPreservesValid` | monigote.go:134-146 | consuming or removing the winner keeps lists method-homogeneous with distinct objects |
| `Mock.RecordPreservesValid` | monigote.go:148-150 | the history holds only found records of its own method |
| `Mock.CallPreservesValid` | monigote.go:101-158 | every call keeps the registry valid |
| `Mock.Run` | monigote.go:148-158 | over any sequence of calls, ending at the first fatal one, the registry stays valid and every history only grows by appending |
| `Mock.WinnerStepKeepsNonPositive` | monigote.go:141-146 | whichever slot wins, a setup with a budget of 0 or below stays in the list with the same budget |
| `Mock.CallKeepsNonPositiveBudget` | monigote.go:136-146 | a setup with budget 0 or below stays registered with the same budget after any call |
| `Mock.PendingBudgetNotDone` | monigote.go:176-181 | any registered setup whose budget is not -1 makes the registry not done |
| `Mock.NonPositiveBudgetNeverDone` | monigote.go:136-146 | after `ReplyTimes(0)` or any budget below -1, no sequence of calls removes the setup or makes the registry done |
| `Mock.Reset` | monigote.go:162-168 | after reset no method has setups or history, and the registry is valid and vacuously done |
| `Mock.AllDoneByLookup` | monigote.go:176-178 | the registry is done exactly when every method's list, with a missing key read as empty, holds only done setups |
| `Mock.IsDone` | monigote.go:171-189 | the result is true exactly when every remaining setup has budget -1 and a positive tally |
| `Scenarios.HandleHeldAcrossCall` | monigote.go:49-57 | a pointer kept across a call reaches the live object: after budget 3 and one match, `ReplyWith` leaves tally 1 and budget 2 and sets only the reply |
| `Scenarios.ZeroBudgetPendingAfterCall` | monigote.go:54-57 | after `ReplyTimes(0)`, a match answers and leaves the setup registered with budget 0 and tally 1, so the registry is not done |
| `Scenarios.ZeroBudgetRevivedThroughHandle` | monigote.go:54-57 | `ReplyTimes(1)` through a held pointer to a pending budget-0 setup makes the next match answer and remove it, after which a registry holding nothing else is done |
| `Scenarios.StrictStage1Shape` | monigote_test.go:37-40 | the first strict registration leaves one setup, exactly `MyMethod(1)` replying true, and nothing else |
| `Scenarios.StrictFixtureShape` | monigote_test.go:37-45 | the two strict registrations leave the two setups in registration order and nothing else |
| `Scenarios.StrictFirstCall` | monigote_test.go:49-50 | `MyMethod(1)` answers true from the first strict setup, removes it, leaves the second pending so the registry is not done, and records the call |
| `Scenarios.StrictSecondCall` | monigote_test.go:51-52 | `MyMethod(0)` answers false from the second strict setup, the registry is then done, the call is appended to the history, and a further call is fatal |
| `Scenarios.StrictSetupsConsumedInOrder` | monigote_test.go:37-55 | two strict setups answer in order; not done after the first call, done after the second; the history holds both calls in order; a third call is fatal |
| `Scenarios.LooseStage1Shape` | monigote_test.go:64-71 | the first loose registration leaves the persistent predicate setup and nothing else |
| `Scenarios.LooseStage2Shape` | monigote_test.go:64-76 | the second loose registration adds the exact setup after the predicate setup |
| `Scenarios.LooseFixtureShape` | monigote_test.go:64-82 | the loose registrations leave the predicate setup, then the exact setup, for `MyMethod`, and the wildcard for `MyMethodB` |
| `Scenarios.LooseExactCall` | monigote_test.go:86 | the persistent predicate setup registered first does not shadow the exact setup when the predicate rejects; the exact setup answers and is removed |
| `Scenarios.LoosePredicateCall` | monigote_test.go:88 | the predicate setup answers an accepted call, stays registered and marks the record persistent |
| `Scenarios.LooseWildcardFirstCall` | monigote_test.go:89 | the wildcard with budget 2 answers a call with any arguments and stays with one use left |
| `Scenarios.LooseWildcardSecondCall` | monigote_test.go:90 | the second call uses the wildcard up, after which a further call is fatal |
| `Scenarios.LooseDoneAtEnd` | monigote_test.go:91 | once the wildcard is used up and the predicate setup has matched, the registry is done |
| `Scenarios.LooseMyMethodCalls` | monigote_test.go:86-88 | the exact setup answers `MyMethod(1)` past the rejecting predicate setup, the registry is not done, the predicate setup answers `MyMethod(11)`, and both calls are recorded in order |
| `Scenarios.LooseMyMethodBCalls` | monigote_test.go:89-91 | the wildcard answers two `MyMethodB` calls with any arguments, the registry is then done, the `MyMethod` history is untouched, and a further `MyMethodB` call is fatal |
| `Scenarios.LooseCalls` | monigote_test.go:84-94 | from the registered state the four calls answer as the test asserts; not done after the first call, done after the fourth; the history of `MyMethod` holds the two calls in order |
| `Scenarios.LooseSetupsScenario` | monigote_test.go:59-94 | the loose case end to end from an empty registry, with any arguments for the `MyMethodB` calls |

## Left out

- The mutex in `Call`, `Reset` and `IsDone`, and the lack of one in `Setup` and the builders: every operation, locked or not, is one atomic transition, so races between an unlocked `Setup` or builder and a concurrent `Call` are not modelled.
- `CalledAt` and `time.Now()`: the clock is not modelled, so records carry no time.
- The `Name` and `T` fields, and the parameters of `NewMonigote`: `Name` and `T.Logf` serve only messages. `T.Fatalf` also ends the test, which the `T.Fatalf` line below covers.
- `T.Logf` diagnostics in `IsDone`: only its boolean result is modelled.
- `T.Fatalf`: it is modelled as the `Fatal` outcome, and the test ends there.
- `reflect.DeepEqual` over arbitrary Go types: `Value` covers nil, bool, Go `int` (`Int`), string and `[]interface{}` (`List`). `reflect.DeepEqual` also compares dynamic types, so Go's `int(1)` and `int64(1)` differ, as do `[]int{1}` and `[]interface{}{1}`. Other integer kinds and typed slices are not modelled, and neither are floating point, maps, structs and pointers. Neither is the nil-versus-empty slice distinction inside nested values.
- Setups.WhenCalledWith: Go tells a nil slice from a non-nil empty one, and `reflect.DeepEqual` does not equate them; the model has one empty list. `Variadic` reads every empty argument list as nil, so `WhenCalledWith(xs...)` spread from an empty non-nil slice is a wildcard here, while Go stores a non-nil empty `Args` that never matches a call made with no arguments (whose `args` is nil at monigote.go:116). Likewise the call's arguments and `Reply` are plain lists: Go's `Reply` is nil from `NewMonigoteSetup` and after `ReplyWith()`, the model's is empty.
- Matchers that panic, as the test's type assertion would on a non-int: matchers are total functions.
- Aliasing of slices: values are immutable here. In Go, the recorded `Args` shares the caller's argument slice, and a recorded `Reply` shares the setup's. A spread builder call, `WhenCalledWith(xs...)` or `ReplyWith(xs...)` (monigote.go:39, 50), also stores the caller's `xs` in the registered setup. A later write to `xs` then changes what `Call` compares and returns.
- Typed wrapper methods on a user's double, and the goconvey test runner: these are thin adapters around `Call`.
- `cmd/mngote/mngote.go` and `cmd/mngote/models/args.go`: a command-line entry point with no engine logic.
- `test/my_module.go`: input to a code generator that is not part of this model.

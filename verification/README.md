# Offer-review state machine, modelled in Dafny

The repository configures one Spring Statemachine: an offer moves from
`NEW_OFFER_CREATED` through `OFFER_IMAGE_ANALYSED` and `OFFER_VIDEO_ANALYSED` to
the end state `OFFER_PUBLISHED`. It moves on the events `IMAGE_ANALYSIS`, `VIDEO_ANALYSIS` and `PUBLISH`.
The machine's extended state holds an `int` under the key `passedStepCount`:

- `executeAction`, the entry action of both intermediate states, increments it.
- `publishGuard` lets `PUBLISH` through only while it is positive.
- `errorAction` only logs.
- The machine is built with `autoStartup(false)`, so it has to be started explicitly.

This project models that configuration together with the runtime semantics it relies on:

- a (state, event) pair with no declared transition is a no-op;
- the guard is evaluated before the transition is committed;
- exit actions of the source and entry actions of the target run after the commit;
- the listener is notified of every state change.

It then proves what the configuration promises about every run.

Files (one module each):

- `wrappers.dfy` (`Wrappers`): `Option` and `Result`.
- `java_int.dfy` (`JavaInt`): Java's 32-bit `int` and the wrap-around of `++`.
- `extended_state.dfy` (`ExtendedState`): the variables map with `getOrDefault` and `put`.
- `offer_review.dfy` (`OfferReview`): states, events, the transition table, the publish
  guard, `executeAction`, `errorAction`, and the per-state entry and exit actions.
- `engine.dfy` (`Engine`): the machine instance. It holds the lifecycle (created, running, stopped),
  the current state, the variables, the trace of listener notifications and the error reports.
  It provides `Start`, `Stop`, `SendEvent` and `Run` (a sequence of events).
- `properties.dfy` (`Properties`): properties over event sequences.
  These are the reachable-run invariant, the sink, the lifecycle, the notification count, counter monotonicity and the driver's scenario.

Modelling decisions:

- The extended state is a `map<string, int32>`. An absent `passedStepCount` reads as 0, as
  `getOrDefault(PASSED_STEP_COUNT, 0)` does. `++` wraps from `MAX` to `MIN` as Java's `int` does.
- `.state(S, executeAction(), errorAction())` is the runtime's `state(S, entryAction, exitAction)` overload.
  So `errorAction` is bound as the exit action of the two intermediate states, even though its name suggests an error handler.
  It runs when those states are left, with no exception in its context, and then does nothing.
  `ReportError` models its behaviour for both cases: a report exactly when an exception is attached.
- The listener's `stateChanged(from, to)` is modelled as an appended trace of `(from?, to)` notifications.
  `from` is absent for the notification made by `start()`.
- The lifecycle has three phases:
  - `start()` succeeds only on a created machine.
  - `stop()` stops a running machine and is a no-op on a stopped one.
  - `sendEvent` is processed only while running. Otherwise it is rejected with `Inactive(NotStarted)` or `Inactive(AlreadyStopped)`, and nothing changes.

## Model

| member | source | states |
|---|---|---|
| JavaInt.Increment | src/main/java/com/example/springstatemachineexample/config/OfferReviewStateMachineConfiguration.java:86 | `passedStepCount++` yields the successor reduced modulo 2^32 into the `int` range: strictly larger below `MAX`, `MIN` at `MAX` |
| ExtendedState.Put | src/main/java/com/example/springstatemachineexample/config/OfferReviewStateMachineConfiguration.java:87-90 | storing the counter binds the key to the new value, adds only that key, and leaves every other variable as it was |
| OfferReview.LookupIn | src/main/java/com/example/springstatemachineexample/config/OfferReviewStateMachineConfiguration.java:58-65 | a found transition is one of the declared ones, with the requested source and event; nothing is found only when no declared transition matches the pair |
| OfferReview.Lookup | src/main/java/com/example/springstatemachineexample/config/OfferReviewStateMachineConfiguration.java:58-65 | the runtime's dispatch on (state, event) yields only a declared transition with that source and event, and yields nothing only when no declared transition matches |
| OfferReview.LookupFollowsTable | src/main/java/com/example/springstatemachineexample/config/OfferReviewStateMachineConfiguration.java:58-65 | the runtime's dispatch on (state, event) returns exactly what a search of the declared transitions returns |
| OfferReview.TableIsFunctional | src/main/java/com/example/springstatemachineexample/config/OfferReviewStateMachineConfiguration.java:58-65 | no (source, event) pair is declared twice, so the transitions form a mapping |
| OfferReview.DeclaredTransitions | src/main/java/com/example/springstatemachineexample/config/OfferReviewStateMachineConfiguration.java:59-64 | exactly three pairs have a transition: image analysis from the new offer, video analysis from the image-analysed state, publish from the video-analysed state; each has its declared target, and only publish carries the guard |
| OfferReview.EndStateHasNoExit | src/main/java/com/example/springstatemachineexample/config/OfferReviewStateMachineConfiguration.java:50-51 | no transition leaves the end state and none returns to the initial state |
| ExtendedState.GetOrDefault | src/main/java/com/example/springstatemachineexample/config/OfferReviewStateMachineConfiguration.java:70-73 | `getOrDefault(key, 0)` returns the stored value when the key is present and the default otherwise; this is `Map.getOrDefault`'s own definition, which the configuration relies on |
| OfferReview.Counter | src/main/java/com/example/springstatemachineexample/config/OfferReviewStateMachineConfiguration.java:82-85 | the counter read by both the guard and `executeAction` is the stored `passedStepCount`, or 0 when it is absent |
| OfferReview.EvaluateGuard | src/main/java/com/example/springstatemachineexample/config/OfferReviewStateMachineConfiguration.java:68-75 | an unguarded transition is allowed; the publish guard allows exactly when `passedStepCount` is present and positive, so it denies on an empty context |
| OfferReview.Execute | src/main/java/com/example/springstatemachineexample/config/OfferReviewStateMachineConfiguration.java:79-91 | `executeAction` raises the counter by one (absent read as 0, with Java wrap-around at `MAX`), always leaves the key present, and changes no other variable |
| OfferReview.ReportError | src/main/java/com/example/springstatemachineexample/config/OfferReviewStateMachineConfiguration.java:95-103 | `errorAction` reads only its context and reports, naming the source state, exactly when an exception is present |
| OfferReview.RunAction | src/main/java/com/example/springstatemachineexample/config/OfferReviewStateMachineConfiguration.java:53-54 | an error action leaves the variables alone and reports, naming the source state, exactly when an exception is attached; an execute action changes the variables exactly as `executeAction` does and reports nothing |
| OfferReview.RunActions | src/main/java/com/example/springstatemachineexample/config/OfferReviewStateMachineConfiguration.java:53-54 | running a state's action list leaves the variables as `executeAction` applied once per execute action in the list, so no variable other than the counter changes and an all-error list changes nothing; it makes one report naming the source per error action when an exception is attached, and none otherwise |
| OfferReview.EntryActions | src/main/java/com/example/springstatemachineexample/config/OfferReviewStateMachineConfiguration.java:53-54 | the two intermediate states have `executeAction` as their one entry action; the initial and end states have none; no state has `errorAction` on entry |
| OfferReview.ExitActions | src/main/java/com/example/springstatemachineexample/config/OfferReviewStateMachineConfiguration.java:53-54 | the two intermediate states have `errorAction` as their one exit action; the initial and end states have none; no state has `executeAction` on exit |
| OfferReview.EntryIncrementsOnlyIntermediate | src/main/java/com/example/springstatemachineexample/config/OfferReviewStateMachineConfiguration.java:53-54 | entering a state runs `executeAction` once exactly when the state is one of the two intermediate states, and otherwise changes nothing |
| OfferReview.ExitLeavesVariables | src/main/java/com/example/springstatemachineexample/config/OfferReviewStateMachineConfiguration.java:53-54 | leaving a state never changes the variables; a report is made only when leaving an intermediate state with an exception attached |
| OfferReview.ExecuteEnablesPublish | src/main/java/com/example/springstatemachineexample/config/OfferReviewStateMachineConfiguration.java:68-91 | one run of `executeAction` from a counter in [0, MAX) makes the publish guard allow |
| Engine.Create | src/main/java/com/example/springstatemachineexample/SpringStateMachineExampleApplication.java:38 | a machine obtained from the factory is created but not running, is in `NEW_OFFER_CREATED`, has an empty extended state, and has notified nothing and reported nothing |
| Engine.Start | src/main/java/com/example/springstatemachineexample/config/OfferReviewStateMachineConfiguration.java:42 | with auto-startup off, only a created machine can be started; starting binds it to `NEW_OFFER_CREATED`, keeps the variables, and notifies the listener of (none, initial); a second start is an `AlreadyStarted` error |
| Engine.Stop | src/main/java/com/example/springstatemachineexample/config/OfferReviewStateMachineConfiguration.java:40-43 | stopping is refused before start, turns a running machine into a stopped one, and changes nothing else |
| Engine.SendEvent | src/main/java/com/example/springstatemachineexample/config/OfferReviewStateMachineConfiguration.java:58-91 | an event is rejected, with the machine unchanged, when the machine is not running, when no transition is declared for the pair, or when the publish guard finds no positive counter. It is accepted exactly when the machine is running, a transition is declared for the pair and its guard allows. The machine then moves to the declared target and the listener sees (source, target). The counter is incremented exactly when the target is intermediate. Nothing else changes. |
| Engine.Run | src/main/java/com/example/springstatemachineexample/SpringStateMachineExampleApplication.java:43-50 | sending a sequence of events yields one outcome per event and never changes the lifecycle |
| Properties.Started | src/main/java/com/example/springstatemachineexample/SpringStateMachineExampleApplication.java:38-40 | a freshly started machine is running in `NEW_OFFER_CREATED` with an empty extended state and exactly one notification (none, initial) |
| Properties.StartedSatisfiesInvariant | src/main/java/com/example/springstatemachineexample/config/OfferReviewStateMachineConfiguration.java:42-54 | the run invariant holds right after start |
| Properties.SendEventPreservesInvariant | src/main/java/com/example/springstatemachineexample/config/OfferReviewStateMachineConfiguration.java:53-54 | one event preserves the invariant, and the publish guard does not deny. The invariant is: the counter equals the steps on the path to the current state and the number of accepted entries into intermediate states, the notifications chain, and no error is reported. |
| Properties.RunPreservesInvariant | src/main/java/com/example/springstatemachineexample/config/OfferReviewStateMachineConfiguration.java:53-54 | every event sequence preserves that invariant and meets no guard denial |
| Properties.ReachableRunsNeverMeetGuardDenial | src/main/java/com/example/springstatemachineexample/config/OfferReviewStateMachineConfiguration.java:60-74 | on every run from a fresh start: the counter equals the number of accepted entries into the intermediate states; it is at least 2 in the video-analysed state; publish is never denied by its guard; the listener's notifications chain from (none, initial) to the current state; the error action reports nothing |
| Properties.NotRunningIgnoresEvents | src/main/java/com/example/springstatemachineexample/config/OfferReviewStateMachineConfiguration.java:42 | before start (and after stop) every event is rejected as not started (already stopped) and the machine does not change |
| Properties.EndStateAbsorbs | src/main/java/com/example/springstatemachineexample/config/OfferReviewStateMachineConfiguration.java:51-64 | once in `OFFER_PUBLISHED`, every further event is rejected and the machine does not change |
| Properties.NotificationPerAcceptedEvent | src/main/java/com/example/springstatemachineexample/config/OfferReviewStateMachineConfiguration.java:34-43 | the listener is notified exactly once per accepted event, and a run with no accepted event changes nothing |
| Properties.CounterNeverDecreases | src/main/java/com/example/springstatemachineexample/config/OfferReviewStateMachineConfiguration.java:68-103 | along any run that cannot reach the `int` wrap-around, the counter never decreases and grows by at most one per event |
| Properties.ReachableCounterMonotone | src/main/java/com/example/springstatemachineexample/config/OfferReviewStateMachineConfiguration.java:79-91 | from any machine satisfying the run invariant (in particular every machine reachable from a fresh start), the counter after any sequence of events is at least the counter before, with no bound on the length of the sequence |
| Properties.AcceptedStep | src/main/java/com/example/springstatemachineexample/config/OfferReviewStateMachineConfiguration.java:53-64 | a running machine with a declared, allowed transition commits to its target, runs the entry action, and notifies the listener |
| Properties.AnalysisThenPublish | src/main/java/com/example/springstatemachineexample/config/OfferReviewStateMachineConfiguration.java:59-64 | from the initial state, `IMAGE_ANALYSIS`, `VIDEO_ANALYSIS`, `PUBLISH` are all accepted; they end in `OFFER_PUBLISHED`, add the three notifications in order, and raise the counter by two |
| Properties.RunnerScenario | src/main/java/com/example/springstatemachineexample/SpringStateMachineExampleApplication.java:38-50 | the driver's run (start, then image analysis, video analysis, publish) visits `NEW_OFFER_CREATED` → `OFFER_IMAGE_ANALYSED` → `OFFER_VIDEO_ANALYSED` → `OFFER_PUBLISHED` with every step accepted and ends with counter 2 |
| Properties.RunnerWithoutStart | src/main/java/com/example/springstatemachineexample/config/OfferReviewStateMachineConfiguration.java:42 | without the explicit start, the driver's three events are all rejected as not started and the machine stays as created |
| Properties.PublishWithoutAnalysisIsRejected | src/main/java/com/example/springstatemachineexample/config/OfferReviewStateMachineConfiguration.java:59-64 | publishing straight from the initial state finds no transition and leaves the machine unchanged |
| Properties.GuardDeniesWithoutPassedSteps | src/main/java/com/example/springstatemachineexample/config/OfferReviewStateMachineConfiguration.java:68-75 | in `OFFER_VIDEO_ANALYSED` with a counter that is absent, zero or negative, `PUBLISH` is denied by the guard and the machine stays where it is |
| Properties.StopIsIdempotent | src/main/java/com/example/springstatemachineexample/config/OfferReviewStateMachineConfiguration.java:40-43 | stopping a stopped machine is the same as stopping it once, and the result is stopped |

## Left out

- Logging: the text of the `log.info`/`log.error` calls, including the listener's message. Logging is output only; the listener is kept as a trace of (from, to) pairs.
- Spring Boot bootstrap, the state-machine factory, dependency injection and the `MessageBuilder` wrapping in src/main/java/com/example/springstatemachineexample/SpringStateMachineExampleApplication.java. This is plumbing. The driver's event sequence is reproduced as `Properties.RunnerScenario`.
- The runtime library's internals. Only the semantics listed above are modelled, not its implementation.
- Values of other types in the extended state, and the `ClassCastException` the `(int)` cast would raise on them. The configuration only ever stores `int`s.
- Exceptions from guards and actions. Nothing in this configuration can raise one, so the exit action always runs without an exception. `ReportError` still models both cases.
- `stop()` is never called by the source. Its contract, and the error on a second `start()`, are this model's choice of a conservative lifecycle. They are not derived from code in this repository.
- Completion of the machine on reaching the end state (the runtime's "complete" flag). The model keeps the machine running in the end state, where every event is rejected anyway.
- Concurrency and sharing between machine instances. A single instance processes one event at a time.
- Properties.CounterNeverDecreases: for an arbitrary machine, stated only when the counter plus the number of events is at most `MAX`, because at `MAX` Java's `++` wraps to `MIN`. For machines reachable from a fresh start, `Properties.ReachableCounterMonotone` states monotonicity for runs of any length, since there the counter never exceeds 2.

# State-machine stream transform, modelled in Dafny

`TransformerStateMachine` in rxjava-extras turns a user state machine into an Rx
`Transformer<In, Out>`. The state machine has three callbacks:

- an initial-state supplier;
- a transition, run on each input value with the current state and a subscriber to emit on;
- a completion callback, run at end of input, which may emit and returns whether a completion marker is appended.

The operator is the pipeline `materialize().scan(seed, step).filter(nonEmpty).flatMap(emit)`.

This project models that pipeline on finite inputs and proves what a subscriber receives.

- `rx.dfy` (module `Rx`) holds the library pieces the pipeline uses, as sequence functions: `Notification`, `materialize`, `filter`, `Observable.from(list).dematerialize()`, and a one-thread `flatMap` that merges the inner streams in order (`Flatten`).
- `transformer_state_machine.dfy` (module `TransformerStateMachine`) holds the core:
  - the configured machine and `create`'s null checks;
  - the `StateWithNotifications` record, the scan step, the scan, the `nonEmptyNotifications` filter and `call`;
  - the `Recorder` subscriber as a class whose methods append to a `seq` field;
  - the imperative scan step that drives a fresh `Recorder`, proved equal to the pure step.
- `properties.dfy` (module `TransformerStateMachineProperties`) holds a direct fold of the callbacks over the input values (`FoldState`, `TransitionBatches`, `EndBatches`). It relates the pipeline to that fold and proves the properties below.
- `scenarios.dfy` (module `Scenarios`) runs three concrete machines: counting, doubling, and a marker recorded mid-stream.
- `wrappers.dfy` holds `Option` and `Result`.

The callbacks are pure function parameters. Each returns its result together with the notifications it recorded on the subscriber, in call order. An absent callback is `None`, and `Create` then fails with `NullPointerException`. The record's state is `Option<S>`: `None` stands for the `(State) null` stored after completion.

Four behaviours of the code are easy to miss:

- An upstream error keeps the previous state in its record (`sn.state`). The state is not discarded.
- The initial-state supplier runs once, when `call(source)` assembles the pipeline. It does not run once per subscription. In a pure model the two cannot be told apart, so re-subscription independence holds trivially.
- A completion recorded by the transition mid-stream ends only the inner stream of its own batch. Later input values still reach the transition and are emitted (`Scenarios.StopOnZeroScenario`). Nothing cancels the upstream.
- After a completed input the subscriber receives exactly one completion, unless a batch recorded an error first; then it receives that error and nothing after it. The completion callback's boolean only adds a marker inside its own batch, and that marker is absorbed by `flatMap`. So the boolean is not observable in the output (`CompletionFlagNotObservable`).

## Model

| member | source | states |
|---|---|---|
| `Rx.Materialize` | src/main/java/com/github/davidmoten/rx/internal/operators/TransformerStateMachine.java:44 | every source value becomes an onNext notification, in order, followed by exactly one terminal notification matching how the source ended (none while it is open); a terminal occurs only last |
| `Rx.Filter` | src/main/java/com/github/davidmoten/rx/internal/operators/TransformerStateMachine.java:47-49 | keeps only elements satisfying the predicate and never lengthens the sequence |
| `Rx.Dematerialize` | src/main/java/com/github/davidmoten/rx/internal/operators/TransformerStateMachine.java:88-96 | the inner stream of a batch is the batch's leading values in recorded order, then the batch's first terminal notification, or a completion if it has none; nothing after the first terminal is emitted |
| `Rx.Flatten` | src/main/java/com/github/davidmoten/rx/internal/operators/TransformerStateMachine.java:50-51 | the merged output obeys the stream contract (at most one terminal, last); it is terminated once the outer stream completed; it ends with a completion only if the outer stream completed |
| `TransformerStateMachine.Create` | src/main/java/com/github/davidmoten/rx/internal/operators/TransformerStateMachine.java:23-38 | construction succeeds if and only if all three callbacks are present, and then holds exactly those callbacks; otherwise it fails with a NullPointerException and builds nothing |
| `TransformerStateMachine.Initial` | src/main/java/com/github/davidmoten/rx/internal/operators/TransformerStateMachine.java:42-43 | the seed holds the initial state and an empty batch, so the non-empty filter never keeps it (used by `SeedContributesNothing`) |
| `TransformerStateMachine.Step` | src/main/java/com/github/davidmoten/rx/internal/operators/TransformerStateMachine.java:64-86 | an error keeps the state and yields exactly that error; a completion clears the state and yields the completion callback's emissions followed by one completion marker if and only if it returned true; a value yields the transition's next state and exactly what it recorded; `TransformStateAndRecordNotifications` is proved equal to it |
| `TransformerStateMachine.NonEmptyNotifications` | src/main/java/com/github/davidmoten/rx/internal/operators/TransformerStateMachine.java:54-61 | holds if and only if the record's batch is non-empty; a record it drops would only have yielded an inner stream that completes at once (used by `FilterPreservesFlatten`) |
| `TransformerStateMachine.Scan` | src/main/java/com/github/davidmoten/rx/internal/operators/TransformerStateMachine.java:46 | the scan yields the seed first and one record per input notification |
| `TransformerStateMachine.Call` | src/main/java/com/github/davidmoten/rx/internal/operators/TransformerStateMachine.java:40-52 | what a subscriber receives obeys the stream contract, is terminated whenever the upstream terminated, and ends with a completion only if the upstream terminated |
| `TransformerStateMachine.Recorder.constructor` | src/main/java/com/github/davidmoten/rx/internal/operators/TransformerStateMachine.java:116 | a new recorder's queue is empty |
| `TransformerStateMachine.Recorder.OnCompleted` | src/main/java/com/github/davidmoten/rx/internal/operators/TransformerStateMachine.java:118-121 | appends exactly one completion notification at the end of the queue; earlier entries are unchanged |
| `TransformerStateMachine.Recorder.OnError` | src/main/java/com/github/davidmoten/rx/internal/operators/TransformerStateMachine.java:123-127 | appends exactly one error notification carrying the given throwable at the end; earlier entries are unchanged |
| `TransformerStateMachine.Recorder.OnNext` | src/main/java/com/github/davidmoten/rx/internal/operators/TransformerStateMachine.java:129-132 | appends exactly one value notification at the end; earlier entries are unchanged |
| `TransformerStateMachine.Recorder.Receive` | src/main/java/com/github/davidmoten/rx/internal/operators/TransformerStateMachine.java:114-134 | a callback's calls on the recorder leave the queue equal to the previous queue followed by those calls, in order |
| `TransformerStateMachine.TransformStateAndRecordNotifications` | src/main/java/com/github/davidmoten/rx/internal/operators/TransformerStateMachine.java:64-86 | run on a fresh recorder, the step equals the pure step: an error yields exactly that one error and keeps the state; a completion clears the state and yields the completion callback's emissions followed by one completion marker if and only if it returned true; a value yields the transition's next state and exactly what it recorded |
| `TransformerStateMachineProperties.ScanIsFold` | src/main/java/com/github/davidmoten/rx/internal/operators/TransformerStateMachine.java:44-46 | each record after the seed is the step applied to the previous record and the matching input notification, in input order; a callback is never reached without a state |
| `TransformerStateMachineProperties.ScanStateAt` | src/main/java/com/github/davidmoten/rx/internal/operators/TransformerStateMachine.java:79-82 | after the first i input values the record holds the transition folded over exactly those values |
| `TransformerStateMachineProperties.ScanAtEnd` | src/main/java/com/github/davidmoten/rx/internal/operators/TransformerStateMachine.java:70-78 | on an input with no values, the end alone records the completion batch and clears the state, or records the error and keeps the state |
| `TransformerStateMachineProperties.ScanMatchesReference` | src/main/java/com/github/davidmoten/rx/internal/operators/TransformerStateMachine.java:64-86 | over a materialized input the scan records the seed's empty batch, then each value's transition batch with the state threaded through, then the end's batch; the final state is cleared by completion and kept through an error |
| `TransformerStateMachineProperties.SeedContributesNothing` | src/main/java/com/github/davidmoten/rx/internal/operators/TransformerStateMachine.java:42-61 | the seed holds the initial state and an empty batch, so the non-empty filter always removes it |
| `TransformerStateMachineProperties.FilterPreservesConcat` | src/main/java/com/github/davidmoten/rx/internal/operators/TransformerStateMachine.java:47-61 | dropping records with empty batches leaves the concatenation of all batches unchanged |
| `TransformerStateMachineProperties.FilterPreservesFlatten` | src/main/java/com/github/davidmoten/rx/internal/operators/TransformerStateMachine.java:47-61 | dropping records with empty batches leaves the subscriber's output unchanged |
| `TransformerStateMachineProperties.FlattenAppend` | src/main/java/com/github/davidmoten/rx/internal/operators/TransformerStateMachine.java:88-96 | batches whose inner streams end without error contribute their values in order and let later batches through |
| `TransformerStateMachineProperties.FlattenStopsAtError` | src/main/java/com/github/davidmoten/rx/internal/operators/TransformerStateMachine.java:88-96 | the first batch whose inner stream errors ends the output with that error; nothing from later batches is received |
| `TransformerStateMachineProperties.FlattenWithoutErrors` | src/main/java/com/github/davidmoten/rx/internal/operators/TransformerStateMachine.java:88-96 | without inner errors the output is every batch's values in order, then one completion exactly when the outer stream completed |
| `TransformerStateMachineProperties.FlattenPrefix` | src/main/java/com/github/davidmoten/rx/internal/operators/TransformerStateMachine.java:50-51 | what is received while the outer stream is open is a prefix of what is received after more batches arrive |
| `TransformerStateMachineProperties.TrailingMarkerInvisible` | src/main/java/com/github/davidmoten/rx/internal/operators/TransformerStateMachine.java:74-76 | appending the completion marker to a batch changes neither the values its inner stream emits nor how that inner stream ends |
| `TransformerStateMachineProperties.CallReference` | src/main/java/com/github/davidmoten/rx/internal/operators/TransformerStateMachine.java:40-52 | the subscriber's output is the merge of each value's transition batch, with the state threaded from the initial state, followed by the end's batch; the seed and the filter drop out |
| `TransformerStateMachineProperties.OpenSourceOutput` | src/main/java/com/github/davidmoten/rx/internal/operators/TransformerStateMachine.java:44-51 | while the source is open the subscriber has received exactly the merge of the transition batches recorded so far, with the outer stream not yet completed |
| `TransformerStateMachineProperties.CallPrefix` | src/main/java/com/github/davidmoten/rx/internal/operators/TransformerStateMachine.java:44-51 | the output for a prefix of the values, with the source still open, is a prefix of the output for the whole input, however that input ends |
| `TransformerStateMachineProperties.CompletedSourceOutput` | src/main/java/com/github/davidmoten/rx/internal/operators/TransformerStateMachine.java:73-78 | for a completed input with no recorded inner error, the output is the transition emissions, then the completion callback's emissions, then exactly one completion |
| `TransformerStateMachineProperties.CompletionFlagNotObservable` | src/main/java/com/github/davidmoten/rx/internal/operators/TransformerStateMachine.java:74-76 | negating the completion callback's boolean never changes the subscriber's output, for any input |
| `TransformerStateMachineProperties.ErroredSourceOutput` | src/main/java/com/github/davidmoten/rx/internal/operators/TransformerStateMachine.java:70-72 | for a failed input with no earlier recorded error, the output is the transition emissions followed by the upstream's error alone |
| `TransformerStateMachineProperties.ErroredSourceIgnoresCompletion` | src/main/java/com/github/davidmoten/rx/internal/operators/TransformerStateMachine.java:70-72 | on a failed input the completion callback is never consulted: replacing it leaves the output unchanged |
| `Scenarios.CountingScenarioEmpty` | src/main/java/com/github/davidmoten/rx/internal/operators/TransformerStateMachine.java:40-52 | a counting machine on an empty completed input emits 0 then completes |
| `Scenarios.CountingScenario` | src/main/java/com/github/davidmoten/rx/internal/operators/TransformerStateMachine.java:40-52 | a counting machine on two values emits 2 then completes |
| `Scenarios.DoublingScenario` | src/main/java/com/github/davidmoten/rx/internal/operators/TransformerStateMachine.java:40-52 | a machine emitting each value twice, whose completion returns false, emits 1,1,2,2 and still completes |
| `Scenarios.StopOnZeroScenario` | src/main/java/com/github/davidmoten/rx/internal/operators/TransformerStateMachine.java:79-82 | a completion recorded by the transition mid-stream ends only its batch: the later value is still emitted, then the output completes |

## Left out

- TransformationTester.java: a test-case builder over RxJava's `TestSubscriber` assertions. It is a testing utility, not runtime logic.
- Subscription, unsubscription, backpressure and scheduling are not modelled. A stream is the finite sequence of notifications a subscriber receives.
- `flatMap`'s merging of concurrently running inner streams is not modelled. `Rx.Flatten` is its one-thread behaviour: inners run one after another, in order.
- Upstream cancellation is not modelled. After an error, or after the subscriber stops, the output sequence ends, but whether the upstream keeps running is not represented.
- Laziness and the memory bound of one step's batch cannot be stated over finite sequences. Only the prefix property is proved (`CallPrefix`): output is produced as input arrives.
- Callbacks that throw are not modelled; Rx would turn such a throw into an error inside `scan`. The callbacks are total pure functions.
- Callbacks only record notifications. They cannot use the rest of the `Subscriber` they are handed (unsubscribe, add, request).
- Mutable state objects are not modelled: the user state is a value. So two subscriptions sharing the one initial state built in `call` cannot interfere in the model.
- `Preconditions.checkNotNull` is a call into code not shown here. An absent callback is `None`, and every failed check yields the same `NullPointerException`.
- A `Throwable` is reduced to its message.
- Infinite inputs are not modelled. An input is a finite run of values that is open, completed or failed.
- `Rx.Filter`: the contract states only that kept elements satisfy the predicate and that the length does not grow. It does not state that order is kept. The filter's effect on the output is stated instead by `FilterPreservesConcat` and `FilterPreservesFlatten`.
- `Scenarios.StopOnZeroScenario`: uses the integer 0 as the stop marker instead of a string such as "STOP". This keeps the proof small; the behaviour shown is the same.

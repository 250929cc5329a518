# eventflow, modelled in Dafny

eventflow adds four operations to a Node `EventEmitter`. `series`, `parallel` and `waterfall` run the listeners registered for an event through the `async` library's control-flow operator of the same name. `invoke` calls an event's listener only when exactly one is registered. The repository's own logic is small:

- `asyncApply` decides how to call a listener by comparing its declared arity (`fn.length`) with the number of arguments. A listener that declares no more parameters than there are arguments is called synchronously, and its return value is reported with a null error. Any other listener gets the completion callback appended after the arguments and reports for itself. A non-array argument slot is wrapped into a one-element list.
- `mapHandlers` builds one task per listener, in listener order. Every task is bound to the caller's arguments, except that in a `waterfall` the tasks after the first take the previous task's value.
- The attached methods share one argument convention: the first argument is the event name, the last is the callback, and the ones in between go to the listeners. `invoke` reports an error for zero listeners or for more than one, and otherwise hands the single listener to `asyncApply`.

The model is functional. A listener is a `Listener(arity, body, reply)` value: `body` is what it returns when called without a callback, and `reply` is the `(err, value)` pair it passes to the callback when called with one. `Invoker.Delivered` is the pair `done` is called with: `(null, return value)` from the invoker, or the listener's own pair. `invoke` hands that pair to its caller unread. Between the steps of a `series` or `waterfall`, the flow reads it through JavaScript truthiness (`Values.Report`). A truthy `err` is an error, and a falsy one (`null`, `undefined`, `0`, `''`, `false`) passes the value on. So a `Raised` error always carries a truthy reason. `Dispatch` records how `asyncApply` called a listener. `Outcome` (`Ok(value)` or `Err(error)`) is such a reading. `Error` separates a listener's reported error from the two errors `invoke` creates, `NoListeners(name)` and `TooMany(name, count)`.

The `async` library is not part of this model. `series` and `waterfall` are given a reference semantics instead: sequential folds over tasks whose listeners report at once. This is the behaviour the wrapper relies on. The `Scenarios` module states what it gives for the situations the repository's tests set up.

Modules, one per piece of `eventflow.js`:

- `Values` (values.dfy): JavaScript values, truthiness, how a flow reads a callback call, errors, argument normalisation.
- `Invoker` (apply.dfy): `asyncApply`, the pair `done` is called with, and its reading.
- `Handlers` (handlers.dfy): `mapHandlers` and the task lists it builds.
- `Arguments` (arguments.dfy): the name / arguments / callback split.
- `Flow` (flow.dfy): the emitter registry snapshot, `invoke`, the attached methods, and the reference semantics of `series` and `waterfall`.
- `Scenarios` (scenarios.dfy): the tests' situations, replayed.

Where the repository's tests and its code disagree, the model follows the code:

- test/basic.js:158-172 expects a returned `Error` object to fail a series. eventflow.js:52 reports every synchronous return value with a null error (`Scenarios.ReturnedErrorIsAValue`).
- test/basic.js:370-379 expects `invoke` without a callback to return the value. eventflow.js:32 always pops a callback, so the report goes to `undefined` (`Scenarios.InvokeWithoutCallbackHasNoCallback`). If the last argument is an array and the listener wants a callback, eventflow.js:55's `args.concat(done)` spreads that array into the listener's arguments, and no callback reaches the listener (`Scenarios.InvokeSpreadsArrayCallback`).
- The tests expect fire-once listeners to be removed after one pass. eventflow.js:33 and eventflow.js:60 pass the listeners from `listeners(name)` through unchanged, so that removal is left to the emitter and is not modelled.

A waterfall over zero listeners reports no value (`Ok(Undefined)`), which is what `async.waterfall` does with an empty task list. It does not hand back the caller's seed.

## Model

| member | source | states |
|---|---|---|
| Values.Normalize | eventflow.js:50 | An array argument slot is used as it is: re-packing the result gives the slot back. Any other value becomes the one-element list holding it. |
| Values.NormalizeSpreadsArrays | eventflow.js:50 | An array argument slot is spread into exactly its elements. Any other value becomes a one-element list holding it. Normalising is stable under re-packing. |
| Values.Report | test/basic.js:108-143 | A callback call `done(err, value)` fails the flow exactly when `err` is truthy, and then the error carries `err`. Otherwise the flow receives `value`. |
| Values.ReportCoversOutcomes | eventflow.js:52 | `done(null, value)` is a success with that value, and every raised error is the report of its own reason. A falsy error argument never fails a flow. |
| Invoker.AsyncApply | eventflow.js:49-57 | The call is synchronous exactly when the declared arity is at most the number of normalised arguments. A synchronous call gets exactly those arguments and is reported as `done(null, return value)`. Otherwise the listener gets one more argument than there are, and the last one is `done`. |
| Invoker.Delivered | eventflow.js:51-56 | `done` is called with a null error and the return value after a synchronous call. After a callback-style call, it gets exactly the pair the listener passes, because `done` is handed over unwrapped. |
| Invoker.Settle | eventflow.js:51-56 | A flow reads a synchronous listener's return value as a success. It reads a callback-style listener's call as an error exactly when the error argument is truthy, and otherwise as the value passed. |
| Invoker.SyncDispatch | eventflow.js:49-52 | When the declared arity is at most the number of normalised arguments, the call is synchronous and the listener gets exactly those arguments. None of its declared parameters is bound to `done`. `done` is then called with a null error and the listener's return value, which a flow reads as a success. |
| Invoker.CallbackDispatch | eventflow.js:49-55 | When the declared arity exceeds the number of normalised arguments, the listener receives those arguments in order followed by `done`, and `done` occurs exactly once. Its parameter at position \|args\| is `done`, however many extra parameters it declares. `done` is called with exactly the pair the listener passes, and a flow reads it through truthiness. |
| Invoker.NullaryIsSync | eventflow.js:51 | A listener that declares no parameters is always called synchronously and is never passed a callback. |
| Handlers.MapHandlers | eventflow.js:59-67 | There is one task per listener, and task i invokes listener i. Under `series` and `parallel` every task is bound to the caller's arguments. Under `waterfall` only task 0 is bound; every later task is chained to the previous value. |
| Handlers.TaskListsAgree | eventflow.js:59-66 | `series` and `parallel` build identical task lists. A waterfall's list matches them at index 0 and differs only by chaining after that. |
| Arguments.Split | eventflow.js:16-19 | A call with at least two arguments is exactly the name, then the listener arguments in order, then the callback. With fewer arguments, missing parts are `undefined` and there are no listener arguments. |
| Arguments.SplitJoin | eventflow.js:29-32 | Splitting a written call recovers its name, arguments and callback. Re-joining the parts of any call with at least two arguments gives the call back. |
| Flow.Invoke | eventflow.js:28-55 | Zero listeners yield exactly a no-listeners error for the event name. More than one yields exactly a too-many error carrying the count. In both cases no listener is called. With exactly one listener, it is dispatched through `asyncApply` with the middle arguments. The popped last argument is then called with `(null, return value)` for a synchronous listener, or with exactly the pair a callback-style listener passes. The one exception: the last argument is an array and the listener wants a callback. Then the listener is called with the middle arguments followed by the array's elements, and is handed no callback. |
| Flow.Attach | eventflow.js:14-24 | The task list the attached method hands on invokes the listener snapshot for the named event in order. Its bound tasks carry the middle arguments, its shape matches the policy, and it reports to the last argument. |
| Flow.Collect | test/basic.js:131-156 | Folding listener reports in order yields one value per report on success. On error it yields the report of the last listener counted as run. No more listeners are counted than there are reports. |
| Flow.CollectSucceedsIffAllOk | test/basic.js:108-129 | The fold succeeds if and only if every report is a value, and then holds those values in order. |
| Flow.CollectStopsAtFirstErr | test/basic.js:131-156 | When report k is the first error, the fold ends with exactly that error after k + 1 reports. |
| Flow.RunSeries | eventflow.js:22 | Dispatches happen in task order, and the i-th dispatch is task i's call. On success there is one value per task and every task ran. On error, the last task that ran is the one that reported that error. |
| Flow.SeriesSucceedsIffAllSucceed | test/basic.js:108-129 | A series succeeds if and only if every listener reports a value. On success the i-th result is listener i's value. |
| Flow.SeriesStopsAtFirstError | test/basic.js:131-156 | When listener k is the first to report an error, the series reports that error. Exactly k + 1 listeners ran, so the later ones are skipped. |
| Flow.Chain | test/basic.js:383-400 | For any way listeners respond, a chain calls no more listeners than it has. A non-empty chain calls the first listener first, on the initial input. A successful chain calls every listener. |
| Flow.ChainAppend | test/basic.js:421-436 | For any way listeners respond, a chain over two lists in turn equals the chain over their concatenation. An error in the first list skips the second. |
| Flow.Pipe | test/basic.js:383-400 | The first step is called with the initial input. A successful chain calls every step. No more steps are called than there are listeners. An empty chain reports its input. |
| Flow.RunWaterfall | eventflow.js:61-65 | With no tasks the result is no value and no call. Otherwise the first call is task 0 with the caller's arguments. A success means every task ran. |
| Flow.PipeAppend | test/basic.js:383-436 | A chain over two lists in turn equals the chain over their concatenation. The second list starts from the first list's value, and an error in the first list skips the second. |
| Flow.WaterfallFeedsForward | eventflow.js:61-63 | Step i+1 of a waterfall is called with exactly the value produced by steps 0..i. |
| Flow.WaterfallStopsAtFirstError | test/basic.js:421-436 | When step k is the first to report an error, the waterfall reports exactly that error. Exactly k + 1 steps were called, so the later ones are skipped. |
| Flow.WaterfallForgetsCallerArgs | eventflow.js:61-65 | Two waterfalls whose first listener reports the same value end alike, whatever arguments their callers passed. |
| Flow.SeriesCall | eventflow.js:15-22 | `series(name, ...args, cb)` is the series over `mapHandlers`' task list for the named event's listeners and the middle arguments. It calls those listeners in registration order, each with exactly the middle arguments, and reports to the last argument. |
| Flow.WaterfallCall | eventflow.js:15-22 | `waterfall(name, ...args, cb)` reports no value for an event without listeners. Otherwise it chains the event's listeners starting from the middle arguments. |
| Flow.SingleListenerFlowsAgree | eventflow.js:35-55 | With exactly one listener, `invoke` spreads its last argument into the listener's arguments exactly when that argument is an array and `series` makes a callback-style call. Otherwise `invoke` makes the same call as `series`. The `waterfall` outcome is the reading of the pair `invoke` delivers. `series` succeeds exactly when that pair's error argument is falsy, and then holds its value in a one-element list. Otherwise it fails with that error argument. |
| Scenarios.WaterfallComposesInOrder | test/basic.js:383-400 | +1, then ×5 through a callback, then −3, starting from 0, gives 2 after three calls. |
| Scenarios.FailingSteps | test/basic.js:422-430 | The first step returns 1 synchronously from 0. The second gets (1, done) and reports the error 'oh no!'. |
| Scenarios.WaterfallErrorStopsChain | test/basic.js:421-436 | An error from the middle step is reported with no value, and the third step is never called. |
| Scenarios.SeriesCollectsInOrder | test/basic.js:108-129 | With callback and synchronous listeners mixed, the results are apple, orange, grape, lime in registration order. |
| Scenarios.SeriesStopsAtFirstReportedError | test/basic.js:131-156 | The first reported error ("oh no! first") is the series' error, and only two listeners ran. |
| Scenarios.SeriesForwardsArguments | test/basic.js:60-106 | A two-parameter listener gets exactly ('foo', 'baz'). A three-parameter listener gets ('foo', 'baz', done). |
| Scenarios.InvokeRejectsWrongCardinality | test/basic.js:236-254 | `invoke` with no listener gives a no-listeners error. With two listeners it gives a too-many error with count 2. |
| Scenarios.InvokeForwardsArguments | test/basic.js:310-330 | `invoke('add', 1, 2)` on a synchronous adder calls back with (null, 3). `invoke('subtract', 3, 2)` on a callback-style subtractor calls back with (null, 1). |
| Scenarios.ReturnedErrorIsAValue | eventflow.js:51-52 | A synchronous listener that returns an `Error` object does not fail the series: the object is reported as a value. |
| Scenarios.InvokeWithoutCallbackHasNoCallback | eventflow.js:30-33 | `invoke('sync')` with only a name addresses its report to `undefined` instead of returning the value. |
| Scenarios.InvokeSpreadsArrayCallback | eventflow.js:55 | `invoke('x', [1, 2])` on a one-parameter callback-style listener calls it with (1, 2), so its callback parameter is 1. |
| Scenarios.InvokePassesReplyUnread | eventflow.js:42-55 | A listener that calls back with (0, 5) gives `invoke`'s caller exactly (0, 5). A series over it reads the falsy 0 as no error and succeeds with [5]. |

## Left out

- `parallel` as a run: the model builds its task list (`Handlers.MapHandlers`, `Handlers.TaskListsAgree`) but not its execution. Running tasks concurrently and reporting errors in completion order is done by the `async` library and depends on timing.
- The `async` library and Node's `EventEmitter`: both are foreign code. `listeners(name)` is a snapshot taken from a map (`Flow.ListenersOf`). Event names are used as keys as given, with no conversion to strings.
- Fire-once listeners and their removal: the emitter does this, and eventflow.js passes listeners through unchanged.
- Construction and prototype patching (eventflow.js:4-11): class detection, default emitter creation and attaching methods are object-shape plumbing.
- The receiver (`this`) a listener is called with, error message texts, and exceptions thrown by listeners or by calling a non-function callback. For `invoke`, what a listener does with a spread array element in its callback position is such a case.
- Invoker.CallbackDispatch: a callback-style listener is taken to call back exactly once and at once, with an error argument and one value (`undefined` when it passes none). A listener that never calls back, calls back twice, or passes several values is not modelled.
- Flow.Pipe: every step is taken to pass on exactly one value. A later waterfall task is `asyncApply` bound to a listener, so it takes two more parameters: an argument slot and `done`. A step that calls back with no value (`cb()` or `cb(null)`) leaves `done` undefined, and the program then throws a TypeError instead of reporting; the model passes `undefined` on instead. A step that passes several values, `cb(null, a, b)`, gives the next listener only `a`, binds `b` as its `done` and drops the library's continuation. That is not modelled either.
- Flow.Pipe: the model reports the last step's reading (`Values.Report`) as the waterfall's outcome. The library hands the last step's callback arguments to the caller as they are, so a falsy error argument other than `null`, or a value passed together with an error, reaches the caller but not the model's outcome.
- Flow.RunSeries: on error, only the error is reported, not the partial results the `async` library may also pass.
- Numbers: JavaScript numbers are modelled as unbounded integers, so there is no floating point, `NaN` or overflow. In the scenarios, `+` and `*` on a non-number give `undefined` rather than JavaScript's coercion. eventflow never inspects the values it forwards, so only the scenarios depend on this.
- Series and waterfall run twice on durable listeners give identical results (idempotence). In this pure model that holds trivially, so it has no lemma.

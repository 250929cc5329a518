/**
 The operations eventflow attaches to an emitter (eventflow.js:14-44):
 `invoke`, which insists on exactly one listener, and `series`,
 `parallel` and `waterfall`, which build one task per listener and hand
 them to the async library. For `series` and `waterfall` this module gives
 the reference semantics the wrapper relies on: sequential folds over
 tasks whose listeners report at once.
 */
module Flow {
  import opened Values
  import opened Invoker
  import opened Handlers
  import opened Arguments

  /** The emitter's listener registry, as `listeners(name)` sees it. */
  datatype Emitter = Emitter(registered: map<Value, seq<Listener>>)

  /** `emitter.listeners(name)`: the snapshot an operation works on. */
  function ListenersOf(em: Emitter, name: Value): seq<Listener>
  {
    if name in em.registered then em.registered[name] else []
  }

  /** What `invoke` does: reject before any listener runs, or hand the one
      listener to `asyncApply` with the caller's last argument as `done`.
      `Applied`: `delivered` is what that callback is then called with.
      `Spread`: the last argument is an array and the listener wants a
      callback, so `args.concat(done)` spreads the array's elements into the
      listener's arguments (eventflow.js:55); the listener is called with
      `received` and is handed no callback of the caller's. */
  datatype InvokeResult =
    | Rejected(error: Error)
    | Applied(dispatch: Dispatch, delivered: Reply)
    | Spread(received: seq<Value>)

  /** A call of `invoke`: the value it reports to (the popped last argument)
      and what happens. */
  datatype Invocation = Invocation(callback: Value, result: InvokeResult)

  /** `emitter.invoke(name, ...args, callback)` (eventflow.js:28-44). */
  function Invoke(em: Emitter, raw: seq<Value>): (r: Invocation)
    ensures r.callback == Split(raw).callback
    ensures |ListenersOf(em, Split(raw).name)| == 0 <==> r.result == Rejected(NoListeners(Split(raw).name))
    ensures |ListenersOf(em, Split(raw).name)| > 1 <==>
      r.result == Rejected(TooMany(Split(raw).name, |ListenersOf(em, Split(raw).name)|))
    ensures |ListenersOf(em, Split(raw).name)| == 1 <==> r.result.Applied? || r.result.Spread?
    ensures r.result.Spread? <==>
      && |ListenersOf(em, Split(raw).name)| == 1
      && Split(raw).callback.Array?
      && |Split(raw).args| < ListenersOf(em, Split(raw).name)[0].arity
    ensures r.result.Spread? ==> r.result.received == Split(raw).args + Split(raw).callback.items
    ensures r.result.Applied? ==>
      var l := ListenersOf(em, Split(raw).name)[0];
      var args := Split(raw).args;
      && r.result.dispatch == AsyncApply(l, Array(args))
      && r.result.delivered == Delivered(l, Array(args))
      && (l.arity <= |args| ==> r.result.delivered == Reply(Null, l.body(args)))
      && (|args| < l.arity ==> r.result.delivered == l.reply(args))
  {
    var parts := Split(raw);
    var ls := ListenersOf(em, parts.name);
    if |ls| == 0 then Invocation(parts.callback, Rejected(NoListeners(parts.name)))
    else if |ls| > 1 then Invocation(parts.callback, Rejected(TooMany(parts.name, |ls|)))
    else if |parts.args| < ls[0].arity && parts.callback.Array? then
      Invocation(parts.callback, Spread(parts.args + parts.callback.items))
    else Invocation(parts.callback, Applied(AsyncApply(ls[0], Array(parts.args)), Delivered(ls[0], Array(parts.args))))
  }

  /** What one of the three attached control-flow methods hands to the
      async library: its task list, and the callback it is to report to. */
  datatype FlowCall = FlowCall(callback: Value, tasks: seq<Task>)

  /** `emitter[method](name, ...args, callback)` (eventflow.js:15-23) up to
      the hand-off `async[method](tasks, callback)`. */
  function Attach(policy: Policy, em: Emitter, raw: seq<Value>): (f: FlowCall)
    ensures f.callback == Split(raw).callback
    ensures ListenersOfTasks(f.tasks) == ListenersOf(em, Split(raw).name)
    ensures policy != Waterfall ==> AllBound(f.tasks)
    ensures policy == Waterfall ==> ChainShaped(f.tasks)
    ensures forall i :: 0 <= i < |f.tasks| && f.tasks[i].input.Bound? ==> f.tasks[i].input.args == Split(raw).args
  {
    var parts := Split(raw);
    FlowCall(parts.callback, MapHandlers(policy, ListenersOf(em, parts.name), parts.args))
  }

  /** A finished flow: what reaches the callback, and the dispatches made,
      one per listener that ran, in the order they ran. */
  datatype Run = Run(outcome: Outcome, trace: seq<Dispatch>)

  /** The call a bound task makes on its listener. */
  function Started(t: Task): Dispatch
    requires t.input.Bound?
  {
    AsyncApply(t.listener, Array(t.input.args))
  }

  /** What a bound task reports when run on its own. */
  function BoundOutcome(t: Task): Outcome
    requires t.input.Bound?
  {
    Settle(t.listener, Array(t.input.args))
  }

  /** How a series of reports ends: the outcome, and how many listeners
      ran to produce it. */
  datatype Tally = Tally(outcome: Outcome, ran: nat)

  /** Folds listener reports in order: the first error ends the fold,
      otherwise the values are collected in order. */
  function Collect(outs: seq<Outcome>): (t: Tally)
    ensures t.ran <= |outs|
    ensures t.outcome.Ok? ==> t.outcome.value.Array? && |t.outcome.value.items| == |outs| == t.ran
    ensures t.outcome.Err? ==> 0 < t.ran && outs[t.ran - 1] == t.outcome
    decreases |outs|
  {
    if outs == [] then Tally(Ok(Array([])), 0)
    else
      match outs[0]
      case Err(e) => Tally(Err(e), 1)
      case Ok(v) =>
        var rest := Collect(outs[1..]);
        match rest.outcome
        case Err(e) => Tally(Err(e), rest.ran + 1)
        case Ok(vs) => Tally(Ok(Array([v] + vs.items)), rest.ran + 1)
  }

  /** The fold succeeds exactly when every report is a value, and then
      holds those values in order. */
  lemma {:induction false} CollectSucceedsIffAllOk(outs: seq<Outcome>)
    ensures Collect(outs).outcome.Ok? <==> forall i :: 0 <= i < |outs| ==> outs[i].Ok?
    ensures Collect(outs).outcome.Ok? ==> forall i :: 0 <= i < |outs| ==> Collect(outs).outcome.value.items[i] == outs[i].value
    decreases |outs|
  {
    if outs != [] {
      CollectSucceedsIffAllOk(outs[1..]);
      assert forall i :: 1 <= i < |outs| ==> outs[i] == outs[1..][i - 1];
    }
  }

  /** When report k is the first error, the fold ends with it after k + 1
      reports. */
  lemma {:induction false} CollectStopsAtFirstErr(outs: seq<Outcome>, k: nat)
    requires k < |outs| && outs[k].Err?
    requires forall i :: 0 <= i < k ==> outs[i].Ok?
    ensures Collect(outs) == Tally(outs[k], k + 1)
    decreases k
  {
    if k > 0 {
      assert forall i :: 0 <= i < k - 1 ==> outs[1..][i] == outs[i + 1];
      CollectStopsAtFirstErr(outs[1..], k - 1);
    }
  }

  /** The reports of a bound task list, in task order. */
  function BoundOutcomes(tasks: seq<Task>): (outs: seq<Outcome>)
    requires AllBound(tasks)
    ensures |outs| == |tasks|
    ensures forall i :: 0 <= i < |tasks| ==> outs[i] == BoundOutcome(tasks[i])
  {
    seq(|tasks|, i requires 0 <= i < |tasks| => BoundOutcome(tasks[i]))
  }

  /** Reference semantics of `async.series` over bound tasks: run them one
      after another; the first error ends the flow; otherwise report the
      list of values in task order. */
  function RunSeries(tasks: seq<Task>): (r: Run)
    requires AllBound(tasks)
    ensures |r.trace| <= |tasks|
    ensures forall i :: 0 <= i < |r.trace| ==> r.trace[i] == Started(tasks[i])
    ensures r.outcome.Ok? ==> r.outcome.value.Array? && |r.outcome.value.items| == |tasks| == |r.trace|
    ensures r.outcome.Err? ==> 0 < |r.trace| && BoundOutcome(tasks[|r.trace| - 1]) == r.outcome
  {
    var t := Collect(BoundOutcomes(tasks));
    Run(t.outcome, seq(t.ran, i requires 0 <= i < t.ran <= |tasks| => Started(tasks[i])))
  }

  /** The series flow succeeds exactly when every listener reports a value,
      and then reports those values in listener order. */
  lemma SeriesSucceedsIffAllSucceed(tasks: seq<Task>)
    requires AllBound(tasks)
    ensures RunSeries(tasks).outcome.Ok? <==> forall i :: 0 <= i < |tasks| ==> BoundOutcome(tasks[i]).Ok?
    ensures RunSeries(tasks).outcome.Ok? ==>
      forall i :: 0 <= i < |tasks| ==> RunSeries(tasks).outcome.value.items[i] == BoundOutcome(tasks[i]).value
  {
    CollectSucceedsIffAllOk(BoundOutcomes(tasks));
  }

  /** When listener k is the first to report an error, the series flow
      reports that error and runs nothing after listener k. */
  lemma SeriesStopsAtFirstError(tasks: seq<Task>, k: nat)
    requires AllBound(tasks)
    requires k < |tasks| && BoundOutcome(tasks[k]).Err?
    requires forall i :: 0 <= i < k ==> BoundOutcome(tasks[i]).Ok?
    ensures RunSeries(tasks).outcome == BoundOutcome(tasks[k])
    ensures |RunSeries(tasks).trace| == k + 1
  {
    CollectStopsAtFirstErr(BoundOutcomes(tasks), k);
  }

  /** One step of a chain: the call made on a listener, and what the
      listener reports. */
  datatype Step = Step(dispatch: Dispatch, outcome: Outcome)

  /** Runs a chain of listeners, given how each responds to an argument
      slot: each gets the previous value; the first error ends the chain;
      otherwise the last value is reported. It calls its listeners in order,
      at most one call each, the first on the initial input, and a
      successful chain calls every listener. */
  function Chain(ls: seq<Listener>, respond: (Listener, Value) -> Step, input: Value): (r: Run)
    ensures |r.trace| <= |ls|
    ensures 0 < |ls| ==> 0 < |r.trace| && r.trace[0] == respond(ls[0], input).dispatch
    ensures r.outcome.Ok? && 0 < |ls| ==> |r.trace| == |ls|
    decreases |ls|
  {
    if ls == [] then Run(Ok(input), [])
    else
      var first := respond(ls[0], input);
      match first.outcome
      case Err(e) => Run(Err(e), [first.dispatch])
      case Ok(v) =>
        var rest := Chain(ls[1..], respond, v);
        Run(rest.outcome, [first.dispatch] + rest.trace)
  }

  /** A chain over two lists in turn is the chain over their concatenation. */
  lemma {:induction false} ChainAppend(ls1: seq<Listener>, ls2: seq<Listener>, respond: (Listener, Value) -> Step, input: Value)
    ensures Chain(ls1, respond, input).outcome.Err? ==> Chain(ls1 + ls2, respond, input) == Chain(ls1, respond, input)
    ensures Chain(ls1, respond, input).outcome.Ok? ==>
      var v := Chain(ls1, respond, input).outcome.value;
      Chain(ls1 + ls2, respond, input) == Run(Chain(ls2, respond, v).outcome, Chain(ls1, respond, input).trace + Chain(ls2, respond, v).trace)
    decreases |ls1|
  {
    if ls1 == [] {
      assert ls1 + ls2 == ls2;
    } else {
      var all := ls1 + ls2;
      assert all[0] == ls1[0];
      assert all[1..] == ls1[1..] + ls2;
      var first := respond(ls1[0], input);
      if first.outcome.Ok? {
        var v := first.outcome.value;
        ChainAppend(ls1[1..], ls2, respond, v);
        var tail := Chain(ls1[1..], respond, v);
        if tail.outcome.Ok? {
          var rest := Chain(ls2, respond, tail.outcome.value);
          assert [first.dispatch] + (tail.trace + rest.trace) == ([first.dispatch] + tail.trace) + rest.trace;
        }
      }
    }
  }

  /** How a listener responds when its task runs: `asyncApply`'s call, and
      how the flow reads the call of `done` that follows. */
  function Respond(l: Listener, input: Value): Step
  {
    Step(AsyncApply(l, input), Settle(l, input))
  }

  /** Reference semantics of a waterfall's chain of listeners. */
  function Pipe(ls: seq<Listener>, input: Value): (r: Run)
    ensures |r.trace| <= |ls|
    ensures 0 < |ls| ==> 0 < |r.trace| && r.trace[0] == AsyncApply(ls[0], input)
    ensures r.outcome.Ok? && 0 < |ls| ==> |r.trace| == |ls|
    ensures ls == [] ==> r.outcome == Ok(input)
  {
    Chain(ls, Respond, input)
  }

  /** Reference semantics of `async.waterfall` over the tasks `mapHandlers`
      builds: the first listener gets the caller's arguments, every later one
      the previous value; no listener at all reports no value. */
  function RunWaterfall(tasks: seq<Task>): (r: Run)
    requires ChainShaped(tasks)
    ensures tasks == [] ==> r.outcome == Ok(Undefined) && r.trace == []
    ensures tasks != [] ==> 0 < |r.trace| && r.trace[0] == Started(tasks[0])
    ensures |r.trace| <= |tasks|
    ensures r.outcome.Ok? ==> |r.trace| == |tasks|
  {
    if tasks == [] then Run(Ok(Undefined), [])
    else Pipe(ListenersOfTasks(tasks), Array(tasks[0].input.args))
  }

  /** A waterfall chain over two lists in turn is the chain over their
      concatenation: the second list starts from the first one's value,
      and an error in the first list skips the second entirely. */
  lemma PipeAppend(ls1: seq<Listener>, ls2: seq<Listener>, input: Value)
    ensures Pipe(ls1, input).outcome.Err? ==> Pipe(ls1 + ls2, input) == Pipe(ls1, input)
    ensures Pipe(ls1, input).outcome.Ok? ==>
      var v := Pipe(ls1, input).outcome.value;
      Pipe(ls1 + ls2, input) == Run(Pipe(ls2, v).outcome, Pipe(ls1, input).trace + Pipe(ls2, v).trace)
  {
    ChainAppend(ls1, ls2, Respond, input);
  }

  /** Every step after the first is called with exactly the value the
      steps before it produced. */
  lemma WaterfallFeedsForward(ls: seq<Listener>, input: Value, i: nat)
    requires i + 1 < |ls|
    requires Pipe(ls[..i + 1], input).outcome.Ok?
    ensures i + 1 < |Pipe(ls, input).trace|
    ensures Pipe(ls, input).trace[i + 1] == AsyncApply(ls[i + 1], Pipe(ls[..i + 1], input).outcome.value)
  {
    assert ls == ls[..i + 1] + ls[i + 1..];
    PipeAppend(ls[..i + 1], ls[i + 1..], input);
  }

  /** When step k is the first to report an error, the waterfall reports
      that error and calls nothing after step k. */
  lemma WaterfallStopsAtFirstError(ls: seq<Listener>, input: Value, k: nat)
    requires k < |ls|
    requires Pipe(ls[..k], input).outcome.Ok?
    requires Settle(ls[k], Pipe(ls[..k], input).outcome.value).Err?
    ensures Pipe(ls, input).outcome == Settle(ls[k], Pipe(ls[..k], input).outcome.value)
    ensures |Pipe(ls, input).trace| == k + 1
  {
    var v := Pipe(ls[..k], input).outcome.value;
    assert ls == ls[..k] + ls[k..];
    PipeAppend(ls[..k], ls[k..], input);
    assert ls[k..] == [ls[k]] + ls[k + 1..];
    PipeAppend([ls[k]], ls[k + 1..], v);
    assert |Pipe(ls[..k], input).trace| == k;
  }

  /** Waterfall steps after the first see only the previous value: two
      calls whose first listener reports the same value end alike whatever
      arguments the callers supplied. */
  lemma WaterfallForgetsCallerArgs(ls: seq<Listener>, a1: seq<Value>, a2: seq<Value>)
    requires 0 < |ls|
    requires Settle(ls[0], Array(a1)) == Settle(ls[0], Array(a2))
    ensures RunWaterfall(MapHandlers(Waterfall, ls, a1)).outcome == RunWaterfall(MapHandlers(Waterfall, ls, a2)).outcome
  {
  }

  /** A finished call of an attached method: the callback it reported to,
      and the run. */
  datatype FlowResult = FlowResult(callback: Value, run: Run)

  /** `series(name, ...args, callback)` with the reference semantics. */
  function SeriesCall(em: Emitter, raw: seq<Value>): (r: FlowResult)
    ensures r.callback == Split(raw).callback
    ensures r.run == RunSeries(MapHandlers(Series, ListenersOf(em, Split(raw).name), Split(raw).args))
    ensures |r.run.trace| <= |ListenersOf(em, Split(raw).name)|
    ensures forall i :: 0 <= i < |r.run.trace| ==>
      r.run.trace[i] == AsyncApply(ListenersOf(em, Split(raw).name)[i], Array(Split(raw).args))
  {
    var f := Attach(Series, em, raw);
    assert forall i :: 0 <= i < |f.tasks| ==> f.tasks[i].listener == ListenersOfTasks(f.tasks)[i];
    FlowResult(f.callback, RunSeries(f.tasks))
  }

  /** `waterfall(name, ...args, callback)` with the reference semantics. */
  function WaterfallCall(em: Emitter, raw: seq<Value>): (r: FlowResult)
    ensures r.callback == Split(raw).callback
    ensures |ListenersOf(em, Split(raw).name)| == 0 ==> r.run.outcome == Ok(Undefined)
    ensures 0 < |ListenersOf(em, Split(raw).name)| ==>
      r.run == Pipe(ListenersOf(em, Split(raw).name), Array(Split(raw).args))
  {
    var f := Attach(Waterfall, em, raw);
    FlowResult(f.callback, RunWaterfall(f.tasks))
  }

  /** With exactly one listener, `invoke`, `series` and `waterfall` make the
      same call on it. `invoke` hands its caller the callback arguments as
      they are; `waterfall` reports their reading, and `series` reports the
      value wrapped in a one-element list or the raised error. */
  lemma SingleListenerFlowsAgree(em: Emitter, raw: seq<Value>)
    requires |ListenersOf(em, Split(raw).name)| == 1
    ensures 0 < |SeriesCall(em, raw).run.trace|
    ensures Invoke(em, raw).result.Spread? <==>
      Split(raw).callback.Array? && SeriesCall(em, raw).run.trace[0].CallbackCall?
    ensures Invoke(em, raw).result.Applied? <==> !Invoke(em, raw).result.Spread?
    ensures Invoke(em, raw).result.Applied? ==> SeriesCall(em, raw).run.trace == [Invoke(em, raw).result.dispatch]
    ensures Invoke(em, raw).result.Applied? ==>
      var d := Invoke(em, raw).result.delivered;
      && WaterfallCall(em, raw).run.outcome == Report(d.err, d.value)
      && (!Truthy(d.err) <==> SeriesCall(em, raw).run.outcome.Ok?)
      && (!Truthy(d.err) ==> SeriesCall(em, raw).run.outcome == Ok(Array([d.value])))
      && (Truthy(d.err) ==> SeriesCall(em, raw).run.outcome == Err(Raised(d.err)))
  {
    var parts := Split(raw);
    var l := ListenersOf(em, parts.name)[0];
    var tasks := Attach(Series, em, raw).tasks;
    assert tasks == [Task(l, Bound(parts.args))];
    assert tasks[1..] == [];
    var wtasks := Attach(Waterfall, em, raw).tasks;
    assert ListenersOfTasks(wtasks) == [l];
    assert [l][1..] == [];
    match Settle(l, Array(parts.args))
    case Err(_) =>
    case Ok(v) => assert Pipe([l][1..], v).outcome == Ok(v);
  }
}

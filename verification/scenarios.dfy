/**
 The situations the repository's tests set up (test/basic.js,
 test/return.js), replayed against the model: listeners written as the
 tests write them, and what the model says reaches the callback.
 */
module Scenarios {
  import opened Values
  import opened Invoker
  import opened Handlers
  import opened Arguments
  import opened Flow

  /** The i-th argument, or `undefined` when there are fewer. */
  function Nth(args: seq<Value>, i: nat): Value
  {
    if i < |args| then args[i] else Undefined
  }

  /** JavaScript `a + k` on a number; any other operand is out of scope. */
  function AddNum(a: Value, k: int): Value
  {
    if a.Num? then Num(a.n + k) else Undefined
  }

  /** JavaScript `a * k` on a number. */
  function MulNum(a: Value, k: int): Value
  {
    if a.Num? then Num(a.n * k) else Undefined
  }

  /** A listener declaring `arity` parameters that returns `f(args)`. */
  function Returning(arity: nat, f: seq<Value> -> Value): Listener
  {
    Listener(arity, f, _ => Reply(Undefined, Undefined))
  }

  /** A listener declaring `arity` parameters, the last its callback, that
      calls that callback with `f(args)`. */
  function Reporting(arity: nat, f: seq<Value> -> Reply): Listener
  {
    Listener(arity, _ => Undefined, f)
  }

  /** An emitter with listeners `ls` registered for `name` only. */
  function With(name: string, ls: seq<Listener>): Emitter
  {
    Emitter(map[Str(name) := ls])
  }

  const cb: Value := Fn(0)

  /** test/basic.js:383-395: +1, then *5 through a callback, then -3. */
  const arithmetic: seq<Listener> :=
    [Returning(1, a => AddNum(Nth(a, 0), 1)),
     Reporting(2, a => Reply(Null, MulNum(Nth(a, 0), 5))),
     Returning(1, a => AddNum(Nth(a, 0), -3))]

  /** test/basic.js:422-430: the middle step reports an error. */
  const failingChain: seq<Listener> :=
    [Returning(1, a => AddNum(Nth(a, 0), 1)),
     Reporting(2, _ => Reply(Str("oh no!"), Undefined)),
     Returning(1, a => AddNum(Nth(a, 0), -3))]

  /** test/basic.js:109-120: callback and synchronous listeners mixed. */
  const fruit: seq<Listener> :=
    [Reporting(1, _ => Reply(Null, Str("apple"))),
     Returning(0, _ => Str("orange")),
     Reporting(1, _ => Reply(Null, Str("grape"))),
     Returning(0, _ => Str("lime"))]

  /** test/basic.js:132-143: the second and third listeners report errors. */
  const drinks: seq<Listener> :=
    [Returning(0, _ => Undefined),
     Reporting(1, _ => Reply(Str("oh no! first"), Undefined)),
     Reporting(1, _ => Reply(Str("oh no!"), Undefined)),
     Returning(0, _ => Undefined)]

  /** test/basic.js:61-70: two parameters, then two plus a callback. */
  const pairs: seq<Listener> :=
    [Returning(2, _ => Undefined), Reporting(3, _ => Reply(Undefined, Undefined))]

  /** A callback-style listener calling back with a falsy error and a value. */
  const zeroFive: Listener := Reporting(1, _ => Reply(Num(0), Num(5)))

  /** test/basic.js:311-313: a synchronous adder. */
  const adder: Listener :=
    Returning(2, a => if Nth(a, 0).Num? && Nth(a, 1).Num? then Num(Nth(a, 0).n + Nth(a, 1).n) else Undefined)

  /** test/basic.js:322-324: a callback-style subtractor. */
  const subtractor: Listener :=
    Reporting(3, a => Reply(Null, if Nth(a, 0).Num? && Nth(a, 1).Num? then Num(Nth(a, 0).n - Nth(a, 1).n) else Undefined))

  /** test/basic.js:383-400: starting from 0, the chain ends at 2 after
      calling all three listeners. */
  lemma WaterfallComposesInOrder()
    ensures WaterfallCall(With("foo", arithmetic), [Str("foo"), Num(0), cb]).run.outcome == Ok(Num(2))
    ensures |WaterfallCall(With("foo", arithmetic), [Str("foo"), Num(0), cb]).run.trace| == 3
  {
  }

  /** What the first two steps of the failing chain do when called. */
  lemma FailingSteps()
    ensures Respond(failingChain[0], Array([Num(0)])) == Step(SyncCall([Num(0)], Reply(Null, Num(1))), Ok(Num(1)))
    ensures Respond(failingChain[1], Num(1)) == Step(CallbackCall([Val(Num(1)), Done]), Err(Raised(Str("oh no!"))))
  {
  }

  /** test/basic.js:421-436: an error from the middle step reaches the
      callback with no value, and the third step never runs. */
  lemma WaterfallErrorStopsChain()
    ensures WaterfallCall(With("drink", failingChain), [Str("drink"), Num(0), cb]).run
      == Run(Err(Raised(Str("oh no!"))), [SyncCall([Num(0)], Reply(Null, Num(1))), CallbackCall([Val(Num(1)), Done])])
  {
    var ls := failingChain;
    assert Split([Str("drink"), Num(0), cb]).args == [Num(0)];
    assert WaterfallCall(With("drink", ls), [Str("drink"), Num(0), cb]).run == Pipe(ls, Array([Num(0)]));
    FailingSteps();
    assert Chain(ls[1..], Respond, Num(1)) == Run(Err(Raised(Str("oh no!"))), [CallbackCall([Val(Num(1)), Done])]);
  }

  /** What each fruit listener reports when its task runs. */
  lemma FruitReports()
    ensures BoundOutcomes(MapHandlers(Series, fruit, []))
      == [Ok(Str("apple")), Ok(Str("orange")), Ok(Str("grape")), Ok(Str("lime"))]
  {
  }

  /** test/basic.js:108-129: the values come back in registration order. */
  lemma SeriesCollectsInOrder()
    ensures SeriesCall(With("fruit", fruit), [Str("fruit"), cb]).run.outcome
      == Ok(Array([Str("apple"), Str("orange"), Str("grape"), Str("lime")]))
  {
    var raw := [Str("fruit"), cb];
    assert Split(raw) == CallParts(Str("fruit"), [], cb);
    var tasks := MapHandlers(Series, fruit, []);
    assert SeriesCall(With("fruit", fruit), raw).run == RunSeries(tasks);
    var outs := [Ok(Str("apple")), Ok(Str("orange")), Ok(Str("grape")), Ok(Str("lime"))];
    FruitReports();
    CollectSucceedsIffAllOk(outs);
    var items := Collect(outs).outcome.value.items;
    assert items == [Str("apple"), Str("orange"), Str("grape"), Str("lime")];
  }

  /** test/basic.js:131-156: the first reported error ends the series; the
      listener after it never runs. */
  lemma SeriesStopsAtFirstReportedError()
    ensures SeriesCall(With("drink", drinks), [Str("drink"), cb]).run.outcome == Err(Raised(Str("oh no! first")))
    ensures |SeriesCall(With("drink", drinks), [Str("drink"), cb]).run.trace| == 2
  {
    var raw := [Str("drink"), cb];
    assert Split(raw) == CallParts(Str("drink"), [], cb);
    var tasks := MapHandlers(Series, drinks, []);
    assert SeriesCall(With("drink", drinks), raw).run == RunSeries(tasks);
    assert forall i :: 0 <= i < 4 ==> tasks[i] == Task(drinks[i], Bound([]));
    SeriesStopsAtFirstError(tasks, 1);
  }

  /** test/basic.js:60-106: every listener of a series gets the caller's
      arguments; a callback-style one gets `done` after them. */
  lemma SeriesForwardsArguments()
    ensures
      var run := SeriesCall(With("bar", pairs), [Str("bar"), Str("foo"), Str("baz"), cb]).run;
      && run.trace[0] == SyncCall([Str("foo"), Str("baz")], Reply(Null, Undefined))
      && run.trace[1] == CallbackCall([Val(Str("foo")), Val(Str("baz")), Done])
  {
  }

  /** test/basic.js:236-254: `invoke` rejects no listener and two listeners. */
  lemma InvokeRejectsWrongCardinality()
    ensures Invoke(With("other", []), [Str("timestamp"), cb]).result == Rejected(NoListeners(Str("timestamp")))
    ensures Invoke(With("timestamp", [adder, adder]), [Str("timestamp"), cb]).result
      == Rejected(TooMany(Str("timestamp"), 2))
  {
  }

  /** test/basic.js:310-330: arguments are forwarded positionally to the one
      listener, synchronous or callback-style. */
  lemma InvokeForwardsArguments()
    ensures Invoke(With("add", [adder]), [Str("add"), Num(1), Num(2), cb]).result.Applied?
    ensures Invoke(With("add", [adder]), [Str("add"), Num(1), Num(2), cb]).result.delivered == Reply(Null, Num(3))
    ensures Invoke(With("subtract", [subtractor]), [Str("subtract"), Num(3), Num(2), cb]).result.Applied?
    ensures Invoke(With("subtract", [subtractor]), [Str("subtract"), Num(3), Num(2), cb]).result.delivered == Reply(Null, Num(1))
  {
    assert Split([Str("add"), Num(1), Num(2), cb]) == CallParts(Str("add"), [Num(1), Num(2)], cb);
    assert Split([Str("subtract"), Num(3), Num(2), cb]) == CallParts(Str("subtract"), [Num(3), Num(2)], cb);
  }

  /** test/basic.js:158-172 expects a returned `Error` to fail the series;
      eventflow.js:52 reports every synchronous return with a null error, so
      the series succeeds with the `Error` object as a value. */
  lemma ReturnedErrorIsAValue()
    ensures SeriesCall(With("eat", [Returning(0, _ => ErrorObject("I am full"))]), [Str("eat"), cb]).run.outcome
      == Ok(Array([ErrorObject("I am full")]))
  {
  }

  /** test/basic.js:370-379 expects `invoke('sync')` to return the value;
      eventflow.js:32 pops a callback whether or not one was passed, so with
      a name alone the report is addressed to `undefined` (which JavaScript
      refuses to call) instead of being returned. */
  lemma InvokeWithoutCallbackHasNoCallback()
    ensures Invoke(With("sync", [Returning(0, _ => Str("isSync"))]), [Str("sync")]).callback == Undefined
    ensures Invoke(With("sync", [Returning(0, _ => Str("isSync"))]), [Str("sync")]).result.Applied?
    ensures Invoke(With("sync", [Returning(0, _ => Str("isSync"))]), [Str("sync")]).result.delivered
      == Reply(Null, Str("isSync"))
  {
  }

  /** eventflow.js:42 and 55 hand `invoke`'s callback to the listener as its
      `done`, so the caller receives `(0, 5)` exactly as passed, while a
      series reads the falsy `0` as no error. */
  lemma InvokePassesReplyUnread()
    ensures Invoke(With("e", [zeroFive]), [Str("e"), cb]).result.Applied?
    ensures Invoke(With("e", [zeroFive]), [Str("e"), cb]).result.delivered == Reply(Num(0), Num(5))
    ensures SeriesCall(With("e", [zeroFive]), [Str("e"), cb]).run.outcome == Ok(Array([Num(5)]))
  {
  }

  /** `invoke('x', [1, 2])` on a listener `function (cb) { ... }`: the
      popped array is spread by `args.concat(done)` (eventflow.js:55), so the
      listener is called with (1, 2) and `cb` is 1. */
  lemma InvokeSpreadsArrayCallback()
    ensures Invoke(With("x", [Reporting(1, _ => Reply(Null, Num(7)))]), [Str("x"), Array([Num(1), Num(2)])]).result
      == Spread([Num(1), Num(2)])
  {
  }
}

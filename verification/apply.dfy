/**
 The listener invoker `asyncApply` (eventflow.js:49-57): how a listener is
 called, decided by comparing its declared arity with the number of
 arguments, what the completion callback is called with, and how a flow
 reads that call.
 */
module Invoker {
  import opened Values

  /** The arguments a callback-style listener calls its callback with:
      `cb(err, value)`, missing ones being `undefined`. */
  datatype Reply = Reply(err: Value, value: Value)

  /** A registered listener. `arity` is its declared parameter count
      (`fn.length`). Called without a completion callback it returns
      `body(args)`; called with one, it calls that callback with
      `reply(args)`, where `args` are the arguments before the callback. A
      callback-style listener is taken to report at once and exactly once. */
  datatype Listener = Listener(arity: nat, body: seq<Value> -> Value, reply: seq<Value> -> Reply)

  /** How `asyncApply` called a listener.
      `SyncCall`: the listener got exactly `args`, and the invoker itself
      then called `done` with `result`.
      `CallbackCall`: the listener got `received`, which ends in `done`,
      and reporting is left to the listener. */
  datatype Dispatch =
    | SyncCall(args: seq<Value>, result: Reply)
    | CallbackCall(received: seq<Arg>)

  /** A listener is called synchronously when it declares no more
      parameters than there are arguments (eventflow.js:51). */
  predicate IsSync(l: Listener, args: seq<Value>)
  {
    l.arity <= |args|
  }

  /** `asyncApply(thisArg, fn, input, done)`: the call made on the listener
      and, in the synchronous branch, the report made on its behalf. */
  function AsyncApply(l: Listener, input: Value): (d: Dispatch)
    ensures d.SyncCall? <==> l.arity <= |Normalize(input)|
    ensures d.SyncCall? ==> d.args == Normalize(input) && d.result == Reply(Null, l.body(Normalize(input)))
    ensures d.CallbackCall? ==> |d.received| == |Normalize(input)| + 1 && d.received[|Normalize(input)|] == Done
  {
    var args := Normalize(input);
    if IsSync(l, args) then SyncCall(args, Reply(Null, l.body(args)))
    else CallbackCall(AsArgs(args) + [Done])
  }

  /** The arguments `done` is called with once the listener has run: the
      invoker's own `(null, return value)`, or exactly what a callback-style
      listener passes, since `done` is handed to it unwrapped. */
  function Delivered(l: Listener, input: Value): (r: Reply)
    ensures AsyncApply(l, input).SyncCall? ==> r == AsyncApply(l, input).result && r.err == Null
    ensures IsSync(l, Normalize(input)) ==> r.value == l.body(Normalize(input))
    ensures !IsSync(l, Normalize(input)) ==> r == l.reply(Normalize(input))
  {
    match AsyncApply(l, input)
    case SyncCall(_, result) => result
    case CallbackCall(_) => l.reply(Normalize(input))
  }

  /** How a flow that tests `if (err)` reads the call of `done`. */
  function Settle(l: Listener, input: Value): (o: Outcome)
    ensures IsSync(l, Normalize(input)) ==> o == Ok(l.body(Normalize(input)))
    ensures !IsSync(l, Normalize(input)) ==> (o.Err? <==> Truthy(l.reply(Normalize(input)).err))
    ensures !IsSync(l, Normalize(input)) && o.Ok? ==> o.value == l.reply(Normalize(input)).value
  {
    var d := Delivered(l, input);
    Report(d.err, d.value)
  }

  /** The values a listener's declared parameters are bound to, given the
      actual arguments: positionally, `undefined` where arguments run out. */
  function Parameters(arity: nat, received: seq<Arg>): (ps: seq<Arg>)
    ensures |ps| == arity
    ensures forall j :: 0 <= j < arity && j < |received| ==> ps[j] == received[j]
    ensures forall j :: |received| <= j < arity ==> ps[j] == Val(Undefined)
  {
    seq(arity, j requires 0 <= j < arity => if j < |received| then received[j] else Val(Undefined))
  }

  /** Synchronous dispatch: the listener gets exactly the arguments, none
      of its parameters is the callback, and the report has a null error
      and the listener's return value. */
  lemma SyncDispatch(l: Listener, input: Value)
    requires l.arity <= |Normalize(input)|
    ensures AsyncApply(l, input).SyncCall?
    ensures AsyncApply(l, input).args == Normalize(input)
    ensures Done !in Parameters(l.arity, AsArgs(AsyncApply(l, input).args))
    ensures AsyncApply(l, input).result == Delivered(l, input)
    ensures Settle(l, input).Ok? && Settle(l, input).value == l.body(Normalize(input))
  {
  }

  /** Callback dispatch: the listener receives the arguments with `done`
      appended once, and its parameter at position |args| is `done`
      however many further parameters it declares. */
  lemma CallbackDispatch(l: Listener, input: Value)
    requires |Normalize(input)| < l.arity
    ensures AsyncApply(l, input).CallbackCall?
    ensures |AsyncApply(l, input).received| == |Normalize(input)| + 1
    ensures forall i :: 0 <= i < |Normalize(input)| ==> AsyncApply(l, input).received[i] == Val(Normalize(input)[i])
    ensures AsyncApply(l, input).received[|Normalize(input)|] == Done
    ensures Parameters(l.arity, AsyncApply(l, input).received)[|Normalize(input)|] == Done
    ensures multiset(AsyncApply(l, input).received)[Done] == 1
    ensures Delivered(l, input) == l.reply(Normalize(input))
    ensures Settle(l, input) == Report(l.reply(Normalize(input)).err, l.reply(Normalize(input)).value)
  {
  }

  /** A listener that declares no parameter is always called synchronously. */
  lemma NullaryIsSync(l: Listener, input: Value)
    requires l.arity == 0
    ensures AsyncApply(l, input).SyncCall?
  {
  }
}

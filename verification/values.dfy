/**
 The JavaScript values that flow between an emitter's caller and its
 listeners, how a flow reads a callback call, and the
 normalisation `asyncApply` applies to its argument slot.
 */
module Values {

  /** A JavaScript value as the event flow sees it. `ErrorObject` is an
      `Error` instance; `Fn` is a function value supplied by a caller (a
      completion callback, say), known only by an opaque identity. */
  datatype Value =
    | Undefined
    | Null
    | Bool(b: bool)
    | Num(n: int)
    | Str(s: string)
    | ErrorObject(message: string)
    | Array(items: seq<Value>)
    | Fn(id: nat)

  /** One actual argument a listener receives: an ordinary value, or the
      completion callback `done` that the invoker appended. */
  datatype Arg = Val(v: Value) | Done

  /** JavaScript truthiness, the test a flow applies to a callback's error
      argument (`if (err)`): `undefined`, `null`, `false`, `0` and `''` are
      falsy, every other value is truthy. */
  predicate Truthy(v: Value)
  {
    match v
    case Undefined => false
    case Null => false
    case Bool(b) => b
    case Num(n) => n != 0
    case Str(s) => s != ""
    case _ => true
  }

  /** An error argument that ends a flow: only a truthy one does. */
  type Reason = v: Value | Truthy(v) witness Bool(true)

  /** Why a flow or an invocation failed. `Raised` carries the truthy error
      argument a listener passed to its callback; the other two are the
      errors `invoke` synthesises. */
  datatype Error =
    | Raised(reason: Reason)
    | NoListeners(event: Value)
    | TooMany(event: Value, count: nat)

  /** How a flow reads a callback call: a value passed on, or an error. */
  datatype Outcome = Ok(value: Value) | Err(error: Error)

  /** What a call `done(err, value)` means to the flow receiving it: a
      truthy `err` is an error, anything else passes `value` on. */
  function Report(err: Value, value: Value): (o: Outcome)
    ensures o.Err? <==> Truthy(err)
    ensures o.Err? ==> o.error == Raised(err)
    ensures o.Ok? ==> o.value == value
  {
    if Truthy(err) then Err(Raised(err)) else Ok(value)
  }

  /** Every outcome a listener can report is the meaning of some callback
      call: a value is `done(null, value)`, a raised error is `done(err)`;
      and a falsy error argument such as `0` or `''` never fails a flow. */
  lemma ReportCoversOutcomes(o: Outcome, err: Value, value: Value)
    ensures o.Ok? ==> Report(Null, o.value) == o
    ensures o.Err? && o.error.Raised? ==> Report(o.error.reason, value) == o
    ensures !Truthy(err) ==> Report(err, value) == Ok(value)
  {
  }

  /** The argument list `asyncApply` works with: an array is used as is,
      any other value becomes a one-element list (eventflow.js:50). */
  function Normalize(input: Value): (args: seq<Value>)
    ensures input.Array? ==> Array(args) == input
    ensures !input.Array? ==> args == [input]
  {
    if input.Array? then input.items else [input]
  }

  /** Lifts a list of values to the argument list a listener receives. */
  function AsArgs(xs: seq<Value>): (r: seq<Arg>)
    ensures |r| == |xs|
    ensures forall i :: 0 <= i < |xs| ==> r[i] == Val(xs[i])
    ensures Done !in r
  {
    seq(|xs|, i requires 0 <= i < |xs| => Val(xs[i]))
  }

  /** Packing a list into an array and normalising it gives the list back,
      so an array argument is spread element by element; every other value
      is wrapped, and normalisation is idempotent through packing. */
  lemma NormalizeSpreadsArrays(xs: seq<Value>, v: Value)
    ensures Normalize(Array(xs)) == xs
    ensures !v.Array? ==> |Normalize(v)| == 1 && Normalize(v)[0] == v
    ensures Normalize(Array(Normalize(v))) == Normalize(v)
  {
  }
}

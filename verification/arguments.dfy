/**
 The argument convention shared by `series`, `parallel`, `waterfall` and
 `invoke` (eventflow.js:16-19, 29-32): the arguments object is copied, the
 first element is shifted off as the event name and the last is popped off
 as the completion callback; what remains, in order, goes to the listeners.
 */
module Arguments {
  import opened Values

  /** A call split into its three parts. */
  datatype CallParts = CallParts(name: Value, args: seq<Value>, callback: Value)

  /** `args.shift()` then `args.pop()`: either yields `undefined` when the
      list is already empty. */
  function Split(raw: seq<Value>): (c: CallParts)
    ensures |raw| >= 2 ==> raw == [c.name] + c.args + [c.callback]
    ensures |raw| <= 2 ==> c.args == []
    ensures |raw| == 1 ==> c.name == raw[0] && c.callback == Undefined
    ensures |raw| == 0 ==> c.name == Undefined && c.callback == Undefined
  {
    if |raw| == 0 then CallParts(Undefined, [], Undefined)
    else if |raw| == 1 then CallParts(raw[0], [], Undefined)
    else CallParts(raw[0], raw[1..|raw| - 1], raw[|raw| - 1])
  }

  /** The call a caller writes: name, listener arguments, callback. */
  function Join(c: CallParts): (raw: seq<Value>)
    ensures |raw| == |c.args| + 2
  {
    [c.name] + c.args + [c.callback]
  }

  /** Splitting a written call recovers its parts exactly, and a call of at
      least two arguments is the join of its parts. */
  lemma SplitJoin(c: CallParts, raw: seq<Value>)
    ensures Split(Join(c)) == c
    ensures |raw| >= 2 ==> Join(Split(raw)) == raw
  {
  }
}

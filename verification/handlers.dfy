/**
 The task builder `mapHandlers` (eventflow.js:59-67): one task per
 listener, in listener order, each bound to the caller's arguments except
 the later steps of a waterfall, which take the previous step's value.
 */
module Handlers {
  import opened Values
  import opened Invoker

  /** The three control-flow operators attached to an emitter. */
  datatype Policy = Series | Parallel | Waterfall

  /** Where a task's argument slot comes from: the caller's arguments bound
      when the task was built, or the value the previous task reported. */
  datatype Input = Bound(args: seq<Value>) | Chained

  /** `asyncApply` partially applied to one listener. */
  datatype Task = Task(listener: Listener, input: Input)

  /** The task list `series` and `parallel` hand to the async library. */
  predicate AllBound(tasks: seq<Task>)
  {
    forall i :: 0 <= i < |tasks| ==> tasks[i].input.Bound?
  }

  /** The task list `waterfall` hands to the async library. */
  predicate ChainShaped(tasks: seq<Task>)
  {
    && (|tasks| > 0 ==> tasks[0].input.Bound?)
    && forall i :: 1 <= i < |tasks| ==> tasks[i].input.Chained?
  }

  /** The listeners a task list invokes, in order. */
  function ListenersOfTasks(tasks: seq<Task>): (ls: seq<Listener>)
    ensures |ls| == |tasks|
    ensures forall i :: 0 <= i < |tasks| ==> ls[i] == tasks[i].listener
  {
    seq(|tasks|, i requires 0 <= i < |tasks| => tasks[i].listener)
  }

  /** `mapHandlers(method, emitter, name, args)` over the listener snapshot
      `ls`: task i invokes listener i; under `waterfall` only task 0 is bound
      to `args`, under the other policies every task is. */
  function MapHandlers(policy: Policy, ls: seq<Listener>, args: seq<Value>): (tasks: seq<Task>)
    ensures |tasks| == |ls|
    ensures ListenersOfTasks(tasks) == ls
    ensures policy != Waterfall ==> AllBound(tasks)
    ensures policy == Waterfall ==> ChainShaped(tasks)
    ensures forall i :: 0 <= i < |tasks| && tasks[i].input.Bound? ==> tasks[i].input.args == args
  {
    seq(|ls|, i requires 0 <= i < |ls| =>
      if policy == Waterfall && i > 0 then Task(ls[i], Chained) else Task(ls[i], Bound(args)))
  }

  /** `series` and `parallel` build the same task list, and a waterfall's
      list differs from it only in the binding of the tasks after the first. */
  lemma TaskListsAgree(ls: seq<Listener>, args: seq<Value>)
    ensures MapHandlers(Series, ls, args) == MapHandlers(Parallel, ls, args)
    ensures forall i :: 0 <= i < |ls| ==>
      MapHandlers(Waterfall, ls, args)[i] == (if i == 0 then MapHandlers(Series, ls, args)[i] else Task(ls[i], Chained))
  {
  }
}

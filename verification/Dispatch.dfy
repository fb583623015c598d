/**
  The main-thread dispatch queue (`_queue`, `Enqueue`, `OnUpdate`).
  Producers append callbacks at the tail; once per editor tick `OnUpdate`
  runs the head, removes it in a `finally` even when it is null or throws,
  and goes on until the queue is empty.

  The callbacks are the closures the worker creates; each is one of the
  `Action` values below. The queue is modelled single-threaded: what other
  threads append while a drain is in progress is an input to `OnUpdate`.
 */
module Dispatch {
  import opened Capture
  import opened Operations

  /** A queued `UnityAction`. */
  datatype Action =
    | NullAction
      /** `operation.FeedLog(kind, text)` */
    | FeedAction(op: Operation, kind: LogType, text: string)
      /** `operation.FireDone(code)` */
    | DoneAction(op: Operation, code: int)
      /** `operation.FeedLog(Error, message); operation.FireDone(-1);` */
    | FaultAction(op: Operation, message: string)

  /** The exit code the worker reports when it catches an exception. */
  const FaultExitCode: int := -1

  /** `FireDone` and the failure callback both complete an operation. */
  predicate Terminal(a: Action)
  {
    a.DoneAction? || a.FaultAction?
  }

  /** What running `a` does to the state of its operation, and whether it threw. */
  function Effect(s: OpState, a: Action): (r: (OpState, bool))
    ensures a.NullAction? ==> r == (s, false)
    ensures a.DoneAction? ==> r.0.isDone && r.0.exitCode == a.code
    ensures s.hasError ==> r.0.hasError
    ensures s.isDone ==> r.0.isDone
    ensures r.0.killRequested == s.killRequested && r.0.process == s.process
  {
    match a
    case NullAction => (s, false)
    case FeedAction(_, kind, text) => FeedLogStep(s, kind, text)
    case DoneAction(_, code) => FireDoneStep(s, code)
    case FaultAction(_, message) =>
      var (s', threw) := FeedLogStep(s, Error, message);
      if threw then (s', true) else FireDoneStep(s', FaultExitCode)
  }

  /**
    The failure callback, with an error line the log observer accepts:
    the line is fed as `Error` (so `hasError` is set), then the operation
    completes with -1; the exit observer sees -1 after the line.
   */
  lemma FaultCompletes(s: OpState, op: Operation, message: string)
    requires !Throws(s.onLog, LogEvent(Error, message))
    ensures var (t, threw) := Effect(s, FaultAction(op, message));
      && t.hasError && t.isDone && t.exitCode == FaultExitCode
      && threw == Throws(s.onExit, ExitEvent(FaultExitCode))
      && t.observed == s.observed
           + (if s.onLog.Handler? then [LogEvent(Error, message)] else [])
           + (if s.onExit.Handler? then [ExitEvent(FaultExitCode)] else [])
  {
  }

  /** The actions of `acts` that act on `op`, in order. */
  function For(acts: seq<Action>, op: Operation): (r: seq<Action>)
    ensures |r| <= |acts|
  {
    if |acts| == 0 then []
    else
      var last := acts[|acts| - 1];
      For(acts[..|acts| - 1], op) + (if !last.NullAction? && last.op == op then [last] else [])
  }

  /** The state reached by running `acts` in order, starting from `s`. */
  function Replay(s: OpState, acts: seq<Action>): OpState
  {
    if |acts| == 0 then s
    else Effect(Replay(s, acts[..|acts| - 1]), acts[|acts| - 1]).0
  }

  /** The callbacks in the batches, batch after batch. */
  function Flatten(batches: seq<seq<Action>>): (r: seq<Action>)
    ensures |batches| == 0 ==> r == []
  {
    if |batches| == 0 then [] else Flatten(batches[..|batches| - 1]) + batches[|batches| - 1]
  }

  /** The operations the actions act on. */
  function Targets(acts: seq<Action>): set<Operation>
  {
    set a | a in acts && !a.NullAction? :: a.op
  }

  /** Running actions never clears `hasError` or `isDone`, and never touches the kill flag or the process. */
  lemma {:induction false} ReplayMonotone(s: OpState, acts: seq<Action>)
    ensures s.hasError ==> Replay(s, acts).hasError
    ensures s.isDone ==> Replay(s, acts).isDone
    ensures Replay(s, acts).killRequested == s.killRequested
    ensures Replay(s, acts).process == s.process
  {
    if |acts| > 0 {
      ReplayMonotone(s, acts[..|acts| - 1]);
    }
  }

  /** Replaying a concatenation replays the first part, then the second. */
  lemma {:induction false} ReplayAppend(s: OpState, xs: seq<Action>, ys: seq<Action>)
    ensures Replay(s, xs + ys) == Replay(Replay(s, xs), ys)
    decreases |ys|
  {
    if |ys| > 0 {
      assert (xs + ys)[..|xs + ys| - 1] == xs + ys[..|ys| - 1];
      ReplayAppend(s, xs, ys[..|ys| - 1]);
    } else {
      assert xs + ys == xs;
    }
  }

  /** `For` keeps exactly the non-null actions of `acts` that act on `op`. */
  lemma {:induction false} ForSelects(acts: seq<Action>, op: Operation)
    ensures forall a :: a in For(acts, op) <==> a in acts && !a.NullAction? && a.op == op
  {
    if |acts| > 0 {
      var n := |acts| - 1;
      ForSelects(acts[..n], op);
      assert acts == acts[..n] + [acts[n]];
    }
  }

  /** Selecting an operation's actions distributes over concatenation. */
  lemma {:induction false} ForAppend(xs: seq<Action>, ys: seq<Action>, op: Operation)
    ensures For(xs + ys, op) == For(xs, op) + For(ys, op)
    decreases |ys|
  {
    if |ys| > 0 {
      assert (xs + ys)[..|xs + ys| - 1] == xs + ys[..|ys| - 1];
      ForAppend(xs, ys[..|ys| - 1], op);
    } else {
      assert xs + ys == xs;
    }
  }

  /** The number of callbacks in the batches. */
  function Size(batches: seq<seq<Action>>): nat
  {
    if |batches| == 0 then 0 else |batches[0]| + Size(batches[1..])
  }

  lemma {:induction false} FlattenNext(batches: seq<seq<Action>>, k: nat)
    requires k < |batches|
    ensures Flatten(batches[..k + 1]) == Flatten(batches[..k]) + batches[k]
  {
    assert batches[..k + 1][..k] == batches[..k];
  }

  lemma {:induction false} SizeNext(batches: seq<seq<Action>>, k: nat)
    requires k < |batches|
    ensures Size(batches[k..]) == |batches[k]| + Size(batches[k + 1..])
  {
    assert batches[k..][1..] == batches[k + 1..];
  }

  /** The static queue and the record of the callbacks it has removed. */
  class Dispatcher {
    var queue: seq<Action>
    ghost var drained: seq<Action>

    constructor ()
      ensures queue == [] && drained == []
    {
      queue := [];
      drained := [];
    }

    /** `Enqueue`: appends at the tail; the entries already queued stay as they were. */
    method Enqueue(action: Action)
      modifies this`queue
      ensures queue == old(queue) + [action]
      ensures queue[..|old(queue)|] == old(queue) && queue[|old(queue)|] == action
    {
      queue := queue + [action];
    }

    /** Runs one callback on its operation; an exception is caught and the drain goes on. */
    method Run(action: Action)
      requires !action.NullAction?
      modifies action.op
      ensures action.op.State() == Effect(old(action.op.State()), action).0
    {
      var threw: bool;
      match action
      case FeedAction(op, kind, text) =>
        threw := op.FeedLog(kind, text);
      case DoneAction(op, code) =>
        threw := op.FireDone(code);
      case FaultAction(op, message) =>
        threw := op.FeedLog(Error, message);
        if !threw {
          threw := op.FireDone(FaultExitCode);
        }
    }

    /**
      One turn of the drain loop: run the head (unless null), remove it
      whatever happened, and let the `batch` that arrived meanwhile in.
     */
    method RunHead(batch: seq<Action>, ghost head: Action)
      requires |queue| > 0 && head == queue[0]
      modifies this, if head.NullAction? then {} else {head.op}
      ensures queue == old(queue)[1..] + batch
      ensures drained == old(drained) + [head]
      ensures !head.NullAction? ==> head.op.State() == Effect(old(head.op.State()), head).0
    {
      var action := queue[0];
      if !action.NullAction? {
        Run(action);
      }
      queue := queue[1..];
      drained := drained + [action];
      queue := queue + batch;
    }

    /**
      One turn of the drain loop, with its effect on every operation in
      `init`: the head's own operation takes one step, the others stay put.
     */
    method Turn(batch: seq<Action>, ghost head: Action, ghost init: map<Operation, OpState>, ghost done: seq<Action>)
      requires |queue| > 0 && head == queue[0]
      requires forall o :: o in init ==> o.State() == Replay(init[o], For(done, o))
      modifies this, if head.NullAction? then {} else {head.op}
      ensures queue == old(queue)[1..] + batch
      ensures drained == old(drained) + [head]
      ensures forall o :: o in init ==> o.State() == Replay(init[o], For(done + [head], o))
    {
      label Head:
      RunHead(batch, head);
      forall o: Operation | o in init
        ensures o.State() == Replay(init[o], For(done + [head], o))
      {
        ReplayForSnoc(init[o], done, head, o, old@Head(o.State()));
      }
    }

    /**
      `OnUpdate`. `arrivals[k]` is what producers append while the k-th
      callback of this drain runs. The drain stops only when the queue is
      empty: it has run every callback that was queued or arrived before it
      stopped (`taken` batches), each once, in FIFO order, skipping nulls,
      and each operation ends in the state its own callbacks lead to.
     */
    method OnUpdate(arrivals: seq<seq<Action>>) returns (steps: nat, taken: nat)
      modifies this, Targets(queue), Targets(Flatten(arrivals))
      ensures queue == []
      ensures taken <= |arrivals| && taken <= steps && (taken < |arrivals| ==> taken == steps)
      ensures drained == old(drained) + old(queue) + Flatten(arrivals[..taken])
      ensures steps == |old(queue)| + |Flatten(arrivals[..taken])|
      ensures forall o: Operation :: o in old(Targets(queue)) + Targets(Flatten(arrivals)) ==>
        o.State() == Replay(old(o.State()), For(old(queue) + Flatten(arrivals[..taken]), o))
    {
      ghost var start := queue;
      ghost var ops := Targets(queue) + Targets(Flatten(arrivals));
      ghost var init := map o | o in ops :: o.State();
      ghost var done: seq<Action> := [];
      steps, taken := 0, 0;
      while |queue| > 0
        invariant taken <= |arrivals| && taken <= steps && (taken < |arrivals| ==> taken == steps)
        invariant done + queue == start + Flatten(arrivals[..taken])
        invariant |done| == steps
        invariant drained == old(drained) + done
        invariant Targets(queue) <= ops
        invariant forall o :: o in init ==> o.State() == Replay(init[o], For(done, o))
        decreases |queue| + Size(arrivals[taken..])
      {
        var action := queue[0];
        var batch := NextBatch(arrivals, taken);
        Advance(arrivals, taken, queue, done, start, ops);
        if taken < |arrivals| {
          taken := taken + 1;
        }
        Turn(batch, action, init, done);
        done := done + [action];
        steps := steps + 1;
      }
      assert done == start + Flatten(arrivals[..taken]);
    }
  }

  /** The batch that arrives while the next callback runs: none once every batch was taken. */
  function NextBatch(arrivals: seq<seq<Action>>, taken: nat): seq<Action>
  {
    if taken < |arrivals| then arrivals[taken] else []
  }

  /**
    One turn of the drain keeps the loop's bookkeeping: the head moves to the
    done list, the batch joins the queue, every target stays among the
    operations the drain may touch, and the measure goes down.
   */
  lemma Advance(arrivals: seq<seq<Action>>, taken: nat, q: seq<Action>, done: seq<Action>, start: seq<Action>, ops: set<Operation>)
    requires |q| > 0 && taken <= |arrivals|
    requires done + q == start + Flatten(arrivals[..taken])
    requires Targets(q) <= ops && Targets(Flatten(arrivals)) <= ops
    ensures var next := if taken < |arrivals| then taken + 1 else taken;
      && (done + [q[0]]) + (q[1..] + NextBatch(arrivals, taken)) == start + Flatten(arrivals[..next])
      && Targets(q[1..] + NextBatch(arrivals, taken)) <= ops
      && |q[1..] + NextBatch(arrivals, taken)| + Size(arrivals[next..]) < |q| + Size(arrivals[taken..])
      && (!q[0].NullAction? ==> q[0].op in ops)
  {
    TargetsTail(q);
    assert q[0] in q;
    var f := Flatten(arrivals[..taken]);
    var batch := NextBatch(arrivals, taken);
    if taken < |arrivals| {
      FlattenNext(arrivals, taken);
      SizeNext(arrivals, taken);
      TargetsBatch(arrivals, taken);
    }
    TargetsAppend(q[1..], batch);
    ConsumeHead(done, q, batch, start, f);
  }

  /** Moving the head of the queue to the done list and appending a batch keeps their concatenation. */
  lemma ConsumeHead(done: seq<Action>, q: seq<Action>, batch: seq<Action>, start: seq<Action>, f: seq<Action>)
    requires |q| > 0 && done + q == start + f
    ensures (done + [q[0]]) + (q[1..] + batch) == start + (f + batch)
    ensures batch == [] ==> (done + [q[0]]) + (q[1..] + batch) == start + f
  {
    assert [q[0]] + q[1..] == q;
    assert (done + [q[0]]) + (q[1..] + batch) == (done + q) + batch;
    assert f + [] == f;
  }

  /** Running one more action moves its own operation one step and leaves the others alone. */
  lemma ReplayForSnoc(s: OpState, xs: seq<Action>, a: Action, op: Operation, cur: OpState)
    requires cur == Replay(s, For(xs, op))
    ensures (if !a.NullAction? && a.op == op then Effect(cur, a).0 else cur) == Replay(s, For(xs + [a], op))
  {
    ForSnoc(xs, a, op);
    if !a.NullAction? && a.op == op {
      var ys := For(xs, op);
      assert For(xs + [a], op) == ys + [a];
      assert (ys + [a])[..|ys + [a]| - 1] == ys;
      assert Replay(s, ys + [a]) == Effect(Replay(s, ys), a).0;
    } else {
      assert For(xs + [a], op) == For(xs, op) + [];
      assert For(xs, op) + [] == For(xs, op);
    }
  }

  lemma ForSnoc(xs: seq<Action>, a: Action, op: Operation)
    ensures For(xs + [a], op) == For(xs, op) + (if !a.NullAction? && a.op == op then [a] else [])
  {
    assert (xs + [a])[..|xs|] == xs;
  }

  lemma TargetsTail(q: seq<Action>)
    requires |q| > 0
    ensures Targets(q[1..]) <= Targets(q)
  {
    forall o | o in Targets(q[1..]) ensures o in Targets(q) {
      var a :| a in q[1..] && !a.NullAction? && a.op == o;
      assert a in q;
    }
  }

  lemma TargetsAppend(xs: seq<Action>, ys: seq<Action>)
    ensures Targets(xs + ys) == Targets(xs) + Targets(ys)
  {
    forall o | o in Targets(xs + ys) ensures o in Targets(xs) + Targets(ys) {
      var a :| a in xs + ys && !a.NullAction? && a.op == o;
      assert a in xs || a in ys;
    }
  }

  lemma {:induction false} TargetsBatch(batches: seq<seq<Action>>, k: nat)
    requires k < |batches|
    ensures Targets(batches[k]) <= Targets(Flatten(batches))
    decreases |batches|
  {
    var n := |batches| - 1;
    TargetsAppend(Flatten(batches[..n]), batches[n]);
    if k < n {
      TargetsBatch(batches[..n], k);
    }
  }
}

/**
 * The per-task lifecycle of a launched action, as a sequential machine.
 *
 * Every change of a task's fields happens inside one synchronized block of the
 * Java class RunnableAction; each block is one transition function here, and
 * Post stands for the unguarded hand-over of the action's outcome to the
 * deliverer, which changes only what the model observes. A
 * concurrent execution is any interleaving of those transitions, written as a
 * sequence of Step values and executed by Exec. Beside the object's own fields,
 * a Task records what the model needs in order to state the guarantees: where
 * the run() thread is, the outcome of the action, the delivery step handed to
 * the deliverer and not yet run, how often the action was invoked, which
 * threads were interrupted and which callbacks were invoked.
 */
module Lifecycle {
  import opened Wrappers

  type ThreadId = nat

  datatype RunnableState = New | Running | Completed | Canceled

  /** Identities of the user's objects; their bodies are not modelled. */
  datatype Action = Action(id: nat)
  datatype Callback = Callback(id: nat)
  datatype Deliverer = Deliverer(id: nat)
  datatype Throwable = Throwable(message: string)

  /** What a task is built from: the action, both optional callbacks and the delivery context. */
  datatype Bundle = Bundle(action: Action, onCompleted: Option<Callback>, onError: Option<Callback>, deliverer: Deliverer)

  /** What act() did: returned a value or threw. */
  datatype Outcome<T> = Returned(value: T) | Threw(error: Throwable)

  /** The runnable handed to the deliverer: deliver this response, or this error. */
  datatype Delivery<T> = ResponseDelivery(response: T) | ErrorDelivery(error: Throwable)

  /** One invocation of a user callback. */
  datatype Invocation<T> =
    | OnCompletedCalled(callback: Callback, response: T)
    | OnErrorCalled(callback: Callback, error: Throwable)

  /**
   * How far the thread executing run() has got: not past the entry block,
   * inside act(), delivery handed over (finally block still to run), finished.
   */
  datatype RunPhase = Idle | Acting | Handed | Finished

  datatype Task<T> = Task(
    // the fields of the Java object
    state: RunnableState,
    executor: Option<ThreadId>,
    action: Option<Action>,
    onCompleted: Option<Callback>,
    onError: Option<Callback>,
    // what the model observes
    phase: RunPhase,
    runner: Option<ThreadId>,
    outcome: Option<Outcome<T>>,
    pending: Option<Delivery<T>>,
    actCalls: nat,
    interrupts: seq<ThreadId>,
    calls: seq<Invocation<T>>)

  /** The task right after construction from its bundle. */
  function Init<T>(b: Bundle): (s: Task<T>)
    ensures Inv(b, s)
    ensures s.calls == [] && s.actCalls == 0 && s.interrupts == []
  {
    Task(New, None, Some(b.action), b.onCompleted, b.onError, Idle, None, None, None, 0, [], [])
  }

  /** Entry block of run(): only a NEW task starts, recording the executing thread. */
  function Enter<T>(s: Task<T>, current: ThreadId): Task<T>
  {
    if s.state != New then s
    else s.(executor := Some(current), state := Running, phase := Acting, runner := Some(current),
            actCalls := s.actCalls + 1)
  }

  /** The delivery step run() hands over for an outcome: a returned value or a caught throwable. */
  function DeliveryFor<T>(o: Outcome<T>): Delivery<T>
  {
    match o
    case Returned(v) => ResponseDelivery(v)
    case Threw(e) => ErrorDelivery(e)
  }

  /** act() has returned or thrown, and run() hands the matching delivery step to the deliverer. */
  function Post<T>(s: Task<T>, o: Outcome<T>): Task<T>
  {
    if s.phase != Acting then s
    else s.(phase := Handed, outcome := Some(o), pending := Some(DeliveryFor(o)))
  }

  /** The finally block of run(): drop the action and the executing thread. */
  function Cleanup<T>(s: Task<T>): Task<T>
  {
    if s.phase != Handed then s
    else s.(action := None, executor := None, phase := Finished)
  }

  /** Body of the response delivery runnable. */
  function DeliverResponse<T>(s: Task<T>, response: T): Task<T>
  {
    if s.state == Canceled then s
    else
      var fired := if s.onCompleted.Some? then [OnCompletedCalled(s.onCompleted.value, response)] else [];
      s.(onError := None, onCompleted := None, calls := s.calls + fired, state := Completed)
  }

  /** Body of the error delivery runnable. */
  function DeliverError<T>(s: Task<T>, e: Throwable): Task<T>
  {
    if s.state == Canceled then s
    else
      var fired := if s.onError.Some? then [OnErrorCalled(s.onError.value, e)] else [];
      s.(onCompleted := None, onError := None, calls := s.calls + fired, state := Completed)
  }

  /** The deliverer runs the step it was handed, once. */
  function RunDelivery<T>(s: Task<T>): Task<T>
  {
    match s.pending
    case None => s
    case Some(d) =>
      var t := s.(pending := None);
      match d
      case ResponseDelivery(v) => DeliverResponse(t, v)
      case ErrorDelivery(e) => DeliverError(t, e)
  }

  /** cancel(): a NEW or RUNNING task interrupts its executor, if any, drops its references and is CANCELED. */
  function Cancel<T>(s: Task<T>): Task<T>
  {
    if s.state == New || s.state == Running then
      var interrupted := if s.executor.Some? then [s.executor.value] else [];
      s.(interrupts := s.interrupts + interrupted, action := None, onCompleted := None, onError := None,
         state := Canceled)
    else s
  }

  /** One atomic step of some thread. */
  datatype Step<T> =
    | RunCalled(thread: ThreadId)
    | ActFinished(outcome: Outcome<T>)
    | FinallyRan
    | DeliveryRan
    | CancelCalled

  function Next<T>(s: Task<T>, step: Step<T>): Task<T>
  {
    match step
    case RunCalled(t) => Enter(s, t)
    case ActFinished(o) => Post(s, o)
    case FinallyRan => Cleanup(s)
    case DeliveryRan => RunDelivery(s)
    case CancelCalled => Cancel(s)
  }

  /** The task after an interleaving of steps. */
  function Exec<T>(s: Task<T>, steps: seq<Step<T>>): Task<T>
    decreases |steps|
  {
    if steps == [] then s else Exec(Next(s, steps[0]), steps[1..])
  }

  /** The callback invocation a bundle's outcome calls for: at most one, and none if that callback is absent. */
  function Expected<T>(b: Bundle, o: Outcome<T>): (r: seq<Invocation<T>>)
    ensures |r| <= 1
  {
    match o
    case Returned(v) => if b.onCompleted.Some? then [OnCompletedCalled(b.onCompleted.value, v)] else []
    case Threw(e) => if b.onError.Some? then [OnErrorCalled(b.onError.value, e)] else []
  }

  /** The invariant every reachable task of bundle b satisfies. */
  ghost predicate Inv<T>(b: Bundle, s: Task<T>)
  {
    // the action is invoked once, exactly when run() got past its entry block
    && s.actCalls == (if s.phase == Idle then 0 else 1)
    // the outcome is known once act() has returned; the step awaiting the deliverer is the one for it
    && (s.outcome.Some? <==> s.phase == Handed || s.phase == Finished)
    && (s.pending.Some? ==> s.outcome.Some? && s.pending.value == DeliveryFor(s.outcome.value))
    // the executing thread is recorded from the entry block to the finally block
    && (s.executor.Some? <==> s.phase == Acting || s.phase == Handed)
    && (s.phase == Finished ==> s.action.None?)
    // the thread that got past the entry block is the one recorded, and the only one ever interrupted
    && (s.runner.Some? <==> s.phase != Idle)
    && (s.executor.Some? ==> s.executor == s.runner)
    && (s.interrupts != [] ==> s.state == Canceled && s.runner.Some? && s.interrupts == [s.runner.value])
    && match s.state
       case New =>
         && s.phase == Idle && s.action == Some(b.action)
         && s.onCompleted == b.onCompleted && s.onError == b.onError && s.calls == []
       case Running =>
         && s.phase != Idle && (s.phase != Finished ==> s.action == Some(b.action))
         && s.onCompleted == b.onCompleted && s.onError == b.onError && s.calls == []
         && (s.outcome.Some? ==> s.pending.Some?)
       case Completed =>
         && s.outcome.Some? && s.pending.None?
         && s.onCompleted.None? && s.onError.None?
         && s.calls == Expected(b, s.outcome.value)
       case Canceled =>
         && s.action.None? && s.onCompleted.None? && s.onError.None? && s.calls == []
  }

  predicate NoCancel<T>(steps: seq<Step<T>>)
  {
    forall i :: 0 <= i < |steps| ==> !steps[i].CancelCalled?
  }

  // ---------------------------------------------------------------------------
  // Single steps

  lemma StepPreservesInv<T>(b: Bundle, s: Task<T>, step: Step<T>)
    requires Inv(b, s)
    ensures Inv(b, Next(s, step))
  {
  }

  /**
   * Once a task has left NEW it never returns to NEW, so every later run()
   * returns at once: no interleaving invokes the action again.
   */
  lemma {:induction false} RunStartsOnce<T>(s: Task<T>, steps: seq<Step<T>>)
    requires s.state != New
    ensures var r := Exec(s, steps); r.state != New && r.actCalls == s.actCalls && r.runner == s.runner
    decreases |steps|
  {
    if steps != [] {
      RunStartsOnce(Next(s, steps[0]), steps[1..]);
    }
  }

  /** Cancelling twice is cancelling once. */
  lemma CancelIdempotent<T>(s: Task<T>)
    ensures Cancel(Cancel(s)) == Cancel(s)
  {
  }

  // ---------------------------------------------------------------------------
  // Interleavings

  lemma {:induction false} ExecAppend<T>(s: Task<T>, pre: seq<Step<T>>, post: seq<Step<T>>)
    ensures Exec(s, pre + post) == Exec(Exec(s, pre), post)
    decreases |pre|
  {
    if pre != [] {
      assert (pre + post)[0] == pre[0];
      assert (pre + post)[1..] == pre[1..] + post;
      ExecAppend(Next(s, pre[0]), pre[1..], post);
    } else {
      assert pre + post == post;
    }
  }

  lemma {:induction false} ExecPreservesInv<T>(b: Bundle, s: Task<T>, steps: seq<Step<T>>)
    requires Inv(b, s)
    ensures Inv(b, Exec(s, steps))
    decreases |steps|
  {
    if steps != [] {
      StepPreservesInv(b, s, steps[0]);
      ExecPreservesInv(b, Next(s, steps[0]), steps[1..]);
    }
  }

  /**
   * Across any interleaving the action is invoked at most once, and at most one
   * callback fires: the one the action's outcome calls for.
   */
  lemma AtMostOnce<T>(b: Bundle, steps: seq<Step<T>>)
    ensures var r := Exec(Init(b), steps);
      && r.actCalls <= 1
      && |r.calls| <= 1
      && (r.calls != [] ==> r.state == Completed && r.outcome.Some? && r.calls == Expected(b, r.outcome.value))
  {
    ExecPreservesInv(b, Init<T>(b), steps);
  }

  /** CANCELED is absorbing: no later step fires a callback, invokes the action or interrupts again. */
  lemma {:induction false} CanceledIsAbsorbing<T>(s: Task<T>, steps: seq<Step<T>>)
    requires s.state == Canceled
    ensures var r := Exec(s, steps);
      r.state == Canceled && r.calls == s.calls && r.actCalls == s.actCalls && r.interrupts == s.interrupts
    decreases |steps|
  {
    if steps != [] {
      CanceledIsAbsorbing(Next(s, steps[0]), steps[1..]);
    }
  }

  /** A COMPLETED task has no callback left, so nothing fires after it and it stays COMPLETED. */
  lemma {:induction false} CompletedIsStable<T>(s: Task<T>, steps: seq<Step<T>>)
    requires s.state == Completed && s.onCompleted.None? && s.onError.None?
    ensures var r := Exec(s, steps); r.state == Completed && r.calls == s.calls && r.interrupts == s.interrupts
    decreases |steps|
  {
    if steps != [] {
      CompletedIsStable(Next(s, steps[0]), steps[1..]);
    }
  }

  /** Whenever cancel() runs, no callback fires after it, whatever steps follow. */
  lemma NoCallbackAfterCancel<T>(b: Bundle, s: Task<T>, steps: seq<Step<T>>)
    requires Inv(b, s)
    ensures Exec(Cancel(s), steps).calls == Cancel(s).calls
  {
    var c := Cancel(s);
    if c.state == Canceled {
      CanceledIsAbsorbing(c, steps);
    } else {
      CompletedIsStable(c, steps);
    }
  }

  /** Cancel before start: the action never runs, no callback fires, no thread is interrupted. */
  lemma CancelBeforeStart<T>(b: Bundle, steps: seq<Step<T>>)
    ensures var r := Exec(Init(b), [CancelCalled] + steps);
      r.state == Canceled && r.actCalls == 0 && r.calls == [] && r.interrupts == []
  {
    ExecAppend(Init<T>(b), [CancelCalled], steps);
    CanceledIsAbsorbing(Cancel(Init<T>(b)), steps);
  }

  /**
   * A cancel that lands before delivery has run (at any point: before start,
   * during act(), or after the outcome was handed to the deliverer) suppresses
   * every callback for good.
   */
  lemma CancelBeforeDeliverySuppresses<T>(b: Bundle, pre: seq<Step<T>>, post: seq<Step<T>>)
    requires Exec(Init(b), pre).state != Completed
    ensures var r := Exec(Init(b), pre + [CancelCalled] + post); r.state == Canceled && r.calls == []
  {
    var s := Exec(Init<T>(b), pre);
    ExecPreservesInv(b, Init<T>(b), pre);
    ExecAppend(Init<T>(b), pre, [CancelCalled]);
    ExecAppend(Init<T>(b), pre + [CancelCalled], post);
    CanceledIsAbsorbing(Cancel(s), post);
  }

  /** The race of a cancel after act() returned but before delivery: the running thread is interrupted, nothing is delivered. */
  lemma CancelAfterActBeforeDelivery<T>(b: Bundle, t: ThreadId, o: Outcome<T>, post: seq<Step<T>>)
    ensures var r := Exec(Init(b), [RunCalled(t), ActFinished(o), CancelCalled] + post);
      r.state == Canceled && r.calls == [] && r.actCalls == 1 && r.interrupts == [t]
  {
    var s := Exec(Init<T>(b), [RunCalled(t), ActFinished(o)]);
    var entered := Enter(Init<T>(b), t);
    assert [RunCalled(t), ActFinished(o)][1..] == [ActFinished(o)];
    assert Exec(entered, [ActFinished(o)]) == Exec(Post(entered, o), []);
    assert s == Post(entered, o);
    ExecAppend(Init<T>(b), [RunCalled(t), ActFinished(o)], [CancelCalled] + post);
    assert [RunCalled(t), ActFinished(o)] + ([CancelCalled] + post) == [RunCalled(t), ActFinished(o), CancelCalled] + post;
    ExecAppend(s, [CancelCalled], post);
    CanceledIsAbsorbing(Cancel(s), post);
  }

  /**
   * In every interleaving, a cancel that finds the task RUNNING while run() is
   * between its entry block and its finally block interrupts exactly the
   * thread that started the task, and a cancel after the finally block
   * interrupts nobody.
   */
  lemma CancelInterruptsRunner<T>(b: Bundle, steps: seq<Step<T>>)
    ensures var s := Exec(Init(b), steps);
      && (s.state == Running && (s.phase == Acting || s.phase == Handed) ==>
            s.runner.Some? && Cancel(s).interrupts == [s.runner.value])
      && (s.phase == Finished ==> Cancel(s).interrupts == s.interrupts)
  {
    ExecPreservesInv(b, Init<T>(b), steps);
  }

  lemma {:induction false} NoCancelNeverCanceled<T>(s: Task<T>, steps: seq<Step<T>>)
    requires s.state != Canceled && NoCancel(steps)
    ensures Exec(s, steps).state != Canceled
    decreases |steps|
  {
    if steps != [] {
      assert !steps[0].CancelCalled?;
      NoCancelNeverCanceled(Next(s, steps[0]), steps[1..]);
    }
  }

  /**
   * A task that is never canceled and whose delivery step has run is COMPLETED
   * and has fired exactly the callback its outcome calls for: onCompleted with
   * the value, or onError with the throwable.
   */
  lemma NeverCanceledDelivers<T>(b: Bundle, steps: seq<Step<T>>)
    requires NoCancel(steps)
    ensures var r := Exec(Init(b), steps);
      r.state != Canceled
      && (r.outcome.Some? && r.pending.None? ==> r.state == Completed && r.calls == Expected(b, r.outcome.value))
  {
    ExecPreservesInv(b, Init<T>(b), steps);
    NoCancelNeverCanceled(Init<T>(b), steps);
  }
}

/**
 * The task object itself: the fields of RunnableAction and one method per
 * synchronized block (Enter, Cleanup, DeliverResponse, DeliverError, Cancel),
 * plus Post for the unguarded hand-over of the action's outcome to the
 * deliverer, which changes only ghost fields. Each keeps the lifecycle invariant and moves the
 * object's snapshot by the matching transition of module Lifecycle, so that
 * any interleaving of calls from several threads is an Exec of Lifecycle
 * steps and the lemmas proved there hold of it.
 */
module Runnable {
  import opened Wrappers
  import opened Lifecycle

  class RunnableAction<T> {
    const deliverer: Deliverer
    var executor: Option<ThreadId>
    var state: RunnableState
    var action: Option<Action>
    var onError: Option<Callback>
    var onCompleted: Option<Callback>

    // what the model observes besides the fields
    ghost const bundle: Bundle
    ghost var phase: RunPhase
    ghost var runner: Option<ThreadId>
    ghost var outcome: Option<Outcome<T>>
    ghost var pending: Option<Delivery<T>>
    ghost var actCalls: nat
    ghost var interrupts: seq<ThreadId>
    ghost var calls: seq<Invocation<T>>

    ghost function Snapshot(): Task<T>
      reads this
    {
      Task(state, executor, action, onCompleted, onError, phase, runner, outcome, pending, actCalls, interrupts, calls)
    }

    ghost predicate Valid()
      reads this
    {
      Inv(bundle, Snapshot())
    }

    /** A new task is NEW, takes action, callbacks and deliverer from the bundle and has no executor. */
    constructor (b: Bundle)
      ensures Valid() && bundle == b && Snapshot() == Init(b)
      ensures state == New && executor.None? && deliverer == b.deliverer
      ensures action == Some(b.action) && onCompleted == b.onCompleted && onError == b.onError
    {
      deliverer := b.deliverer;
      action := Some(b.action);
      onError := b.onError;
      onCompleted := b.onCompleted;
      state := New;
      executor := None;
      bundle := b;
      phase, runner, outcome, pending, actCalls, interrupts, calls := Idle, None, None, None, 0, [], [];
    }

    /**
     * Entry block of run(). A task that is not NEW is left as it is and nothing
     * is returned, so the action is not invoked. A NEW task records the
     * executing thread, becomes RUNNING and hands back the action to invoke.
     */
    method Enter(current: ThreadId) returns (runnable: Option<Action>)
      requires Valid()
      modifies this
      ensures Valid() && Snapshot() == Lifecycle.Enter(old(Snapshot()), current)
      ensures old(state) != New ==> runnable.None? && Snapshot() == old(Snapshot())
      ensures old(state) == New ==>
        && runnable == Some(bundle.action) && state == Running && executor == Some(current)
        && actCalls == 1
    {
      if state != New {
        return None;
      }
      runnable := action;
      executor := Some(current);
      state := Running;
      phase := Acting;
      runner := Some(current);
      actCalls := actCalls + 1;
    }

    /**
     * act() has returned a value or thrown; either way run() does not rethrow
     * but hands the deliverer the matching step: the response, or the error.
     */
    method Post(result: Outcome<T>) returns (step: Delivery<T>)
      requires Valid() && phase == Acting
      modifies this
      ensures Valid() && Snapshot() == Lifecycle.Post(old(Snapshot()), result)
      ensures result.Returned? ==> step == ResponseDelivery(result.value)
      ensures result.Threw? ==> step == ErrorDelivery(result.error)
      ensures pending == Some(step)
    {
      match result {
        case Returned(v) => step := ResponseDelivery(v);
        case Threw(e) => step := ErrorDelivery(e);
      }
      phase := Handed;
      outcome := Some(result);
      pending := Some(step);
    }

    /** The finally block of run(): the action and the executing thread are dropped. */
    method Cleanup()
      requires Valid() && phase == Handed
      modifies this
      ensures Valid() && Snapshot() == Lifecycle.Cleanup(old(Snapshot()))
      ensures action.None? && executor.None?
      ensures state == old(state) && onCompleted == old(onCompleted) && onError == old(onError)
    {
      action := None;
      executor := None;
      phase := Finished;
    }

    method AfterExecuted()
      modifies this`state
      ensures state == Completed
    {
      state := Completed;
    }

    /**
     * The response delivery runnable. On a CANCELED task it does nothing.
     * Otherwise it drops onError, invokes onCompleted if present and drops it,
     * and the task is COMPLETED.
     */
    method DeliverResponse(response: T)
      requires Valid() && pending == Some(ResponseDelivery(response))
      modifies this
      ensures Valid() && Snapshot() == RunDelivery(old(Snapshot()))
      ensures old(state) == Canceled ==> state == Canceled && calls == old(calls)
      ensures old(state) != Canceled ==>
        && state == Completed && onError.None? && onCompleted.None?
        && calls == old(calls) + (if old(onCompleted).Some? then [OnCompletedCalled(old(onCompleted).value, response)] else [])
    {
      pending := None;
      if state != Canceled {
        onError := None;
        if onCompleted.Some? {
          calls := calls + [OnCompletedCalled(onCompleted.value, response)];
          onCompleted := None;
        }
        AfterExecuted();
      }
    }

    /**
     * The error delivery runnable. On a CANCELED task it does nothing.
     * Otherwise it drops onCompleted, invokes onError if present and drops it,
     * and the task is COMPLETED.
     */
    method DeliverError(e: Throwable)
      requires Valid() && pending == Some(ErrorDelivery(e))
      modifies this
      ensures Valid() && Snapshot() == RunDelivery(old(Snapshot()))
      ensures old(state) == Canceled ==> state == Canceled && calls == old(calls)
      ensures old(state) != Canceled ==>
        && state == Completed && onError.None? && onCompleted.None?
        && calls == old(calls) + (if old(onError).Some? then [OnErrorCalled(old(onError).value, e)] else [])
    {
      pending := None;
      if state != Canceled {
        onCompleted := None;
        if onError.Some? {
          calls := calls + [OnErrorCalled(onError.value, e)];
          onError := None;
        }
        AfterExecuted();
      }
    }

    /**
     * cancel(). A NEW or RUNNING task interrupts its recorded executor (if
     * any), drops the action and both callbacks and is CANCELED; a COMPLETED
     * or CANCELED task is left as it is.
     */
    method Cancel()
      requires Valid()
      modifies this
      ensures Valid() && Snapshot() == Lifecycle.Cancel(old(Snapshot()))
      ensures old(state) == New || old(state) == Running ==>
        && state == Canceled && action.None? && onCompleted.None? && onError.None?
        && interrupts == old(interrupts) + (if old(executor).Some? then [old(executor).value] else [])
      ensures old(state) == Completed || old(state) == Canceled ==> Snapshot() == old(Snapshot())
    {
      if state == New || state == Running {
        if executor.Some? {
          interrupts := interrupts + [executor.value];
        }
        action := None;
        onCompleted := None;
        onError := None;
        state := Canceled;
      }
    }

    /**
     * run() with no other thread stepping in, act() producing result and the
     * deliverer either running the delivery step inline or keeping it for
     * later (then it is returned, still pending). From NEW, an inline
     * delivery fires exactly the callback the result calls for.
     */
    method Run(current: ThreadId, result: Outcome<T>, inline: bool) returns (handed: Option<Delivery<T>>)
      requires Valid()
      modifies this
      ensures Valid()
      ensures old(state) != New ==> handed.None? && Snapshot() == old(Snapshot())
      ensures old(state) == New ==>
        && handed == Some(DeliveryFor(result))
        && Snapshot() == Exec(old(Snapshot()),
             if inline then [RunCalled(current), ActFinished(result), DeliveryRan, FinallyRan]
             else [RunCalled(current), ActFinished(result), FinallyRan])
        && action.None? && executor.None? && actCalls == 1
      ensures old(state) == New && inline ==> state == Completed && calls == Expected(bundle, result)
      ensures old(state) == New && !inline ==> state == Running && calls == [] && pending == handed
    {
      ghost var s0 := Snapshot();
      var runnable := Enter(current);
      if runnable.None? {
        return None;
      }
      ghost var s1 := Snapshot();
      var step := Post(result);
      handed := Some(step);
      ghost var s2 := Snapshot();
      if inline {
        match step {
          case ResponseDelivery(v) => DeliverResponse(v);
          case ErrorDelivery(e) => DeliverError(e);
        }
      }
      ghost var s3 := Snapshot();
      Cleanup();
      ghost var steps := if inline then [RunCalled(current), ActFinished(result), DeliveryRan, FinallyRan]
                         else [RunCalled(current), ActFinished(result), FinallyRan];
      assert Exec(s0, steps) == Exec(s1, steps[1..]);
      assert Exec(s1, steps[1..]) == Exec(s2, steps[2..]);
      if inline {
        assert Exec(s2, steps[2..]) == Exec(s3, steps[3..]);
        assert steps[3..] == [FinallyRan];
      } else {
        assert steps[2..] == [FinallyRan];
      }
      assert Exec(Snapshot(), []) == Snapshot();
    }
  }
}

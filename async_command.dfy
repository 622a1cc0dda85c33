/** `AsyncCommand` of MVVMBase: an `IsWorking` flag around an awaited body,
    whose faults go to an overridable hook and never leave `ExecuteAsync`.
    One execution is a begin half (set the flag, call `DoExecute`) and an end
    half (the awaited result is in, the `catch`, the `finally`). Executions may
    overlap by interleaving the halves. What `DoExecute` and `OnThrownException`
    do is opaque: their outcomes are given as parameters. */
module MvvmBaseCommands {
  import opened Events
  import opened Trace

  /** `IsWorking = true; DoExecute(parameter)`: starts one body with this
      parameter, sets the flag, calls no hook and raises nothing. */
  function BeginSteps<P, E>(parameter: P): (s: seq<Step<P, E>>)
    ensures Started(s) == multiset{parameter} && Ended(s) == multiset{}
    ensures forall w :: WorkingAfter(w, s)
    ensures Hooks(s) == 0 && Raises(s) == 0
  {
    var a: seq<Step<P, E>> := [SetWorking(true)];
    var b: seq<Step<P, E>> := [RunBody(parameter)];
    OneStep(false, a[0]);
    OneStep(false, b[0]);
    StartedEndedAppend(a, b);
    CountsAppend(a, b);
    assert forall w :: WorkingAfter(w, a + b) by {
      forall w ensures WorkingAfter(w, a + b) {
        WorkingAfterAppend(w, a, b);
        OneStep(w, a[0]);
        OneStep(true, b[0]);
      }
    }
    a + b
  }

  /** The awaited result, the `catch` (hook call, its fault swallowed) and the
      `finally`: the result of this parameter's body arrives, the hook runs
      once exactly when the body faulted, the flag ends false, and nothing
      is raised. */
  function EndSteps<P, E>(parameter: P, body: Outcome<E>, hook: Outcome<E>): (s: seq<Step<P, E>>)
    ensures Started(s) == multiset{} && Ended(s) == multiset{parameter}
    ensures forall w :: !WorkingAfter(w, s)
    ensures Hooks(s) == (if body.Faulted? then 1 else 0) && Raises(s) == 0
  {
    var a: seq<Step<P, E>> := [BodyEnded(parameter, body)];
    var h: seq<Step<P, E>> := if body.Faulted? then [RunHook(parameter, body.error, hook)] else [];
    var f: seq<Step<P, E>> := [SetWorking(false)];
    OneStep(false, a[0]);
    OneStep(false, f[0]);
    assert Started(h) == Ended(h) == multiset{} && Raises(h) == 0
           && Hooks(h) == |h| by {
      if body.Faulted? { OneStep(false, h[0]); }
    }
    StartedEndedAppend(a, h);
    StartedEndedAppend(a + h, f);
    CountsAppend(a, h);
    CountsAppend(a + h, f);
    assert forall w :: !WorkingAfter(w, a + h + f) by {
      forall w ensures !WorkingAfter(w, a + h + f) {
        WorkingAfterLastAssignment(w, a + h, false);
      }
    }
    a + h + f
  }

  /** One whole execution: it starts and finishes this parameter's body,
      leaves the flag false, and raises nothing. */
  function ExecuteSteps<P, E>(parameter: P, body: Outcome<E>, hook: Outcome<E>): (s: seq<Step<P, E>>)
    ensures Started(s) == multiset{parameter} && Ended(s) == multiset{parameter}
    ensures forall w :: !WorkingAfter(w, s)
    ensures Raises(s) == 0
  {
    var b := BeginSteps<P, E>(parameter);
    var e := EndSteps<P, E>(parameter, body, hook);
    StartedEndedAppend(b, e);
    CountsAppend(b, e);
    assert forall w :: !WorkingAfter(w, b + e) by {
      forall w ensures !WorkingAfter(w, b + e) {
        WorkingAfterAppend(w, b, e);
      }
    }
    b + e
  }

  /** The begin half leaves the command working, whatever came before. */
  lemma BeginLeavesWorking<P, E>(w: bool, t: seq<Step<P, E>>, parameter: P)
    ensures WorkingAfter(w, t + BeginSteps(parameter))
    ensures BodiesRunWorking(WorkingAfter(w, t), BeginSteps<P, E>(parameter))
  {
    var b := BeginSteps<P, E>(parameter);
    WorkingAfterAppend(w, t, b);
    assert b[..1] == [SetWorking(true)];
    OneStep(WorkingAfter(w, t), b[0]);
  }

  /** The `finally` leaves the command idle, whether the body completed or
      faulted and whether the hook completed or faulted, and whatever other
      executions are still outstanding. */
  lemma EndLeavesIdle<P, E>(w: bool, t: seq<Step<P, E>>, parameter: P, body: Outcome<E>, hook: Outcome<E>)
    ensures !WorkingAfter(w, t + EndSteps(parameter, body, hook))
  {
    WorkingAfterAppend(w, t, EndSteps(parameter, body, hook));
  }

  /** One execution: `IsWorking` is true from the step after it is set until
      the `finally` (so while `DoExecute` runs, when its result arrives and
      while the hook runs), and false at the end. */
  lemma {:induction false} ExecuteWorkingUntilFinally<P, E>(w: bool, parameter: P, body: Outcome<E>, hook: Outcome<E>)
    ensures var s := ExecuteSteps(parameter, body, hook);
            (forall i :: 1 <= i < |s| ==> WorkingAfter(w, s[..i])) && !WorkingAfter(w, s)
  {
    var s := ExecuteSteps(parameter, body, hook);
    forall i | 1 <= i < |s|
      ensures WorkingAfter(w, s[..i])
    {
      assert s[..i] == [SetWorking(true)] + s[1..i];
      assert forall j :: 0 <= j < |s[1..i]| ==> !s[1..i][j].SetWorking?;
      WorkingAfterNoAssignment(true, s[1..i]);
    }
    EndLeavesIdle(w, BeginSteps(parameter), parameter, body, hook);
  }

  /** The hook runs exactly when the body faulted, once, with the parameter of
      the execution and the body's fault; the execution never raises
      `CanExecuteChanged` and invokes no handler. */
  lemma {:induction false} ExecuteHookOnFaultOnly<P, E>(parameter: P, body: Outcome<E>, hook: Outcome<E>)
    ensures var s := ExecuteSteps(parameter, body, hook);
            Hooks(s) == (if body.Faulted? then 1 else 0)
            && (forall i :: 0 <= i < |s| && s[i].RunHook? ==>
                  s[i].parameter == parameter && body == Faulted(s[i].error))
            && Raises(s) == 0 && Invoked(s) == []
  {
    var s := ExecuteSteps(parameter, body, hook);
    var h: seq<Step<P, E>> := if body.Faulted? then [RunHook(parameter, body.error, hook)] else [];
    assert s == [SetWorking(true), RunBody(parameter), BodyEnded(parameter, body)] + h + [SetWorking(false)];
    CountsAppend([SetWorking(true), RunBody(parameter), BodyEnded(parameter, body)] + h, [SetWorking(false)]);
    CountsAppend([SetWorking(true), RunBody(parameter), BodyEnded(parameter, body)], h);
  }

  /** `IsWorking` is one flag, not a count: with two executions begun, the
      first to finish resets it although the second is still pending. */
  lemma {:induction false} OverlapFirstFinishResets<P, E>(w: bool, first: P, second: P, body: Outcome<E>, hook: Outcome<E>)
    ensures var t := BeginSteps<P, E>(first) + BeginSteps(second) + EndSteps(first, body, hook);
            Pending(t) == multiset{second} && !WorkingAfter(w, t)
  {
    var b1, b2 := BeginSteps<P, E>(first), BeginSteps<P, E>(second);
    var e := EndSteps(first, body, hook);
    StartedEndedAppend(b1, b2);
    StartedEndedAppend(b1 + b2, e);
    WorkingAfterAppend(w, b1 + b2, e);
  }

  class AsyncCommand<P, E> {
    var isWorking: bool
    /** The invocation list of `CanExecuteChanged`. */
    var handlers: seq<Handler>
    /** Everything observable the command has done, oldest first. */
    ghost var trace: seq<Step<P, E>>

    ghost predicate Valid()
      reads this
    {
      Consistent(isWorking, trace)
    }

    constructor ()
      ensures Valid() && !isWorking && handlers == [] && trace == []
    {
      isWorking, handlers := false, [];
      trace := [];
    }

    /** Always true: the flag is not consulted (the function may not read it). */
    function CanExecute(parameter: P): (r: bool)
      ensures r
    {
      true
    }

    /** The begin half of `ExecuteAsync`: `IsWorking = true; DoExecute(parameter)`. */
    method BeginExecute(parameter: P)
      requires Valid()
      modifies this
      ensures Valid() && isWorking && handlers == old(handlers)
      ensures trace == old(trace) + BeginSteps(parameter)
      ensures Pending(trace) == old(Pending(trace)) + multiset{parameter}
    {
      ghost var t0 := trace;
      AssignKeepsConsistent(isWorking, trace, true);
      isWorking := true;
      trace := trace + [SetWorking(true)];
      StartKeepsConsistent(trace, parameter);
      trace := trace + [RunBody(parameter)];
      assert trace == t0 + BeginSteps(parameter) by {
        AppendAssociates(t0, [SetWorking(true)], [RunBody(parameter)]);
      }
    }

    /** The end half of `ExecuteAsync` for a begun execution whose awaited
        `DoExecute` ended with `body`; `hook` is how `OnThrownException` would
        end, and its fault is swallowed. */
    method EndExecute(parameter: P, body: Outcome<E>, hook: Outcome<E>)
      requires Valid()
      requires parameter in Pending(trace)
      modifies this
      ensures Valid() && !isWorking && handlers == old(handlers)
      ensures trace == old(trace) + EndSteps(parameter, body, hook)
      ensures Pending(trace) == old(Pending(trace)) - multiset{parameter}
    {
      // `t` is the trace so far, `done` what this call has appended to it
      ghost var t, done := trace + [BodyEnded(parameter, body)], [BodyEnded(parameter, body)];
      EndKeepsConsistent(isWorking, trace, parameter, body);
      match body {
        case Completed =>
        case Faulted(error) =>
          // catch: OnThrownException(parameter, error); a fault it raises is swallowed
          HookKeepsConsistent(isWorking, t, parameter, error, hook);
          AppendAssociates(trace, done, [RunHook(parameter, error, hook)]);
          t, done := t + [RunHook(parameter, error, hook)], done + [RunHook(parameter, error, hook)];
      }
      // finally
      AssignKeepsConsistent(isWorking, t, false);
      AppendAssociates(trace, done, [SetWorking(false)]);
      t, done := t + [SetWorking(false)], done + [SetWorking(false)];
      assert done == EndSteps(parameter, body, hook);
      isWorking, trace := false, t;
    }

    /** `ExecuteAsync(parameter)` run to completion without interleaving: it
        does not consult `CanExecute`, changes only `IsWorking` (false again
        at the end) and completes normally whatever the body and hook did. */
    method ExecuteAsync(parameter: P, body: Outcome<E>, hook: Outcome<E>) returns (r: Outcome<E>)
      requires Valid()
      modifies this
      ensures Valid() && !isWorking && handlers == old(handlers)
      ensures trace == old(trace) + ExecuteSteps(parameter, body, hook)
      ensures Pending(trace) == old(Pending(trace))
      ensures r == Completed
    {
      ghost var t0 := trace;
      BeginExecute(parameter);
      EndExecute(parameter, body, hook);
      AppendAssociates(t0, BeginSteps(parameter), EndSteps(parameter, body, hook));
      BeginThenEnd(Pending(t0), parameter);
      r := Completed;
    }

    /** `CanExecuteChanged += handler` */
    method AddCanExecuteChanged(handler: Handler)
      modifies this
      ensures handlers == Combine(old(handlers), handler)
      ensures isWorking == old(isWorking) && trace == old(trace)
    {
      handlers := Combine(handlers, handler);
    }

    /** `CanExecuteChanged -= handler` */
    method RemoveCanExecuteChanged(handler: Handler)
      modifies this
      ensures handlers == Remove(old(handlers), handler)
      ensures isWorking == old(isWorking) && trace == old(trace)
    {
      handlers := Remove(handlers, handler);
    }

    /** Invokes the current subscribers in order; none when there are none. */
    method RaiseCanExecuteChanged()
      requires Valid()
      modifies this
      ensures Valid() && isWorking == old(isWorking) && handlers == old(handlers)
      ensures trace == old(trace) + [Raise(handlers)]
      ensures Pending(trace) == old(Pending(trace))
    {
      RaiseKeepsConsistent(isWorking, trace, handlers);
      trace := trace + [Raise(handlers)];
    }
  }
}

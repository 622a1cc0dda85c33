/** `AsyncBindableCommand` of Smaragd: the same `IsWorking` lifecycle as
    MVVMBase's `AsyncCommand`, except that `CanExecute` is `!IsWorking`, the
    private `IsWorking` setter raises `CanExecuteChanged` only when the value
    really changes, and a fault of `DoExecute` is not caught: it leaves
    `ExecuteAsync` after the `finally` has reset the flag. */
module SmaragdCommands {
  import opened Events
  import opened Trace

  /** The private `IsWorking` setter (`SetProperty`, then a raise when it reports a change),
      when the flag is `current` and the subscribers are `handlers`: it leaves
      the flag at `value`, raises `CanExecuteChanged` (invoking every
      subscriber once) exactly when the value changes, assigning the current
      value raises nothing, and no body starts or ends. */
  function SetterSteps<P, E>(current: bool, value: bool, handlers: seq<Handler>): (s: seq<Step<P, E>>)
    ensures WorkingAfter(current, s) == value
    ensures Raises(s) == (if current != value then 1 else 0)
    ensures Invoked(s) == (if current != value then handlers else [])
    ensures Started(s) == multiset{} && Ended(s) == multiset{}
  {
    if current != value then
      TwoSteps<P, E>(current, SetWorking(value), Raise(handlers));
      [SetWorking(value)] + [Raise(handlers)]
    else
      []
  }

  /** `IsWorking = true; DoExecute(parameter)` entered with the flag at
      `current`: the body of this parameter starts and the flag ends true;
      `CanExecuteChanged` is raised once when the command was idle and not at
      all when it was already working. */
  function BeginSteps<P, E>(current: bool, parameter: P, handlers: seq<Handler>): (s: seq<Step<P, E>>)
    ensures Started(s) == multiset{parameter} && Ended(s) == multiset{}
    ensures WorkingAfter(current, s)
    ensures Raises(s) == (if current then 0 else 1)
    ensures Invoked(s) == (if current then [] else handlers)
  {
    var a := SetterSteps<P, E>(current, true, handlers);
    var b: seq<Step<P, E>> := [RunBody(parameter)];
    OneStep(true, b[0]);
    WorkingAfterAppend(current, a, b);
    CountsAppend(a, b);
    InvokedAppend(a, b);
    StartedEndedAppend(a, b);
    a + b
  }

  /** The awaited result and the `finally`, entered with the flag at
      `current`: the result of this parameter's body arrives, the flag ends
      false, and `CanExecuteChanged` is raised once exactly when the flag was
      still true. */
  function EndSteps<P, E>(current: bool, parameter: P, body: Outcome<E>, handlers: seq<Handler>): (s: seq<Step<P, E>>)
    ensures Started(s) == multiset{} && Ended(s) == multiset{parameter}
    ensures !WorkingAfter(current, s)
    ensures Raises(s) == (if current then 1 else 0)
    ensures Invoked(s) == (if current then handlers else [])
  {
    var a: seq<Step<P, E>> := [BodyEnded(parameter, body)];
    var b := SetterSteps<P, E>(current, false, handlers);
    OneStep(current, a[0]);
    WorkingAfterAppend(current, a, b);
    CountsAppend(a, b);
    InvokedAppend(a, b);
    StartedEndedAppend(a, b);
    a + b
  }

  /** One execution without interleaving, entered with the flag at `current`:
      it starts and finishes this parameter's body and leaves the flag false.
      It raises `CanExecuteChanged` once on the way back to idle and, when it
      starts idle, once more on the way to working. */
  function ExecuteSteps<P, E>(current: bool, parameter: P, body: Outcome<E>, handlers: seq<Handler>): (s: seq<Step<P, E>>)
    ensures Started(s) == multiset{parameter} && Ended(s) == multiset{parameter}
    ensures !WorkingAfter(current, s)
    ensures Raises(s) == (if current then 1 else 2)
    ensures Invoked(s) == (if current then handlers else handlers + handlers)
  {
    var b := BeginSteps<P, E>(current, parameter, handlers);
    var e := EndSteps<P, E>(true, parameter, body, handlers);
    WorkingAfterAppend(current, b, e);
    CountsAppend(b, e);
    InvokedAppend(b, e);
    StartedEndedAppend(b, e);
    b + e
  }

  /** One execution is the setter's steps to working, the start of the body,
      the arrival of its result and the setter's steps back to idle; the body
      starts, and its result arrives, while the flag is true. */
  lemma {:induction false} ExecuteWorkingThroughBody<P, E>(w: bool, parameter: P, body: Outcome<E>, handlers: seq<Handler>)
    ensures var pre := SetterSteps<P, E>(w, true, handlers);
            var run: seq<Step<P, E>> := [RunBody(parameter)];
            ExecuteSteps(w, parameter, body, handlers)
              == pre + run + [BodyEnded(parameter, body)] + SetterSteps(true, false, handlers)
            && WorkingAfter(w, pre) && WorkingAfter(w, pre + run)
  {
    var pre := SetterSteps<P, E>(w, true, handlers);
    var run: seq<Step<P, E>> := [RunBody(parameter)];
    AppendAssociates(pre + run, [BodyEnded(parameter, body)], SetterSteps(true, false, handlers));
  }

  /** Two overlapping executions from idle, each half entered with the flag
      that replaying the halves before it leaves (proved below: true, true,
      false): the second start finds the flag already set and the second
      finish finds it already reset, so the pair raises `CanExecuteChanged`
      twice in all (invoking every subscriber twice), leaves the flag false
      and no execution pending. */
  lemma {:induction false} OverlapRaisesTwice<P, E>(first: P, second: P, body1: Outcome<E>, body2: Outcome<E>, handlers: seq<Handler>)
    ensures var b1 := BeginSteps<P, E>(false, first, handlers);
            var b2 := BeginSteps<P, E>(true, second, handlers);
            var e1 := EndSteps<P, E>(true, first, body1, handlers);
            var e2 := EndSteps<P, E>(false, second, body2, handlers);
            var t := b1 + b2 + e1 + e2;
            WorkingAfter(false, b1) && WorkingAfter(false, b1 + b2) && !WorkingAfter(false, b1 + b2 + e1)
            && Raises(t) == 2 && Invoked(t) == handlers + handlers
            && !WorkingAfter(false, t) && Pending(t) == multiset{}
  {
    var b1 := BeginSteps<P, E>(false, first, handlers);
    var b2 := BeginSteps<P, E>(true, second, handlers);
    var e1 := EndSteps<P, E>(true, first, body1, handlers);
    var e2 := EndSteps<P, E>(false, second, body2, handlers);
    OverlapFlag(b1, b2, e1, e2);
    CountParts(b1, b2, e1, e2);
    OverlapInvoked(b1, b2, e1, e2, handlers);
    OverlapPending(b1, b2, e1, e2, first, second);
  }

  // Helpers of OverlapRaisesTwice, one summary of the four halves each.

  lemma OverlapFlag<P, E>(b1: seq<Step<P, E>>, b2: seq<Step<P, E>>, e1: seq<Step<P, E>>, e2: seq<Step<P, E>>)
    requires WorkingAfter(false, b1) && WorkingAfter(true, b2)
    requires !WorkingAfter(true, e1) && !WorkingAfter(false, e2)
    ensures WorkingAfter(false, b1 + b2) && !WorkingAfter(false, b1 + b2 + e1)
    ensures !WorkingAfter(false, b1 + b2 + e1 + e2)
  {
    WorkingAfterAppend(false, b1, b2);
    WorkingAfterAppend(false, b1 + b2, e1);
    WorkingAfterAppend(false, b1 + b2 + e1, e2);
  }

  lemma OverlapInvoked<P, E>(b1: seq<Step<P, E>>, b2: seq<Step<P, E>>, e1: seq<Step<P, E>>, e2: seq<Step<P, E>>, handlers: seq<Handler>)
    requires Invoked(b1) == handlers && Invoked(b2) == []
    requires Invoked(e1) == handlers && Invoked(e2) == []
    ensures Invoked(b1 + b2 + e1 + e2) == handlers + handlers
  {
    InvokedAppend(b1, b2);
    assert Invoked(b1 + b2) == handlers;
    InvokedAppend(b1 + b2, e1);
    InvokedAppend(b1 + b2 + e1, e2);
  }

  lemma OverlapPending<P, E>(b1: seq<Step<P, E>>, b2: seq<Step<P, E>>, e1: seq<Step<P, E>>, e2: seq<Step<P, E>>, first: P, second: P)
    requires Started(b1) == multiset{first} && Started(b2) == multiset{second}
    requires Started(e1) == multiset{} && Started(e2) == multiset{}
    requires Ended(b1) == multiset{} && Ended(b2) == multiset{}
    requires Ended(e1) == multiset{first} && Ended(e2) == multiset{second}
    ensures Pending(b1 + b2 + e1 + e2) == multiset{}
  {
    StartedEndedAppend(b1, b2);
    StartedEndedAppend(b1 + b2, e1);
    StartedEndedAppend(b1 + b2 + e1, e2);
  }

  lemma CountParts<P, E>(a: seq<Step<P, E>>, b: seq<Step<P, E>>, c: seq<Step<P, E>>, d: seq<Step<P, E>>)
    ensures Raises(a + b + c + d) == Raises(a) + Raises(b) + Raises(c) + Raises(d)
  {
    CountsAppend(a + b + c, d);
    CountsAppend(a + b, c);
    CountsAppend(a, b);
  }

  class AsyncBindableCommand<P, E> {
    /** `_isWorking` */
    var isWorking: bool
    /** The invocation list of `CanExecuteChanged`. */
    var handlers: seq<Handler>
    /** Everything observable the command has done, oldest first. */
    ghost var trace: seq<Step<P, E>>

    ghost predicate Valid()
      reads this
    {
      Consistent(isWorking, trace)
    }

    constructor ()
      ensures Valid() && !isWorking && handlers == [] && trace == []
    {
      isWorking, handlers := false, [];
      trace := [];
    }

    /** Executable exactly while no execution is working. */
    function CanExecute(parameter: P): (r: bool)
      reads this
      ensures r <==> !isWorking
    {
      !isWorking
    }

    /** `SetProperty(ref _isWorking, value, out _)` of the base class: assign
        only when different and say whether it did. */
    method SetProperty(value: bool) returns (changed: bool)
      requires Valid()
      modifies this
      ensures Valid() && isWorking == value && handlers == old(handlers)
      ensures changed <==> old(isWorking) != value
      ensures trace == old(trace) + (if changed then [SetWorking(value)] else [])
      ensures Pending(trace) == old(Pending(trace))
    {
      changed := isWorking != value;
      if changed {
        AssignKeepsConsistent(isWorking, trace, value);
        isWorking := value;
        trace := trace + [SetWorking(value)];
      }
    }

    /** The private `IsWorking` setter. */
    method SetIsWorking(value: bool)
      requires Valid()
      modifies this
      ensures Valid() && isWorking == value && handlers == old(handlers)
      ensures trace == old(trace) + SetterSteps(old(isWorking), value, handlers)
      ensures Pending(trace) == old(Pending(trace))
    {
      ghost var t0, w0 := trace, isWorking;
      var changed := SetProperty(value);
      if changed {
        RaiseCanExecuteChanged();
        AppendAssociates(t0, [SetWorking(value)], [Raise(handlers)]);
      } else {
        assert trace == t0 + [];
      }
    }

    /** The begin half of `ExecuteAsync`; it does not consult `CanExecute`. */
    method BeginExecute(parameter: P)
      requires Valid()
      modifies this
      ensures Valid() && isWorking && handlers == old(handlers)
      ensures trace == old(trace) + BeginSteps(old(isWorking), parameter, handlers)
      ensures Pending(trace) == old(Pending(trace)) + multiset{parameter}
    {
      ghost var t0, w0 := trace, isWorking;
      SetIsWorking(true);
      StartKeepsConsistent(trace, parameter);
      trace := trace + [RunBody(parameter)];
      assert trace == t0 + BeginSteps(w0, parameter, handlers) by {
        AppendAssociates(t0, SetterSteps(w0, true, handlers), [RunBody(parameter)]);
      }
    }

    /** The end half of `ExecuteAsync` for a begun execution whose awaited
        `DoExecute` ended with `body`: the `finally` resets the flag, then the
        outcome (a fault included) is what `ExecuteAsync` ends with. */
    method EndExecute(parameter: P, body: Outcome<E>) returns (r: Outcome<E>)
      requires Valid()
      requires parameter in Pending(trace)
      modifies this
      ensures Valid() && !isWorking && handlers == old(handlers)
      ensures trace == old(trace) + EndSteps(old(isWorking), parameter, body, handlers)
      ensures Pending(trace) == old(Pending(trace)) - multiset{parameter}
      ensures r == body
    {
      ghost var t0, w0 := trace, isWorking;
      EndKeepsConsistent(isWorking, trace, parameter, body);
      trace := trace + [BodyEnded(parameter, body)];
      // finally
      SetIsWorking(false);
      assert trace == t0 + EndSteps(w0, parameter, body, handlers) by {
        AppendAssociates(t0, [BodyEnded(parameter, body)], SetterSteps(w0, false, handlers));
      }
      r := body;
    }

    /** `ExecuteAsync(parameter)` run to completion without interleaving. */
    method ExecuteAsync(parameter: P, body: Outcome<E>) returns (r: Outcome<E>)
      requires Valid()
      modifies this
      ensures Valid() && !isWorking && handlers == old(handlers)
      ensures trace == old(trace) + ExecuteSteps(old(isWorking), parameter, body, handlers)
      ensures Pending(trace) == old(Pending(trace))
      ensures r == body
    {
      ghost var t0, w0 := trace, isWorking;
      BeginExecute(parameter);
      r := EndExecute(parameter, body);
      AppendAssociates(t0, BeginSteps(w0, parameter, handlers), EndSteps(true, parameter, body, handlers));
      BeginThenEnd(Pending(t0), parameter);
    }

    /** `CanExecuteChanged += handler` */
    method AddCanExecuteChanged(handler: Handler)
      modifies this
      ensures handlers == Combine(old(handlers), handler)
      ensures isWorking == old(isWorking) && trace == old(trace)
    {
      handlers := Combine(handlers, handler);
    }

    /** `CanExecuteChanged -= handler` */
    method RemoveCanExecuteChanged(handler: Handler)
      modifies this
      ensures handlers == Remove(old(handlers), handler)
      ensures isWorking == old(isWorking) && trace == old(trace)
    {
      handlers := Remove(handlers, handler);
    }

    /** Invokes the current subscribers in order; none when there are none. */
    method RaiseCanExecuteChanged()
      requires Valid()
      modifies this
      ensures Valid() && isWorking == old(isWorking) && handlers == old(handlers)
      ensures trace == old(trace) + [Raise(handlers)]
      ensures Pending(trace) == old(Pending(trace))
    {
      RaiseKeepsConsistent(isWorking, trace, handlers);
      trace := trace + [Raise(handlers)];
    }
  }
}

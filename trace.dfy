/** What a command does that an observer can see, one step at a time, and
    the value of `IsWorking` that a sequence of steps leaves behind. */
module Trace {
  import opened Events

  /** How an awaited task (or a hook call) ended. */
  datatype Outcome<E> = Completed | Faulted(error: E)

  datatype Step<P, E> =
    | SetWorking(value: bool)                          // assignment to IsWorking
    | RunBody(parameter: P)                            // DoExecute(parameter) is called
    | BodyEnded(parameter: P, outcome: Outcome<E>)     // its task has completed or faulted
    | RunHook(parameter: P, error: E, hook: Outcome<E>) // OnThrownException(parameter, error)
    | Raise(invoked: seq<Handler>)                     // RaiseCanExecuteChanged with this invocation list

  /** Number of raises of `CanExecuteChanged` in `t`. */
  function Raises<P, E>(t: seq<Step<P, E>>): (n: nat)
    ensures n <= |t|
  {
    if t == [] then 0 else (if t[0].Raise? then 1 else 0) + Raises(t[1..])
  }

  /** Number of calls of the fault hook in `t`. */
  function Hooks<P, E>(t: seq<Step<P, E>>): (n: nat)
    ensures n <= |t|
  {
    if t == [] then 0 else (if t[0].RunHook? then 1 else 0) + Hooks(t[1..])
  }

  lemma {:induction false} CountsAppend<P, E>(a: seq<Step<P, E>>, b: seq<Step<P, E>>)
    ensures Raises(a + b) == Raises(a) + Raises(b)
    ensures Hooks(a + b) == Hooks(a) + Hooks(b)
  {
    if a != [] {
      assert (a + b)[0] == a[0] && (a + b)[1..] == a[1..] + b;
      CountsAppend(a[1..], b);
    } else {
      assert a + b == b;
    }
  }

  /** The parameters of the bodies started in `t`, one copy per start. */
  ghost function Started<P, E>(t: seq<Step<P, E>>): multiset<P>
  {
    if t == [] then multiset{}
    else (if t[0].RunBody? then multiset{t[0].parameter} else multiset{}) + Started(t[1..])
  }

  /** The parameters of the results that arrived in `t`, one copy per result. */
  ghost function Ended<P, E>(t: seq<Step<P, E>>): multiset<P>
  {
    if t == [] then multiset{}
    else (if t[0].BodyEnded? then multiset{t[0].parameter} else multiset{}) + Ended(t[1..])
  }

  lemma {:induction false} StartedEndedAppend<P, E>(a: seq<Step<P, E>>, b: seq<Step<P, E>>)
    ensures Started(a + b) == Started(a) + Started(b)
    ensures Ended(a + b) == Ended(a) + Ended(b)
  {
    if a != [] {
      assert (a + b)[0] == a[0] && (a + b)[1..] == a[1..] + b;
      StartedEndedAppend(a[1..], b);
    } else {
      assert a + b == b;
    }
  }

  /** The executions whose body has started and whose result is not in yet,
      by parameter. */
  ghost function Pending<P, E>(t: seq<Step<P, E>>): multiset<P>
  {
    Started(t) - Ended(t)
  }

  /** The handlers invoked by the raises of `t`, in invocation order. */
  function Invoked<P, E>(t: seq<Step<P, E>>): (r: seq<Handler>)
    ensures Raises(t) == 0 ==> r == []
  {
    if t == [] then []
    else (if t[0].Raise? then t[0].invoked else []) + Invoked(t[1..])
  }

  lemma {:induction false} InvokedAppend<P, E>(a: seq<Step<P, E>>, b: seq<Step<P, E>>)
    ensures Invoked(a + b) == Invoked(a) + Invoked(b)
  {
    if a != [] {
      assert (a + b)[0] == a[0] && (a + b)[1..] == a[1..] + b;
      InvokedAppend(a[1..], b);
    } else {
      assert a + b == b;
    }
  }

  /** `IsWorking` after the single step `s`, starting from `w`. */
  function Update<P, E>(w: bool, s: Step<P, E>): bool
  {
    if s.SetWorking? then s.value else w
  }

  /** `IsWorking` after replaying `t` from the value `w`: either `w` or a
      value that some step of `t` assigned. */
  function WorkingAfter<P, E>(w: bool, t: seq<Step<P, E>>): (r: bool)
    ensures r != w ==> exists i :: 0 <= i < |t| && t[i].SetWorking? && t[i].value == r
    decreases |t|
  {
    if t == [] then w
    else
      var r := WorkingAfter(Update(w, t[0]), t[1..]);
      assert r != Update(w, t[0]) ==> exists i :: 1 <= i < |t| && t[i].SetWorking? && t[i].value == r by {
        if r != Update(w, t[0]) {
          var i :| 0 <= i < |t[1..]| && t[1..][i].SetWorking? && t[1..][i].value == r;
          assert t[i + 1] == t[1..][i];
        }
      }
      r
  }

  /** Replay is compositional. */
  lemma {:induction false} WorkingAfterAppend<P, E>(w: bool, a: seq<Step<P, E>>, b: seq<Step<P, E>>)
    ensures WorkingAfter(w, a + b) == WorkingAfter(WorkingAfter(w, a), b)
    decreases |a|
  {
    if a != [] {
      assert (a + b)[0] == a[0] && (a + b)[1..] == a[1..] + b;
      WorkingAfterAppend(Update(w, a[0]), a[1..], b);
    } else {
      assert a + b == b;
    }
  }

  /** Only an assignment to `IsWorking` changes it: steps that are not
      `SetWorking` leave the flag as it was. */
  lemma {:induction false} WorkingAfterNoAssignment<P, E>(w: bool, t: seq<Step<P, E>>)
    requires forall i :: 0 <= i < |t| ==> !t[i].SetWorking?
    ensures WorkingAfter(w, t) == w
    decreases |t|
  {
    if t != [] {
      WorkingAfterNoAssignment(w, t[1..]);
    }
  }

  /** The last assignment wins: a trace ending in `SetWorking(v)` leaves `v`. */
  lemma WorkingAfterLastAssignment<P, E>(w: bool, t: seq<Step<P, E>>, v: bool)
    ensures WorkingAfter(w, t + [SetWorking(v)]) == v
  {
    WorkingAfterAppend(w, t, [SetWorking(v)]);
  }

  /** Every body of `t` starts while `IsWorking` is true (replaying from `w`). */
  ghost predicate BodiesRunWorking<P, E>(w: bool, t: seq<Step<P, E>>)
  {
    forall i :: 0 <= i < |t| && t[i].RunBody? ==> WorkingAfter(w, t[..i])
  }

  lemma {:induction false} BodiesRunWorkingAppend<P, E>(w: bool, a: seq<Step<P, E>>, b: seq<Step<P, E>>)
    requires BodiesRunWorking(w, a)
    requires BodiesRunWorking(WorkingAfter(w, a), b)
    ensures BodiesRunWorking(w, a + b)
  {
    forall i | 0 <= i < |a + b| && (a + b)[i].RunBody?
      ensures WorkingAfter(w, (a + b)[..i])
    {
      if i < |a| {
        assert (a + b)[..i] == a[..i];
      } else {
        assert (a + b)[..i] == a + b[..i - |a|];
        WorkingAfterAppend(w, a, b[..i - |a|]);
      }
    }
  }

  /** What a command's state must satisfy: its flag is what replaying its
      trace from idle gives, no body of it started while the flag was false,
      and every result that arrived belongs to an execution that began. */
  ghost predicate Consistent<P, E>(working: bool, t: seq<Step<P, E>>)
  {
    working == WorkingAfter(false, t) && BodiesRunWorking(false, t) && Ended(t) <= Started(t)
  }

  lemma ConsistentAppend<P, E>(working: bool, t: seq<Step<P, E>>, steps: seq<Step<P, E>>)
    requires Consistent(working, t)
    requires BodiesRunWorking(working, steps)
    requires Ended(steps) <= Pending(t) + Started(steps)
    ensures Consistent(WorkingAfter(working, steps), t + steps)
    ensures Pending(t + steps) == Pending(t) + Started(steps) - Ended(steps)
  {
    WorkingAfterAppend(false, t, steps);
    BodiesRunWorkingAppend(false, t, steps);
    StartedEndedAppend(t, steps);
  }

  lemma AppendAssociates<P, E>(a: seq<Step<P, E>>, b: seq<Step<P, E>>, c: seq<Step<P, E>>)
    ensures (a + b) + c == a + (b + c)
  {
  }

  // One step appended to a consistent trace, by kind of step.

  lemma AssignKeepsConsistent<P, E>(working: bool, t: seq<Step<P, E>>, value: bool)
    requires Consistent(working, t)
    ensures Consistent(value, t + [SetWorking(value)])
    ensures Pending(t + [SetWorking(value)]) == Pending(t)
  {
    var s: seq<Step<P, E>> := [SetWorking(value)];
    OneStep(working, s[0]);
    ConsistentAppend(working, t, s);
  }

  lemma RaiseKeepsConsistent<P, E>(working: bool, t: seq<Step<P, E>>, handlers: seq<Handler>)
    requires Consistent(working, t)
    ensures Consistent(working, t + [Raise(handlers)])
    ensures Pending(t + [Raise(handlers)]) == Pending(t)
  {
    var s: seq<Step<P, E>> := [Raise(handlers)];
    OneStep(working, s[0]);
    ConsistentAppend(working, t, s);
  }

  lemma HookKeepsConsistent<P, E>(working: bool, t: seq<Step<P, E>>, parameter: P, error: E, hook: Outcome<E>)
    requires Consistent(working, t)
    ensures Consistent(working, t + [RunHook(parameter, error, hook)])
    ensures Pending(t + [RunHook(parameter, error, hook)]) == Pending(t)
  {
    var s: seq<Step<P, E>> := [RunHook(parameter, error, hook)];
    OneStep(working, s[0]);
    ConsistentAppend(working, t, s);
  }

  lemma StartKeepsConsistent<P, E>(t: seq<Step<P, E>>, parameter: P)
    requires Consistent(true, t)
    ensures Consistent(true, t + [RunBody(parameter)])
    ensures Pending(t + [RunBody(parameter)]) == Pending(t) + multiset{parameter}
  {
    var s: seq<Step<P, E>> := [RunBody(parameter)];
    OneStep(true, s[0]);
    ConsistentAppend(true, t, s);
    assert Pending(t) + multiset{parameter} - multiset{} == Pending(t) + multiset{parameter};
  }

  lemma EndKeepsConsistent<P, E>(working: bool, t: seq<Step<P, E>>, parameter: P, body: Outcome<E>)
    requires Consistent(working, t) && parameter in Pending(t)
    ensures Consistent(working, t + [BodyEnded(parameter, body)])
    ensures Pending(t + [BodyEnded(parameter, body)]) == Pending(t) - multiset{parameter}
  {
    var s: seq<Step<P, E>> := [BodyEnded(parameter, body)];
    OneStep(working, s[0]);
    ConsistentAppend(working, t, s);
    assert Pending(t) + multiset{} == Pending(t);
  }

  /** Ending a begun execution leaves the executions that were pending before. */
  lemma BeginThenEnd<P>(pending: multiset<P>, parameter: P)
    ensures (pending + multiset{parameter}) - multiset{parameter} == pending
  {
  }

  /** What a single step contributes to each summary of a trace. */
  lemma OneStep<P, E>(w: bool, x: Step<P, E>)
    ensures Started([x]) == if x.RunBody? then multiset{x.parameter} else multiset{}
    ensures Ended([x]) == if x.BodyEnded? then multiset{x.parameter} else multiset{}
    ensures Raises([x]) == (if x.Raise? then 1 else 0)
    ensures Hooks([x]) == (if x.RunHook? then 1 else 0)
    ensures Invoked([x]) == if x.Raise? then x.invoked else []
    ensures WorkingAfter(w, [x]) == Update(w, x)
  {
    assert [x][1..] == [];
  }

  /** What two consecutive steps contribute to each summary of a trace. */
  lemma TwoSteps<P, E>(w: bool, x: Step<P, E>, y: Step<P, E>)
    ensures Started([x] + [y]) == Started([x]) + Started([y])
    ensures Ended([x] + [y]) == Ended([x]) + Ended([y])
    ensures Raises([x] + [y]) == Raises([x]) + Raises([y])
    ensures Invoked([x] + [y]) == Invoked([x]) + Invoked([y])
    ensures WorkingAfter(w, [x] + [y]) == Update(Update(w, x), y)
  {
    StartedEndedAppend([x], [y]);
    CountsAppend([x], [y]);
    InvokedAppend([x], [y]);
    WorkingAfterAppend(w, [x], [y]);
    OneStep(w, x);
    OneStep(Update(w, x), y);
    OneStep(w, y);
  }

  /** Raising the event invokes exactly the handlers subscribed at that moment,
      in subscription order; with none subscribed it invokes nobody. */
  lemma RaiseInvokesSubscribers<P, E>(t: seq<Step<P, E>>, handlers: seq<Handler>)
    ensures Invoked(t + [Raise(handlers)]) == Invoked(t) + handlers
    ensures Raises(t + [Raise(handlers)]) == Raises(t) + 1
  {
    InvokedAppend(t, [Raise(handlers)]);
    CountsAppend(t, [Raise(handlers)]);
    var r: seq<Step<P, E>> := [Raise(handlers)];
    assert r[1..] == [];
  }
}

# Asynchronous commands and predicate validation of MVVMBase / Smaragd

This project models three small parts of the MVVMBase and Smaragd
libraries for the Model-View-ViewModel pattern, and proves their contracts.

- **`AsyncCommand`** (MVVMBase). A command object with an `IsWorking` flag.
  `ExecuteAsync` sets the flag and awaits the abstract `DoExecute`. A fault of
  `DoExecute` goes to the overridable `OnThrownException` hook, and a fault of
  the hook is swallowed. The `finally` resets the flag. `CanExecute` is
  always true. The `CanExecuteChanged` event keeps an invocation list, which
  `RaiseCanExecuteChanged` invokes.
- **`AsyncBindableCommand`** (Smaragd). The same lifecycle with three
  differences:
  - `CanExecute` is `!IsWorking`.
  - The private `IsWorking` setter raises `CanExecuteChanged` only when the
    value really changes.
  - Faults of `DoExecute` are not caught. They leave `ExecuteAsync` after the
    flag has been reset.
- **`PredicateValidation<T>`** (Smaragd). A validation rule made of a
  predicate and an error message. `IsValid` returns whether the predicate
  holds and, through its `out` parameter, null or the message.

Files and modules:

- `events.dfy` (`Events`): the invocation list of a `CanExecuteChanged`
  event. `+=` appends a handler. `-=` removes the last occurrence of the
  handler and does nothing when it is absent (.NET delegate removal).
- `trace.dfy` (`Trace`): the observable steps of a command. A step is an
  assignment to `IsWorking`, the call of `DoExecute`, the arrival of its
  result, a call of the hook, or a raise of `CanExecuteChanged` together with
  the handlers it invoked. `WorkingAfter` replays a sequence of steps to give
  the flag. `Consistent` is the invariant both command classes keep: the flag
  equals the replay of the command's trace, no body ever started while the
  flag was false, and every result that arrived belongs to an execution that
  began.
- `async_command.dfy` (`MvvmBaseCommands`) and `async_bindable_command.dfy`
  (`SmaragdCommands`): each command as a class with fields `isWorking`,
  `handlers` and the ghost field `trace`. The methods update those fields in
  place.
  - `ExecuteAsync` is split into `BeginExecute` (set the flag, call
    `DoExecute`) and `EndExecute` (the awaited result is in, then the
    `catch`/`finally`). `ExecuteAsync` runs the two halves back to back.
  - Overlapping executions are interleavings of the two halves.
  - The step functions `BeginSteps`, `EndSteps` and `ExecuteSteps` state what
    each half appends to the trace. The lemmas beside them prove the
    lifecycle properties for every starting state.
- `predicate_validation.dfy` (`SmaragdValidation`): the rule as an immutable
  datatype with an `IsValid` function. Both fields are readonly in the source.
  A datatype value cannot be changed, so `IsValid` cannot affect the rule.
  The predicate is a Dafny function: total and deterministic, which a C#
  delegate need not be (see "Left out").

What `DoExecute` and `OnThrownException` do is not visible to the command.
Their outcomes (`Completed` or `Faulted(error)`) are passed to the model as
parameters. Execution does not consult `CanExecute` in either class, so no
`ExecuteAsync`, `BeginExecute` or `EndExecute` requires anything about the
flag. `EndExecute` only requires that some execution has begun and not
finished.

The two command classes differ in the code in two ways worth stating.
`AsyncCommand.CanExecute` returns true whatever the flag
(MVVMBase/Commands/AsyncCommand.cs:23-26). `AsyncBindableCommand.ExecuteAsync`
has no `catch`, so a fault of `DoExecute` propagates to its caller
(Smaragd/Commands/AsyncBindableCommand.cs:43-51). `AsyncCommand.ExecuteAsync`
always completes normally.

The trace of a command keeps, besides the flag, the multiset of
executions that have begun and not yet ended (`Pending`). `EndExecute`
requires its parameter to be pending and removes one copy of it, and
`BeginExecute` adds one.

Proof helpers, which state no property of their own and are used only
inside the proofs: `Trace.CountsAppend`, `Trace.StartedEndedAppend`,
`Trace.InvokedAppend`, `Trace.WorkingAfterAppend`,
`Trace.BodiesRunWorkingAppend`, `Trace.ConsistentAppend`,
`Trace.AppendAssociates`, `Trace.AssignKeepsConsistent`,
`Trace.RaiseKeepsConsistent`, `Trace.HookKeepsConsistent`,
`Trace.StartKeepsConsistent`, `Trace.EndKeepsConsistent`,
`Trace.BeginThenEnd`, `Trace.OneStep`, `Trace.TwoSteps`,
`SmaragdCommands.OverlapFlag`, `SmaragdCommands.CountParts`,
`SmaragdCommands.OverlapInvoked` and `SmaragdCommands.OverlapPending`.

## Model

| member | source | states |
|---|---|---|
| Events.Combine | MVVMBase/Commands/AsyncCommand.cs:82-85 | Subscribing keeps the old invocation list as a prefix and puts the new handler last |
| Events.Remove | MVVMBase/Commands/AsyncCommand.cs:87-90 | Unsubscribing makes the invocation list one entry shorter when the handler is subscribed, and leaves the list as it was when it is not |
| Events.RemoveDropsLastOccurrence | MVVMBase/Commands/AsyncCommand.cs:87-90 | Unsubscribing deletes the last occurrence of the handler and keeps the order of the rest; an absent handler leaves the list unchanged |
| Events.LastIndexOf | MVVMBase/Commands/AsyncCommand.cs:89 | The occurrence that unsubscribing removes: the handler is at that index and nowhere after it, or the result is -1 exactly when the handler is absent |
| Events.RemoveMultiset | MVVMBase/Commands/AsyncCommand.cs:89 | Unsubscribing removes exactly one copy of the handler when it is subscribed, and none otherwise |
| Events.RemoveUndoesCombine | MVVMBase/Commands/AsyncCommand.cs:84-89 | Unsubscribing the handler just subscribed restores the previous invocation list |
| Events.RemoveCommutesWithCombine | MVVMBase/Commands/AsyncCommand.cs:84-89 | Unsubscribing one handler leaves a later subscription of a different handler in place, at the end |
| Trace.WorkingAfter | MVVMBase/Commands/AsyncCommand.cs:16 | `IsWorking` replayed over a sequence of steps: when it differs from the starting value, some step assigned that value to it |
| Trace.WorkingAfterNoAssignment | Smaragd/Commands/AsyncBindableCommand.cs:18-25 | Only an assignment through the setter changes `IsWorking`; steps without one leave it as it was |
| Trace.WorkingAfterLastAssignment | MVVMBase/Commands/AsyncCommand.cs:57-60 | After an assignment to `IsWorking`, the flag holds the assigned value, whatever came before |
| Trace.RaiseInvokesSubscribers | Smaragd/Commands/AsyncBindableCommand.cs:65-68 | Raising `CanExecuteChanged` invokes exactly the handlers subscribed at that moment, in subscription order, and invokes nobody when none are subscribed |
| MvvmBaseCommands.BeginSteps | MVVMBase/Commands/AsyncCommand.cs:46-47 | The begin half starts one body with the execution's parameter and leaves the flag true from any starting value; it calls no hook and raises nothing |
| MvvmBaseCommands.EndSteps | MVVMBase/Commands/AsyncCommand.cs:47-60 | The end half finishes the body of the execution's parameter, calls the hook once exactly when the body faulted, leaves the flag false from any starting value and raises nothing |
| MvvmBaseCommands.ExecuteSteps | MVVMBase/Commands/AsyncCommand.cs:42-61 | One execution starts and finishes the body of its parameter, leaves the flag false from any starting value and raises nothing |
| MvvmBaseCommands.BeginLeavesWorking | MVVMBase/Commands/AsyncCommand.cs:46-47 | After the begin half the flag is true, whatever the state before, and `DoExecute` is called while it is true |
| MvvmBaseCommands.EndLeavesIdle | MVVMBase/Commands/AsyncCommand.cs:49-60 | After the end half the flag is false, whether the body or the hook completed or faulted, and even if other executions are still outstanding |
| MvvmBaseCommands.ExecuteWorkingUntilFinally | MVVMBase/Commands/AsyncCommand.cs:42-61 | In one execution the flag is true from its assignment until the `finally`: while `DoExecute` runs, when its result arrives and while the hook runs. It is false at the end |
| MvvmBaseCommands.ExecuteHookOnFaultOnly | MVVMBase/Commands/AsyncCommand.cs:49-55 | The hook is called exactly once when the body faulted and never otherwise, with the execution's parameter and the body's fault; an execution never raises `CanExecuteChanged` |
| MvvmBaseCommands.OverlapFirstFinishResets | MVVMBase/Commands/AsyncCommand.cs:44-60 | `IsWorking` is one flag, not a count: with two executions begun, the first to finish resets it while the second is still pending |
| MvvmBaseCommands.AsyncCommand.constructor | MVVMBase/Commands/AsyncCommand.cs:16 | A new command is idle, has no subscribers and has done nothing |
| MvvmBaseCommands.AsyncCommand.CanExecute | MVVMBase/Commands/AsyncCommand.cs:23-26 | True for every parameter; the function cannot read `IsWorking` |
| MvvmBaseCommands.AsyncCommand.BeginExecute | MVVMBase/Commands/AsyncCommand.cs:44-47 | Sets the flag and starts the body; the subscribers are unchanged and the parameter is pending once more |
| MvvmBaseCommands.AsyncCommand.EndExecute | MVVMBase/Commands/AsyncCommand.cs:47-60 | For a pending execution: records the result, calls the hook on a fault (swallowing its fault), then resets the flag; one copy of the parameter is no longer pending |
| MvvmBaseCommands.AsyncCommand.ExecuteAsync | MVVMBase/Commands/AsyncCommand.cs:42-61 | Runs both halves, changes nothing but the flag (false again at the end) and the trace, leaves the pending executions as they were, and always completes normally |
| MvvmBaseCommands.AsyncCommand.AddCanExecuteChanged | MVVMBase/Commands/AsyncCommand.cs:82-85 | Appends the handler to the invocation list and changes nothing else |
| MvvmBaseCommands.AsyncCommand.RemoveCanExecuteChanged | MVVMBase/Commands/AsyncCommand.cs:87-90 | Removes the handler's last occurrence from the invocation list and changes nothing else |
| MvvmBaseCommands.AsyncCommand.RaiseCanExecuteChanged | MVVMBase/Commands/AsyncCommand.cs:96-99 | Invokes the current subscribers and leaves the flag, the invocation list and the pending executions unchanged |
| SmaragdCommands.SetterSteps | Smaragd/Commands/AsyncBindableCommand.cs:21-25 | The setter leaves the flag at the new value. It raises `CanExecuteChanged`, invoking each subscriber once, exactly when the value changes; assigning the current value raises nothing |
| SmaragdCommands.BeginSteps | Smaragd/Commands/AsyncBindableCommand.cs:45-46 | The begin half starts one body and leaves the flag true; it raises `CanExecuteChanged` once when the command was idle and not at all when it was already working |
| SmaragdCommands.EndSteps | Smaragd/Commands/AsyncBindableCommand.cs:46-51 | The end half finishes one body and leaves the flag false; it raises `CanExecuteChanged` once when the flag was still true and not at all when it was already false |
| SmaragdCommands.ExecuteSteps | Smaragd/Commands/AsyncBindableCommand.cs:41-52 | One execution starts and finishes its body and leaves the flag false. Starting idle it raises twice, once per transition. Starting while already working its start raises nothing and its end raises once |
| SmaragdCommands.ExecuteWorkingThroughBody | Smaragd/Commands/AsyncBindableCommand.cs:43-50 | One execution is the setter to true, the start of the body, its result and the setter to false; the body starts, and its result arrives, while the flag is true |
| SmaragdCommands.OverlapRaisesTwice | Smaragd/Commands/AsyncBindableCommand.cs:41-52 | Two overlapping executions from idle find the flag false, true, true and false at their four halves. They raise `CanExecuteChanged` twice in all, invoking every subscriber twice, and leave the flag false with nothing pending |
| SmaragdCommands.AsyncBindableCommand.constructor | Smaragd/Commands/AsyncBindableCommand.cs:15 | A new command is idle, has no subscribers and has done nothing |
| SmaragdCommands.AsyncBindableCommand.CanExecute | Smaragd/Commands/AsyncBindableCommand.cs:29-32 | Executable exactly while the command is not working |
| SmaragdCommands.AsyncBindableCommand.SetProperty | Smaragd/Commands/AsyncBindableCommand.cs:23 | Assigns the flag only when the value differs, and returns whether it did |
| SmaragdCommands.AsyncBindableCommand.SetIsWorking | Smaragd/Commands/AsyncBindableCommand.cs:21-25 | Leaves the flag at the new value and appends the setter's steps: one raise if it changed, none otherwise |
| SmaragdCommands.AsyncBindableCommand.BeginExecute | Smaragd/Commands/AsyncBindableCommand.cs:43-46 | Sets the flag through the setter and starts the body, without consulting `CanExecute`; the parameter is pending once more |
| SmaragdCommands.AsyncBindableCommand.EndExecute | Smaragd/Commands/AsyncBindableCommand.cs:46-51 | For a pending execution: records the result, resets the flag through the setter, then returns the body's outcome, so a fault propagates after the reset; one copy of the parameter is no longer pending |
| SmaragdCommands.AsyncBindableCommand.ExecuteAsync | Smaragd/Commands/AsyncBindableCommand.cs:41-52 | Runs both halves, leaves the flag false, the subscribers and the pending executions unchanged, and ends with the body's outcome, a fault included |
| SmaragdCommands.AsyncBindableCommand.AddCanExecuteChanged | Smaragd/Commands/AsyncBindableCommand.cs:62 | Appends the handler to the invocation list and changes nothing else |
| SmaragdCommands.AsyncBindableCommand.RemoveCanExecuteChanged | Smaragd/Commands/AsyncBindableCommand.cs:62 | Removes the handler's last occurrence from the invocation list and changes nothing else |
| SmaragdCommands.AsyncBindableCommand.RaiseCanExecuteChanged | Smaragd/Commands/AsyncBindableCommand.cs:65-68 | Invokes the current subscribers and leaves the flag, the invocation list and the pending executions unchanged |
| SmaragdValidation.PredicateValidation.IsValid | Smaragd/Validation/PredicateValidation.cs:21-28 | True exactly when the predicate holds; the message is null when valid and the rule's message when not |
| SmaragdValidation.MessageSignalsInvalidity | Smaragd/Validation/PredicateValidation.cs:23-27 | With a non-null message, the `out` message is null exactly when the value is valid |
| SmaragdValidation.NullMessageHidesFailure | Smaragd/Validation/PredicateValidation.cs:26-27 | With a null message, an invalid value also yields a null `out` message, so only the returned bool reports the failure |

## Left out

- The `async void Execute` wrappers (MVVMBase/Commands/AsyncCommand.cs:32-35, Smaragd/Commands/AsyncBindableCommand.cs:35-38), `Task` and real asynchronous scheduling are not modelled. An execution is its begin and end halves, and overlap is any interleaving of those halves on one thread.
- What `DoExecute` and `OnThrownException` do is opaque. Their outcomes are parameters, and exception objects are opaque values of a type parameter.
- The `sender` and `EventArgs.Empty` passed to each handler are not modelled. A handler is an identity, and a raise records which handlers it invoked.
- A handler that throws during a raise is not modelled. In .NET it would stop the later handlers and propagate out of `RaiseCanExecuteChanged`, and in `AsyncBindableCommand` out of the `IsWorking` setter. The model treats every handler as returning normally.
- Subscribing or unsubscribing null does nothing in .NET; the model has no null handler. Subscribing a multicast delegate in one `+=` is modelled as one handler.
- The thread-safe compare-and-swap inside the compiler-generated `add`/`remove` of the field-like event in `AsyncBindableCommand` is not modelled, since the model is single-threaded.
- `SetProperty` belongs to the base class `ComputedBindableBase`, which is not part of this model. It is modelled only as "assign if different, return whether it changed". The `PropertyChanged` notification it also raises is not modelled.
- Dafny has no private members, so `SetIsWorking` and `SetProperty` can be called from outside the class in the model. In the source only `ExecuteAsync` can change `IsWorking`.
- Overrides of the virtual `CanExecute` and `CanExecuteChanged` are not modelled; the model is of the base implementations.
- The predicate is modelled as a total, deterministic function of the value (Smaragd/Validation/PredicateValidation.cs:24). A C# `Predicate<T>` that throws, or that depends on mutable state and so answers differently on repeated calls, is not modelled.
- A `CanExecuteChanged` handler that calls back into the command during a raise (MVVMBase/Commands/AsyncCommand.cs:98, Smaragd/Commands/AsyncBindableCommand.cs:23-24 and 67) is not modelled: the trace postconditions of the setter and of the two halves assume that no handler changes `IsWorking`, subscribes, unsubscribes or executes the command while it is being invoked.
- An `OnThrownException` override that calls back into the command (MVVMBase/Commands/AsyncCommand.cs:53 and 73) is not modelled. Such an override might raise `CanExecuteChanged`, subscribe or unsubscribe, or start a retry through `ExecuteAsync`. `EndExecute` and `ExecuteHookOnFaultOnly` assume the hook leaves the command alone: the hook step is recorded with its outcome only, and "an execution never raises `CanExecuteChanged`" holds for the base hook and for overrides that do not touch the command. Whatever `DoExecute` does to the command is covered, since it falls between the begin and end halves.
- A null predicate passed to the `PredicateValidation` constructor would make `IsValid` throw `NullReferenceException`. A Dafny function value cannot be null, so that case is not modelled.
- The view-model base classes (dirty-flag propagation, validation aggregation, computed-property fan-out), the `Validation<T>` base class and `AsyncViewModelCommand` are not part of this model. `PropertySourceAttribute` only stores a list of names and has no behaviour to model.

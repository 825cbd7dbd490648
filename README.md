# Caliburn.Light core: event aggregator, UI context and the MDI shell's close guard

This project models three pieces of sequential logic from Caliburn.Light, an
MVVM framework for XAML UI toolkits, and proves properties of them in Dafny.

- **Event aggregator** (`event_aggregator.dfy`, module `Events`). The
  aggregator keeps an ordered list of handler registrations. Each
  registration has an identity (the handler object a subscribe call
  allocates and returns, a `HandlerId` instance compared by reference), a
  message type, a thread option
  (`PublisherThread`, `UIThread`, `BackgroundThread`), an optional weakly
  held target, an async flag and a `dead` flag. The four subscribe
  overloads check their arguments, purge dead registrations and append the
  new handler. `Unsubscribe` removes the given handler and every dead one.
  `Publish` purges the dead, selects the live handlers that can handle the
  message's type (in registry order) and splits them into three groups:
  - the handlers run synchronously by the publisher;
  - one batch posted to the UI thread;
  - one batch run in the background.

  The pure function `Split` specifies the split, and the methods are proved
  against it. `List.FindAll` and `List.RemoveAll` are modelled by the loop
  method `FindAll` and the method `RemoveAll`, both specified by the
  stable filter `Filter`.
- **UI context** (`ui_context.dfy`, module `UI`). The process-wide static
  state becomes one `UIContext` object. It holds the UI thread id, the
  captured scheduler, the designer flag and the view adapter. The calling
  thread's id and the ambient schedulers are explicit parameters.
  `Publish` asks this object whether the publisher is on the UI thread.
- **MDI sample shell** (`simple_mdi.dfy`, module `SimpleMDI`). It covers
  the constructor's null check and the tab counter. The counter is a C#
  `int`, and its unchecked `++` is modelled as a 32-bit wrap. New tabs are
  named "Tab " plus the decimal counter. A factory that returns null still
  advances the counter, since `++` runs before the name is assigned; the
  assignment then faults and no tab is activated, so the next tab skips a
  number. While the factory returns tabs, the first `MaxInt32` tabs of a
  shell are named "Tab 1", "Tab 2" and so on, with distinct, increasing
  counters. The unchecked counter breaks this at the wrap: the next tab
  gets a negative counter and a name with a minus sign, and after 2^32
  opens the names repeat. It also covers the re-entrancy
  guard of `CanCloseAsync`, split into a begin step (up to the delay) and a
  complete step (after it).

Argument faults (`ArgumentNullException`, `ArgumentException`) and the
`NullReferenceException` of a member access on null are returned
as `Failure` values of `Wrappers.Result`, or as `Some` of an `Error`.
Null references are `Wrappers.Option.None`.

A second `UIContext.Initialize` overwrites all four fields, so it moves
the UI-thread affinity to the thread that calls it.

## Model

| member | source | states |
|---|---|---|
| `Events.Filter` | src/Caliburn.Core/EventAggregator/EventAggregator.cs:141 | The filtered list holds exactly the registrations of the input that satisfy the predicate, and it is no longer than the input. |
| `Events.FilterKeepsOrder` | src/Caliburn.Core/EventAggregator/EventAggregator.cs:139-141 | Any two survivors of a filter appear in the input in the same relative order. Purging and selecting keep registry order. |
| `Events.FilterInOrder` | src/Caliburn.Core/EventAggregator/EventAggregator.cs:139-141 | Every two survivors of a filter occur in the input in the same relative order, stated for the whole filtered list. |
| `Events.FilterAppend` | src/Caliburn.Core/EventAggregator/EventAggregator.cs:139-141 | Filtering a concatenation is the concatenation of the filtered parts. |
| `Events.FilterFilter` | src/Caliburn.Core/EventAggregator/EventAggregator.cs:139-141 | Filtering by one predicate and then by another equals a single filter by their conjunction. |
| `Events.PurgeIdempotent` | src/Caliburn.Core/EventAggregator/EventAggregator.cs:35 | Purging dead registrations from an already purged list changes nothing. |
| `Events.Select` | src/Caliburn.Core/EventAggregator/EventAggregator.cs:139-141 | The selected handlers are exactly the live registrations that can handle the message type. They come in registry order, as one stable filter of the registry. |
| `Events.Split` | src/Caliburn.Core/EventAggregator/EventAggregator.cs:144-161 | No UI batch is posted when the publisher is the UI thread, and a batch that is posted is never empty. Group membership is stated in `SplitGroups`. |
| `Events.SplitGroups` | src/Caliburn.Core/EventAggregator/EventAggregator.cs:144-161 | With nothing selected, nothing is dispatched. The inline group is the selected publisher-thread handlers, plus the UI-thread handlers when the publisher is on the UI thread. A UI batch is posted only off the UI thread, only when a selected UI-thread handler exists, and it holds exactly those handlers. A background batch is posted exactly when a selected background handler exists, and it holds exactly those handlers. Every group keeps the order of the selection. |
| `Events.SplitOnUIThread` | src/Caliburn.Core/EventAggregator/EventAggregator.cs:147-161 | On the UI thread, the inline group and the background batch together hold each selected handler exactly once. |
| `Events.SplitOffUIThread` | src/Caliburn.Core/EventAggregator/EventAggregator.cs:147-161 | Off the UI thread, the inline group and the two batches together hold each selected handler exactly once. |
| `Events.SplitDispatchesEachOnce` | src/Caliburn.Core/EventAggregator/EventAggregator.cs:147-161 | Every selected handler is dispatched exactly once across the three groups (multiset equality), and nothing else is dispatched. |
| `Events.EventAggregator.constructor` | src/Caliburn.Core/EventAggregator/EventAggregator.cs:15 | A new aggregator has an empty registry. |
| `Events.EventAggregator.VerifyTarget` | src/Caliburn.Core/EventAggregator/EventAggregator.cs:17-21 | A null target, and only a null target, is rejected, with ArgumentNull("target"). |
| `Events.EventAggregator.VerifyDelegate` | src/Caliburn.Core/EventAggregator/EventAggregator.cs:23-29 | A null delegate is rejected with ArgumentNull and a closure with an argument error, both on "weakHandler". Every other delegate passes. |
| `Events.EventAggregator.FindAll` | src/Caliburn.Core/EventAggregator/EventAggregator.cs:141 | The loop returns exactly `Filter` of its input: the matching elements, in order. |
| `Events.EventAggregator.RemoveAll` | src/Caliburn.Core/EventAggregator/EventAggregator.cs:123 | The registry becomes the old registry without the matching registrations, in the old order. No handler object appears twice. |
| `Events.EventAggregator.AddHandler` | src/Caliburn.Core/EventAggregator/EventAggregator.cs:31-38 | Given a handler object not yet registered, the registry becomes the old registry with dead entries removed, in order, followed by the new handler. No handler object appears twice. |
| `Events.EventAggregator.Subscribe` | src/Caliburn.Core/EventAggregator/EventAggregator.cs:47-54 | A null or closure delegate fails and leaves the registry unchanged. Otherwise it returns a newly allocated handler object, distinct from every registered one, and the registry is the purged old list followed by the new registration. |
| `Events.EventAggregator.SubscribeWithTarget` | src/Caliburn.Core/EventAggregator/EventAggregator.cs:65-74 | A null target fails first, then a bad delegate; both leave the registry unchanged. Otherwise it is as `Subscribe`, with the target recorded. |
| `Events.EventAggregator.SubscribeAsync` | src/Caliburn.Core/EventAggregator/EventAggregator.cs:83-90 | As `Subscribe`, for a task-returning handler. |
| `Events.EventAggregator.SubscribeAsyncWithTarget` | src/Caliburn.Core/EventAggregator/EventAggregator.cs:101-110 | As `SubscribeWithTarget`, for a task-returning handler. |
| `Events.EventAggregator.Unsubscribe` | src/Caliburn.Core/EventAggregator/EventAggregator.cs:116-125 | A null handler fails with the registry unchanged. Otherwise the registry keeps exactly the live registrations whose handler object is not the given one (reference comparison), in their old order. A handler object from another aggregator matches nothing here, so only dead entries go. |
| `Events.EventAggregator.Publish` | src/Caliburn.Core/EventAggregator/EventAggregator.cs:131-162 | A null message fails with the registry unchanged. Otherwise the registry is purged of dead entries and holds none. The dispatch is `Split` of the selection, with CheckAccess of the calling thread deciding the UI-thread case. No dead handler is dispatched. |
| `Events.EventAggregator.DispatchSelected` | src/Caliburn.Core/EventAggregator/EventAggregator.cs:145-161 | Building the inline group, the UI batch and the background batch from a non-empty selection gives exactly `Split`. |
| `UI.UIContext.constructor` | src/Caliburn.Core/UI/UIContext.cs:12-15 | Before initialisation, CheckAccess is true for every thread. IsInDesignTool is true. The scheduler is the current one, and the adapter is the null adapter. |
| `UI.UIContext.Initialize` | src/Caliburn.Core/UI/UIContext.cs:22-28 | All four fields are overwritten. Afterwards CheckAccess is true on the initialising thread and false on every other thread. IsInDesignTool equals the flag passed. The scheduler is the captured one whatever the current one is. The adapter is the one passed, or the null adapter when null was passed. |
| `UI.UIContext.CheckAccess` | src/Caliburn.Core/UI/UIContext.cs:47-50 | True for every thread when no UI thread is recorded; otherwise true exactly on the recorded thread. As a function it changes no state. |
| `UI.UIContext.TaskScheduler` | src/Caliburn.Core/UI/UIContext.cs:55-58 | The captured scheduler if there is one, otherwise the current scheduler. |
| `UI.UIContext.ViewAdapter` | src/Caliburn.Core/UI/UIContext.cs:30-33 | The stored adapter if non-null, otherwise the null adapter. |
| `SimpleMDI.Increment32` | samples/Demo.SimpleMDI/ShellViewModel.cs:37 | The unchecked `++` on an int stays in the 32-bit range. It adds one below the maximum and wraps to the minimum at it. |
| `SimpleMDI.NatToDecimal` | samples/Demo.SimpleMDI/ShellViewModel.cs:37 | The decimal text of a number is a non-empty string of digits. |
| `SimpleMDI.DecimalRoundTrip` | samples/Demo.SimpleMDI/ShellViewModel.cs:37 | Reading back the decimal text of a number gives the number. |
| `SimpleMDI.IntRoundTrip` | samples/Demo.SimpleMDI/ShellViewModel.cs:37 | The text of any int is a sign or digit followed by digits, and parsing it gives the int back. |
| `SimpleMDI.TabName` | samples/Demo.SimpleMDI/ShellViewModel.cs:37 | A tab name is "Tab " followed by text that parses back to the counter. |
| `SimpleMDI.TabNamesDistinct` | samples/Demo.SimpleMDI/ShellViewModel.cs:37 | Different counter values give different tab names. |
| `SimpleMDI.CountAfter` | samples/Demo.SimpleMDI/ShellViewModel.cs:37 | The counter after any number of `OpenTab` calls on a new shell, with or without a tab, stays in the 32-bit range. |
| `SimpleMDI.CountAfterWraps` | samples/Demo.SimpleMDI/ShellViewModel.cs:37 | After n opens the counter is n reduced into the 32-bit range (modulo 2^32). |
| `SimpleMDI.CountAfterSmall` | samples/Demo.SimpleMDI/ShellViewModel.cs:37 | Up to MaxInt32 opens, the counter equals the number of tabs opened. |
| `SimpleMDI.FirstTabsDistinct` | samples/Demo.SimpleMDI/ShellViewModel.cs:34-39 | Among the first MaxInt32 tabs, the i-th and j-th (i < j) get counters i < j and different names. |
| `SimpleMDI.WrapGivesNegativeName` | samples/Demo.SimpleMDI/ShellViewModel.cs:37 | The tab opened after MaxInt32 others gets counter MinInt32, and its name has a minus sign after "Tab ". |
| `SimpleMDI.TabNamesRepeat` | samples/Demo.SimpleMDI/ShellViewModel.cs:37 | Opening 2^32 more tabs brings back the same counter and the same name. |
| `SimpleMDI.ShellViewModel.Create` | samples/Demo.SimpleMDI/ShellViewModel.cs:14-19 | A null factory fails with ArgumentNull("createTabViewModel"). Otherwise a fresh shell has counter 0, no pending close query and no conductor calls. |
| `SimpleMDI.ShellViewModel.OpenTab` | samples/Demo.SimpleMDI/ShellViewModel.cs:34-39 | The counter becomes the 32-bit increment of the old counter in every case. A null tab from the factory then faults with NullReference, and nothing is activated. Otherwise the tab is named "Tab " and the new counter, and it is handed to ActivateItem. Nothing else changes. |
| `SimpleMDI.ShellViewModel.CloseTab` | samples/Demo.SimpleMDI/ShellViewModel.cs:25-27 | The item, null included, is handed to DeactivateItem with close = true, and nothing else changes. |
| `SimpleMDI.ShellViewModel.BeginCanClose` | samples/Demo.SimpleMDI/ShellViewModel.cs:41-46 | While a query is pending, a new one completes at once with false and the guard stays set. Otherwise the guard is set before the query suspends. |
| `SimpleMDI.ShellViewModel.CompleteCanClose` | samples/Demo.SimpleMDI/ShellViewModel.cs:46-49 | The resumed query clears the guard and answers true, so the next query is admitted again. |

`SimpleMDI.CloseGuardScenario` walks one history: two overlapping queries,
then a later one.

`Events.EventAggregator.TargetCollected` is not an operation of the
aggregator. It stands for the garbage collector reclaiming a weakly held
target, which is how registrations become dead. It is proved to keep the
registry invariant that handler identities are distinct.

## Left out

- The `lock (_handlers)` sections are left out: the model is sequential.
- `Task.Run`, `UIContext.Run` and `ObserveException` are left out. The UI
  and background batches are the lists handed to them. Scheduling and
  fault sinking are task plumbing, and `UIContext.Run` is not part of this
  model.
- Handler invocation is left out. The inline group is the list of handlers
  called, in call order. What a handler does, and a handler that throws
  (which would stop the remaining inline calls and the posting of both
  batches), are not modelled.
- Weak references are left out. `IsDead` is a flag on the registration,
  set by `TargetCollected`. When a handler without a target dies is
  decided by `EventAggregatorHandler`, which is not part of this model.
- The reflection-based closure check is a flag on the delegate.
- `CanHandle` (message-type assignability) is an abstract predicate
  passed to `Publish`. `EventAggregatorHandler` is not part of this model.
- The wrapping of async handlers in `ObserveException` is left out; a
  registration only records that it is async.
- `UI.UIContext.Initialize` takes the synchronization context's scheduler
  as a parameter, so it always succeeds. In the source,
  `TaskScheduler.FromCurrentSynchronizationContext` throws when the thread
  has no synchronization context. `_managedThreadId` is assigned just
  before that call (UIContext.cs:24), so such a throw leaves the new thread
  recorded and the other three fields unchanged. This partial update is
  not modelled.
- `IsInDesignTool` has no row of its own. It returns the stored flag, and
  its property sits in the constructor and `Initialize` rows.
- `UIContext`'s pass-through calls to the view adapter are left out:
  `GetFirstNonGeneratedView`, `ExecuteOnFirstLoad`,
  `ExecuteOnLayoutUpdated` and `TryClose` are thin wrappers over an
  interface that is not part of this model.
- The `Conductor` base class is not part of this model. `ActivateItem` and
  `DeactivateItem` are only recorded, in ghost logs. The Screen/Conductor
  lifecycle (activation, deactivation, close) is not modelled.
- The command builders (`DelegateCommandBuilder`) are left out.
  `OpenTabCommand` and `CloseTabCommand` are modelled by the methods they
  run, `OpenTab` and `CloseTab`.
- `SimpleMDI.IntToDecimal` always writes "-" for a negative number. The
  source's `"Tab " + ++_count` uses `Int32.ToString()` with the current
  culture, whose negative sign may be another character (such as U+2212).
  This only matters for negative counters, which occur after the wrap.
- The tab factory is not called by the model. The tab it returns, or
  null, is a parameter of `OpenTab`.
- The `Task.Delay(1000)` in `CanCloseAsync` is left out. It is the gap
  between `BeginCanClose` and `CompleteCanClose`.
- `src/Caliburn.Xaml/Bind.cs` is left out. It is dependency-property and
  attached-property glue.
- `samples/Demo.ExceptionHandling/ShellViewModel.cs` is left out. It is
  thread hops, sleeps and exception propagation.

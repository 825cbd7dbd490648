/** The shared UI context: which thread is the UI thread, whether the
    framework runs inside a designer, which view adapter and which task
    scheduler belong to the UI. The process-wide static state is modelled
    as one object; the calling thread and the ambient schedulers are
    passed in explicitly. */
module UI {
  import opened Wrappers

  /** A managed thread id (Environment.CurrentManagedThreadId). */
  type ThreadId = int

  /** An opaque task scheduler handle. */
  type Scheduler = nat

  /** A view adapter: the built-in null adapter or one supplied by the host. */
  datatype Adapter = NullViewAdapter | HostAdapter(id: nat)

  class UIContext {
    /** The thread that called Initialize, if any. */
    var managedThreadId: Option<ThreadId>
    /** The scheduler captured from the synchronization context at Initialize. */
    var taskScheduler: Option<Scheduler>
    var isInDesignTool: bool
    /** The adapter passed to Initialize; null is allowed and stored as is. */
    var viewAdapter: Option<Adapter>

    /** The state before Initialize: no UI thread, no scheduler, no adapter,
        and "in design tool" by default. */
    constructor ()
      ensures managedThreadId == None && taskScheduler == None
      ensures isInDesignTool && viewAdapter == None
      ensures forall t :: CheckAccess(t)
      ensures IsInDesignTool()
      ensures forall current :: TaskScheduler(current) == current
      ensures ViewAdapter() == NullViewAdapter
    {
      managedThreadId := None;
      taskScheduler := None;
      isInDesignTool := true;
      viewAdapter := None;
    }

    /** Records the calling thread as the UI thread, the scheduler of its
        synchronization context, the designer flag and the adapter. All four
        fields are overwritten, so a second call moves the affinity. */
    method Initialize(designTool: bool, adapter: Option<Adapter>,
                      currentThread: ThreadId, currentContextScheduler: Scheduler)
      modifies this
      ensures managedThreadId == Some(currentThread)
      ensures taskScheduler == Some(currentContextScheduler)
      ensures isInDesignTool == designTool && viewAdapter == adapter
      ensures CheckAccess(currentThread)
      ensures forall u :: u != currentThread ==> !CheckAccess(u)
      ensures IsInDesignTool() == designTool
      ensures forall current :: TaskScheduler(current) == currentContextScheduler
      ensures adapter.Some? ==> ViewAdapter() == adapter.value
      ensures adapter.None? ==> ViewAdapter() == NullViewAdapter
    {
      managedThreadId := Some(currentThread);
      taskScheduler := Some(currentContextScheduler);
      isInDesignTool := designTool;
      viewAdapter := adapter;
    }

    /** Whether the calling thread may touch the UI: always before any UI
        thread is recorded, afterwards exactly on that thread. */
    function CheckAccess(currentThread: ThreadId): (r: bool)
      reads this
      ensures managedThreadId.None? ==> r
      ensures managedThreadId.Some? ==> (r <==> currentThread == managedThreadId.value)
    {
      !managedThreadId.Some? || managedThreadId == Some(currentThread)
    }

    /** The designer flag: true until Initialize says otherwise. */
    function IsInDesignTool(): bool
      reads this
    {
      isInDesignTool
    }

    /** The captured scheduler, or the ambient current scheduler when none
        was captured. */
    function TaskScheduler(current: Scheduler): (r: Scheduler)
      reads this
      ensures taskScheduler.Some? ==> r == taskScheduler.value
      ensures taskScheduler.None? ==> r == current
    {
      if taskScheduler.Some? then taskScheduler.value else current
    }

    /** The stored adapter, or the null adapter when none was stored. */
    function ViewAdapter(): (r: Adapter)
      reads this
      ensures viewAdapter.Some? ==> r == viewAdapter.value
      ensures viewAdapter.None? ==> r == NullViewAdapter
    {
      if viewAdapter.Some? then viewAdapter.value else NullViewAdapter
    }
  }
}

/** The event aggregator: an ordered registry of message handlers that
    subscribers add to and remove from, and a publish operation that purges
    dead registrations, selects the live ones able to handle the message and
    splits them by thread option into the handlers run on the publisher's
    thread, one batch posted to the UI thread and one batch run in the
    background. */
module Events {
  import opened Wrappers
  import UI

  /** The handler object a subscribe call creates and returns. Only its
      identity matters here: Unsubscribe compares handlers by reference. */
  class HandlerId {
    constructor () {}
  }
  /** A runtime message type. */
  type TypeId = nat
  /** A subscriber object that may be held weakly. */
  type ObjectRef = nat

  datatype ThreadOption = PublisherThread | UIThread | BackgroundThread

  /** A delegate passed to a subscribe call; isClosure says that its method
      is compiler-generated for a closure over captured state. */
  datatype Delegate = Delegate(isClosure: bool)

  /** One handler registration. `target` is the weakly held subscriber of
      the target-taking overloads; `dead` is true once that weak reference
      has been collected. */
  datatype Registration = Registration(
    id: HandlerId,
    messageType: TypeId,
    threadOption: ThreadOption,
    target: Option<ObjectRef>,
    isAsync: bool,
    dead: bool)

  /** A published message; only its runtime type matters for routing. */
  datatype Message = Message(messageType: TypeId)

  /** What one publish call dispatches: the handlers run synchronously on the
      publisher, in order, and the two batches it posts (None: not posted). */
  datatype Dispatch = Dispatch(
    inline: seq<Registration>,
    uiBatch: Option<seq<Registration>>,
    backgroundBatch: Option<seq<Registration>>)

  // ---------------------------------------------------------------------
  // Stable filtering of the registry (List.FindAll, and List.RemoveAll of
  // the complement).

  /** The registrations of `hs` that satisfy `keep`, in their order in `hs`. */
  function Filter(hs: seq<Registration>, keep: Registration -> bool): (r: seq<Registration>)
    ensures |r| <= |hs|
    ensures forall h | h in r :: h in hs && keep(h)
    ensures forall h | h in hs && keep(h) :: h in r
  {
    if hs == [] then []
    else
      var init, last := hs[..|hs| - 1], hs[|hs| - 1];
      assert hs == init + [last];
      if keep(last) then Filter(init, keep) + [last] else Filter(init, keep)
  }

  predicate IsDead(h: Registration) { h.dead }

  function Not(p: Registration -> bool): Registration -> bool { h => !p(h) }

  /** The match of Unsubscribe: dead, or the very handler being removed. */
  function DeadOrSame(token: HandlerId): Registration -> bool
  {
    (h: Registration) => h.dead || h.id == token
  }

  /** The abstract CanHandle of a handler, specialised to one message type. */
  function CanHandleType(canHandle: (Registration, TypeId) -> bool, t: TypeId): Registration -> bool
  {
    (h: Registration) => canHandle(h, t)
  }

  /** Live and able to handle messages of type `t`. */
  function Selectable(canHandle: (Registration, TypeId) -> bool, t: TypeId): Registration -> bool
  {
    (h: Registration) => !h.dead && canHandle(h, t)
  }

  function HasOption(o: ThreadOption): Registration -> bool
  {
    (h: Registration) => h.threadOption == o
  }

  /** Run synchronously by the publisher: publisher-thread handlers always,
      UI-thread handlers too when the publisher is the UI thread. */
  function RunsInline(isUIThread: bool): Registration -> bool
  {
    (h: Registration) => h.threadOption == PublisherThread || (isUIThread && h.threadOption == UIThread)
  }

  /** Filtering splits over concatenation: the order of the survivors is
      the order of the input. */
  lemma {:induction false} FilterAppend(a: seq<Registration>, b: seq<Registration>, keep: Registration -> bool)
    ensures Filter(a + b, keep) == Filter(a, keep) + Filter(b, keep)
    decreases |b|
  {
    if b == [] {
      assert a + b == a;
    } else {
      var init, last := b[..|b| - 1], b[|b| - 1];
      assert a + b == (a + init) + [last];
      assert (a + b)[..|a + b| - 1] == a + init;
      FilterAppend(a, init, keep);
    }
  }

  /** Any two survivors appear in the input in the same relative order. */
  lemma {:induction false} FilterKeepsOrder(hs: seq<Registration>, keep: Registration -> bool, i: nat, j: nat)
    requires i < j < |Filter(hs, keep)|
    ensures exists i', j' :: 0 <= i' < j' < |hs| && hs[i'] == Filter(hs, keep)[i] && hs[j'] == Filter(hs, keep)[j]
  {
    var init, last := hs[..|hs| - 1], hs[|hs| - 1];
    assert hs == init + [last];
    var r := Filter(hs, keep);
    if keep(last) && j == |r| - 1 {
      assert r == Filter(init, keep) + [last];
      assert r[i] in Filter(init, keep);
      var i' :| 0 <= i' < |init| && init[i'] == r[i];
      assert hs[i'] == r[i] && hs[|hs| - 1] == r[j];
    } else {
      assert Filter(hs, keep)[..|Filter(init, keep)|] == Filter(init, keep);
      FilterKeepsOrder(init, keep, i, j);
      var i', j' :| 0 <= i' < j' < |init| && init[i'] == Filter(init, keep)[i] && init[j'] == Filter(init, keep)[j];
      assert hs[i'] == r[i] && hs[j'] == r[j];
    }
  }

  /** Every two elements of `g` occur in `hs` in the same relative order. */
  ghost predicate InOrderOf(g: seq<Registration>, hs: seq<Registration>)
  {
    forall i, j :: 0 <= i < j < |g| ==>
      exists i', j' :: 0 <= i' < j' < |hs| && hs[i'] == g[i] && hs[j'] == g[j]
  }

  /** A filter's survivors are in the order of its input. */
  lemma FilterInOrder(hs: seq<Registration>, keep: Registration -> bool)
    ensures InOrderOf(Filter(hs, keep), hs)
  {
    forall i, j | 0 <= i < j < |Filter(hs, keep)|
      ensures exists i', j' :: 0 <= i' < j' < |hs| && hs[i'] == Filter(hs, keep)[i] && hs[j'] == Filter(hs, keep)[j]
    {
      FilterKeepsOrder(hs, keep, i, j);
    }
  }

  /** Filtering by `p` and then by `q` is one filter by their conjunction. */
  lemma {:induction false} FilterFilter(hs: seq<Registration>, p: Registration -> bool, q: Registration -> bool,
                                        pq: Registration -> bool)
    requires forall h :: pq(h) == (p(h) && q(h))
    ensures Filter(Filter(hs, p), q) == Filter(hs, pq)
  {
    if hs != [] {
      var init, last := hs[..|hs| - 1], hs[|hs| - 1];
      FilterFilter(init, p, q, pq);
      if p(last) {
        FilterAppend(Filter(init, p), [last], q);
      }
    }
  }

  /** A filter that every element passes changes nothing. */
  lemma {:induction false} FilterAllKept(hs: seq<Registration>, keep: Registration -> bool)
    requires forall h :: h in hs ==> keep(h)
    ensures Filter(hs, keep) == hs
  {
    if hs != [] {
      var init, last := hs[..|hs| - 1], hs[|hs| - 1];
      assert hs == init + [last];
      FilterAllKept(init, keep);
    }
  }

  /** Purging dead registrations twice is purging them once. */
  lemma PurgeIdempotent(hs: seq<Registration>)
    ensures Filter(Filter(hs, Not(IsDead)), Not(IsDead)) == Filter(hs, Not(IsDead))
  {
    FilterAllKept(Filter(hs, Not(IsDead)), Not(IsDead));
  }

  /** Two complementary filters together keep every element exactly once. */
  lemma {:induction false} FilterComplement(hs: seq<Registration>, p: Registration -> bool, q: Registration -> bool)
    requires forall h :: p(h) != q(h)
    ensures multiset(Filter(hs, p)) + multiset(Filter(hs, q)) == multiset(hs)
  {
    if hs != [] {
      var init, last := hs[..|hs| - 1], hs[|hs| - 1];
      assert hs == init + [last];
      FilterComplement(init, p, q);
    }
  }

  /** Three filters that partition the registrations keep every element
      exactly once. */
  lemma {:induction false} FilterPartition(hs: seq<Registration>, p: Registration -> bool,
                                           q: Registration -> bool, r: Registration -> bool)
    requires forall h :: (p(h) || q(h) || r(h)) && !(p(h) && q(h)) && !(p(h) && r(h)) && !(q(h) && r(h))
    ensures multiset(Filter(hs, p)) + multiset(Filter(hs, q)) + multiset(Filter(hs, r)) == multiset(hs)
  {
    if hs != [] {
      var init, last := hs[..|hs| - 1], hs[|hs| - 1];
      assert hs == init + [last];
      FilterPartition(init, p, q, r);
    }
  }

  // ---------------------------------------------------------------------
  // The registry invariant: handler identities are distinct.

  ghost predicate UniqueIds(hs: seq<Registration>)
  {
    forall i, j :: 0 <= i < j < |hs| ==> hs[i].id != hs[j].id
  }

  lemma FilterKeepsUniqueIds(hs: seq<Registration>, keep: Registration -> bool)
    requires UniqueIds(hs)
    ensures UniqueIds(Filter(hs, keep))
  {
    var r := Filter(hs, keep);
    forall i, j | 0 <= i < j < |r|
      ensures r[i].id != r[j].id
    {
      FilterKeepsOrder(hs, keep, i, j);
    }
  }

  // ---------------------------------------------------------------------
  // Publish: selection and the three-way dispatch split.

  /** Selectable is the conjunction of being live and handling `t`. */
  lemma SelectableIsConjunction(canHandle: (Registration, TypeId) -> bool, t: TypeId)
    ensures forall h :: Selectable(canHandle, t)(h) == (Not(IsDead)(h) && CanHandleType(canHandle, t)(h))
  {
    forall h ensures Selectable(canHandle, t)(h) == (Not(IsDead)(h) && CanHandleType(canHandle, t)(h)) {
      assert Not(IsDead)(h) == !IsDead(h);
    }
  }

  /** The handlers a publish of a message of type `t` selects: the live
      registrations that can handle `t`, in registry order. Purging the dead
      and then selecting is a single stable filter. */
  function Select(registry: seq<Registration>, canHandle: (Registration, TypeId) -> bool, t: TypeId): (r: seq<Registration>)
    ensures forall h | h in r :: h in registry && !h.dead && canHandle(h, t)
    ensures forall h | h in registry && !h.dead && canHandle(h, t) :: h in r
    ensures r == Filter(registry, Selectable(canHandle, t))
  {
    SelectableIsConjunction(canHandle, t);
    FilterFilter(registry, Not(IsDead), CanHandleType(canHandle, t), Selectable(canHandle, t));
    Filter(Filter(registry, Not(IsDead)), CanHandleType(canHandle, t))
  }

  /** Every handler a dispatch runs, group after group. */
  function Dispatched(d: Dispatch): seq<Registration>
  {
    d.inline
    + (if d.uiBatch.Some? then d.uiBatch.value else [])
    + (if d.backgroundBatch.Some? then d.backgroundBatch.value else [])
  }

  /** How Publish dispatches the selected handlers, given whether the
      publisher is the UI thread: the inline group, the UI batch (off the
      UI thread only) and the background batch, each batch posted only when
      it is non-empty. */
  function Split(selected: seq<Registration>, isUIThread: bool): (d: Dispatch)
    ensures isUIThread ==> d.uiBatch.None?
    ensures d.uiBatch.Some? ==> |d.uiBatch.value| > 0
    ensures d.backgroundBatch.Some? ==> |d.backgroundBatch.value| > 0
  {
    if |selected| == 0 then Dispatch([], None, None)
    else
      var ui := Filter(selected, HasOption(UIThread));
      var background := Filter(selected, HasOption(BackgroundThread));
      Dispatch(Filter(selected, RunsInline(isUIThread)),
               if !isUIThread && |ui| > 0 then Some(ui) else None,
               if |background| > 0 then Some(background) else None)
  }

  /** Which handlers land in which group, for either kind of publisher;
      each group keeps the order of the selection. */
  lemma SplitGroups(selected: seq<Registration>, isUIThread: bool)
    ensures var d := Split(selected, isUIThread);
      && (selected == [] ==> Dispatched(d) == [] && d.uiBatch.None? && d.backgroundBatch.None?)
      && (forall h :: h in d.inline <==>
            h in selected && (h.threadOption == PublisherThread || (isUIThread && h.threadOption == UIThread)))
      && (isUIThread ==> d.uiBatch.None?)
      && (d.uiBatch.Some? <==> !isUIThread && exists h :: h in selected && h.threadOption == UIThread)
      && (d.uiBatch.Some? ==>
            forall h :: h in d.uiBatch.value <==> h in selected && h.threadOption == UIThread)
      && (d.backgroundBatch.Some? <==> exists h :: h in selected && h.threadOption == BackgroundThread)
      && (d.backgroundBatch.Some? ==>
            forall h :: h in d.backgroundBatch.value <==> h in selected && h.threadOption == BackgroundThread)
      && InOrderOf(d.inline, selected)
      && (d.uiBatch.Some? ==> InOrderOf(d.uiBatch.value, selected))
      && (d.backgroundBatch.Some? ==> InOrderOf(d.backgroundBatch.value, selected))
  {
    var ui := Filter(selected, HasOption(UIThread));
    var background := Filter(selected, HasOption(BackgroundThread));
    FilterInOrder(selected, RunsInline(isUIThread));
    FilterInOrder(selected, HasOption(UIThread));
    FilterInOrder(selected, HasOption(BackgroundThread));
    if |ui| > 0 { assert ui[0] in ui; }
    if |background| > 0 { assert background[0] in background; }
  }

  /** On the UI thread the inline group and the background batch partition
      a non-empty selection. */
  lemma SplitOnUIThread(selected: seq<Registration>)
    requires |selected| > 0
    ensures multiset(Dispatched(Split(selected, true))) == multiset(selected)
  {
    var d := Split(selected, true);
    var inline := Filter(selected, RunsInline(true));
    var background := Filter(selected, HasOption(BackgroundThread));
    assert Dispatched(d) == inline + background;
    forall h ensures RunsInline(true)(h) != HasOption(BackgroundThread)(h) {
      assert RunsInline(true)(h) == (h.threadOption != BackgroundThread);
    }
    FilterComplement(selected, RunsInline(true), HasOption(BackgroundThread));
  }

  /** Off the UI thread the inline group and the two batches partition a
      non-empty selection. */
  lemma SplitOffUIThread(selected: seq<Registration>)
    requires |selected| > 0
    ensures multiset(Dispatched(Split(selected, false))) == multiset(selected)
  {
    var d := Split(selected, false);
    var inline := Filter(selected, RunsInline(false));
    var ui := Filter(selected, HasOption(UIThread));
    var background := Filter(selected, HasOption(BackgroundThread));
    assert Dispatched(d) == inline + ui + background;
    forall h ensures RunsInline(false)(h) == (h.threadOption == PublisherThread) {}
    FilterPartition(selected, RunsInline(false), HasOption(UIThread), HasOption(BackgroundThread));
  }

  /** Every selected handler is dispatched exactly once, in exactly one group. */
  lemma {:induction false} SplitDispatchesEachOnce(selected: seq<Registration>, isUIThread: bool)
    ensures multiset(Dispatched(Split(selected, isUIThread))) == multiset(selected)
    ensures forall h :: h in Dispatched(Split(selected, isUIThread)) ==> h in selected
  {
    var d := Split(selected, isUIThread);
    if |selected| > 0 {
      if isUIThread {
        SplitOnUIThread(selected);
      } else {
        SplitOffUIThread(selected);
      }
    }
    forall h | h in Dispatched(d) ensures h in selected {
      assert h in multiset(Dispatched(d));
    }
  }

  // ---------------------------------------------------------------------
  // The aggregator object.

  class EventAggregator {
    /** The registrations, in subscription order. */
    var handlers: seq<Registration>

    /** No handler object is registered twice. */
    ghost predicate Valid()
      reads this
    {
      UniqueIds(handlers)
    }

    constructor ()
      ensures Valid() && handlers == []
    {
      handlers := [];
    }

    /** The check on a subscriber target: it must not be null. */
    static function VerifyTarget(target: Option<ObjectRef>): (r: Option<Error>)
      ensures r.None? <==> target.Some?
      ensures r.Some? ==> r.value == ArgumentNull("target")
    {
      if target.None? then Some(ArgumentNull("target")) else None
    }

    /** The check on a handler delegate: not null and not a closure. */
    static function VerifyDelegate(weakHandler: Option<Delegate>): (r: Option<Error>)
      ensures r.None? <==> weakHandler.Some? && !weakHandler.value.isClosure
      ensures weakHandler.None? ==> r == Some(ArgumentNull("weakHandler"))
      ensures weakHandler.Some? && weakHandler.value.isClosure ==>
        r == Some(InvalidArgument("A closure cannot be used to subscribe.", "weakHandler"))
    {
      if weakHandler.None? then Some(ArgumentNull("weakHandler"))
      else if weakHandler.value.isClosure then Some(InvalidArgument("A closure cannot be used to subscribe.", "weakHandler"))
      else None
    }

    /** List.FindAll: the elements matching `keep`, in order. */
    static method FindAll(hs: seq<Registration>, keep: Registration -> bool) returns (found: seq<Registration>)
      ensures found == Filter(hs, keep)
    {
      found := [];
      var i := 0;
      while i < |hs|
        invariant 0 <= i <= |hs|
        invariant found == Filter(hs[..i], keep)
      {
        assert hs[..i + 1][..i] == hs[..i];
        if keep(hs[i]) {
          found := found + [hs[i]];
        }
        i := i + 1;
      }
      assert hs[..|hs|] == hs;
    }

    /** List.RemoveAll: drops every registration matching `matches`, keeping
        the order of the rest. */
    method RemoveAll(matches: Registration -> bool)
      requires Valid()
      modifies this
      ensures Valid()
      ensures handlers == Filter(old(handlers), Not(matches))
      ensures forall h :: h in handlers <==> h in old(handlers) && !matches(h)
    {
      FilterKeepsUniqueIds(handlers, Not(matches));
      handlers := FindAll(handlers, Not(matches));
    }

    /** Purges dead registrations, then appends the new handler. */
    method AddHandler(handler: Registration)
      requires Valid() && forall h :: h in handlers ==> h.id != handler.id
      modifies this
      ensures Valid()
      ensures handlers == Filter(old(handlers), Not(IsDead)) + [handler]
    {
      RemoveAll(IsDead);
      handlers := handlers + [handler];
    }

    /** Subscribe(weakHandler, threadOption) for a handler without a target. */
    method Subscribe(weakHandler: Option<Delegate>, messageType: TypeId, threadOption: ThreadOption)
      returns (r: Result<HandlerId, Error>)
      requires Valid()
      modifies this
      ensures Valid()
      ensures VerifyDelegate(weakHandler).Some? ==>
        r == Failure(VerifyDelegate(weakHandler).value) && handlers == old(handlers)
      ensures VerifyDelegate(weakHandler).None? ==>
        && r.Success? && fresh(r.value)
        && (forall h :: h in old(handlers) ==> h.id != r.value)
        && handlers == Filter(old(handlers), Not(IsDead))
                       + [Registration(r.value, messageType, threadOption, None, false, false)]
    {
      var fault := VerifyDelegate(weakHandler);
      if fault.Some? {
        return Failure(fault.value);
      }
      var id := new HandlerId();
      var handler := Registration(id, messageType, threadOption, None, false, false);
      AddHandler(handler);
      r := Success(id);
    }

    /** Subscribe(target, weakHandler, threadOption): the target is held weakly. */
    method SubscribeWithTarget(target: Option<ObjectRef>, weakHandler: Option<Delegate>,
                               messageType: TypeId, threadOption: ThreadOption)
      returns (r: Result<HandlerId, Error>)
      requires Valid()
      modifies this
      ensures Valid()
      ensures target.None? ==>
        r == Failure(ArgumentNull("target")) && handlers == old(handlers)
      ensures target.Some? && VerifyDelegate(weakHandler).Some? ==>
        r == Failure(VerifyDelegate(weakHandler).value) && handlers == old(handlers)
      ensures target.Some? && VerifyDelegate(weakHandler).None? ==>
        && r.Success? && fresh(r.value)
        && (forall h :: h in old(handlers) ==> h.id != r.value)
        && handlers == Filter(old(handlers), Not(IsDead))
                       + [Registration(r.value, messageType, threadOption, target, false, false)]
    {
      var fault := VerifyTarget(target);
      if fault.Some? {
        return Failure(fault.value);
      }
      fault := VerifyDelegate(weakHandler);
      if fault.Some? {
        return Failure(fault.value);
      }
      var id := new HandlerId();
      var handler := Registration(id, messageType, threadOption, target, false, false);
      AddHandler(handler);
      r := Success(id);
    }

    /** SubscribeAsync(weakHandler, threadOption) for a task-returning handler without a target. */
    method SubscribeAsync(weakHandler: Option<Delegate>, messageType: TypeId, threadOption: ThreadOption)
      returns (r: Result<HandlerId, Error>)
      requires Valid()
      modifies this
      ensures Valid()
      ensures VerifyDelegate(weakHandler).Some? ==>
        r == Failure(VerifyDelegate(weakHandler).value) && handlers == old(handlers)
      ensures VerifyDelegate(weakHandler).None? ==>
        && r.Success? && fresh(r.value)
        && (forall h :: h in old(handlers) ==> h.id != r.value)
        && handlers == Filter(old(handlers), Not(IsDead))
                       + [Registration(r.value, messageType, threadOption, None, true, false)]
    {
      var fault := VerifyDelegate(weakHandler);
      if fault.Some? {
        return Failure(fault.value);
      }
      var id := new HandlerId();
      var handler := Registration(id, messageType, threadOption, None, true, false);
      AddHandler(handler);
      r := Success(id);
    }

    /** SubscribeAsync(target, weakHandler, threadOption): the target is held weakly. */
    method SubscribeAsyncWithTarget(target: Option<ObjectRef>, weakHandler: Option<Delegate>,
                                    messageType: TypeId, threadOption: ThreadOption)
      returns (r: Result<HandlerId, Error>)
      requires Valid()
      modifies this
      ensures Valid()
      ensures target.None? ==>
        r == Failure(ArgumentNull("target")) && handlers == old(handlers)
      ensures target.Some? && VerifyDelegate(weakHandler).Some? ==>
        r == Failure(VerifyDelegate(weakHandler).value) && handlers == old(handlers)
      ensures target.Some? && VerifyDelegate(weakHandler).None? ==>
        && r.Success? && fresh(r.value)
        && (forall h :: h in old(handlers) ==> h.id != r.value)
        && handlers == Filter(old(handlers), Not(IsDead))
                       + [Registration(r.value, messageType, threadOption, target, true, false)]
    {
      var fault := VerifyTarget(target);
      if fault.Some? {
        return Failure(fault.value);
      }
      fault := VerifyDelegate(weakHandler);
      if fault.Some? {
        return Failure(fault.value);
      }
      var id := new HandlerId();
      var handler := Registration(id, messageType, threadOption, target, true, false);
      AddHandler(handler);
      r := Success(id);
    }

    /** Removes the given handler and every dead registration. */
    method Unsubscribe(handler: Option<HandlerId>) returns (fault: Option<Error>)
      requires Valid()
      modifies this
      ensures Valid()
      ensures handler.None? ==> fault == Some(ArgumentNull("handler")) && handlers == old(handlers)
      ensures handler.Some? ==>
        && fault.None?
        && handlers == Filter(old(handlers), Not(DeadOrSame(handler.value)))
        && (forall h :: h in handlers <==> h in old(handlers) && !h.dead && h.id != handler.value)
    {
      if handler.None? {
        return Some(ArgumentNull("handler"));
      }
      RemoveAll(DeadOrSame(handler.value));
      fault := None;
    }

    /** Publishes a message: purges dead registrations, selects the live
        handlers that can handle the message's type and dispatches them.
        The UI thread is asked about only when something was selected. */
    method Publish(message: Option<Message>, canHandle: (Registration, TypeId) -> bool,
                   context: UI.UIContext, currentThread: UI.ThreadId)
      returns (r: Result<Dispatch, Error>)
      requires Valid()
      modifies this
      ensures Valid()
      ensures message.None? ==> r == Failure(ArgumentNull("message")) && handlers == old(handlers)
      ensures message.Some? ==>
        && handlers == Filter(old(handlers), Not(IsDead))
        && (forall h :: h in handlers ==> !h.dead)
        && r == Success(Split(Select(old(handlers), canHandle, message.value.messageType),
                              context.CheckAccess(currentThread)))
        && (forall h :: h in Dispatched(r.value) ==> !h.dead && h in old(handlers))
    {
      if message.None? {
        return Failure(ArgumentNull("message"));
      }
      var messageType := message.value.messageType;
      RemoveAll(IsDead);
      var selected := FindAll(handlers, CanHandleType(canHandle, messageType));
      assert selected == Select(old(handlers), canHandle, messageType);

      if |selected| == 0 {
        return Success(Dispatch([], None, None));
      }
      var isUIThread := context.CheckAccess(currentThread);
      var d := DispatchSelected(selected, isUIThread);
      SplitDispatchesEachOnce(selected, isUIThread);
      r := Success(d);
    }

    /** The dispatch part of Publish for a non-empty selection: runs the
        inline group in order, and builds the UI batch (off the UI thread)
        and the background batch, each posted only when non-empty. */
    static method DispatchSelected(selected: seq<Registration>, isUIThread: bool) returns (d: Dispatch)
      requires |selected| > 0
      ensures d == Split(selected, isUIThread)
    {
      var inline := FindAll(selected, RunsInline(isUIThread));

      var uiBatch := None;
      if !isUIThread {
        var uiThreadHandlers := FindAll(selected, HasOption(UIThread));
        if |uiThreadHandlers| > 0 {
          uiBatch := Some(uiThreadHandlers);
        }
      }

      var backgroundBatch := None;
      var backgroundHandlers := FindAll(selected, HasOption(BackgroundThread));
      if |backgroundHandlers| > 0 {
        backgroundBatch := Some(backgroundHandlers);
      }
      d := Dispatch(inline, uiBatch, backgroundBatch);
    }

    /** Not an operation of the aggregator: the garbage collector reclaiming
        a weakly held subscriber, which makes its registrations dead. */
    method TargetCollected(obj: ObjectRef)
      requires Valid()
      modifies this
      ensures Valid() && |handlers| == |old(handlers)|
      ensures forall i :: 0 <= i < |handlers| ==>
        handlers[i] == if old(handlers)[i].target == Some(obj) then old(handlers)[i].(dead := true) else old(handlers)[i]
    {
      handlers := seq(|handlers|, i requires 0 <= i < |handlers| reads this =>
                        if handlers[i].target == Some(obj) then handlers[i].(dead := true) else handlers[i]);
    }
  }
}

/**
 * The service task: one queued unit of work that issues a GUPnP service action,
 * waits for its callback, and reports completion to its task queue. The queue
 * engine itself is not part of this model; the calls a task makes into it, into
 * GUPnP and into its owner's callbacks are recorded in a ghost event log.
 *
 * Also here: the generator of numbered source names.
 */
module ServiceTask {
  import opened Common
  import opened Decimal

  /** Opaque identities of the objects a task refers to. */
  type QueueId = string
  type ActionHandle = nat
  type ProxyRef = nat
  type DeviceRef = nat
  type UserData = nat
  type ActionRef = nat
  type CallbackRef = nat
  type FreeFuncRef = nat

  /** The calls a task makes to the outside world, in the order it makes them. */
  datatype Event =
    | WeakPointerAdded(proxy: ProxyRef)
    | TaskAdded(queue: QueueId)
    | ActionRun(heldProxy: Option<ProxyRef>)
    | QueueCancelled(queue: QueueId)
    | TaskCompleted(queue: QueueId)
    | CallbackRun(callback: CallbackRef, action: ActionHandle, data: UserData)
    | RemoteCancel(proxy: ProxyRef, action: ActionHandle)
    | ProxyFinalized(proxy: ProxyRef)
    | UserDataFreed(freeFunc: FreeFuncRef, data: UserData)
    | WeakPointerRemoved(proxy: ProxyRef)

  predicate IsCompletion(e: Event)
  {
    e.TaskCompleted?
  }

  predicate IsFree(e: Event)
  {
    e.UserDataFreed?
  }

  /** How many events of `events` satisfy `p`. */
  function Count(events: seq<Event>, p: Event -> bool): (n: nat)
    ensures n <= |events|
  {
    if events == [] then 0 else (if p(events[0]) then 1 else 0) + Count(events[1..], p)
  }

  lemma {:induction false} CountAppend(a: seq<Event>, b: seq<Event>, p: Event -> bool)
    ensures Count(a + b, p) == Count(a, p) + Count(b, p)
  {
    if a != [] {
      assert (a + b)[0] == a[0] && (a + b)[1..] == a[1..] + b;
      CountAppend(a[1..], b, p);
    } else {
      assert a + b == b;
    }
  }

  /** The number of `task-completed` signals in `events`. */
  function Completions(events: seq<Event>): nat
  {
    Count(events, IsCompletion)
  }

  /** No remote cancellation is issued through a proxy after its finalisation. */
  ghost predicate NoCallOnDeadProxy(events: seq<Event>)
  {
    forall i, j :: 0 <= i < j < |events| && events[i].ProxyFinalized? ==> !events[j].RemoteCancel?
  }

  /** No proxy finalisation has been logged. */
  ghost predicate NoneFinalized(events: seq<Event>)
  {
    forall i :: 0 <= i < |events| ==> !events[i].ProxyFinalized?
  }

  class Task {
    const queueId: QueueId
    const action: ActionRef
    const callback: CallbackRef
    const freeFunc: Option<FreeFuncRef>
    const userData: UserData
    const device: DeviceRef
    /** The proxy given at creation; `proxy` is this one until the object is finalised. */
    ghost const boundProxy: Option<ProxyRef>
    /** The weakly held proxy: GObject clears it when the proxy is finalised. */
    var proxy: Option<ProxyRef>
    /** The pending remote action, if any. */
    var pAction: Option<ActionHandle>
    ghost var events: seq<Event>
    ghost var processed: bool
    ghost var deleted: bool

    /**
     * The task invariant: at most one completion ever; none while an action is
     * pending or before processing; the proxy, while held, is the bound one and not
     * finalised; no remote call after finalisation; the user data freed exactly
     * once after deletion when there is a free function, never otherwise.
     */
    ghost predicate Valid()
      reads this
    {
      && Completions(events) <= 1
      && (pAction.Some? ==> processed && Completions(events) == 0)
      && (!processed ==> Completions(events) == 0)
      && (proxy.Some? ==> proxy == boundProxy && NoneFinalized(events))
      && NoCallOnDeadProxy(events)
      && Count(events, IsFree) == (if deleted && freeFunc.Some? then 1 else 0)
    }

    /** `msu_service_task_add`: the new task holds its arguments and is queued once. */
    constructor Add(queueId: QueueId, action: ActionRef, device: DeviceRef, proxy: Option<ProxyRef>,
                    callback: CallbackRef, freeFunc: Option<FreeFuncRef>, userData: UserData)
      ensures Valid()
      ensures this.queueId == queueId && this.action == action && this.device == device
      ensures this.callback == callback && this.freeFunc == freeFunc && this.userData == userData
      ensures this.proxy == proxy && boundProxy == proxy && pAction == None
      ensures !processed && !deleted
      ensures events == (if proxy.Some? then [WeakPointerAdded(proxy.value)] else []) + [TaskAdded(queueId)]
    {
      this.queueId := queueId;
      this.action := action;
      this.callback := callback;
      this.freeFunc := freeFunc;
      this.userData := userData;
      this.device := device;
      this.proxy := proxy;
      this.boundProxy := proxy;
      this.pAction := None;
      this.processed := false;
      this.deleted := false;
      var log := if proxy.Some? then [WeakPointerAdded(proxy.value)] else [];
      Extend([], log, [TaskAdded(queueId)]);
      assert [] + log + [TaskAdded(queueId)] == log + [TaskAdded(queueId)];
      this.events := log + [TaskAdded(queueId)];
    }

    /**
     * `msu_service_task_process_cb`. The task's action is run with the proxy as it is
     * now; it returns `handle` and raises `failed`. A failure cancels the whole queue
     * whatever the handle; otherwise no handle means the task is complete.
     */
    method Process(handle: Option<ActionHandle>, failed: bool)
      requires Valid() && !processed && !deleted
      modifies this
      ensures Valid() && processed && !deleted
      ensures pAction == handle && proxy == old(proxy)
      ensures events == old(events) + [ActionRun(old(proxy))] +
        (if failed then [QueueCancelled(queueId)]
         else if handle.None? then [TaskCompleted(queueId)]
         else [])
      ensures Completions(events) == (if !failed && handle.None? then 1 else 0)
    {
      var signal := if failed then [QueueCancelled(queueId)]
                    else if handle.None? then [TaskCompleted(queueId)]
                    else [];
      Extend(events, [ActionRun(proxy)], signal);
      pAction := handle;
      events := events + [ActionRun(proxy)] + signal;
      processed := true;
    }

    /**
     * `msu_service_task_begin_action_cb`: GUPnP reports the end of the pending
     * action. The pending handle is cleared, the caller's callback runs once, and
     * the task completes once.
     */
    method BeginActionCallback(finished: ActionHandle)
      requires Valid() && pAction == Some(finished) && !deleted
      modifies this
      ensures Valid() && pAction == None && proxy == old(proxy) && processed && !deleted
      ensures events == old(events) + [CallbackRun(callback, finished, userData), TaskCompleted(queueId)]
      ensures Completions(events) == 1
    {
      Extend(events, [CallbackRun(callback, finished, userData)], [TaskCompleted(queueId)]);
      pAction := None;
      events := events + [CallbackRun(callback, finished, userData)] + [TaskCompleted(queueId)];
    }

    /**
     * `msu_service_task_cancel_cb`. Without a pending action nothing happens. With
     * one, the action is cancelled remotely only while the proxy is alive; either
     * way the handle is cleared and the task completes once.
     */
    method Cancel()
      requires Valid() && !deleted
      modifies this
      ensures Valid() && !deleted && processed == old(processed) && proxy == old(proxy)
      ensures old(pAction).None? ==> pAction == None && events == old(events)
      ensures old(pAction).Some? ==>
        && pAction == None
        && events == old(events) +
             (if old(proxy).Some? then [RemoteCancel(old(proxy).value, old(pAction).value)] else []) +
             [TaskCompleted(queueId)]
        && Completions(events) == 1
    {
      if pAction.Some? {
        var remote := if proxy.Some? then [RemoteCancel(proxy.value, pAction.value)] else [];
        Extend(events, remote, [TaskCompleted(queueId)]);
        events := events + remote + [TaskCompleted(queueId)];
        pAction := None;
      }
    }

    /**
     * The proxy is finalised by its owner: GObject clears the weak pointer. This is
     * the environment acting on the task, not a function of the source.
     */
    method ProxyGone()
      requires Valid() && !deleted
      modifies this
      ensures Valid() && proxy == None && pAction == old(pAction) && processed == old(processed) && !deleted
      ensures events == old(events) + (if old(proxy).Some? then [ProxyFinalized(old(proxy).value)] else [])
    {
      if proxy.Some? {
        CountAppend(events, [ProxyFinalized(proxy.value)], IsCompletion);
        CountAppend(events, [ProxyFinalized(proxy.value)], IsFree);
        events := events + [ProxyFinalized(proxy.value)];
        proxy := None;
      }
    }

    /**
     * `msu_service_task_delete_cb`: the user data is freed when there is a free
     * function, and the weak pointer is released only while the proxy is alive.
     */
    method Delete()
      requires Valid() && !deleted
      modifies this
      ensures Valid() && deleted
      ensures pAction == old(pAction) && proxy == old(proxy) && processed == old(processed)
      ensures events == old(events) +
        (if freeFunc.Some? then [UserDataFreed(freeFunc.value, userData)] else []) +
        (if old(proxy).Some? then [WeakPointerRemoved(old(proxy).value)] else [])
      ensures Count(events, IsFree) == (if freeFunc.Some? then 1 else 0)
    {
      var freed := if freeFunc.Some? then [UserDataFreed(freeFunc.value, userData)] else [];
      var released := if proxy.Some? then [WeakPointerRemoved(proxy.value)] else [];
      Extend(events, freed, released);
      events := events + freed + released;
      deleted := true;
    }

    /** `msu_service_task_get_device`. */
    method GetDevice() returns (d: DeviceRef)
      ensures d == device
    {
      d := device;
    }

    /** `msu_service_task_get_user_data`. */
    method GetUserData() returns (u: UserData)
      ensures u == userData
    {
      u := userData;
    }
  }

  /** A second cancellation of the same task changes nothing: two log what one logs. */
  method CancelTwice(t: Task)
    requires t.Valid() && !t.deleted
    modifies t
    ensures t.Valid() && t.pAction == None
    ensures t.events == old(t.events) +
      (if old(t.pAction).None? then []
       else (if old(t.proxy).Some? then [RemoteCancel(old(t.proxy).value, old(t.pAction).value)] else []) +
            [TaskCompleted(t.queueId)])
  {
    t.Cancel();
    ghost var once := t.events;
    t.Cancel();
    assert t.events == once;
  }

  /**
   * What appending `a` and then `b` to a log does to the parts of the task invariant:
   * neither may log a finalisation, `b` no remote call, and `a` a remote call only
   * while no finalisation is logged yet.
   */
  lemma Extend(log: seq<Event>, a: seq<Event>, b: seq<Event>)
    requires NoCallOnDeadProxy(log)
    requires NoneFinalized(a) && NoneFinalized(b)
    requires forall i :: 0 <= i < |b| ==> !b[i].RemoteCancel?
    requires (exists i :: 0 <= i < |a| && a[i].RemoteCancel?) ==> NoneFinalized(log)
    ensures NoCallOnDeadProxy(log + a + b)
    ensures NoneFinalized(log) ==> NoneFinalized(log + a + b)
    ensures Completions(log + a + b) == Completions(log) + Completions(a) + Completions(b)
    ensures Count(log + a + b, IsFree) == Count(log, IsFree) + Count(a, IsFree) + Count(b, IsFree)
  {
    CountAppend(log, a, IsCompletion);
    CountAppend(log + a, b, IsCompletion);
    CountAppend(log, a, IsFree);
    CountAppend(log + a, b, IsFree);
    var all := log + a + b;
    forall i, j | 0 <= i < j < |all| && all[i].ProxyFinalized?
      ensures !all[j].RemoteCancel?
    {
      assert i < |log|;
      if j < |log| {
        assert all[i] == log[i] && all[j] == log[j];
      } else if j < |log| + |a| {
        assert all[j] == a[j - |log|];
        assert all[i] == log[i];
      } else {
        assert all[j] == b[j - |log| - |a|];
      }
    }
    if NoneFinalized(log) {
      forall i | 0 <= i < |all|
        ensures !all[i].ProxyFinalized?
      {
        if i < |log| {
          assert all[i] == log[i];
        } else if i < |log| + |a| {
          assert all[i] == a[i - |log|];
        } else {
          assert all[i] == b[i - |log| - |a|];
        }
      }
    }
  }

  // ---------------------------------------------------------------------------
  // Source names

  const Uint32Limit: nat := 0x1_0000_0000
  const Int32Limit: nat := 0x8000_0000

  /** `%d` applied to an unsigned value: from 2^31 on it prints as a negative number. */
  function FormatAsInt(c: nat): string
    requires c < Uint32Limit
  {
    if c < Int32Limit then DecimalString(c) else "-" + DecimalString(Uint32Limit - c)
  }

  /** The name `msu_service_task_create_source` formats for counter value `c`. */
  function SourceName(c: nat): string
    requires c < Uint32Limit
  {
    "source-" + FormatAsInt(c)
  }

  /** The rendering starts with a minus sign exactly from 2^31 on. */
  lemma FormatSign(c: nat)
    requires c < Uint32Limit
    ensures (FormatAsInt(c)[0] == '-') == (c >= Int32Limit)
  {
    if c < Int32Limit {
      assert IsDigit(FormatAsInt(c)[0]);
    }
  }

  /** Different counter values give different names. */
  lemma SourceNameInjective(a: nat, b: nat)
    requires a < Uint32Limit && b < Uint32Limit
    requires SourceName(a) == SourceName(b)
    ensures a == b
  {
    var fa, fb := FormatAsInt(a), FormatAsInt(b);
    assert SourceName(a)[7..] == fa && SourceName(b)[7..] == fb;
    assert fa == fb;
    FormatSign(a);
    FormatSign(b);
    if a < Int32Limit {
      DecimalInjective(a, b);
    } else {
      assert fa[1..] == DecimalString(Uint32Limit - a);
      assert fb[1..] == DecimalString(Uint32Limit - b);
      DecimalInjective(Uint32Limit - a, Uint32Limit - b);
    }
  }

  /** Every name fits the 20-byte buffer with its terminator, so nothing is truncated. */
  lemma SourceNameFits(c: nat)
    requires c < Uint32Limit
    ensures |SourceName(c)| <= 19
  {
    assert Pow10(10) == 10_000_000_000 by {
      assert Pow10(5) == 100_000;
    }
    if c < Int32Limit {
      DecimalLength(c, 10);
    } else {
      DecimalLength(Uint32Limit - c, 10);
    }
  }

  /** The static counter of `msu_service_task_create_source`, 32 bits wide. */
  class SourceNamer {
    var cpt: nat

    ghost predicate Valid()
      reads this
    {
      cpt < Uint32Limit
    }

    constructor ()
      ensures Valid() && cpt == 1
    {
      cpt := 1;
    }

    method CreateSource() returns (name: string)
      requires Valid()
      modifies this
      ensures Valid()
      ensures name == SourceName(old(cpt))
      ensures cpt == (old(cpt) + 1) % Uint32Limit
    {
      name := SourceName(cpt);
      cpt := (cpt + 1) % Uint32Limit;
    }
  }

  /** Two successive calls never return the same name, across the wrap-around too. */
  lemma SuccessiveSourcesDiffer(c: nat)
    requires c < Uint32Limit
    ensures SourceName(c) != SourceName((c + 1) % Uint32Limit)
  {
    if SourceName(c) == SourceName((c + 1) % Uint32Limit) {
      SourceNameInjective(c, (c + 1) % Uint32Limit);
    }
  }

  /** The first call, from a fresh counter, returns "source-1". */
  lemma FirstSourceName()
    ensures SourceName(1) == "source-1"
  {
  }
}

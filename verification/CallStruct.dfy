/** temporal_call_t as the C code has it, with the functions of the bridge as methods that update
    it in place. Each is proved to do what its party does in the transition system when nothing
    comes in between. */
module CallStruct {
  import opened CStrings
  import opened Results
  import opened CallMachine
  import HandleStruct
  import ResultStruct
  import Bridge

  /** zend_async_trigger_event_t. */
  class Trigger {
    var fired: nat
    var disposed: bool

    constructor ()
      ensures fired == 0 && !disposed
    {
      fired, disposed := 0, false;
    }

    method Fire()
      requires !disposed
      modifies this
      ensures fired == old(fired) + 1 && !disposed
    {
      fired := fired + 1;
    }

    method Dispose()
      requires !disposed
      modifies this
      ensures disposed && fired == old(fired)
    {
      disposed := true;
    }
  }

  /** The core's cancellation token. */
  class Token {
    var cancels: nat
    var freed: bool

    constructor ()
      ensures cancels == 0 && !freed
    {
      cancels, freed := 0, false;
    }

    method Cancel()
      requires !freed
      modifies this
      ensures cancels == old(cancels) + 1 && !freed
    {
      cancels := cancels + 1;
    }

    method Free()
      requires !freed
      modifies this
      ensures freed && cancels == old(cancels)
    {
      freed := true;
    }
  }

  class Call {
    var locked: bool
    var freed: bool
    var refcount: int
    var completed: bool
    var trigger: Trigger?
    var handle: HandleStruct.Handle?
    var token: Token?
    var result: Bundle

    /** The struct as the transition system has it. */
    ghost function View(): Struct
      reads this
    {
      Struct(refcount, completed, trigger != null, token != null, result)
    }

    /** What a party that still has its reference finds. */
    ghost predicate Valid()
      reads this, trigger, handle, token
    {
      && !freed && !locked && refcount > 0
      && (trigger != null ==> !trigger.disposed)
      && (token != null ==> !token.freed)
      && (handle != null ==> handle.Valid())
    }

    /** calloc, the mutex and the two references. */
    constructor ()
      ensures !freed && !locked && View() == NEW_CALL.(trigger := false)
      ensures trigger == null && handle == null && token == null
    {
      locked, freed, refcount, completed := false, false, 2, false;
      trigger, handle, token, result := null, null, null, ZERO;
    }

    /** A call that nobody has used yet. */
    ghost predicate Unused()
      reads this, trigger, handle, token
    {
      Valid() && View() == NEW_CALL && token == null && trigger != null && trigger.fired == 0
    }

    /** temporal_call_new: `room` and `events` say whether the struct and the trigger could be
        allocated. `tried` is the struct, if there was one. */
    static method New(room: bool, events: bool) returns (c: Call?, ghost tried: Call?)
      ensures if room && events then c != null && fresh(c) && c.Unused() && fresh(c.trigger) && c.handle == null
              else c == null
      ensures room ==> tried != null && fresh(tried) && tried.freed == !events
    {
      c, tried := null, null;
      if !room {
        return;
      }
      var call := new Call();
      tried := call;
      if !events {
        call.freed := true;
        return;
      }
      call.trigger := new Trigger();
      c := call;
    }

    /** temporal_call_begin. A call that cannot be made takes no reference on the handle. */
    static method Begin(handle: HandleStruct.Handle?, room: bool, events: bool, ghost t: Bridge.Thread)
      returns (c: Call?, cancelled: bool, ghost tried: Call?)
      requires handle != null ==> handle.Valid()
      modifies handle
      ensures if room && events then
                c != null && !cancelled && fresh(c) && c.Unused() && fresh(c.trigger) && c.handle == handle
              else
                c == null && cancelled && (handle != null ==> handle.rec == old(handle.rec) && handle.Valid())
      ensures c != null && handle != null ==>
                && handle.refcount == old(handle.refcount) + 1
                && handle.rec == HandleStruct.AfterAddref(old(handle.rec), t)
      ensures room ==> tried != null && fresh(tried) && tried.freed == !events
    {
      c, tried := New(room, events);
      cancelled := c == null;
      if c == null {
        return;
      }
      if handle != null {
        c.handle := handle;
        handle.AddRef(t);
      }
    }

    /** temporal_result_drop, which no party calls with the mutex held. */
    method DropUnlocked(res: ResultStruct.Resources, r: Bundle)
      requires !locked && CanDrop(res.pay, r)
      modifies res
      ensures res.pay == Drop(old(res.pay), r)
    {
      res.DropAll(r);
    }

    /** temporal_call_free. */
    method Free(ghost t: Bridge.Thread)
      requires !freed && !locked && (handle != null ==> handle.Valid())
      modifies this`freed, handle
      ensures freed
      ensures handle != null ==> handle.rec == HandleStruct.AfterRelease(old(handle.rec), t)
      ensures handle != null ==> if old(handle.refcount) == 1 then handle.box.Freed? else handle.Valid()
    {
      if handle != null {
        handle.Drop(t);
      }
      freed := true;
    }

    /** `if (last) temporal_call_free(call)`. */
    method FreeIf(last: bool, ghost t: Bridge.Thread)
      requires !freed && !locked && (handle != null ==> handle.Valid())
      modifies this`freed, handle
      ensures freed == last
      ensures handle != null ==> handle.rec == HandleStruct.ReleasedIf(last, old(handle.rec), t)
    {
      if last {
        Free(t);
      }
    }

    /** temporal_call_deliver_locked. */
    method DeliverLocked() returns (last: bool)
      requires locked && trigger != null && !trigger.disposed
      modifies this`completed, this`refcount, trigger
      ensures completed && refcount == old(refcount) - 1 && last == (refcount == 0)
      ensures trigger.fired == old(trigger.fired) + 1 && !trigger.disposed
    {
      completed := true;
      trigger.Fire();
      refcount := refcount - 1;
      last := refcount == 0;
    }

    /** temporal_connect_done. `res` are the resources it is passed. */
    method ConnectDone(connection: bool, fail: Option<Bytes>, res: ResultStruct.Resources, ghost t: Bridge.Thread)
      requires Valid() && result == ZERO && CanDrop(res.pay, ZERO.(connection := connection, fail := fail))
      modifies this, trigger, handle, res
      ensures View() == Deliver(old(View()), ZERO.(connection := connection, fail := fail))
      ensures trigger == old(trigger) && handle == old(handle) && token == old(token) && !locked
      ensures trigger != null ==> trigger.fired == old(trigger.fired) + 1 && !trigger.disposed
      ensures res.pay == if trigger != null then old(res.pay)
                         else Drop(old(res.pay), ZERO.(connection := connection, fail := fail))
      ensures freed <==> old(refcount) == 1
      ensures handle != null ==> handle.rec == HandleStruct.ReleasedIf(freed, old(handle.rec), t)
    {
      locked := true;
      if trigger != null {
        result := result.(connection := connection, fail := fail);
        var last := DeliverLocked();
        locked := false;
        FreeIf(last, t);
      } else {
        var orphan := ZERO.(connection := connection, fail := fail);
        refcount := refcount - 1;
        var last := refcount == 0;
        locked := false;
        DropUnlocked(res, orphan);
        FreeIf(last, t);
      }
    }

    /** temporal_rpc_done. */
    method RpcDone(success: Option<Bytes>, owner: bool, status: nat, fail: Option<Bytes>, details: Option<Bytes>,
                   res: ResultStruct.Resources, ghost t: Bridge.Thread)
      requires Valid() && result == ZERO && CanDrop(res.pay, Bundle(false, success, owner, status, fail, details))
      modifies this, trigger, handle, res
      ensures View() == Deliver(old(View()), Bundle(false, success, owner, status, fail, details))
      ensures trigger == old(trigger) && handle == old(handle) && token == old(token) && !locked
      ensures trigger != null ==> trigger.fired == old(trigger.fired) + 1 && !trigger.disposed
      ensures res.pay == if trigger != null then old(res.pay)
                         else Drop(old(res.pay), Bundle(false, success, owner, status, fail, details))
      ensures freed <==> old(refcount) == 1
      ensures handle != null ==> handle.rec == HandleStruct.ReleasedIf(freed, old(handle.rec), t)
    {
      locked := true;
      if trigger != null {
        result := result.(data := success, owner := owner, status := status, fail := fail, details := details);
        var last := DeliverLocked();
        locked := false;
        FreeIf(last, t);
      } else {
        var orphan := ZERO.(data := success, owner := owner, fail := fail, details := details);
        refcount := refcount - 1;
        var last := refcount == 0;
        locked := false;
        DropUnlocked(res, orphan);
        FreeIf(last, t);
      }
    }

    /** temporal_worker_poll_done. */
    method PollDone(task: Option<Bytes>, owner: bool, fail: Option<Bytes>,
                    res: ResultStruct.Resources, ghost t: Bridge.Thread)
      requires Valid() && result == ZERO && CanDrop(res.pay, ZERO.(data := task, owner := owner, fail := fail))
      modifies this, trigger, handle, res
      ensures View() == Deliver(old(View()), ZERO.(data := task, owner := owner, fail := fail))
      ensures trigger == old(trigger) && handle == old(handle) && token == old(token) && !locked
      ensures trigger != null ==> trigger.fired == old(trigger.fired) + 1 && !trigger.disposed
      ensures res.pay == if trigger != null then old(res.pay)
                         else Drop(old(res.pay), ZERO.(data := task, owner := owner, fail := fail))
      ensures freed <==> old(refcount) == 1
      ensures handle != null ==> handle.rec == HandleStruct.ReleasedIf(freed, old(handle.rec), t)
    {
      locked := true;
      if trigger != null {
        result := result.(data := task, owner := owner, fail := fail);
        var last := DeliverLocked();
        locked := false;
        FreeIf(last, t);
      } else {
        var orphan := ZERO.(data := task, owner := owner, fail := fail);
        refcount := refcount - 1;
        var last := refcount == 0;
        locked := false;
        DropUnlocked(res, orphan);
        FreeIf(last, t);
      }
    }

    /** temporal_worker_op_done: an orphaned message is freed before the unlock. */
    method OpDone(fail: Option<Bytes>, res: ResultStruct.Resources, ghost t: Bridge.Thread)
      requires Valid() && result == ZERO && CanDrop(res.pay, ZERO.(fail := fail))
      modifies this, trigger, handle, res
      ensures View() == Deliver(old(View()), ZERO.(fail := fail))
      ensures trigger == old(trigger) && handle == old(handle) && token == old(token) && !locked
      ensures trigger != null ==> trigger.fired == old(trigger.fired) + 1 && !trigger.disposed
      ensures res.pay == if trigger != null then old(res.pay) else Drop(old(res.pay), ZERO.(fail := fail))
      ensures freed <==> old(refcount) == 1
      ensures handle != null ==> handle.rec == HandleStruct.ReleasedIf(freed, old(handle.rec), t)
    {
      locked := true;
      if trigger != null {
        result := result.(fail := fail);
        var last := DeliverLocked();
        locked := false;
        FreeIf(last, t);
      } else {
        res.FreeFail(fail);
        refcount := refcount - 1;
        var last := refcount == 0;
        locked := false;
        FreeIf(last, t);
      }
    }

    /** temporal_call_collect after the suspend; `exc` is EG(exception) != NULL. */
    method CollectResult(exc: bool, res: ResultStruct.Resources, ghost t: Bridge.Thread) returns (out: Outcome)
      requires Valid() && trigger != null && CanDrop(res.pay, result)
      modifies this, trigger, token, handle, res
      ensures View() == Collect(old(View()))
      ensures handle == old(handle) && token == old(token) && !locked
      ensures old(trigger).disposed && old(trigger).fired == old(trigger.fired)
      ensures token != null ==> token.freed
      ensures token != null ==> token.cancels == old(token.cancels) + (if exc && !old(completed) then 1 else 0)
      ensures freed <==> old(refcount) == 1
      ensures handle != null ==> handle.rec == HandleStruct.ReleasedIf(freed, old(handle.rec), t)
      ensures out == if exc then Cancelled else Got(if old(completed) then old(result) else ZERO)
      ensures res.pay == if exc then Drop(old(res.pay), old(result)) else old(res.pay)
    {
      locked := true;
      var event := trigger;
      trigger := null;
      var done := completed;
      var cancelToken := token;
      var r := result;
      result := ZERO;
      refcount := refcount - 1;
      var last := refcount == 0;
      locked := false;

      if event != null {
        event.Dispose();
      }

      out := Got(ZERO);

      if exc {
        out := Cancelled;
        if !done && cancelToken != null {
          cancelToken.Cancel();
        }
        DropUnlocked(res, r);
        FreeIf(last, t);
        if cancelToken != null {
          cancelToken.Free();
        }
        return;
      }

      FreeIf(last, t);
      if cancelToken != null {
        cancelToken.Free();
      }

      if done {
        out := Got(r);
      }
    }
  }

  // ---------------------------------------------------------------------------
  // The methods are runs of the transition system
  // ---------------------------------------------------------------------------

  type Record = CallMachine.Call

  /** The step is taken; it has to be possible. */
  function Aw(c: Record, st: AwStep): Record
    requires AwEnabled(c, st)
  {
    AwNext(c, st)
  }

  function Cb(c: Record, st: CbStep): Record
    requires CbEnabled(c, st)
  {
    CbNext(c, st)
  }

  /** temporal_call_free by the callback. To the handle the release does HandleStruct.AfterRelease. */
  function CbFrees(c: Record): Record
    requires c.cb == Past(if c.handle.Some? then CbReleasing(SLock) else CbFreeing)
  {
    Cb(if c.handle.Some? then Cb(c.(cb := Past(CbReleasing(SEnd)), pins := false), CbReleased) else c, CbFreeCall)
  }

  /** temporal_call_free by the awaiter. */
  function AwFrees(c: Record): (r: Record)
    requires c.aw == After(if c.handle.Some? then Releasing(SLock) else Freeing)
    ensures r == c.(aw := After(TokenFreeing), led := c.led.(call := Freed, mutex := Freed),
                    pins := c.pins && c.handle.None?)
  {
    Aw(if c.handle.Some? then Aw(c.(aw := After(Releasing(SEnd)), pins := false), Released) else c, FreeCall)
  }

  /** A `done` callback from the lock to its return, undisturbed. */
  function DeliverRun(c: Record): Record
    requires CbEnabled(c, CbLock)
  {
    var unlocked := Cb(Cb(Cb(c, CbLock), Delivers), CbUnlock);
    var dropped := if unlocked.cb == Past(CbDropping) then Cb(unlocked, DropOrphan) else unlocked;
    if dropped.k.last then CbFrees(dropped) else dropped
  }

  /** temporal_call_collect from the lock to the disposal of the trigger. */
  function CollectHead(c: Record): (r: Record)
    requires AwEnabled(c, Lock)
    ensures r.aw == if c.exc then After(Cancelling) else AwAfter(r)
    ensures r == c.(aw := r.aw, lock := None, m := Collect(c.m), led := c.led.(trigger := Freed),
                    a := AwLocals(c.m.completed, c.m.token, c.m.result, c.m.refcount == 1))
  {
    Aw(Aw(Aw(Aw(c, Lock), Collects), Unlock), Dispose)
  }

  /** What it does under an exception. */
  function CollectCancelled(c: Record): (r: Record)
    requires c.aw == After(Cancelling)
    ensures r.aw == AwAfter(c)
    ensures r == c.(aw := r.aw, pay := Drop(c.pay, c.a.result),
                    cancels := c.cancels + (if !c.a.completed && c.a.token then 1 else 0))
  {
    Aw(Aw(c, CancelToken), DropResult)
  }

  /** The end of it, the same with an exception and without. */
  function CollectTail(c: Record): (r: Record)
    requires c.aw == AwAfter(c)
    ensures r.aw == After(Returning) && r.m == c.m && r.lock == c.lock && r.pay == c.pay && r.cancels == c.cancels
    ensures var led := c.led.(token := if c.a.token then Freed else c.led.token);
            r.led == if c.a.last then led.(call := Freed, mutex := Freed) else led
    ensures r.pins == (c.pins && (c.a.last ==> c.handle.None?))
    ensures r.out == if c.exc then Cancelled else Got(if c.a.completed then c.a.result else ZERO)
  {
    Aw(if c.a.last then AwFrees(c) else c, FreeToken)
  }

  /** temporal_call_collect from the lock to its return, undisturbed. */
  function CollectRun(c: Record): Record
    requires AwEnabled(c, Lock)
  {
    var disposed := CollectHead(c);
    CollectTail(if c.exc then CollectCancelled(disposed) else disposed)
  }

  lemma HeldDuringCollect(c: Record)
    requires CallMachine.Inv(c) && AwEnabled(c, Lock)
    ensures c.m.trigger && c.m.refcount > 0 && c.led.call.Live? && CanDrop(c.pay, c.m.result)
    ensures c.pins ==> c.handle.Some?
  {
    DropOf(c.k.bundle);
  }

  /** All four `done` callbacks are the one deliver-or-orphan transition. Undisturbed, the transition
      system finds what the methods require and does what they ensure: the same struct, the same
      wake, the same drops, the same release of the handle, and the same free of the call. */
  lemma DoneIsDeliver(c: Record)
    requires CallMachine.Inv(c) && CbEnabled(c, CbLock)
    ensures c.m.result == ZERO && c.m.refcount > 0 && c.led.call.Live? && CanDrop(c.pay, c.k.bundle)
    ensures DeliverRun(c).cb == Past(CtxFreeing) && DeliverRun(c).lock.None?
    ensures DeliverRun(c).m == Deliver(c.m, c.k.bundle)
    ensures DeliverRun(c).fired == (if c.m.trigger then c.fired + 1 else c.fired)
    ensures DeliverRun(c).pay == (if c.m.trigger then c.pay else Drop(c.pay, c.k.bundle))
    ensures DeliverRun(c).led == if c.m.refcount == 1 then c.led.(call := Freed, mutex := Freed) else c.led
    ensures DeliverRun(c).pins == (c.pins && c.m.refcount != 1)
  {
    DropOf(c.k.bundle);
  }

  /** ... and temporal_call_collect is the awaiter's part: the same struct, disposal, cancel, drop,
      release, free of the call and of the token, and the same outcome. */
  lemma CollectIsCollect(c: Record)
    requires CallMachine.Inv(c) && AwEnabled(c, Lock)
    ensures c.m.trigger && c.m.refcount > 0 && c.led.call.Live? && CanDrop(c.pay, c.m.result)
    ensures CollectRun(c).aw == After(Returning) && CollectRun(c).lock.None?
    ensures CollectRun(c).m == Collect(c.m)
    ensures CollectRun(c).cancels == c.cancels + (if c.exc && !c.m.completed && c.m.token then 1 else 0)
    ensures CollectRun(c).pay == (if c.exc then Drop(c.pay, c.m.result) else c.pay)
    ensures var led := c.led.(trigger := Freed, token := if c.m.token then Freed else c.led.token);
            CollectRun(c).led == if c.m.refcount == 1 then led.(call := Freed, mutex := Freed) else led
    ensures CollectRun(c).pins == (c.pins && c.m.refcount != 1)
    ensures CollectRun(c).out == if c.exc then Cancelled else Got(if c.m.completed then c.m.result else ZERO)
  {
    HeldDuringCollect(c);
  }
}

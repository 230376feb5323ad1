/** One operation: the shared temporal_call_t, the coroutine that awaits it (the awaiter) and
    the core callback that completes it, as two programs interleaved one lock-level step at a
    time. Nothing in the steps presupposes that a resource is allocated: the `Safe` predicates
    say which steps are legal, and the invariant shows that only legal steps are ever enabled. */
module CallMachine {
  import opened CStrings
  import opened Results

  // ---------------------------------------------------------------------------
  // The shared struct
  // ---------------------------------------------------------------------------

  /** The mutable fields of temporal_call_t; the flags say whether a pointer is non-NULL. */
  datatype Struct = Struct(refcount: int, completed: bool, trigger: bool, token: bool, result: Bundle)

  /** temporal_call_new: one reference for the awaiter, one for the operation in flight. */
  const NEW_CALL := Struct(2, false, true, false, ZERO)

  /** A `done` callback under the mutex: store and wake, or leave the bundle an orphan. */
  function Deliver(m: Struct, b: Bundle): Struct {
    if m.trigger then Struct(m.refcount - 1, true, true, m.token, b)
    else m.(refcount := m.refcount - 1)
  }

  /** temporal_call_collect under the mutex. */
  function Collect(m: Struct): Struct {
    Struct(m.refcount - 1, m.completed, false, m.token, ZERO)
  }

  // ---------------------------------------------------------------------------
  // Program counters
  // ---------------------------------------------------------------------------

  /** Where a thread is inside temporal_php_handle_addref or temporal_php_handle_release. */
  datatype Stage = SLock | SOp | SUnlock(last: bool) | SBox | SStruct | SEnd

  /** temporal_call_begin, the token, and the shim call. */
  datatype Prep = Addref(st: Stage) | Arm | NewToken | Launching

  /** From the shim call to the critical section of temporal_call_collect. Sync: the shim is
      calling `done` itself. */
  datatype Wait = Sync | Suspending | Parked | Locking | Collecting

  /** The rest of temporal_call_collect, and the return into the method. */
  datatype Rest = Unlocking | Disposing | Cancelling | Dropping | Releasing(st: Stage) | Freeing | TokenFreeing
                | Returning | Finished

  datatype AwPc = Fresh | Aborted | Gone | Before(prep: Prep) | Waiting(wait: Wait) | After(rest: Rest)

  /** The core owes a callback; the shim copies; `done` locks and delivers. */
  datatype Owed = Pending | Copying | CbLocking | Delivering

  /** The rest of `done`, and the return into the shim. */
  datatype Tail = CbUnlocking | CbDropping | CbReleasing(st: Stage) | CbFreeing | CtxFreeing | CbFinished

  datatype CbPc = Idle | Due(owed: Owed) | Past(tail: Tail)

  datatype Party = Awaiter | Callback

  datatype Outcome = NoOutcome | Cancelled | Got(b: Bundle)

  /** The resources of one operation, apart from its payload. */
  datatype Ledger = Ledger(call: Cell, mutex: Cell, trigger: Cell, token: Cell, ctx: Cell,
                           coreFail: Cell, coreDetails: Cell)

  const NO_LEDGER := Ledger(Absent, Absent, Absent, Absent, Absent, Absent, Absent)

  /** The locals of temporal_call_collect. */
  datatype AwLocals = AwLocals(completed: bool, token: bool, result: Bundle, last: bool)

  /** What the core answered, what `done` was passed, and the locals of `done`. */
  datatype CbLocals = CbLocals(answer: Option<Answer>, bundle: Bundle, orphan: bool, last: bool)

  datatype Call = Call(
    kind: Kind,
    obj: nat,                 // the object whose method runs
    handle: Option<nat>,      // call->handle
    launched: bool,           // the core accepted the operation
    m: Struct,
    lock: Option<Party>,      // who holds call->mutex
    led: Ledger,
    pay: Payload,
    fired: nat,               // times the trigger was fired
    cancels: nat,             // times the token was cancelled
    exc: bool,                // an exception is pending in the coroutine
    pins: bool,               // the operation is counted in the handle's refcount
    aw: AwPc,
    a: AwLocals,
    out: Outcome,
    cb: CbPc,
    k: CbLocals)

  /** A method of object `obj` has just been entered. */
  function Entered(kind: Kind, obj: nat, handle: Option<nat>): Call {
    Call(kind, obj, handle, false, NEW_CALL, None, NO_LEDGER, NO_PAYLOAD, 0, 0, false, false,
         Fresh, AwLocals(false, false, ZERO, false), NoOutcome, Idle, CbLocals(None, ZERO, false, false))
  }

  // ---------------------------------------------------------------------------
  // The awaiter
  // ---------------------------------------------------------------------------

  datatype AwStep =
    | NewFails(afterCalloc: bool) | New | Pinned | ArmTrigger | TokenNew(room: bool)
    | LaunchFails(message: Option<Bytes>) | Launch | SyncReturn | Suspend
    | Cancel | Resume
    | Lock | Collects | Unlock | Dispose | CancelToken | DropResult | Released | FreeCall | FreeToken
    | Return(room: bool)

  /** Program order, lock availability, and the scheduler's rule that a parked coroutine resumes
      only because its trigger fired or an exception is pending. */
  predicate AwEnabled(c: Call, st: AwStep) {
    match st
    case NewFails(_) => c.aw.Fresh?
    case New => c.aw.Fresh?
    case Pinned => c.aw == Before(Addref(SEnd))
    case ArmTrigger => c.aw == Before(Arm)
    case TokenNew(_) => c.aw == Before(NewToken)
    case LaunchFails(_) => c.aw == Before(Launching)
    case Launch => c.aw == Before(Launching)
    case SyncReturn => c.aw == Waiting(Sync) && c.cb == Past(CbFinished)
    case Suspend => c.aw == Waiting(Suspending)
    case Cancel => c.aw == Waiting(Parked) && !c.exc
    case Resume => c.aw == Waiting(Parked) && (c.exc || c.fired > 0)
    case Lock => c.aw == Waiting(Locking) && c.lock.None?
    case Collects => c.aw == Waiting(Collecting)
    case Unlock => c.aw == After(Unlocking)
    case Dispose => c.aw == After(Disposing)
    case CancelToken => c.aw == After(Cancelling)
    case DropResult => c.aw == After(Dropping)
    case Released => c.aw == After(Releasing(SEnd))
    case FreeCall => c.aw == After(Freeing)
    case FreeToken => c.aw == After(TokenFreeing)
    case Return(_) => c.aw == After(Returning) || c.aw.Aborted?
  }

  /** `if (last) temporal_call_free(call)`, entered or skipped. */
  function AwAfter(c: Call): AwPc {
    After(if !c.a.last then TokenFreeing else if c.handle.Some? then Releasing(SLock) else Freeing)
  }

  function AwNext(c: Call, st: AwStep): Call {
    match st
    case NewFails(afterCalloc) =>
      c.(aw := Aborted, led := if afterCalloc then c.led.(call := Freed, mutex := Freed) else c.led)
    case New =>
      c.(m := NEW_CALL, led := c.led.(call := Live, mutex := Live, trigger := Live),
      aw := Before(if c.handle.Some? then Addref(SLock) else Arm))
    case Pinned => c.(aw := Before(Arm))
    case ArmTrigger => c.(aw := Before(if c.kind.Rpc? then NewToken else Launching))
    case TokenNew(room) =>
      c.(aw := Before(Launching), m := c.m.(token := room), led := c.led.(token := if room then Live else c.led.token))
    case LaunchFails(message) =>
      c.(aw := Waiting(Sync), cb := Due(CbLocking), k := c.k.(bundle := OutOfMemory(message)),
      pay := PayloadOf(OutOfMemory(message), Live))
    case Launch => c.(aw := Waiting(Suspending), cb := Due(Pending), launched := true, led := c.led.(ctx := Live))
    case SyncReturn => c.(aw := Waiting(Suspending))
    case Suspend => c.(aw := Waiting(Parked))
    case Cancel => c.(exc := true)
    case Resume => c.(aw := Waiting(Locking))
    case Lock => c.(aw := Waiting(Collecting), lock := Some(Awaiter))
    case Collects =>
      c.(aw := After(Unlocking), a := AwLocals(c.m.completed, c.m.token, c.m.result, c.m.refcount - 1 == 0),
      m := Collect(c.m))
    case Unlock => c.(aw := After(Disposing), lock := None)
    case Dispose => c.(led := c.led.(trigger := Freed), aw := if c.exc then After(Cancelling) else AwAfter(c))
    case CancelToken =>
      c.(aw := After(Dropping), cancels := if !c.a.completed && c.a.token then c.cancels + 1 else c.cancels)
    case DropResult => c.(pay := Drop(c.pay, c.a.result), aw := AwAfter(c))
    case Released => c.(aw := After(Freeing))
    case FreeCall => c.(aw := After(TokenFreeing), led := c.led.(call := Freed, mutex := Freed))
    case FreeToken =>
      c.(aw := After(Returning), led := c.led.(token := if c.a.token then Freed else c.led.token),
      out := if c.exc then Cancelled else Got(if c.a.completed then c.a.result else ZERO))
    case Return(room) =>
      if c.aw.Aborted? then c.(aw := Gone, out := Cancelled)
      else c.(aw := After(Finished), pay := if c.out.Got? then Consume(c.kind, c.pay, c.out.b, room) else c.pay)
  }

  /** Everything the step dereferences, locks or frees is allocated. */
  predicate AwSafe(c: Call, st: AwStep) {
    match st
    case New => c.led.call.Absent?
    case ArmTrigger => c.led.call.Live? && c.led.trigger.Live?
    case TokenNew(_) => c.led.call.Live? && c.led.token.Absent?
    case LaunchFails(_) => c.led.call.Live?
    case Launch => c.led.call.Live? && (c.m.token ==> c.led.token.Live?)
    case Lock => c.led.call.Live? && c.led.mutex.Live?
    case Collects => c.led.call.Live? && c.lock == Some(Awaiter)
    case Unlock => c.led.call.Live? && c.led.mutex.Live? && c.lock == Some(Awaiter)
    case Dispose => c.led.trigger.Live?
    case CancelToken => !c.a.completed && c.a.token ==> c.led.token.Live?
    case DropResult => CanDrop(c.pay, c.a.result)
    case FreeCall => c.led.call.Live? && c.led.mutex.Live? && c.lock.None?
    case FreeToken => c.a.token ==> c.led.token.Live?
    case Return(_) => c.out.Got? ==> CanConsume(c.kind, c.pay, c.out.b)
    case _ => true
  }

  // ---------------------------------------------------------------------------
  // The callback
  // ---------------------------------------------------------------------------

  datatype CbStep =
    | Invoke(a: Answer) | Copy(failRoom: bool, detailsRoom: bool)
    | CbLock | Delivers | CbUnlock | DropOrphan | CbReleased | CbFreeCall | FreeCtx

  predicate CbEnabled(c: Call, st: CbStep) {
    match st
    case Invoke(a) => c.cb == Due(Pending) && Contract(c.kind, a)
    case Copy(_, _) => c.cb == Due(Copying)
    case CbLock => c.cb == Due(CbLocking) && c.lock.None?
    case Delivers => c.cb == Due(Delivering)
    case CbUnlock => c.cb == Past(CbUnlocking)
    case DropOrphan => c.cb == Past(CbDropping)
    case CbReleased => c.cb == Past(CbReleasing(SEnd))
    case CbFreeCall => c.cb == Past(CbFreeing)
    case FreeCtx => c.cb == Past(CtxFreeing)
  }

  function CbAfter(c: Call): CbPc {
    Past(if !c.k.last then CtxFreeing else if c.handle.Some? then CbReleasing(SLock) else CbFreeing)
  }

  function AnswerOf(c: Call): Answer {
    if c.k.answer.Some? then c.k.answer.value else Answer(false, None, None, None, 0)
  }

  function CbNext(c: Call, st: CbStep): Call {
    match st
    case Invoke(a) =>
      c.(cb := Due(Copying), k := c.k.(answer := Some(a)),
      pay := Payload(As(a.connection, Live), As(a.success.Some?, Live), Absent, Absent),
      led := c.led.(coreFail := As(a.fail.Some?, Live), coreDetails := As(a.details.Some?, Live)))
    case Copy(failRoom, detailsRoom) =>
      var b := Delivered(c.kind, AnswerOf(c), failRoom, detailsRoom);
      c.(cb := Due(CbLocking), k := c.k.(bundle := b),
      pay := c.pay.(fail := As(b.fail.Some?, Live), details := As(b.details.Some?, Live)),
      led := c.led.(coreFail := As(AnswerOf(c).fail.Some?, Freed), coreDetails := As(AnswerOf(c).details.Some?, Freed)))
    case CbLock => c.(cb := Due(Delivering), lock := Some(Callback))
    case Delivers =>
      c.(cb := Past(CbUnlocking), m := Deliver(c.m, c.k.bundle),
      k := c.k.(orphan := !c.m.trigger, last := c.m.refcount - 1 == 0),
      fired := if c.m.trigger then c.fired + 1 else c.fired,
      // temporal_worker_op_done frees an orphaned message before it unlocks
      pay := if !c.m.trigger && c.kind.Void() then Drop(c.pay, c.k.bundle) else c.pay)
    case CbUnlock =>
      c.(lock := None, cb := if c.k.orphan && !c.kind.Void() then Past(CbDropping) else CbAfter(c))
    case DropOrphan => c.(pay := Drop(c.pay, c.k.bundle), cb := CbAfter(c))
    case CbReleased => c.(cb := Past(CbFreeing))
    case CbFreeCall => c.(cb := Past(CtxFreeing), led := c.led.(call := Freed, mutex := Freed))
    case FreeCtx => c.(cb := Past(CbFinished), led := c.led.(ctx := if c.launched then Freed else c.led.ctx))
  }

  predicate CbSafe(c: Call, st: CbStep) {
    match st
    case Invoke(_) => c.led.ctx.Live?
    case Copy(_, _) =>
      && c.led.ctx.Live?
      && (AnswerOf(c).fail.Some? ==> c.led.coreFail.Live?)
      && (AnswerOf(c).details.Some? ==> c.led.coreDetails.Live?)
    case CbLock => c.led.call.Live? && c.led.mutex.Live?
    case Delivers =>
      && c.led.call.Live? && c.lock == Some(Callback)
      && (if c.m.trigger then c.led.trigger.Live? else c.kind.Void() ==> CanDrop(c.pay, c.k.bundle))
    case CbUnlock => c.led.call.Live? && c.led.mutex.Live? && c.lock == Some(Callback)
    case DropOrphan => CanDrop(c.pay, c.k.bundle)
    case CbReleased => true
    case CbFreeCall => c.led.call.Live? && c.led.mutex.Live? && c.lock.None?
    case FreeCtx => c.launched ==> c.led.ctx.Live?
  }

  // ---------------------------------------------------------------------------
  // The invariant of one operation
  // ---------------------------------------------------------------------------

  /** The struct has been freed, by whichever party was last. */
  predicate CallFreed(c: Call) {
    || (c.a.last && (c.aw == After(TokenFreeing) || c.aw == After(Returning) || c.aw == After(Finished)))
    || (c.k.last && (c.cb == Past(CtxFreeing) || c.cb == Past(CbFinished)))
  }

  predicate BeforeOp(st: Stage) {
    st.SLock? || st.SOp?
  }

  /** The last party is past the decrement of the handle, or past the whole release. */
  predicate Unpinned(c: Call) {
    || c.aw == After(Freeing) || c.cb == Past(CbFreeing) || CallFreed(c)
    || (c.aw.After? && c.aw.rest.Releasing? && !BeforeOp(c.aw.rest.st))
    || (c.cb.Past? && c.cb.tail.CbReleasing? && !BeforeOp(c.cb.tail.st))
  }

  predicate NeverBegun(c: Call) {
    && c.cb.Idle? && !c.pins && !c.launched && c.lock.None? && !c.exc
    && c.fired == 0 && c.cancels == 0 && c.pay == NO_PAYLOAD
    && !c.a.last && !c.k.last && !c.k.orphan && c.k.answer.None?
    && (if c.aw.Fresh? then c.led == NO_LEDGER
        else c.led == NO_LEDGER || c.led == NO_LEDGER.(call := Freed, mutex := Freed))
    && c.out == (if c.aw.Gone? then Cancelled else NoOutcome)
  }

  /** Reference count, mutex, and what each party learned under it. */
  predicate Protocol(c: Call) {
    && (c.cb.Idle? <==> c.aw.Before?)
    && c.m.refcount == (if c.aw.After? then 0 else 1) + (if c.cb.Past? then 0 else 1)
    && c.m.trigger == !c.aw.After?
    && c.m.completed == (c.cb.Past? && !c.k.orphan)
    && c.lock == (if c.aw == Waiting(Collecting) || c.aw == After(Unlocking) then Some(Awaiter)
                  else if c.cb == Due(Delivering) || c.cb == Past(CbUnlocking) then Some(Callback) else None)
    && (c.lock == Some(Awaiter) ==> c.cb != Due(Delivering) && c.cb != Past(CbUnlocking))
    && (if c.aw.After? then c.a.last == c.a.completed == (c.cb.Past? && !c.k.orphan) else !c.a.last)
    && (if c.cb.Past? then c.k.last == c.k.orphan && (c.k.orphan ==> c.aw.After?) else !c.k.last && !c.k.orphan)
    && (c.aw == After(Unlocking) && c.cb.Past? ==> !c.k.orphan)
    && (c.cb == Past(CbUnlocking) && c.aw.After? ==> c.k.orphan)
  }

  /** Conditions on being at a program point. */
  predicate Points(c: Call) {
    && (c.aw == Before(NewToken) ==> c.kind.Rpc?)
    && (c.aw == Waiting(Sync) ==> !c.launched)
    && (c.cb.Idle? ==> !c.launched)
    && (c.cb == Due(Pending) || c.cb == Due(Copying) ==> c.launched)
    && (c.cb == Past(CbDropping) ==> c.k.orphan && !c.kind.Void())
    && (c.aw == After(Cancelling) || c.aw == After(Dropping) ==> c.exc)
    && (c.aw == After(Freeing) ==> c.a.last)
    && (c.cb == Past(CbFreeing) ==> c.k.last)
    && (c.aw.After? && c.aw.rest.Releasing? ==> c.a.last && c.handle.Some?)
    && (c.cb.Past? && c.cb.tail.CbReleasing? ==> c.k.last && c.handle.Some?)
    && (c.aw.Before? && c.aw.prep.Addref? ==>
          c.handle.Some? && (c.aw.prep.st in {SLock, SOp, SUnlock(false), SEnd}))
    && c.pins == (c.handle.Some? && !(c.aw.Before? && c.aw.prep.Addref? && BeforeOp(c.aw.prep.st)) && !Unpinned(c))
  }

  /** Struct, mutex, trigger and shim context. */
  predicate Memory(c: Call) {
    && c.led.call == c.led.mutex == (if CallFreed(c) then Freed else Live)
    && c.led.trigger == (if !c.aw.After? || c.aw.rest.Unlocking? || c.aw.rest.Disposing? then Live else Freed)
    && c.fired == (if c.m.completed then 1 else 0)
    && c.led.ctx == (if !c.launched then Absent else if c.cb == Past(CbFinished) then Freed else Live)
  }

  /** The cancel token. */
  predicate Tokens(c: Call) {
    && (c.m.token ==> c.kind.Rpc? && (c.aw.Before? ==> c.aw.prep.Launching?))
    && c.led.token == (if !c.m.token then Absent
                       else if c.aw == After(Returning) || c.aw == After(Finished) then Freed else Live)
    && (c.aw.After? ==> c.a.token == c.m.token)
  }

  /** The core's failure buffers, which live only while the shim copies them. */
  predicate Copies(c: Call) {
    && (c.cb.Idle? || c.cb == Due(Pending) ==> c.k.answer.None?)
    && c.led.coreFail == As(AnswerOf(c).fail.Some?, if c.cb == Due(Copying) then Live else Freed)
    && c.led.coreDetails == As(AnswerOf(c).details.Some?, if c.cb == Due(Copying) then Live else Freed)
  }

  /** The token was offered a cancel. */
  predicate PastCancel(c: Call) {
    c.exc && c.aw.After? && !c.aw.rest.Unlocking? && !c.aw.rest.Disposing? && !c.aw.rest.Cancelling?
  }

  /** The outcome, and no lost wake: without an exception the awaiter only runs on once the
      operation has completed. */
  predicate Outcomes(c: Call) {
    && (c.exc ==> c.aw.After? || (c.aw.Waiting? && (c.aw.wait.Parked? || c.aw.wait.Locking? || c.aw.wait.Collecting?)))
    && (!c.exc && (c.aw == Waiting(Locking) || c.aw == Waiting(Collecting)) ==> c.m.completed)
    && (!c.exc && c.aw.After? ==> c.a.completed)
    && c.out == (if c.aw != After(Returning) && c.aw != After(Finished) then NoOutcome
                 else if c.exc then Cancelled else Got(c.k.bundle))
    && c.cancels == (if PastCancel(c) && !c.a.completed && c.a.token then 1 else 0)
  }

  /** Where the bundle's resources stand: every place that will release them finds them live. */
  function PayloadNow(c: Call): Cell {
    if !c.cb.Past? then Live
    else if c.k.orphan then
      if c.cb == Past(CbDropping) || (c.cb == Past(CbUnlocking) && !c.kind.Void()) then Live else Freed
    else if PastCancel(c) && !c.aw.rest.Dropping? then Freed
    else Live
  }

  predicate Custody(c: Call) {
    && (c.cb.Idle? || c.cb == Due(Pending) ==> c.pay == NO_PAYLOAD)
    && (c.cb == Due(Copying) ==>
          c.k.answer.Some? && Contract(c.kind, AnswerOf(c)) &&
          c.pay == Payload(As(AnswerOf(c).connection, Live), As(AnswerOf(c).success.Some?, Live), Absent, Absent))
    && (c.cb == Due(CbLocking) || c.cb == Due(Delivering) || c.cb.Past? ==>
          && Tidy(c.kind, c.k.bundle) && Borrowed(c.k.bundle)
          && (if c.aw == After(Finished) && !c.exc && c.a.completed then Settled(c.pay, c.k.bundle)
              else c.pay == PayloadOf(c.k.bundle, PayloadNow(c))))
    && c.m.result == (if c.cb.Past? && !c.aw.After? then c.k.bundle else ZERO)
    && (c.aw.After? ==> c.a.result == (if c.a.completed then c.k.bundle else ZERO))
  }

  predicate Begun(c: Call) {
    c.aw.Before? || c.aw.Waiting? || c.aw.After?
  }

  /** Only a connect has no core handle yet. */
  predicate HandleByKind(c: Call) {
    c.kind.Connect? <==> c.handle.None?
  }

  predicate Inv(c: Call) {
    && HandleByKind(c)
    && (if Begun(c) then Protocol(c) && Points(c) && Memory(c) && Tokens(c) && Copies(c) && Outcomes(c) && Custody(c)
        else NeverBegun(c))
  }

  lemma DropOf(b: Bundle)
    ensures Drop(PayloadOf(b, Live), b) == PayloadOf(b, Freed)
    ensures CanDrop(PayloadOf(b, Live), b)
  {
  }

  lemma DropZero(p: Payload)
    ensures Drop(p, ZERO) == p
    ensures CanDrop(p, ZERO)
  {
  }

  // ---------------------------------------------------------------------------
  // Preservation
  // ---------------------------------------------------------------------------

  lemma AwKeepsTokens(c: Call, st: AwStep)
    requires Begun(c) && (c.aw == Before(NewToken) ==> c.kind.Rpc?) && Tokens(c) && AwEnabled(c, st)
    ensures Tokens(AwNext(c, st))
  {
  }

  lemma AwKeepsCopies(c: Call, st: AwStep)
    requires Begun(c) && (c.cb.Idle? <==> c.aw.Before?) && Copies(c) && AwEnabled(c, st)
    ensures Copies(AwNext(c, st))
  {
  }

  /** The steps up to the critical section of temporal_call_collect. */
  predicate Early(st: AwStep) {
    st.NewFails? || st.New? || st.Pinned? || st.ArmTrigger? || st.TokenNew? || st.LaunchFails? || st.Launch?
    || st.SyncReturn? || st.Suspend? || st.Cancel? || st.Resume? || st.Lock?
  }

  lemma EarlyKeepsProtocol(c: Call, st: AwStep)
    requires Begun(c) && HandleByKind(c) && Protocol(c) && Points(c) && AwEnabled(c, st) && Early(st)
    ensures Begun(AwNext(c, st)) && HandleByKind(AwNext(c, st)) && Protocol(AwNext(c, st))
  {
  }

  lemma LateKeepsProtocol(c: Call, st: AwStep)
    requires Begun(c) && HandleByKind(c) && Protocol(c) && Points(c) && AwEnabled(c, st) && !Early(st)
    ensures Begun(AwNext(c, st)) && HandleByKind(AwNext(c, st)) && Protocol(AwNext(c, st))
  {
  }

  lemma EarlyKeepsPoints(c: Call, st: AwStep)
    requires Begun(c) && HandleByKind(c) && Protocol(c) && Points(c) && AwEnabled(c, st) && Early(st)
    ensures Points(AwNext(c, st))
  {
  }

  lemma LateKeepsPoints(c: Call, st: AwStep)
    requires Begun(c) && HandleByKind(c) && Protocol(c) && Points(c) && AwEnabled(c, st) && !Early(st)
    ensures Points(AwNext(c, st))
  {
  }

  lemma EarlyKeepsMemory(c: Call, st: AwStep)
    requires Begun(c) && HandleByKind(c) && Protocol(c) && Points(c) && Memory(c) && AwEnabled(c, st) && Early(st)
    ensures Memory(AwNext(c, st))
  {
  }

  lemma LateKeepsMemory(c: Call, st: AwStep)
    requires Begun(c) && HandleByKind(c) && Protocol(c) && Points(c) && Memory(c) && AwEnabled(c, st) && !Early(st)
    ensures Memory(AwNext(c, st))
  {
  }

  lemma EarlyKeepsOutcomes(c: Call, st: AwStep)
    requires Begun(c) && HandleByKind(c) && Protocol(c) && Points(c) && Memory(c) && Tokens(c)
    requires Outcomes(c) && Custody(c)
    requires AwEnabled(c, st) && Early(st)
    ensures Outcomes(AwNext(c, st))
  {
  }

  lemma CollectKeepsOutcomes(c: Call, st: AwStep)
    requires Begun(c) && Protocol(c) && Points(c) && Outcomes(c) && Custody(c) && AwEnabled(c, st)
    requires st.Collects? || st.Unlock? || st.Dispose?
    ensures Outcomes(AwNext(c, st))
  {
  }

  lemma CancelKeepsOutcomes(c: Call, st: AwStep)
    requires Begun(c) && Protocol(c) && Points(c) && Outcomes(c) && Custody(c) && AwEnabled(c, st)
    requires st.CancelToken? || st.DropResult?
    ensures Outcomes(AwNext(c, st))
  {
  }

  lemma FreeKeepsOutcomes(c: Call, st: AwStep)
    requires Begun(c) && Protocol(c) && Points(c) && Outcomes(c) && Custody(c) && AwEnabled(c, st)
    requires st.Released? || st.FreeCall? || st.FreeToken? || st.Return?
    ensures Outcomes(AwNext(c, st))
  {
  }

  lemma LateKeepsOutcomes(c: Call, st: AwStep)
    requires Begun(c) && Protocol(c) && Points(c) && Outcomes(c) && Custody(c) && AwEnabled(c, st)
    requires !Early(st)
    ensures Outcomes(AwNext(c, st))
  {
    if st.Collects? || st.Unlock? || st.Dispose? {
      CollectKeepsOutcomes(c, st);
    } else if st.CancelToken? || st.DropResult? {
      CancelKeepsOutcomes(c, st);
    } else {
      FreeKeepsOutcomes(c, st);
    }
  }

  lemma CbKeepsTokens(c: Call, st: CbStep)
    requires Begun(c) && Protocol(c) && Points(c) && Tokens(c) && CbEnabled(c, st)
    ensures Tokens(CbNext(c, st))
  {
  }

  lemma CbKeepsCopies(c: Call, st: CbStep)
    requires Copies(c) && CbEnabled(c, st)
    ensures Copies(CbNext(c, st))
  {
  }

  lemma CbKeepsProtocol(c: Call, st: CbStep)
    requires Begun(c) && HandleByKind(c) && Protocol(c) && Points(c) && CbEnabled(c, st)
    ensures Begun(CbNext(c, st)) && HandleByKind(CbNext(c, st)) && Protocol(CbNext(c, st))
  {
  }

  lemma CbKeepsPoints(c: Call, st: CbStep)
    requires Begun(c) && HandleByKind(c) && Protocol(c) && Points(c) && CbEnabled(c, st)
    ensures Points(CbNext(c, st))
  {
  }

  lemma CbKeepsMemory(c: Call, st: CbStep)
    requires Begun(c) && HandleByKind(c) && Protocol(c) && Points(c) && Memory(c) && CbEnabled(c, st)
    ensures Memory(CbNext(c, st))
  {
  }

  lemma DeliverKeepsOutcomes(c: Call, st: CbStep)
    requires Begun(c) && Protocol(c) && Points(c) && Outcomes(c) && Custody(c) && CbEnabled(c, st)
    requires st.Invoke? || st.Copy? || st.CbLock? || st.Delivers?
    ensures Outcomes(CbNext(c, st))
  {
  }

  lemma CbFreeKeepsOutcomes(c: Call, st: CbStep)
    requires Begun(c) && Protocol(c) && Points(c) && Outcomes(c) && Custody(c) && CbEnabled(c, st)
    requires !st.Invoke? && !st.Copy? && !st.CbLock? && !st.Delivers?
    ensures Outcomes(CbNext(c, st))
  {
  }

  lemma CbKeepsOutcomes(c: Call, st: CbStep)
    requires Begun(c) && Protocol(c) && Points(c) && Outcomes(c) && Custody(c) && CbEnabled(c, st)
    ensures Outcomes(CbNext(c, st))
  {
    if st.Invoke? || st.Copy? || st.CbLock? || st.Delivers? {
      DeliverKeepsOutcomes(c, st);
    } else {
      CbFreeKeepsOutcomes(c, st);
    }
  }

  lemma DisposeKeepsCustody(c: Call, st: AwStep)
    requires Begun(c) && Protocol(c) && Points(c) && Custody(c) && AwEnabled(c, st) && (st.Dispose? || st.CancelToken?)
    ensures Custody(AwNext(c, st))
  {
  }

  lemma DropKeepsCustody(c: Call)
    requires Begun(c) && Protocol(c) && Points(c) && Custody(c) && AwEnabled(c, DropResult)
    ensures Custody(AwNext(c, DropResult))
  {
    DropOf(c.k.bundle);
    DropZero(c.pay);
  }

  lemma ReturnKeepsCustody(c: Call, room: bool)
    requires Begun(c) && Protocol(c) && Points(c) && Outcomes(c) && Custody(c) && AwEnabled(c, Return(room))
    ensures Custody(AwNext(c, Return(room)))
  {
    ConsumeConserves(c.kind, c.k.bundle, room);
  }

  lemma EarlyKeepsCustody(c: Call, st: AwStep)
    requires Begun(c) && Protocol(c) && Points(c) && Custody(c) && AwEnabled(c, st) && Early(st)
    ensures Custody(AwNext(c, st))
  {
  }

  lemma CollectKeepsCustody(c: Call, st: AwStep)
    requires Begun(c) && Protocol(c) && Points(c) && Custody(c) && AwEnabled(c, st)
    requires st.Collects? || st.Unlock? || st.Released? || st.FreeCall? || st.FreeToken?
    ensures Custody(AwNext(c, st))
  {
  }

  lemma LateKeepsCustody(c: Call, st: AwStep)
    requires Begun(c) && Protocol(c) && Points(c) && Outcomes(c) && Custody(c) && AwEnabled(c, st) && !Early(st)
    ensures Custody(AwNext(c, st))
  {
    match st
    case Return(room) => ReturnKeepsCustody(c, room);
    case DropResult => DropKeepsCustody(c);
    case Dispose => DisposeKeepsCustody(c, st);
    case CancelToken => DisposeKeepsCustody(c, st);
    case _ => CollectKeepsCustody(c, st);
  }

  lemma CopyKeepsCustody(c: Call, failRoom: bool, detailsRoom: bool)
    requires Begun(c) && Protocol(c) && Points(c) && Custody(c) && CbEnabled(c, Copy(failRoom, detailsRoom))
    ensures Custody(CbNext(c, Copy(failRoom, detailsRoom)))
  {
    ContractGivesTidy(c.kind, AnswerOf(c), failRoom, detailsRoom);
    CopyCompletesPayload(c.kind, AnswerOf(c), failRoom, detailsRoom);
  }

  lemma InvokeKeepsCustody(c: Call, st: CbStep)
    requires Begun(c) && Protocol(c) && Points(c) && Custody(c) && CbEnabled(c, st) && (st.Invoke? || st.CbLock?)
    ensures Custody(CbNext(c, st))
  {
  }

  lemma OrphanKeepsCustody(c: Call)
    requires Begun(c) && Protocol(c) && Points(c) && Custody(c) && CbEnabled(c, DropOrphan)
    ensures Custody(CbNext(c, DropOrphan))
  {
    DropOf(c.k.bundle);
  }

  lemma DeliverKeepsCustody(c: Call, st: CbStep)
    requires Begun(c) && Protocol(c) && Points(c) && Custody(c) && CbEnabled(c, st)
    requires !st.Invoke? && !st.CbLock? && !st.DropOrphan? && !st.Copy?
    ensures Custody(CbNext(c, st))
  {
    if st.Delivers? {
      DropOf(c.k.bundle);
    }
  }

  lemma CbKeepsCustody(c: Call, st: CbStep)
    requires Begun(c) && Protocol(c) && Points(c) && Custody(c) && CbEnabled(c, st)
    ensures Custody(CbNext(c, st))
  {
    if st.Copy? {
      CopyKeepsCustody(c, st.failRoom, st.detailsRoom);
    } else if st.Invoke? || st.CbLock? {
      InvokeKeepsCustody(c, st);
    } else if st.DropOrphan? {
      OrphanKeepsCustody(c);
    } else {
      DeliverKeepsCustody(c, st);
    }
  }

  lemma GroupsMakeInv(c: Call)
    requires Begun(c) && HandleByKind(c)
    requires Protocol(c) && Points(c) && Memory(c) && Tokens(c) && Copies(c) && Outcomes(c) && Custody(c)
    ensures Inv(c)
  {
  }

  lemma BeginKeepsInv(c: Call, st: AwStep)
    requires Inv(c) && !Begun(c) && AwEnabled(c, st)
    ensures Inv(AwNext(c, st))
  {
  }

  lemma LateKeepsInv(c: Call, st: AwStep)
    requires Inv(c) && Begun(c) && AwEnabled(c, st) && !Early(st)
    ensures Inv(AwNext(c, st))
  {
    LateKeepsProtocol(c, st);
    LateKeepsPoints(c, st);
    AwKeepsTokens(c, st);
    AwKeepsCopies(c, st);
    LateKeepsMemory(c, st);
    LateKeepsOutcomes(c, st);
    LateKeepsCustody(c, st);
    GroupsMakeInv(AwNext(c, st));
  }

  lemma EarlyKeepsInv(c: Call, st: AwStep)
    requires Inv(c) && Begun(c) && AwEnabled(c, st) && Early(st)
    ensures Inv(AwNext(c, st))
  {
    EarlyKeepsProtocol(c, st);
    EarlyKeepsPoints(c, st);
    AwKeepsTokens(c, st);
    AwKeepsCopies(c, st);
    EarlyKeepsMemory(c, st);
    EarlyKeepsOutcomes(c, st);
    EarlyKeepsCustody(c, st);
    GroupsMakeInv(AwNext(c, st));
  }

  /** Every step of the awaiter keeps the invariant. */
  lemma AwKeepsInv(c: Call, st: AwStep)
    requires Inv(c) && AwEnabled(c, st)
    ensures Inv(AwNext(c, st))
  {
    if !Begun(c) {
      BeginKeepsInv(c, st);
    } else if Early(st) {
      EarlyKeepsInv(c, st);
    } else {
      LateKeepsInv(c, st);
    }
  }

  /** Every step of the callback keeps the invariant. */
  lemma CbKeepsInv(c: Call, st: CbStep)
    requires Inv(c) && CbEnabled(c, st)
    ensures Inv(CbNext(c, st))
  {
    CbKeepsProtocol(c, st);
    CbKeepsPoints(c, st);
    CbKeepsTokens(c, st);
    CbKeepsCopies(c, st);
    CbKeepsMemory(c, st);
    CbKeepsOutcomes(c, st);
    CbKeepsCustody(c, st);
    GroupsMakeInv(CbNext(c, st));
  }

  lemma ReturnIsSafe(c: Call, room: bool)
    requires Inv(c) && AwEnabled(c, Return(room))
    ensures AwSafe(c, Return(room))
  {
    if c.out.Got? {
      assert c.out.b == c.k.bundle && c.cb.Past?;
      ConsumeIsLegal(c.kind, c.k.bundle);
    }
  }

  lemma DropIsSafe(c: Call)
    requires Inv(c) && AwEnabled(c, DropResult)
    ensures AwSafe(c, DropResult)
  {
    DropOf(c.k.bundle);
  }

  /** Every enabled step of the awaiter is legal. */
  lemma AwStepIsSafe(c: Call, st: AwStep)
    requires Inv(c) && AwEnabled(c, st)
    ensures AwSafe(c, st)
  {
    match st
    case Return(room) => ReturnIsSafe(c, room);
    case DropResult => DropIsSafe(c);
    case _ =>
  }

  /** Every enabled step of the callback is legal. */
  lemma CbStepIsSafe(c: Call, st: CbStep)
    requires Inv(c) && CbEnabled(c, st)
    ensures CbSafe(c, st)
  {
    DropOf(c.k.bundle);
  }
}

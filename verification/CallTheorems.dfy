/** What one operation promises, in the terms its two parties can observe. */
module CallTheorems {
  import opened Results
  import opened CallMachine

  /** Who frees is determined: a callback that finds the trigger set is never last and one that
      finds it NULL always is; the awaiter is last exactly when it finds the call completed. */
  lemma WhoFrees(c: Call)
    requires Inv(c)
    ensures CbEnabled(c, Delivers) ==> (CbNext(c, Delivers).k.last <==> !c.m.trigger)
    ensures AwEnabled(c, Collects) ==> (AwNext(c, Collects).a.last <==> c.m.completed)
  {
  }

  /** The struct is freed by exactly one party, the second to take the lock. */
  lemma OnePartyFrees(c: Call)
    requires Inv(c) && Begun(c) && c.aw.After? && c.cb.Past?
    ensures c.a.last != c.k.last
    ensures c.a.last <==> !c.k.orphan
  {
  }

  /** The trigger is fired only by a step that finds it allocated and not yet fired, and disposed
      only by a step that finds it allocated: at most one fire, before the one disposal. */
  lemma TriggerDiscipline(c: Call)
    requires Inv(c)
    ensures c.fired <= 1
    ensures CbEnabled(c, Delivers) && CbNext(c, Delivers).fired != c.fired ==> c.fired == 0 && c.led.trigger.Live?
    ensures AwEnabled(c, Dispose) ==> c.led.trigger.Live?
    ensures Begun(c) && c.led.trigger.Freed? ==> !CbEnabled(c, Delivers) || CbNext(c, Delivers).fired == c.fired
  {
  }

  /** No lost wake: a call that is completed while its awaiter is parked has woken it. */
  lemma NoLostWake(c: Call)
    requires Inv(c) && c.aw == Waiting(Parked)
    ensures c.m.completed <==> c.fired == 1
    ensures c.m.completed ==> AwEnabled(c, Resume)
  {
  }

  /** docs/DESIGN.md:153-159 has the callback of a cancelled call still pull the trigger. It does so
      exactly when it took the lock before the awaiter; otherwise it finds no trigger, and the token
      may be freed before the callback has run. */
  lemma TriggerAfterCancel(c: Call)
    requires Inv(c) && c.aw.After?
    ensures c.fired == 1 <==> c.a.completed
    ensures CbEnabled(c, Delivers) ==> CbNext(c, Delivers).fired == 0
  {
  }

  /** A token is cancelled at most once, only when the operation had not completed under the lock
      and an exception is pending, and always while the token is allocated. */
  lemma CancelProtocol(c: Call, st: AwStep)
    requires Inv(c) && AwEnabled(c, st)
    ensures AwNext(c, st).cancels <= 1
    ensures AwNext(c, st).cancels > c.cancels ==>
              c.cancels == 0 && !c.a.completed && c.exc && c.m.token && c.led.token.Live?
  {
    AwKeepsInv(c, st);
  }

  /** ... and every awaiter that was given a token has freed it by the time it returns. */
  lemma TokenIsFreed(c: Call)
    requires Inv(c) && (c.aw == After(Returning) || c.aw == After(Finished))
    ensures c.led.token == (if c.m.token then Freed else Absent)
    ensures c.m.token && c.exc && !c.a.completed ==> c.cancels == 1
  {
  }

  /** The call with any other shared struct and mutex, any other callback, and perhaps freed. */
  function Elsewhere(c: Call, m: Struct, lock: Option<Party>, cb: CbPc, k: CbLocals, mem: Cell): Call {
    c.(m := m, lock := lock, cb := cb, k := k, led := c.led.(call := mem, mutex := mem))
  }

  lemma SameStepsElsewhere(c: Call, st: AwStep, m: Struct, lock: Option<Party>, cb: CbPc, k: CbLocals, mem: Cell)
    requires c.aw.After?
    ensures AwEnabled(Elsewhere(c, m, lock, cb, k, mem), st) <==> AwEnabled(c, st)
  {
  }

  lemma SameEffectElsewhere(c: Call, st: AwStep, m: Struct, lock: Option<Party>, cb: CbPc, k: CbLocals, mem: Cell)
    requires c.aw.After? && !st.Unlock? && !st.FreeCall? && AwEnabled(c, st)
    ensures AwNext(Elsewhere(c, m, lock, cb, k, mem), st) == Elsewhere(AwNext(c, st), m, lock, cb, k, mem)
    ensures AwNext(c, st).m == c.m && AwNext(c, st).lock == c.lock && AwNext(c, st).cb == c.cb && AwNext(c, st).k == c.k
    ensures AwNext(c, st).led.call == c.led.call && AwNext(c, st).led.mutex == c.led.mutex
  {
  }

  lemma AsLegalElsewhere(c: Call, st: AwStep, m: Struct, lock: Option<Party>, cb: CbPc, k: CbLocals, mem: Cell)
    requires c.aw.After? && !st.Unlock? && !st.FreeCall? && AwEnabled(c, st)
    ensures AwSafe(Elsewhere(c, m, lock, cb, k, mem), st) <==> AwSafe(c, st)
  {
  }

  /** Once the awaiter has let go of a call it will not free, its remaining steps neither write nor
      read the shared struct: whatever has become of struct, mutex and callback meanwhile, even if
      they are freed, the same steps can be taken, they are legal all the same, and they do the same. */
  lemma AwaiterUsesLocals(c: Call, st: AwStep, m: Struct, lock: Option<Party>, cb: CbPc, k: CbLocals, mem: Cell)
    requires Inv(c) && c.aw.After? && !c.a.last && !c.aw.rest.Unlocking?
    ensures AwEnabled(Elsewhere(c, m, lock, cb, k, mem), st) <==> AwEnabled(c, st)
    ensures AwEnabled(c, st) ==>
              AwNext(Elsewhere(c, m, lock, cb, k, mem), st) == Elsewhere(AwNext(c, st), m, lock, cb, k, mem)
    ensures AwEnabled(c, st) ==> AwSafe(c, st) && AwSafe(Elsewhere(c, m, lock, cb, k, mem), st)
    ensures AwEnabled(c, st) ==>
              && AwNext(c, st).m == c.m && AwNext(c, st).lock == c.lock
              && AwNext(c, st).cb == c.cb && AwNext(c, st).k == c.k
              && AwNext(c, st).led.call == c.led.call && AwNext(c, st).led.mutex == c.led.mutex
  {
    SameStepsElsewhere(c, st, m, lock, cb, k, mem);
    if AwEnabled(c, st) {
      AwStepIsSafe(c, st);
      SameEffectElsewhere(c, st, m, lock, cb, k, mem);
      AsLegalElsewhere(c, st, m, lock, cb, k, mem);
    }
  }

  /** The shim's copy step takes over from the core: the core's failure buffers are freed, and what is
      left is exactly what the bundle names. */
  lemma CopyHandsOver(c: Call, failRoom: bool, detailsRoom: bool)
    requires Inv(c) && CbEnabled(c, Copy(failRoom, detailsRoom))
    ensures var d := CbNext(c, Copy(failRoom, detailsRoom));
            && d.pay == PayloadOf(d.k.bundle, Live)
            && c.led.coreFail == As(AnswerOf(c).fail.Some?, Live) && d.led.coreFail == As(AnswerOf(c).fail.Some?, Freed)
            && c.led.coreDetails == As(AnswerOf(c).details.Some?, Live)
            && d.led.coreDetails == As(AnswerOf(c).details.Some?, Freed)
  {
    CbKeepsInv(c, Copy(failRoom, detailsRoom));
  }

  /** An exception decides the outcome; without one the awaiter returns the very bundle its own
      callback was given. */
  lemma OutcomeIsDelivery(c: Call)
    requires Inv(c) && (c.aw == After(Returning) || c.aw == After(Finished))
    ensures c.exc ==> c.out == Cancelled
    ensures !c.exc ==> c.out == Got(c.k.bundle) && c.m.completed && c.fired == 1
  {
  }

  // ---------------------------------------------------------------------------
  // Every resource is released once
  // ---------------------------------------------------------------------------

  /** A resource only moves forward. */
  predicate Forward(x: Cell, y: Cell) {
    y == x || x.Absent? || (x.Live? && !y.Absent?)
  }

  predicate LedgerForward(x: Ledger, y: Ledger) {
    && Forward(x.call, y.call) && Forward(x.mutex, y.mutex) && Forward(x.trigger, y.trigger)
    && Forward(x.token, y.token) && Forward(x.ctx, y.ctx)
    && Forward(x.coreFail, y.coreFail) && Forward(x.coreDetails, y.coreDetails)
  }

  predicate PayloadForward(x: Payload, y: Payload) {
    && Forward(x.connection, y.connection) && Forward(x.owner, y.owner)
    && Forward(x.fail, y.fail) && Forward(x.details, y.details)
  }

  lemma AwMovesForward(c: Call, st: AwStep)
    requires Inv(c) && AwEnabled(c, st) && !st.LaunchFails? && !st.New?
    ensures LedgerForward(c.led, AwNext(c, st).led) && PayloadForward(c.pay, AwNext(c, st).pay)
  {
    AwStepIsSafe(c, st);
  }

  lemma SetupMovesForward(c: Call, st: AwStep)
    requires Inv(c) && AwEnabled(c, st) && (st.LaunchFails? || st.New?)
    ensures LedgerForward(c.led, AwNext(c, st).led) && PayloadForward(c.pay, AwNext(c, st).pay)
  {
  }

  lemma CbMovesForward(c: Call, st: CbStep)
    requires Inv(c) && CbEnabled(c, st)
    ensures LedgerForward(c.led, CbNext(c, st).led) && PayloadForward(c.pay, CbNext(c, st).pay)
  {
    CbStepIsSafe(c, st);
  }

  /** End of the line for a bundle: once both parties are done, each resource the callback was
      given has been freed, except a connection that the constructor adopted; resources it was not
      given never existed. */
  lemma BundleIsSettled(c: Call)
    requires Inv(c) && c.aw == After(Finished) && c.cb == Past(CbFinished)
    ensures Settled(c.pay, c.k.bundle)
    ensures c.pay.connection.Adopted? ==> c.kind.Connect? && !c.exc
  {
  }
}

/** A concrete run in which the `finalized` guard lets an operation through to a worker whose core
    has already been taken: finalizeShutdown is parked, and a second coroutine calls the core. */
module FinalizeGap {
  import opened Results
  import opened CallMachine
  import opened Bridge
  import opened WorkerLifecycle

  /** `s` follows `steps` from the empty process. */
  ghost predicate Reaches(steps: seq<Step>, s: State) {
    exists states :: Behavior(states, steps) && states[|steps|] == s
  }

  lemma Extend(steps: seq<Step>, s: State, st: Step)
    requires Reaches(steps, s) && Enabled(s, st)
    ensures Reaches(steps + [st], Next(s, st))
  {
    var states :| Behavior(states, steps) && states[|steps|] == s;
    var states' := states + [Next(s, st)];
    assert Behavior(states', steps + [st]);
    assert states'[|steps + [st]|] == Next(s, st);
  }

  // ---------------------------------------------------------------------------
  // Connect: one call, no handle yet
  // ---------------------------------------------------------------------------

  const CONNECTING := Object(ConnectionClass, Alive, RunBy(0), None, false, false, 1, {0}, {}, None)

  /** The process while the Connection constructor runs. */
  function Opening(r: Call, reactor: Option<Thread>): State {
    State([r], [], [CONNECTING], reactor)
  }

  lemma Start() returns (steps: seq<Step>)
    ensures Reaches(steps, Opening(Entered(Connect, 0, None), Some(Coroutine(0))))
  {
    steps := [];
    var s := INITIAL;
    assert Behavior([s], steps) && [s][|steps|] == s;
    Extend(steps, s, NewObject(ConnectionClass));
    steps, s := steps + [NewObject(ConnectionClass)], Next(s, NewObject(ConnectionClass));
    assert ZendRefcount(s.objs[0]) == 1;
    Extend(steps, s, Enter(0, Connect));
    steps, s := steps + [Enter(0, Connect)], Next(s, Enter(0, Connect));
    assert s.objs == [CONNECTING] && s.calls == [Entered(Connect, 0, None)];
  }

  lemma Go(steps: seq<Step>, r: Call, st: AwStep) returns (steps': seq<Step>)
    requires Reaches(steps, Opening(r, if st.Resume? then None else Some(Coroutine(0))))
    requires AwEnabled(r, st) && r.obj == 0 && !st.Return? && !st.Cancel?
    ensures Reaches(steps', Opening(AwNext(r, st), if st.Suspend? then None else Some(Coroutine(0))))
  {
    var s := Opening(r, if st.Resume? then None else Some(Coroutine(0)));
    Extend(steps, s, CallStep(0, st));
    steps' := steps + [CallStep(0, st)];
    assert Next(s, CallStep(0, st)) == Opening(AwNext(r, st), if st.Suspend? then None else Some(Coroutine(0)));
  }

  lemma GoCore(steps: seq<Step>, r: Call, st: CbStep) returns (steps': seq<Step>)
    requires Reaches(steps, Opening(r, None)) && CbEnabled(r, st)
    ensures Reaches(steps', Opening(CbNext(r, st), None))
  {
    Extend(steps, Opening(r, None), CoreStep(0, st));
    steps' := steps + [CoreStep(0, st)];
    assert Next(Opening(r, None), CoreStep(0, st)) == Opening(CbNext(r, st), None);
  }

  /** A connect that waits for the core. */
  predicate Launched(r: Call) {
    && r.kind.Connect? && r.obj == 0 && r.handle.None? && r.aw == Waiting(Parked) && r.cb == Due(Pending)
    && r.m == NEW_CALL && r.lock.None? && !r.exc && r.fired == 0
  }

  lemma LaunchConnect() returns (steps: seq<Step>, r: Call)
    ensures Reaches(steps, Opening(r, None)) && Launched(r)
  {
    steps := Start();
    r := Entered(Connect, 0, None);
    steps := Go(steps, r, New);
    r := AwNext(r, New);
    steps := Go(steps, r, ArmTrigger);
    r := AwNext(r, ArmTrigger);
    steps := Go(steps, r, Launch);
    r := AwNext(r, Launch);
    steps := Go(steps, r, Suspend);
    r := AwNext(r, Suspend);
  }

  /** A connect whose callback has delivered a connection and unlocked. */
  predicate Answered(r: Call) {
    && r.kind.Connect? && r.obj == 0 && r.handle.None? && r.aw == Waiting(Parked) && r.cb == Past(CtxFreeing)
    && r.m == Struct(1, true, true, false, ZERO.(connection := true)) && r.lock.None? && !r.exc && r.fired == 1
  }

  lemma AnswerConnect(steps: seq<Step>, r: Call) returns (steps': seq<Step>, r': Call)
    requires Reaches(steps, Opening(r, None)) && Launched(r)
    ensures Reaches(steps', Opening(r', None)) && Answered(r')
  {
    var a := Answer(true, None, None, None, 0);
    steps', r' := steps, r;
    steps' := GoCore(steps', r', Invoke(a));
    r' := CbNext(r', Invoke(a));
    steps' := GoCore(steps', r', Copy(true, true));
    r' := CbNext(r', Copy(true, true));
    steps' := GoCore(steps', r', CbLock);
    r' := CbNext(r', CbLock);
    steps' := GoCore(steps', r', Delivers);
    r' := CbNext(r', Delivers);
    steps' := GoCore(steps', r', CbUnlock);
    r' := CbNext(r', CbUnlock);
  }

  /** A connect whose coroutine is back in the constructor with the connection. */
  predicate Collected(r: Call) {
    r.kind.Connect? && r.obj == 0 && r.aw == After(Returning) && r.out == Got(ZERO.(connection := true))
  }

  lemma LockConnect(steps: seq<Step>, r: Call) returns (steps': seq<Step>, r': Call)
    requires Reaches(steps, Opening(r, None)) && Answered(r)
    ensures Reaches(steps', Opening(r', Some(Coroutine(0))))
    ensures r'.kind.Connect? && r'.obj == 0 && r'.handle.None? && r'.aw == After(Unlocking) && !r'.exc
    ensures r'.a.completed && r'.a.last && r'.a.result == ZERO.(connection := true)
  {
    steps', r' := steps, r;
    steps' := Go(steps', r', Resume);
    r' := AwNext(r', Resume);
    steps' := Go(steps', r', Lock);
    r' := AwNext(r', Lock);
    steps' := Go(steps', r', Collects);
    r' := AwNext(r', Collects);
  }

  lemma CollectConnect(steps: seq<Step>, r: Call) returns (steps': seq<Step>, r': Call)
    requires Reaches(steps, Opening(r, None)) && Answered(r)
    ensures Reaches(steps', Opening(r', Some(Coroutine(0)))) && Collected(r')
  {
    steps', r' := LockConnect(steps, r);
    steps' := Go(steps', r', Unlock);
    r' := AwNext(r', Unlock);
    steps' := Go(steps', r', Dispose);
    r' := AwNext(r', Dispose);
    steps' := Go(steps', r', FreeCall);
    r' := AwNext(r', FreeCall);
    steps' := Go(steps', r', FreeToken);
    r' := AwNext(r', FreeToken);
  }

  // ---------------------------------------------------------------------------
  // A worker on that connection, and finalizeShutdown on it
  // ---------------------------------------------------------------------------

  const CONNECTED := Object(ConnectionClass, Alive, RunBy(0), Some(0), true, false, 1, {}, {}, None)
  const WORKER := Object(WorkerClass, Alive, Ran, Some(1), true, false, 1, {}, {}, Some(0))

  lemma ReturnConnect(steps: seq<Step>, r: Call) returns (steps': seq<Step>, done: Call)
    requires Reaches(steps, Opening(r, Some(Coroutine(0)))) && Collected(r)
    ensures Reaches(steps', State([done], [NewHandle(0)], [CONNECTED], None))
  {
    var s := Opening(r, Some(Coroutine(0)));
    Extend(steps, s, CallStep(0, Return(true)));
    steps', done := steps + [CallStep(0, Return(true))], AwNext(r, Return(true));
    assert CONNECTING.frames - {0} == {};
    assert Next(s, CallStep(0, Return(true))) == State([done], [NewHandle(0)], [CONNECTED], None);
  }

  lemma BuildWorker(steps: seq<Step>, done: Call) returns (steps': seq<Step>)
    requires Reaches(steps, State([done], [NewHandle(0)], [CONNECTED], None))
    ensures Reaches(steps', State([done], [NewHandle(0), NewHandle(1)], [CONNECTED.(pins := {1}), WORKER], None))
  {
    var s := State([done], [NewHandle(0)], [CONNECTED], None);
    Extend(steps, s, NewObject(WorkerClass));
    steps', s := steps + [NewObject(WorkerClass)], Next(s, NewObject(WorkerClass));
    assert ZendRefcount(s.objs[0]) == 1 && ZendRefcount(s.objs[1]) == 1;
    Extend(steps', s, ConstructWorker(1, 0, true, true));
    steps', s := steps' + [ConstructWorker(1, 0, true, true)], Next(s, ConstructWorker(1, 0, true, true));
    assert CONNECTED.pins + {1} == {1};
    assert s == State([done], [NewHandle(0), NewHandle(1)], [CONNECTED.(pins := {1}), WORKER], None);
  }

  /** The process while finalizeShutdown runs on the worker. */
  function Finalizing(done: Call, r: Call, h: Handle, reactor: Option<Thread>): State {
    State([done, r], [NewHandle(0), h], [CONNECTED.(pins := {1}), WORKER.(frames := {1})], reactor)
  }

  lemma EnterFinalize(steps: seq<Step>, done: Call) returns (steps': seq<Step>)
    requires Reaches(steps, State([done], [NewHandle(0), NewHandle(1)], [CONNECTED.(pins := {1}), WORKER], None))
    ensures Reaches(steps', Finalizing(done, Entered(Finalize, 1, Some(1)), NewHandle(1), Some(Coroutine(1))))
  {
    var s := State([done], [NewHandle(0), NewHandle(1)], [CONNECTED.(pins := {1}), WORKER], None);
    assert ZendRefcount(s.objs[1]) == 1;
    Extend(steps, s, Enter(1, Finalize));
    steps' := steps + [Enter(1, Finalize)];
    assert WORKER.frames + {1} == {1};
    assert Next(s, Enter(1, Finalize))
        == Finalizing(done, Entered(Finalize, 1, Some(1)), NewHandle(1), Some(Coroutine(1)));
  }

  lemma GoFinalize(steps: seq<Step>, done: Call, r: Call, h: Handle, st: AwStep) returns (steps': seq<Step>)
    requires Reaches(steps, Finalizing(done, r, h, Some(Coroutine(1))))
    requires AwEnabled(r, st) && r.obj == 1 && !st.Return? && !st.Cancel? && !st.Resume?
    ensures Reaches(steps', Finalizing(done, AwNext(r, st), h, if st.Suspend? then None else Some(Coroutine(1))))
  {
    var s := Finalizing(done, r, h, Some(Coroutine(1)));
    Extend(steps, s, CallStep(1, st));
    steps' := steps + [CallStep(1, st)];
    assert Next(s, CallStep(1, st))
        == Finalizing(done, AwNext(r, st), h, if st.Suspend? then None else Some(Coroutine(1)));
  }

  lemma Pin(steps: seq<Step>, done: Call, r: Call, h: Handle, st: Stage) returns (steps': seq<Step>, h': Handle)
    requires Reaches(steps, Finalizing(done, r, h, Some(Coroutine(1))))
    requires r.aw == Before(Addref(st)) && r.handle == Some(1)
    requires (st in {SLock, SOp, SUnlock(false)}) && (st.SLock? ==> h.lock.None?)
    ensures var r' := r.(aw := Before(Addref(AfterStage(h, true, st))), pins := st.SOp? || r.pins);
            Reaches(steps', Finalizing(done, r', h', Some(Coroutine(1))))
  {
    var s := Finalizing(done, r, h, Some(Coroutine(1)));
    Extend(steps, s, HandleStep(Coroutine(1)));
    steps' := steps + [HandleStep(Coroutine(1))];
    h' := Advance(h, true, st, Coroutine(1));
    var r' := r.(aw := Before(Addref(AfterStage(h, true, st))), pins := st.SOp? || r.pins);
    assert Next(s, HandleStep(Coroutine(1))) == Finalizing(done, r', h', Some(Coroutine(1)));
  }

  lemma PinFinalize(steps: seq<Step>, done: Call) returns (steps': seq<Step>, r: Call, h: Handle)
    requires Reaches(steps, Finalizing(done, Entered(Finalize, 1, Some(1)), NewHandle(1), Some(Coroutine(1))))
    ensures Reaches(steps', Finalizing(done, r, h, Some(Coroutine(1))))
    ensures r.kind.Finalize? && r.obj == 1 && r.aw == Before(Addref(SEnd))
  {
    steps', r, h := steps, Entered(Finalize, 1, Some(1)), NewHandle(1);
    steps' := GoFinalize(steps', done, r, h, New);
    r := AwNext(r, New);
    steps', h := Pin(steps', done, r, h, SLock);
    r := r.(aw := Before(Addref(SOp)));
    steps', h := Pin(steps', done, r, h, SOp);
    r := r.(aw := Before(Addref(SUnlock(false))), pins := true);
    steps', h := Pin(steps', done, r, h, SUnlock(false));
    r := r.(aw := Before(Addref(SEnd)));
  }

  lemma ParkFinalize(steps: seq<Step>, done: Call) returns (steps': seq<Step>, r: Call, h: Handle)
    requires Reaches(steps, Finalizing(done, Entered(Finalize, 1, Some(1)), NewHandle(1), Some(Coroutine(1))))
    ensures Reaches(steps', Finalizing(done, r, h, None))
    ensures r.kind.Finalize? && r.obj == 1 && r.launched && r.aw == Waiting(Parked)
  {
    steps', r, h := PinFinalize(steps, done);
    steps' := GoFinalize(steps', done, r, h, Pinned);
    r := AwNext(r, Pinned);
    steps' := GoFinalize(steps', done, r, h, ArmTrigger);
    r := AwNext(r, ArmTrigger);
    steps' := GoFinalize(steps', done, r, h, Launch);
    r := AwNext(r, Launch);
    steps' := GoFinalize(steps', done, r, h, Suspend);
    r := AwNext(r, Suspend);
  }

  /** The comment at temporal_client.c:1095-1098 promises that every operation after the launch of
      finalizeShutdown is refused. It is not: in this run the core has taken the worker, and a
      heartbeat still reaches the core box, and a poll would be admitted too. */
  lemma SpentWorkerIsStillUsed() returns (steps: seq<Step>, s: State)
    ensures Reaches(steps, s) && Spent(s, 1)
    ensures Enabled(s, SyncOp(1)) && ReachesCore(s, SyncOp(1), 1)
    ensures Enabled(s, Enter(1, Poll))
  {
    var r: Call, done: Call, h: Handle;
    steps, r := LaunchConnect();
    steps, r := AnswerConnect(steps, r);
    steps, r := CollectConnect(steps, r);
    steps, done := ReturnConnect(steps, r);
    steps := BuildWorker(steps, done);
    steps := EnterFinalize(steps, done);
    steps, r, h := ParkFinalize(steps, done);
    s := Finalizing(done, r, h, None);
    assert IsFinalize(s.calls[1], 1) && s.calls[1].launched;
    assert ZendRefcount(s.objs[1]) == 2;
  }
}

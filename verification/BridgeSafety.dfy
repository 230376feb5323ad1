/** What holds in every state of every run, whatever the interleaving: memory safety, exact
    reference counts, lock discipline, and who frees. */
module BridgeSafety {
  import opened CStrings
  import opened Results
  import opened CallMachine
  import opened Bridge
  import opened BridgeInvariant

  // ---------------------------------------------------------------------------
  // Memory safety
  // ---------------------------------------------------------------------------

  /** Every step that can be taken is legal. */
  lemma StepIsSafe(s: State, st: Step)
    requires BridgeInvariant.Inv(s) && Enabled(s, st)
    ensures Safe(s, st)
  {
    match st
    case CallStep(c, aw) =>
      AwStepIsSafe(s.calls[c], aw);
      if aw.Launch? && !s.calls[c].kind.Connect? {
        assert CallMachine.Inv(s.calls[c]);
        FrameHandle(s, c);
        assert FrameOk(s, c);
        HeldHandle(s, ByObject(s.calls[c].obj), s.calls[c].handle.value);
      }
    case CoreStep(c, cb) => CbStepIsSafe(s.calls[c], cb);
    case HandleStep(t) => HandleStepIsSafe(s, t);
    case ConstructWorker(_, k, _, _) => ObjectBoxLive(s, k);
    case SyncOp(o) => ObjectBoxLive(s, o);
    case _ =>
  }

  lemma HandleStepIsSafe(s: State, t: Thread)
    requires BridgeInvariant.Inv(s) && Enabled(s, HandleStep(t))
    ensures Safe(s, HandleStep(t))
  {
    var op := OpOf(s, t);
    assert ThreadOk(s, t);
    assert HandleOk(s, op.h);
    if BeforeOp(op.st) {
      OperandAlive(s, t);
    }
  }

  lemma ObjectBoxLive(s: State, o: nat)
    requires BridgeInvariant.Inv(s) && o < |s.objs| && s.objs[o].pc.Alive? && s.objs[o].handle.Some?
    ensures BoxLive(s, s.objs[o].handle) && s.handles[s.objs[o].handle.value].refcount > 0
  {
    assert ObjectOk(s, o);
    HeldHandle(s, ByObject(o), s.objs[o].handle.value);
  }

  lemma {:induction false} RunKeepsInv(states: seq<State>, steps: seq<Step>, i: nat)
    requires Run(states, steps) && BridgeInvariant.Inv(states[0]) && i < |states|
    ensures BridgeInvariant.Inv(states[i])
  {
    if i > 0 {
      RunKeepsInv(states, steps, i - 1);
      StepKeepsInv(states[i - 1], steps[i - 1]);
    }
  }

  lemma InitialInv()
    ensures BridgeInvariant.Inv(INITIAL)
  {
    forall t: Thread ensures ThreadOk(INITIAL, t) {
      assert OpOf(INITIAL, t).NoOp?;
    }
  }

  /** Memory safety of every run: no state of any run enables a step that reads, locks, writes or
      frees a call, mutex, trigger, token, shim context, core buffer, message, handle or box that
      is not allocated. In particular nothing is freed twice. */
  lemma MemorySafety(states: seq<State>, steps: seq<Step>, i: nat, st: Step)
    requires Behavior(states, steps) && i < |states| && Enabled(states[i], st)
    ensures Safe(states[i], st)
  {
    InitialInv();
    RunKeepsInv(states, steps, i);
    StepIsSafe(states[i], st);
  }

  /** The runs leave nothing out: at any moment the core can give a launched operation any answer its
      contract allows, and the copies of its messages can fail; */
  lemma AnyAnswerMayCome(s: State, c: nat, a: Answer, failRoom: bool, detailsRoom: bool)
    requires c < |s.calls|
    ensures s.calls[c].cb == Due(Pending) && Contract(s.calls[c].kind, a) ==> Enabled(s, CoreStep(c, Invoke(a)))
    ensures s.calls[c].cb == Due(Copying) ==> Enabled(s, CoreStep(c, Copy(failRoom, detailsRoom)))
  {
  }

  /** ... a parked coroutine can be cancelled, and every allocation of an operation can fail; */
  lemma AnythingMayHappen(s: State, c: nat, message: Option<Bytes>, room: bool)
    requires FramesOk(s) && c < |s.calls|
    ensures s.calls[c].aw == Waiting(Parked) && !s.calls[c].exc ==> Enabled(s, CallStep(c, Cancel))
    ensures s.calls[c].aw.Fresh? ==> Enabled(s, CallStep(c, New)) && Enabled(s, CallStep(c, NewFails(room)))
    ensures s.calls[c].aw == Before(NewToken) ==> Enabled(s, CallStep(c, TokenNew(room)))
    ensures s.calls[c].aw == Before(Launching) ==>
              Enabled(s, CallStep(c, Launch)) && Enabled(s, CallStep(c, LaunchFails(message)))
    ensures s.calls[c].aw == After(Returning) ==> Enabled(s, CallStep(c, Return(room)))
  {
    assert FrameOk(s, c);
  }

  /** ... and a worker's constructor can find no core worker, or no memory for its handle. */
  lemma ConstructMayFail(s: State, w: nat, k: nat, coreRoom: bool, room: bool)
    requires Enabled(s, ConstructWorker(w, k, true, true))
    ensures Enabled(s, ConstructWorker(w, k, coreRoom, room))
  {
  }

  // ---------------------------------------------------------------------------
  // Exact handle counts
  // ---------------------------------------------------------------------------

  /** The object still holds its handle: its destructor has not given the reference back. */
  predicate StillHolds(x: Object) {
    x.handle.Some? && (x.pc.Alive? || (x.pc.HandleRelease? && BeforeOp(x.pc.st)))
  }

  /** The call has taken its reference and has not been freed. */
  predicate StillPins(c: Call) {
    Begun(c) && c.handle.Some? && !(c.aw.Before? && c.aw.prep.Addref? && BeforeOp(c.aw.prep.st)) && !Unpinned(c)
  }

  /** The calls that keep handle `h` alive. */
  function PinningCalls(s: State, h: nat): set<nat> {
    set c | 0 <= c < |s.calls| && StillPins(s.calls[c]) && s.calls[c].handle == Some(h)
  }

  lemma {:induction false} InjectCalls(cs: set<nat>, holders: set<Holder>)
    requires forall x :: x in holders <==> x.ByCall? && x.c in cs
    ensures |holders| == |cs|
  {
    if cs == {} {
      assert holders == {};
    } else {
      var c :| c in cs;
      InjectCalls(cs - {c}, holders - {ByCall(c)});
      assert holders == (holders - {ByCall(c)}) + {ByCall(c)};
    }
  }

  lemma HoldersOf(s: State, h: nat, x: Holder)
    requires BridgeInvariant.Inv(s) && h < |s.handles|
    ensures x in s.handles[h].holders <==>
            match x
            case ByObject(o) =>
              o == s.handles[h].owner && o < |s.objs| && s.objs[o].handle == Some(h) && StillHolds(s.objs[o])
            case ByCall(c) => c in PinningCalls(s, h)
  {
    assert x in s.handles[h].holders <==> Holds(s, x, h);
    match x
    case ByObject(o) => if o < |s.objs| { assert ObjectOk(s, o); }
    case ByCall(c) => if c < |s.calls| { assert CallMachine.Inv(s.calls[c]); }
  }

  /** In every state a handle's refcount is exactly one for the object it was made for, while that
      object holds it, plus one for every call that has taken a reference and is not freed yet. */
  lemma ExactCount(s: State, h: nat)
    requires BridgeInvariant.Inv(s) && h < |s.handles|
    ensures var o := s.handles[h].owner;
            s.handles[h].refcount ==
            (if o < |s.objs| && s.objs[o].handle == Some(h) && StillHolds(s.objs[o]) then 1 else 0)
            + |PinningCalls(s, h)|
  {
    var x := s.handles[h];
    assert HandleOk(s, h);
    forall y ensures y in x.holders - {ByObject(x.owner)} <==> y.ByCall? && y.c in PinningCalls(s, h) {
      HoldersOf(s, h, y);
    }
    InjectCalls(PinningCalls(s, h), x.holders - {ByObject(x.owner)});
    HoldersOf(s, h, ByObject(x.owner));
    if ByObject(x.owner) in x.holders {
      assert x.holders == (x.holders - {ByObject(x.owner)}) + {ByObject(x.owner)};
    } else {
      assert x.holders == x.holders - {ByObject(x.owner)};
    }
  }

  /** At any time at most one thread is in the phase that frees a handle. */
  lemma OneCloser(s: State, t: Thread, u: Thread)
    requires BridgeInvariant.Inv(s)
    requires !OpOf(s, t).NoOp? && !OpOf(s, u).NoOp? && OpOf(s, t).h == OpOf(s, u).h
    requires Closing(OpOf(s, t).st) && Closing(OpOf(s, u).st)
    ensures t == u
  {
    assert ThreadOk(s, t) && ThreadOk(s, u);
  }

  lemma CloserStays(s: State, st: Step, h: nat)
    requires BridgeInvariant.Inv(s) && Enabled(s, st) && h < |s.handles|
    ensures h < |Next(s, st).handles|
    ensures s.handles[h].closer.Some? ==> Next(s, st).handles[h].closer == s.handles[h].closer
  {
    if st.HandleStep? && OpOf(s, st.t).h == h && OpOf(s, st.t).st.SOp? {
      OperandAlive(s, st.t);
      assert HandleOk(s, h);
    }
  }

  lemma RunCloserStays(states: seq<State>, steps: seq<Step>, i: nat, h: nat)
    requires Behavior(states, steps) && i < |steps| && h < |states[i].handles|
    ensures h < |states[i + 1].handles|
    ensures states[i].handles[h].closer.Some? ==> states[i + 1].handles[h].closer == states[i].handles[h].closer
  {
    InitialInv();
    RunKeepsInv(states, steps, i);
    CloserStays(states[i], steps[i], h);
  }

  lemma {:induction false} CloserForGood(states: seq<State>, steps: seq<Step>, i: nat, j: nat, h: nat)
    requires Behavior(states, steps) && i <= j < |states|
    requires h < |states[i].handles| && states[i].handles[h].closer.Some?
    ensures h < |states[j].handles| && states[j].handles[h].closer == states[i].handles[h].closer
  {
    if i < j {
      CloserForGood(states, steps, i, j - 1, h);
      RunCloserStays(states, steps, j - 1, h);
    }
  }

  /** Thread `t` is freeing handle `h`. */
  predicate Closes(s: State, t: Thread, h: nat) {
    var op := OpOf(s, t); !op.NoOp? && op.h == h && Closing(op.st)
  }

  lemma CloserIsRecorded(states: seq<State>, steps: seq<Step>, i: nat, t: Thread, h: nat)
    requires Behavior(states, steps) && i < |states| && Closes(states[i], t, h)
    ensures h < |states[i].handles| && states[i].handles[h].closer == Some(t)
  {
    InitialInv();
    RunKeepsInv(states, steps, i);
    assert ThreadOk(states[i], t);
  }

  /** Over a whole run, one thread only ever enters the phase that frees a handle. */
  lemma OneCloserEver(states: seq<State>, steps: seq<Step>, i: nat, j: nat, t: Thread, u: Thread, h: nat)
    requires Behavior(states, steps) && i <= j < |states| && Closes(states[i], t, h) && Closes(states[j], u, h)
    ensures t == u
  {
    CloserIsRecorded(states, steps, i, t, h);
    CloserIsRecorded(states, steps, j, u, h);
    CloserForGood(states, steps, i, j, h);
  }

  /** ... and once it has, nobody else is inside that handle. */
  lemma CloserIsAlone(s: State, t: Thread, u: Thread)
    requires BridgeInvariant.Inv(s)
    requires !OpOf(s, t).NoOp? && !OpOf(s, u).NoOp? && OpOf(s, t).h == OpOf(s, u).h
    requires Closing(OpOf(s, t).st) && t != u
    ensures OpOf(s, u).st.SEnd?
  {
    assert ThreadOk(s, t) && ThreadOk(s, u);
    assert HandleOk(s, OpOf(s, t).h);
    if BeforeOp(OpOf(s, u).st) {
      OperandAlive(s, u);
    }
  }

  /** The core box outlives the operation: from the launch until the callback has dropped its
      reference the box is allocated, whatever became of the coroutine and of the object. */
  lemma BoxOutlivesOperation(s: State, c: nat)
    requires BridgeInvariant.Inv(s) && c < |s.calls| && s.calls[c].cb.Due? && s.calls[c].handle.Some?
    ensures BoxLive(s, s.calls[c].handle) && s.handles[s.calls[c].handle.value].refcount > 0
  {
    assert CallMachine.Inv(s.calls[c]);
    assert FrameOk(s, c);
    HeldHandle(s, ByCall(c), s.calls[c].handle.value);
  }

  /** A constructed worker keeps its connection: until the worker object is gone, its connection
      object is alive and that connection's core box is allocated. */
  lemma WorkerPinsConnection(s: State, w: nat)
    requires BridgeInvariant.Inv(s) && w < |s.objs| && s.objs[w].cls.WorkerClass? && s.objs[w].handle.Some?
    ensures s.objs[w].conn.Some? && s.objs[w].conn.value < |s.objs|
    ensures var k := s.objs[w].conn.value;
            && s.objs[k].pc.Alive? && s.objs[k].cls.ConnectionClass? && ZendRefcount(s.objs[k]) > 0
            && BoxLive(s, s.objs[k].handle) && s.handles[s.objs[k].handle.value].refcount > 0
  {
    assert ObjectOk(s, w);
    var k := s.objs[w].conn.value;
    assert ObjectOk(s, k);
    assert w in s.objs[k].pins;
    ObjectBoxLive(s, k);
  }

  // ---------------------------------------------------------------------------
  // Locks
  // ---------------------------------------------------------------------------

  datatype Mutex = CallMutex(c: nat) | HandleMutex(h: nat)

  /** The thread is the recorded holder of the mutex. */
  predicate Owns(s: State, t: Thread, m: Mutex) {
    match m
    case CallMutex(c) =>
      && c < |s.calls|
      && (|| (t == Coroutine(c) && s.calls[c].lock == Some(Awaiter))
          || (t == Core(c) && s.calls[c].lock == Some(Callback)))
    case HandleMutex(h) => h < |s.handles| && s.handles[h].lock == Some(t)
  }

  /** No thread ever holds two of the call and handle mutexes at once. */
  lemma OneLockPerThread(s: State, t: Thread, m: Mutex, n: Mutex)
    requires BridgeInvariant.Inv(s) && Owns(s, t, m) && Owns(s, t, n)
    ensures m == n
  {
    if m.HandleMutex? {
      assert HandleOk(s, m.h);
    } else {
      assert CallMachine.Inv(s.calls[m.c]);
    }
    if n.HandleMutex? {
      assert HandleOk(s, n.h);
    } else {
      assert CallMachine.Inv(s.calls[n.c]);
    }
  }

  /** The step a lock holder takes next. */
  function HolderStep(s: State, t: Thread, m: Mutex): Step
    requires Owns(s, t, m)
  {
    match m
    case HandleMutex(_) => HandleStep(t)
    case CallMutex(c) =>
      if t.Coroutine? then CallStep(c, if s.calls[c].aw == Waiting(Collecting) then Collects else Unlock)
      else CoreStep(c, if s.calls[c].cb == Due(Delivering) then Delivers else CbUnlock)
  }

  lemma HandleHolderIsEnabled(s: State, t: Thread, h: nat)
    requires BridgeInvariant.Inv(s) && Owns(s, t, HandleMutex(h))
    ensures Enabled(s, HandleStep(t))
  {
    assert HandleOk(s, h);
    match t
    case Coroutine(c) => assert FrameOk(s, c);
    case Core(c) =>
    case Destructor(o) => assert ObjectOk(s, o);
  }

  /** Whoever waits for a mutex waits for a thread whose next step is enabled: there is no deadlock. */
  lemma HolderIsEnabled(s: State, t: Thread, m: Mutex)
    requires BridgeInvariant.Inv(s) && Owns(s, t, m)
    ensures Enabled(s, HolderStep(s, t, m))
  {
    match m
    case HandleMutex(h) => HandleHolderIsEnabled(s, t, h);
    case CallMutex(c) =>
      assert CallMachine.Inv(s.calls[c]);
      assert FrameOk(s, c);
  }

  /** Nothing else happens under a call mutex: while a party holds it, the only steps that party
      can take are its critical section and the unlock. So handles are released, bundles with core
      resources dropped and tokens cancelled with no call mutex held. */
  lemma CriticalSections(s: State, c: nat)
    requires BridgeInvariant.Inv(s) && c < |s.calls|
    ensures s.calls[c].lock == Some(Awaiter) ==> forall st :: AwEnabled(s.calls[c], st) ==> st.Collects? || st.Unlock?
    ensures s.calls[c].lock == Some(Callback) ==>
              forall st :: CbEnabled(s.calls[c], st) ==> st.Delivers? || st.CbUnlock?
    ensures s.calls[c].lock == Some(Awaiter) ==> OpOf(s, Coroutine(c)).NoOp?
    ensures s.calls[c].lock == Some(Callback) ==> OpOf(s, Core(c)).NoOp?
  {
    assert CallMachine.Inv(s.calls[c]);
  }
}

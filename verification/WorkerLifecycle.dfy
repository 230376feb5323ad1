/** The `finalized` guard of Core\Worker and the fate of handles, over whole runs. */
module WorkerLifecycle {
  import opened Results
  import opened CallMachine
  import opened Bridge
  import opened BridgeInvariant
  import opened BridgeSafety

  // ---------------------------------------------------------------------------
  // From the write on, the guard is shut
  // ---------------------------------------------------------------------------

  lemma FinalizedStays(s: State, st: Step, o: nat)
    requires Enabled(s, st) && o < |s.objs|
    ensures o < |Next(s, st).objs|
    ensures s.objs[o].finalized ==> Next(s, st).objs[o].finalized
  {
  }

  /** The step calls into the core with the box of object `o`: a launch, a heartbeat, or
      initiateShutdown. */
  predicate ReachesCore(s: State, st: Step, o: nat) {
    || st == SyncOp(o)
    || (st.CallStep? && st.aw.Launch? && st.c < |s.calls| && s.calls[st.c].obj == o)
  }

  lemma FinalizedIsShut(s: State, st: Step, o: nat)
    requires BridgeInvariant.Inv(s) && o < |s.objs| && s.objs[o].finalized && Enabled(s, st)
    ensures !ReachesCore(s, st, o)
  {
    if st.CallStep? && st.aw.Launch? {
      assert FrameOk(s, st.c);
    }
  }

  lemma {:induction false} FinalizedForGood(states: seq<State>, steps: seq<Step>, i: nat, j: nat, o: nat)
    requires Run(states, steps) && i <= j < |states| && o < |states[i].objs| && states[i].objs[o].finalized
    ensures o < |states[j].objs| && states[j].objs[o].finalized
  {
    if i < j {
      FinalizedForGood(states, steps, i, j - 1, o);
      FinalizedStays(states[j - 1], steps[j - 1], o);
    }
  }

  /** From the moment `finalized` is written, nothing on that worker object reaches the core box
      again, to the end of the run. */
  lemma NoCoreCallAfterFinalized(states: seq<State>, steps: seq<Step>, i: nat, j: nat, o: nat)
    requires Behavior(states, steps) && i <= j < |steps| && o < |states[i].objs| && states[i].objs[o].finalized
    ensures !ReachesCore(states[j], steps[j], o)
  {
    InitialInv();
    RunKeepsInv(states, steps, j);
    FinalizedForGood(states, steps, i, j, o);
    FinalizedIsShut(states[j], steps[j], o);
  }

  // ---------------------------------------------------------------------------
  // When the guard is shut
  // ---------------------------------------------------------------------------

  /** A finalizeShutdown call on object `o`. */
  predicate IsFinalize(r: Call, o: nat) {
    r.kind.Finalize? && r.obj == o
  }

  /** The core has taken the inner worker: a finalize on `o` was launched. */
  predicate Spent(s: State, o: nat) {
    exists c :: 0 <= c < |s.calls| && IsFinalize(s.calls[c], o) && s.calls[c].launched
  }

  /** Some finalizeShutdown on `o` has returned to its caller. */
  predicate FinalizeReturned(s: State, o: nat) {
    exists c :: 0 <= c < |s.calls| && IsFinalize(s.calls[c], o) && !ActiveFrame(s.calls[c])
  }

  predicate GuardOk(s: State) {
    forall o :: 0 <= o < |s.objs| ==> (s.objs[o].finalized <==> FinalizeReturned(s, o))
  }

  /** What the guard depends on in a call. */
  predicate SameFrame(r: Call, r': Call) {
    ActiveFrame(r') == ActiveFrame(r) && r'.kind == r.kind && r'.obj == r.obj
  }

  lemma AwKeepsFrame(r: Call, st: AwStep)
    requires AwEnabled(r, st) && !st.Return?
    ensures SameFrame(r, AwNext(r, st))
  {
  }

  lemma StageKeepsFrame(s: State, t: Thread, c: nat)
    requires Enabled(s, HandleStep(t)) && c < |s.calls|
    ensures c < |Next(s, HandleStep(t)).calls| && SameFrame(s.calls[c], Next(s, HandleStep(t)).calls[c])
  {
  }

  /** No frame ends except by returning, and calls keep their identity. */
  lemma FramesEndByReturning(s: State, st: Step, c: nat)
    requires Enabled(s, st) && c < |s.calls| && !(st.CallStep? && st.c == c && st.aw.Return?)
    ensures c < |Next(s, st).calls| && SameFrame(s.calls[c], Next(s, st).calls[c])
  {
    match st
    case CallStep(d, aw) => if d == c { AwKeepsFrame(s.calls[c], aw); }
    case HandleStep(t) => StageKeepsFrame(s, t, c);
    case _ =>
  }

  lemma FinalizedByReturning(s: State, st: Step, o: nat)
    requires Enabled(s, st) && o < |s.objs| && !(st.CallStep? && st.aw.Return?)
    ensures o < |Next(s, st).objs| && Next(s, st).objs[o].finalized == s.objs[o].finalized
  {
  }

  lemma NewOnesAreFresh(s: State, st: Step)
    requires Enabled(s, st)
    ensures forall c :: |s.calls| <= c < |Next(s, st).calls| ==> ActiveFrame(Next(s, st).calls[c])
    ensures forall o :: |s.objs| <= o < |Next(s, st).objs| ==> !Next(s, st).objs[o].finalized
  {
  }

  lemma QuietStepKeepsGuard(s: State, st: Step)
    requires BridgeInvariant.Inv(s) && Enabled(s, st) && GuardOk(s) && !(st.CallStep? && st.aw.Return?)
    ensures GuardOk(Next(s, st))
  {
    var s' := Next(s, st);
    NewOnesAreFresh(s, st);
    forall o | 0 <= o < |s'.objs| ensures s'.objs[o].finalized <==> FinalizeReturned(s', o) {
      if o < |s.objs| {
        FinalizedByReturning(s, st, o);
      }
      if FinalizeReturned(s', o) {
        var c :| 0 <= c < |s'.calls| && IsFinalize(s'.calls[c], o) && !ActiveFrame(s'.calls[c]);
        FramesEndByReturning(s, st, c);
        assert IsFinalize(s.calls[c], o) && !ActiveFrame(s.calls[c]);
        assert FrameOk(s, c);
        assert FinalizeReturned(s, o);
      }
      if o < |s.objs| && FinalizeReturned(s, o) {
        var c :| 0 <= c < |s.calls| && IsFinalize(s.calls[c], o) && !ActiveFrame(s.calls[c]);
        FramesEndByReturning(s, st, c);
        assert IsFinalize(s'.calls[c], o) && !ActiveFrame(s'.calls[c]);
      }
    }
  }

  lemma ReturnKeepsGuard(s: State, c: nat, room: bool)
    requires BridgeInvariant.Inv(s) && Enabled(s, CallStep(c, Return(room))) && GuardOk(s)
    ensures GuardOk(Next(s, CallStep(c, Return(room))))
  {
    var r' := AwNext(s.calls[c], Return(room));
    ReturnDeparts(s, c, room);
    ReturnReturns(s.calls[c], room);
    var s' := Departed(s, c, r', Adopts(s.calls[c], room));
    assert FrameOk(s, c);
    forall o | 0 <= o < |s'.objs| ensures s'.objs[o].finalized <==> FinalizeReturned(s', o) {
      assert forall d :: 0 <= d < |s.calls| && d != c ==> s'.calls[d] == s.calls[d];
      assert s.objs[o].finalized <==> FinalizeReturned(s, o);
      if s.objs[o].finalized {
        var d :| 0 <= d < |s.calls| && IsFinalize(s.calls[d], o) && !ActiveFrame(s.calls[d]);
        assert IsFinalize(s'.calls[d], o) && !ActiveFrame(s'.calls[d]);
      }
      if IsFinalize(s.calls[c], o) {
        assert IsFinalize(s'.calls[c], o);
      }
    }
  }

  lemma {:induction false} GuardAlways(states: seq<State>, steps: seq<Step>, i: nat)
    requires Behavior(states, steps) && i < |states|
    ensures GuardOk(states[i])
  {
    if i > 0 {
      GuardAlways(states, steps, i - 1);
      InitialInv();
      RunKeepsInv(states, steps, i - 1);
      var s, st := states[i - 1], steps[i - 1];
      if st.CallStep? && st.aw.Return? {
        ReturnKeepsGuard(s, st.c, st.aw.room);
      } else {
        QuietStepKeepsGuard(s, st);
      }
    }
  }

  /** temporal_client.c:1095-1098 says a worker is marked the moment finalize is launched, so that
      every later operation is refused. In every reachable state a worker admits an operation, be it
      one that parks or a heartbeat or initiateShutdown, exactly as long as no finalizeShutdown on it
      has returned. */
  lemma GuardIsShutExactly(states: seq<State>, steps: seq<Step>, i: nat, o: nat, kind: Kind)
    requires Behavior(states, steps) && i < |states| && o < |states[i].objs|
    requires kind.Poll? || kind.Void()
    requires states[i].reactor.None? && Usable(states[i], o)
    requires states[i].objs[o].cls.WorkerClass? && states[i].objs[o].handle.Some?
    ensures Enabled(states[i], Enter(o, kind)) <==> !FinalizeReturned(states[i], o)
    ensures Enabled(states[i], SyncOp(o)) <==> !FinalizeReturned(states[i], o)
  {
    GuardAlways(states, steps, i);
  }

  /** The core has taken the worker, and the finalizeShutdown that asked for it is still running. */
  predicate Finalizing(s: State, o: nat) {
    exists c :: 0 <= c < |s.calls| && IsFinalize(s.calls[c], o) && s.calls[c].launched && ActiveFrame(s.calls[c])
  }

  lemma FinalizedIsOpen(s: State, st: Step, o: nat)
    requires BridgeInvariant.Inv(s) && o < |s.objs| && Enabled(s, st) && ReachesCore(s, st, o)
    ensures !s.objs[o].finalized
  {
    if s.objs[o].finalized {
      FinalizedIsShut(s, st, o);
    }
  }

  /** A spent worker reaches the core again only while a finalizeShutdown that was launched on it has
      not returned, and none has. */
  lemma SpentIsReachedOnlyWhileFinalizing(states: seq<State>, steps: seq<Step>, i: nat, st: Step, o: nat)
    requires Behavior(states, steps) && i < |states| && Enabled(states[i], st)
    requires ReachesCore(states[i], st, o) && Spent(states[i], o)
    ensures Finalizing(states[i], o) && !FinalizeReturned(states[i], o)
  {
    InitialInv();
    RunKeepsInv(states, steps, i);
    GuardAlways(states, steps, i);
    var s := states[i];
    if st.CallStep? {
      assert FrameOk(s, st.c);
    }
    FinalizedIsOpen(s, st, o);
    var c :| 0 <= c < |s.calls| && IsFinalize(s.calls[c], o) && s.calls[c].launched;
    assert ActiveFrame(s.calls[c]);
  }

  /** So the gap is exactly this: with the reactor free, a spent worker takes a heartbeat, or begins an
      operation that parks, if and only if every finalizeShutdown on it is still running. */
  lemma GapIsWhileFinalizing(states: seq<State>, steps: seq<Step>, i: nat, o: nat, kind: Kind)
    requires Behavior(states, steps) && i < |states| && o < |states[i].objs| && Spent(states[i], o)
    requires kind.Poll? || kind.Void()
    requires states[i].reactor.None? && Usable(states[i], o)
    requires states[i].objs[o].cls.WorkerClass? && states[i].objs[o].handle.Some?
    ensures Enabled(states[i], SyncOp(o)) <==> Finalizing(states[i], o) && !FinalizeReturned(states[i], o)
    ensures Enabled(states[i], Enter(o, kind)) <==> Finalizing(states[i], o) && !FinalizeReturned(states[i], o)
  {
    GuardIsShutExactly(states, steps, i, o, kind);
    if Enabled(states[i], SyncOp(o)) {
      SpentIsReachedOnlyWhileFinalizing(states, steps, i, SyncOp(o), o);
    }
  }

  // ---------------------------------------------------------------------------
  // A core box is freed once, at or after the destruction of its object
  // ---------------------------------------------------------------------------

  /** The step runs free_box on handle `h`. */
  predicate FreesBox(s: State, st: Step, h: nat) {
    st.HandleStep? && var op := OpOf(s, st.t); !op.NoOp? && op.h == h && op.st.SBox?
  }

  /** ... and only after the object that holds it has begun to be destroyed. */
  lemma BoxFreedAfterDestruction(s: State, st: Step, h: nat, o: nat)
    requires BridgeInvariant.Inv(s) && Enabled(s, st)
    requires FreesBox(s, st, h) && o < |s.objs| && s.objs[o].handle == Some(h)
    ensures !s.objs[o].pc.Alive?
  {
    assert ThreadOk(s, st.t);
    if s.objs[o].pc.Alive? {
      assert ObjectOk(s, o);
      HeldHandle(s, ByObject(o), h);
    }
  }

  lemma BoxStaysFreed(s: State, st: Step, h: nat)
    requires Enabled(s, st) && h < |s.handles|
    ensures h < |Next(s, st).handles|
    ensures s.handles[h].box.Freed? || FreesBox(s, st, h) ==> Next(s, st).handles[h].box.Freed?
  {
  }

  lemma {:induction false} BoxFreedForGood(states: seq<State>, steps: seq<Step>, i: nat, j: nat, h: nat)
    requires Run(states, steps) && i <= j < |states| && h < |states[i].handles| && states[i].handles[h].box.Freed?
    ensures h < |states[j].handles| && states[j].handles[h].box.Freed?
  {
    if i < j {
      BoxFreedForGood(states, steps, i, j - 1, h);
      BoxStaysFreed(states[j - 1], steps[j - 1], h);
    }
  }

  /** Over a whole run, at most one step frees the core box of a handle. */
  lemma BoxFreedOnce(states: seq<State>, steps: seq<Step>, i: nat, j: nat, h: nat)
    requires Behavior(states, steps) && i < |steps| && j < |steps|
    requires FreesBox(states[i], steps[i], h) && FreesBox(states[j], steps[j], h)
    ensures i == j
  {
    MemorySafety(states, steps, i, steps[i]);
    MemorySafety(states, steps, j, steps[j]);
    if i < j {
      BoxStaysFreed(states[i], steps[i], h);
      BoxFreedForGood(states, steps, i + 1, j, h);
    } else if j < i {
      BoxStaysFreed(states[j], steps[j], h);
      BoxFreedForGood(states, steps, j + 1, i, h);
    }
  }
}

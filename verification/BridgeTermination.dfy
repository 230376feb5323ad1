/** Every run that starts nothing new ends, cannot get stuck before everything is over, and ends
    with nothing left allocated. */
module BridgeTermination {
  import opened Results
  import opened CallMachine
  import opened Bridge
  import opened BridgeInvariant
  import opened BridgeSafety

  // ---------------------------------------------------------------------------
  // The measure
  // ---------------------------------------------------------------------------

  function StageLeft(st: Stage): nat {
    match st
    case SLock => 5
    case SOp => 4
    case SUnlock(_) => 3
    case SBox => 2
    case SStruct => 1
    case SEnd => 0
  }

  function AwLeft(pc: AwPc): nat {
    match pc
    case Fresh => 60
    case Aborted => 1
    case Gone => 0
    case Before(prep) =>
      (match prep case Addref(st) => 50 + StageLeft(st) case Arm => 49 case NewToken => 48 case Launching => 47)
    case Waiting(wait) =>
      (match wait case Sync => 46 case Suspending => 45 case Parked => 44 case Locking => 43 case Collecting => 42)
    case After(rest) =>
      (match rest
       case Unlocking => 41
       case Disposing => 40
       case Cancelling => 39
       case Dropping => 38
       case Releasing(st) => 30 + StageLeft(st)
       case Freeing => 29
       case TokenFreeing => 28
       case Returning => 27
       case Finished => 0)
  }

  function CbLeft(pc: CbPc): nat {
    match pc
    case Idle => 30
    case Due(owed) => (match owed case Pending => 29 case Copying => 28 case CbLocking => 27 case Delivering => 26)
    case Past(tail) =>
      (match tail
       case CbUnlocking => 25
       case CbDropping => 24
       case CbReleasing(st) => 10 + StageLeft(st)
       case CbFreeing => 9
       case CtxFreeing => 8
       case CbFinished => 0)
  }

  /** A bound on the steps a call has left; a parked coroutine can be cancelled once. */
  function CallLeft(c: Call): nat {
    AwLeft(c.aw) + CbLeft(c.cb) + (if c.exc then 0 else 1)
  }

  function ObjectLeft(x: Object): nat {
    x.users +
    (match x.pc
     case Alive => 20
     case HandleRelease(st) => 10 + StageLeft(st)
     case Unpinning => 5
     case Dead => 0)
  }

  function CallsLeft(cs: seq<Call>): nat {
    if cs == [] then 0 else CallLeft(cs[0]) + CallsLeft(cs[1..])
  }

  function ObjectsLeft(xs: seq<Object>): nat {
    if xs == [] then 0 else ObjectLeft(xs[0]) + ObjectsLeft(xs[1..])
  }

  function Remaining(s: State): nat {
    CallsLeft(s.calls) + ObjectsLeft(s.objs)
  }

  lemma {:induction false} CallsLeftUpdate(cs: seq<Call>, c: nat, r: Call)
    requires c < |cs|
    ensures CallsLeft(cs[c := r]) == CallsLeft(cs) - CallLeft(cs[c]) + CallLeft(r)
  {
    if c > 0 {
      CallsLeftUpdate(cs[1..], c - 1, r);
      assert cs[c := r][1..] == cs[1..][c - 1 := r];
    } else {
      assert cs[c := r][1..] == cs[1..];
    }
  }

  lemma {:induction false} ObjectsLeftUpdate(xs: seq<Object>, o: nat, x: Object)
    requires o < |xs|
    ensures ObjectsLeft(xs[o := x]) == ObjectsLeft(xs) - ObjectLeft(xs[o]) + ObjectLeft(x)
  {
    if o > 0 {
      ObjectsLeftUpdate(xs[1..], o - 1, x);
      assert xs[o := x][1..] == xs[1..][o - 1 := x];
    } else {
      assert xs[o := x][1..] == xs[1..];
    }
  }

  lemma AwDecreases(c: Call, st: AwStep)
    requires AwEnabled(c, st) && (c.aw.Before? ==> c.cb.Idle?)
    ensures CallLeft(AwNext(c, st)) < CallLeft(c)
  {
  }

  lemma CbDecreases(c: Call, st: CbStep)
    requires CbEnabled(c, st)
    ensures CallLeft(CbNext(c, st)) < CallLeft(c)
  {
  }

  lemma StageDecreases(x: Handle, add: bool, st: Stage)
    requires !st.SEnd?
    ensures StageLeft(AfterStage(x, add, st)) < StageLeft(st)
  {
  }

  lemma HandleStepDecreases(s: State, t: Thread)
    requires Enabled(s, HandleStep(t))
    ensures Remaining(Next(s, HandleStep(t))) < Remaining(s)
  {
    var s' := Next(s, HandleStep(t));
    var op := OpOf(s, t);
    StageDecreases(s.handles[op.h], op.AddOp?, op.st);
    match t
    case Coroutine(c) => CallsLeftUpdate(s.calls, c, s'.calls[c]);
    case Core(c) => CallsLeftUpdate(s.calls, c, s'.calls[c]);
    case Destructor(o) => ObjectsLeftUpdate(s.objs, o, s'.objs[o]);
  }

  lemma DepartedDecreases(s: State, c: nat, r': Call, adopts: bool)
    requires c < |s.calls| && s.calls[c].obj < |s.objs| && CallLeft(r') < CallLeft(s.calls[c])
    ensures Remaining(Departed(s, c, r', adopts)) < Remaining(s)
  {
    var o := s.calls[c].obj;
    CallsLeftUpdate(s.calls, c, r');
    ObjectsLeftUpdate(s.objs, o, Departed(s, c, r', adopts).objs[o]);
  }

  lemma LeaveDecreases(s: State, c: nat, room: bool)
    requires Enabled(s, CallStep(c, Return(room)))
    ensures Remaining(Next(s, CallStep(c, Return(room)))) < Remaining(s)
  {
    AwDecreases(s.calls[c], Return(room));
    ReturnDeparts(s, c, room);
    DepartedDecreases(s, c, AwNext(s.calls[c], Return(room)), Adopts(s.calls[c], room));
  }

  lemma EndDestroyDecreases(s: State, o: nat)
    requires BridgeInvariant.Inv(s) && Enabled(s, EndDestroy(o))
    ensures Remaining(Next(s, EndDestroy(o))) < Remaining(s)
  {
    var x := s.objs[o];
    var objs := s.objs[o := x.(pc := Dead, conn := None)];
    ObjectsLeftUpdate(s.objs, o, objs[o]);
    if x.conn.Some? && x.conn.value < |objs| {
      var k := x.conn.value;
      ObjectsLeftUpdate(objs, k, objs[k].(pins := objs[k].pins - {o}));
    }
  }

  /** Every step that starts nothing new brings the end nearer. */
  lemma FinishingDecreases(s: State, st: Step)
    requires BridgeInvariant.Inv(s) && Enabled(s, st) && !Starts(st)
    ensures Remaining(Next(s, st)) < Remaining(s)
  {
    match st
    case CallStep(c, aw) =>
      if aw.Return? {
        LeaveDecreases(s, c, aw.room);
      } else {
        assert CallMachine.Inv(s.calls[c]);
        AwDecreases(s.calls[c], aw);
        CallsLeftUpdate(s.calls, c, AwNext(s.calls[c], aw));
      }
    case CoreStep(c, cb) =>
      CbDecreases(s.calls[c], cb);
      CallsLeftUpdate(s.calls, c, CbNext(s.calls[c], cb));
    case HandleStep(t) => HandleStepDecreases(s, t);
    case EndDestroy(o) => EndDestroyDecreases(s, o);
    case DropUser(o) => ObjectsLeftUpdate(s.objs, o, Next(s, st).objs[o]);
    case BeginDestroy(o) => ObjectsLeftUpdate(s.objs, o, Next(s, st).objs[o]);
    case EndRelease(o) => ObjectsLeftUpdate(s.objs, o, Next(s, st).objs[o]);
  }

  /** A run of finishing steps is no longer than the measure of its first state. */
  lemma {:induction false} FinishingRunIsBounded(states: seq<State>, steps: seq<Step>)
    requires Run(states, steps) && BridgeInvariant.Inv(states[0])
    requires forall i :: 0 <= i < |steps| ==> !Starts(steps[i])
    ensures |steps| + Remaining(states[|steps|]) <= Remaining(states[0])
  {
    if |steps| > 0 {
      var n := |steps| - 1;
      assert Run(states[..|states| - 1], steps[..n]) by {
        forall i | 0 <= i < n ensures Enabled(states[i], steps[i]) && states[i + 1] == Next(states[i], steps[i]) {
        }
      }
      FinishingRunIsBounded(states[..|states| - 1], steps[..n]);
      RunKeepsInv(states, steps, n);
      FinishingDecreases(states[n], steps[n]);
    }
  }

  // ---------------------------------------------------------------------------
  // Progress
  // ---------------------------------------------------------------------------

  predicate CallOver(c: Call) {
    !ActiveFrame(c) && (c.cb.Idle? || c.cb == Past(CbFinished))
  }

  /** Every operation has delivered, every awaiter has returned, every object is gone. */
  predicate Quiescent(s: State) {
    && (forall c :: 0 <= c < |s.calls| ==> CallOver(s.calls[c]))
    && (forall o :: 0 <= o < |s.objs| ==> s.objs[o].pc.Dead?)
  }

  /** The step the awaiter takes when nothing is in its way. */
  function AwMove(c: Call): AwStep {
    match c.aw
    case Fresh => New
    case Aborted => Return(false)
    case Gone => New
    case Before(prep) =>
      (match prep
       case Addref(_) => Pinned
       case Arm => ArmTrigger
       case NewToken => TokenNew(true)
       case Launching => Launch)
    case Waiting(wait) =>
      (match wait
       case Sync => SyncReturn
       case Suspending => Suspend
       case Parked => Resume
       case Locking => Lock
       case Collecting => Collects)
    case After(rest) =>
      (match rest
       case Unlocking => Unlock
       case Disposing => Dispose
       case Cancelling => CancelToken
       case Dropping => DropResult
       case Releasing(_) => Released
       case Freeing => FreeCall
       case TokenFreeing => FreeToken
       case Returning => Return(false)
       case Finished => New)
  }

  /** An answer the core may give to an operation of this kind. */
  function SomeAnswer(kind: Kind): Answer {
    Answer(kind.Connect?, None, None, None, 0)
  }

  function CbMove(c: Call): CbStep {
    match c.cb
    case Idle => CbLock
    case Due(owed) =>
      (match owed
       case Pending => Invoke(SomeAnswer(c.kind))
       case Copying => Copy(true, true)
       case CbLocking => CbLock
       case Delivering => Delivers)
    case Past(tail) =>
      (match tail
       case CbUnlocking => CbUnlock
       case CbDropping => DropOrphan
       case CbReleasing(_) => CbReleased
       case CbFreeing => CbFreeCall
       case CtxFreeing => FreeCtx
       case CbFinished => CbLock)
  }

  /** A thread inside a handle operation, or the holder of the handle it waits for, can move. */
  lemma HandleOpMoves(s: State, t: Thread) returns (st: Step)
    requires BridgeInvariant.Inv(s) && !OpOf(s, t).NoOp? && !OpOf(s, t).st.SEnd? && (t.Core? || s.reactor == Some(t))
    ensures Enabled(s, st) && !Starts(st)
  {
    var op := OpOf(s, t);
    assert ThreadOk(s, t);
    if BeforeOp(op.st) {
      OperandAlive(s, t);
    }
    var lock := s.handles[op.h].lock;
    if op.st.SLock? && lock.Some? {
      HolderIsEnabled(s, lock.value, HandleMutex(op.h));
      st := HandleStep(lock.value);
    } else {
      st := HandleStep(t);
    }
  }

  /** A callback that is not over can move, unless a call mutex stands in its way. */
  lemma CallbackMoves(s: State, c: nat) returns (st: Step)
    requires BridgeInvariant.Inv(s) && c < |s.calls| && !s.calls[c].cb.Idle? && s.calls[c].cb != Past(CbFinished)
    ensures Enabled(s, st) && !Starts(st)
  {
    var r := s.calls[c];
    assert CallMachine.Inv(r);
    if !CbOp(r).NoOp? && !CbOp(r).st.SEnd? {
      st := HandleOpMoves(s, Core(c));
    } else if r.cb == Due(CbLocking) && r.lock.Some? {
      HolderIsEnabled(s, Coroutine(c), CallMutex(c));
      st := HolderStep(s, Coroutine(c), CallMutex(c));
    } else {
      st := CoreStep(c, CbMove(r));
    }
  }

  /** Whether the awaiter's next step depends on another party. */
  predicate Waits(c: Call) {
    !(AwOp(c).NoOp? || AwOp(c).st.SEnd?) || c.aw == Waiting(Sync) || c.aw == Waiting(Locking)
  }

  lemma AwMoveIsEnabled(c: Call)
    requires CallMachine.Inv(c) && Running(c) && !Waits(c)
    ensures AwEnabled(c, AwMove(c)) && !AwMove(c).Cancel? && !AwMove(c).Resume?
  {
  }

  /** The coroutine that has the reactor can move, or the party it waits for can. */
  lemma CoroutineMoves(s: State, c: nat) returns (st: Step)
    requires BridgeInvariant.Inv(s) && s.reactor == Some(Coroutine(c))
    ensures Enabled(s, st) && !Starts(st)
  {
    var r := s.calls[c];
    assert FrameOk(s, c);
    if !Waits(r) {
      AwMoveIsEnabled(r);
      st := CallStep(c, AwMove(r));
    } else if !AwOp(r).NoOp? && !AwOp(r).st.SEnd? {
      st := HandleOpMoves(s, Coroutine(c));
    } else if r.aw == Waiting(Sync) {
      st := SyncMoves(s, c);
    } else if r.lock.Some? {
      assert CallMachine.Inv(r);
      HolderIsEnabled(s, Core(c), CallMutex(c));
      st := HolderStep(s, Core(c), CallMutex(c));
    } else {
      st := CallStep(c, Lock);
    }
  }

  lemma SyncMoves(s: State, c: nat) returns (st: Step)
    requires BridgeInvariant.Inv(s) && s.reactor == Some(Coroutine(c)) && s.calls[c].aw == Waiting(Sync)
    ensures Enabled(s, st) && !Starts(st)
  {
    var r := s.calls[c];
    assert CallMachine.Inv(r);
    assert FrameOk(s, c);
    if r.cb == Past(CbFinished) {
      st := CallStep(c, SyncReturn);
    } else {
      st := CallbackMoves(s, c);
    }
  }

  lemma DestructorMoves(s: State, o: nat) returns (st: Step)
    requires BridgeInvariant.Inv(s) && s.reactor == Some(Destructor(o))
    ensures Enabled(s, st) && !Starts(st)
  {
    assert ObjectOk(s, o);
    if s.objs[o].pc.Unpinning? {
      st := EndDestroy(o);
    } else if s.objs[o].pc == HandleRelease(SEnd) {
      st := EndRelease(o);
    } else {
      st := HandleOpMoves(s, Destructor(o));
    }
  }

  /** With the reactor idle and every callback over, a coroutine that has not returned was woken. */
  lemma ParkedIsWoken(s: State, c: nat)
    requires BridgeInvariant.Inv(s) && s.reactor.None? && c < |s.calls|
    requires ActiveFrame(s.calls[c]) && (s.calls[c].cb.Idle? || s.calls[c].cb == Past(CbFinished))
    ensures Enabled(s, CallStep(c, Resume))
  {
    assert CallMachine.Inv(s.calls[c]);
    assert FrameOk(s, c);
  }

  lemma NoFrames(s: State, o: nat)
    requires BridgeInvariant.Inv(s) && o < |s.objs|
    requires forall c :: 0 <= c < |s.calls| ==> CallOver(s.calls[c])
    ensures s.objs[o].frames == {}
  {
    assert ObjectOk(s, o);
    forall c: nat ensures c !in s.objs[o].frames {
      if c < |s.calls| {
        assert FrameOk(s, c);
      }
    }
  }

  /** With every call over, an object that is not gone can be let go of. */
  lemma ObjectMoves(s: State, o: nat) returns (st: Step)
    requires BridgeInvariant.Inv(s) && s.reactor.None? && o < |s.objs| && !s.objs[o].pc.Dead?
    requires forall c :: 0 <= c < |s.calls| ==> CallOver(s.calls[c])
    ensures Enabled(s, st) && !Starts(st)
  {
    var x := s.objs[o];
    assert ObjectOk(s, o);
    NoFrames(s, o);
    if x.users > 0 {
      st := DropUser(o);
    } else if x.pins == {} {
      st := BeginDestroy(o);
    } else {
      var w :| w in x.pins;
      assert ObjectOk(s, w);
      assert s.objs[w].conn.Some? && !s.objs[w].pc.Dead? && s.objs[w].cls.WorkerClass? && s.objs[w].pins == {};
      NoFrames(s, w);
      if s.objs[w].users > 0 {
        st := DropUser(w);
      } else {
        st := BeginDestroy(w);
      }
    }
  }

  /** Until everything is over, some step that starts nothing new can be taken. */
  lemma Progress(s: State) returns (st: Step)
    requires BridgeInvariant.Inv(s) && !Quiescent(s)
    ensures Enabled(s, st) && !Starts(st)
  {
    if s.reactor.Some? {
      match s.reactor.value {
        case Coroutine(c) => st := CoroutineMoves(s, c);
        case Destructor(o) => st := DestructorMoves(s, o);
      }
    } else if c :| 0 <= c < |s.calls| && !CallOver(s.calls[c]) {
      if s.calls[c].cb.Idle? || s.calls[c].cb == Past(CbFinished) {
        ParkedIsWoken(s, c);
        st := CallStep(c, Resume);
      } else {
        st := CallbackMoves(s, c);
      }
    } else {
      var o :| 0 <= o < |s.objs| && !s.objs[o].pc.Dead?;
      st := ObjectMoves(s, o);
    }
  }

  // ---------------------------------------------------------------------------
  // Nothing is left
  // ---------------------------------------------------------------------------

  predicate CallReleased(c: Call) {
    && !c.led.call.Live? && !c.led.mutex.Live? && !c.led.trigger.Live? && !c.led.token.Live?
    && !c.led.ctx.Live? && !c.led.coreFail.Live? && !c.led.coreDetails.Live?
    && NothingLive(c.pay)
  }

  /** No call, mutex, trigger, token, shim context, core buffer, message, handle or box is left. */
  predicate AllReleased(s: State) {
    && (forall c :: 0 <= c < |s.calls| ==> CallReleased(s.calls[c]))
    && (forall h :: 0 <= h < |s.handles| ==> s.handles[h].box.Freed? && s.handles[h].mem.Freed?)
  }

  lemma OverIsReleased(c: Call)
    requires CallMachine.Inv(c) && CallOver(c)
    ensures CallReleased(c) && !c.pins && AwOp(c).NoOp? && CbOp(c).NoOp?
  {
  }

  /** When everything is over, nothing is left allocated. */
  lemma QuiescentIsReleased(s: State)
    requires BridgeInvariant.Inv(s) && Quiescent(s)
    ensures AllReleased(s)
  {
    forall c | 0 <= c < |s.calls|
      ensures CallReleased(s.calls[c]) && !s.calls[c].pins && AwOp(s.calls[c]).NoOp? && CbOp(s.calls[c]).NoOp?
    {
      OverIsReleased(s.calls[c]);
    }
    forall t: Thread ensures OpOf(s, t).NoOp? {
      assert t.Destructor? && t.o < |s.objs| ==> ObjectOk(s, t.o);
    }
    forall h | 0 <= h < |s.handles| ensures s.handles[h].box.Freed? && s.handles[h].mem.Freed? {
      assert HandleOk(s, h);
      assert s.handles[h].holders == {} by {
        forall x ensures x !in s.handles[h].holders {
          assert x in s.handles[h].holders <==> Holds(s, x, h);
          if x.ByObject? && x.o < |s.objs| {
            assert ObjectOk(s, x.o);
          }
        }
      }
    }
  }

  /** From any reachable state: a run of finishing steps that cannot be extended has taken no more
      steps than the measure allows, has finished everything, and has released everything. */
  lemma EveryRunDrains(states: seq<State>, steps: seq<Step>, i: nat)
    requires Behavior(states, steps) && i <= |steps|
    requires forall j :: i <= j < |steps| ==> !Starts(steps[j])
    ensures |steps| - i <= Remaining(states[i])
    ensures (forall st :: Enabled(states[|steps|], st) ==> Starts(st)) ==>
              Quiescent(states[|steps|]) && AllReleased(states[|steps|])
  {
    InitialInv();
    RunKeepsInv(states, steps, i);
    RunKeepsInv(states, steps, |steps|);
    FinishingRunIsBounded(states[i..], steps[i..]);
    if forall st :: Enabled(states[|steps|], st) ==> Starts(st) {
      if !Quiescent(states[|steps|]) {
        var st := Progress(states[|steps|]);
        assert false;
      }
      QuiescentIsReleased(states[|steps|]);
    }
  }
}

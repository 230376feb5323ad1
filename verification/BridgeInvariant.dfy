/** The global invariant of the bridge, and its preservation by every step. */
module BridgeInvariant {
  import opened Results
  import opened CallMachine
  import opened Bridge

  // ---------------------------------------------------------------------------
  // The invariant
  // ---------------------------------------------------------------------------

  /** The method that made the call has not returned. */
  predicate ActiveFrame(c: Call) {
    !c.aw.Gone? && c.aw != After(Finished)
  }

  /** The awaiter is in the middle of a stretch of reactor code. */
  predicate Running(c: Call) {
    ActiveFrame(c) && c.aw != Waiting(Parked)
  }

  /** The call has not reached the core yet. */
  predicate Preparing(c: Call) {
    c.aw.Fresh? || c.aw.Before?
  }

  predicate CallsOk(s: State) {
    forall c :: 0 <= c < |s.calls| ==> CallMachine.Inv(s.calls[c])
  }

  /** The class whose methods make calls of this kind. */
  function ClassOf(kind: Kind): Class {
    if kind.Connect? || kind.Rpc? then ConnectionClass else WorkerClass
  }

  /** One method's frame, and the handle it was given. */
  predicate FrameOk(s: State, c: nat)
    requires c < |s.calls|
  {
    var r := s.calls[c];
    && r.obj < |s.objs|
    && (r.handle.Some? ==> r.handle.value < |s.handles|)
    && s.objs[r.obj].cls == ClassOf(r.kind)
    && (c in s.objs[r.obj].frames <==> ActiveFrame(r))
    && (ActiveFrame(r) ==>
          && s.objs[r.obj].pc.Alive?
          && (if r.kind.Connect? then s.objs[r.obj].ctor == RunBy(c) && s.objs[r.obj].handle.None?
              else s.objs[r.obj].handle == r.handle))
    && (s.objs[r.obj].finalized ==> !Preparing(r))
    && (s.reactor == Some(Coroutine(c)) <==> Running(r))
  }

  predicate FramesOk(s: State) {
    forall c :: 0 <= c < |s.calls| ==> FrameOk(s, c)
  }

  predicate Unreferenced(x: Object) {
    x.users == 0 && x.frames == {} && x.pins == {}
  }

  predicate ObjectOk(s: State, o: nat)
    requires o < |s.objs|
  {
    var x := s.objs[o];
    && (x.handle.Some? ==> x.handle.value < |s.handles| && s.handles[x.handle.value].owner == o)
    && (forall c :: c in x.frames ==> c < |s.calls| && s.calls[c].obj == o)
    && (forall w :: w in x.pins ==> w < |s.objs| && s.objs[w].conn == Some(o))
    && (x.conn.Some? ==> x.conn.value < |s.objs| && o in s.objs[x.conn.value].pins)
    && (if x.cls.WorkerClass? then x.pins == {} && (x.handle.Some? ==> x.conn.Some?) else x.conn.None?)
    && (x.pins != {} ==> x.handle.Some?)
    && (x.finalized ==> x.cls.WorkerClass?)
    && (x.ctor.NotRun? ==> x.conn.None?)
    && (match x.pc
        case Alive => x.holds == x.handle.Some? && (x.ctor.NotRun? ==> x.handle.None?)
        case HandleRelease(st) => x.handle.Some? && x.holds == BeforeOp(st) && Unreferenced(x)
        case Unpinning => x.handle.None? && !x.holds && Unreferenced(x)
        case Dead => x.handle.None? && !x.holds && x.conn.None? && Unreferenced(x))
    && (s.reactor == Some(Destructor(o)) <==> x.pc.HandleRelease? || x.pc.Unpinning?)
  }

  predicate ObjectsOk(s: State) {
    forall o :: 0 <= o < |s.objs| ==> ObjectOk(s, o)
  }

  /** `x` is counted in the refcount of handle `h`. */
  predicate Holds(s: State, x: Holder, h: nat) {
    match x
    case ByObject(o) => o < |s.objs| && s.objs[o].holds && s.objs[o].handle == Some(h)
    case ByCall(c) => c < |s.calls| && s.calls[c].pins && s.calls[c].handle == Some(h)
  }

  ghost predicate HoldersOk(s: State) {
    forall h, x :: 0 <= h < |s.handles| ==> (x in s.handles[h].holders <==> Holds(s, x, h))
  }

  predicate Closing(st: Stage) {
    st == SUnlock(true) || st.SBox? || st.SStruct?
  }

  predicate HandleOk(s: State, h: nat)
    requires h < |s.handles|
  {
    var x := s.handles[h];
    && x.refcount == |x.holders|
    && (x.lock.Some? ==>
          var op := OpOf(s, x.lock.value);
          !op.NoOp? && op.h == h && (op.st.SOp? || op.st.SUnlock?))
    && (if x.holders != {} then x.box.Live? && x.mem.Live? && x.closer.None?
        else x.closer.Some? &&
             var op := OpOf(s, x.closer.value);
             || (x.box.Freed? && x.mem.Freed?)
             || (op.RelOp? && op.h == h && Closing(op.st)))
  }

  predicate HandlesOk(s: State) {
    forall h :: 0 <= h < |s.handles| ==> HandleOk(s, h)
  }

  /** What a thread inside a handle operation may rely on. */
  predicate ThreadOk(s: State, t: Thread) {
    var op := OpOf(s, t);
    op.NoOp? || (
      && op.h < |s.handles|
      && var x := s.handles[op.h];
      match op.st
      case SOp => x.lock == Some(t)
      case SUnlock(last) =>
        && x.lock == Some(t) && (last <==> x.holders == {})
        && (last ==> op.RelOp? && x.closer == Some(t) && x.box.Live? && x.mem.Live?)
      case SBox => op.RelOp? && x.holders == {} && x.closer == Some(t) && x.box.Live? && x.mem.Live? && x.lock.None?
      case SStruct => op.RelOp? && x.holders == {} && x.closer == Some(t) && x.box.Freed? && x.mem.Live? && x.lock.None?
      case _ => true)
  }

  ghost predicate ThreadsOk(s: State) {
    forall t: Thread {:trigger OpOf(s, t)} :: ThreadOk(s, t)
  }

  ghost predicate Inv(s: State) {
    && CallsOk(s)
    && FramesOk(s)
    && ObjectsOk(s)
    && HoldersOk(s)
    && HandlesOk(s)
    && ThreadsOk(s)
    && (s.reactor.Some? ==> !s.reactor.value.Core? && (s.reactor.value.Coroutine? ==> s.reactor.value.c < |s.calls|)
                            && (s.reactor.value.Destructor? ==> s.reactor.value.o < |s.objs|))
  }

  // ---------------------------------------------------------------------------
  // Safety
  // ---------------------------------------------------------------------------

  lemma HeldHandle(s: State, x: Holder, h: nat)
    requires HoldersOk(s) && HandlesOk(s) && h < |s.handles| && Holds(s, x, h)
    ensures x in s.handles[h].holders && s.handles[h].mem.Live? && s.handles[h].box.Live? && s.handles[h].refcount > 0
  {
    assert x in s.handles[h].holders;
    assert HandleOk(s, h);
    assert s.handles[h].holders - {x} < s.handles[h].holders;
  }

  /** An object whose method is running keeps its handle. */
  lemma FrameHandle(s: State, c: nat)
    requires Inv(s) && c < |s.calls| && ActiveFrame(s.calls[c]) && s.calls[c].handle.Some?
    ensures Holds(s, ByObject(s.calls[c].obj), s.calls[c].handle.value)
  {
    assert FrameOk(s, c);
    assert CallMachine.Inv(s.calls[c]);
    assert ObjectOk(s, s.calls[c].obj);
  }

  /** A thread about to operate on a handle finds it alive. */
  lemma OperandAlive(s: State, t: Thread)
    requires Inv(s) && !OpOf(s, t).NoOp? && BeforeOp(OpOf(s, t).st)
    ensures OpOf(s, t).h < |s.handles|
    ensures s.handles[OpOf(s, t).h].mem.Live? && s.handles[OpOf(s, t).h].refcount > 0
    ensures OpOf(s, t).RelOp? ==> Holds(s, HolderOf(t), OpOf(s, t).h)
    ensures OpOf(s, t).AddOp? ==> !Holds(s, HolderOf(t), OpOf(s, t).h) && s.handles[OpOf(s, t).h].holders != {}
  {
    var op := OpOf(s, t);
    assert ThreadOk(s, t);
    match t
    case Coroutine(c) =>
      assert CallMachine.Inv(s.calls[c]);
      if op.AddOp? {
        FrameHandle(s, c);
        HeldHandle(s, ByObject(s.calls[c].obj), op.h);
      } else {
        HeldHandle(s, ByCall(c), op.h);
      }
    case Core(c) =>
      assert CallMachine.Inv(s.calls[c]);
      HeldHandle(s, ByCall(c), op.h);
    case Destructor(o) =>
      assert ObjectOk(s, o);
      HeldHandle(s, ByObject(o), op.h);
  }

  // ---------------------------------------------------------------------------
  // Handle stages keep the invariant
  // ---------------------------------------------------------------------------

  /** The stages an addref, and a release, can step between, with what is counted afterwards. */
  predicate StageMove(add: bool, st: Stage, st': Stage, counted: bool, counted': bool) {
    match st
    case SLock => st'.SOp? && counted' == counted
    case SOp => st'.SUnlock? && (add ==> !st'.last) && counted' == add
    case SUnlock(last) => st' == (if last then SBox else SEnd) && counted' == counted
    case SBox => st'.SStruct? && counted' == counted
    case SStruct => st'.SEnd? && counted' == counted
    case SEnd => false
  }

  lemma AddrefKeepsCall(r: Call, st: Stage, counted: bool)
    requires CallMachine.Inv(r) && r.aw.Before? && r.aw.prep.Addref?
    requires StageMove(true, r.aw.prep.st, st, r.pins, counted)
    ensures CallMachine.Inv(r.(aw := Before(Addref(st)), pins := counted))
  {
  }

  lemma AwReleaseKeepsCall(r: Call, st: Stage, counted: bool)
    requires CallMachine.Inv(r) && r.aw.After? && r.aw.rest.Releasing?
    requires StageMove(false, r.aw.rest.st, st, r.pins, counted)
    ensures CallMachine.Inv(r.(aw := After(Releasing(st)), pins := counted))
  {
  }

  lemma CbReleaseKeepsCall(r: Call, st: Stage, counted: bool)
    requires CallMachine.Inv(r) && r.cb.Past? && r.cb.tail.CbReleasing?
    requires StageMove(false, r.cb.tail.st, st, r.pins, counted)
    ensures CallMachine.Inv(r.(cb := Past(CbReleasing(st)), pins := counted))
  {
  }

  lemma AwaiterStageCalls(s: State, c: nat)
    requires CallsOk(s) && Enabled(s, HandleStep(Coroutine(c)))
    ensures CallsOk(Next(s, HandleStep(Coroutine(c))))
  {
    var op := OpOf(s, Coroutine(c));
    var st' := AfterStage(s.handles[op.h], op.AddOp?, op.st);
    var counted := if op.st.SOp? then op.AddOp? else s.calls[c].pins;
    if op.AddOp? {
      AddrefKeepsCall(s.calls[c], st', counted);
    } else {
      AwReleaseKeepsCall(s.calls[c], st', counted);
    }
  }

  lemma CallbackStageCalls(s: State, c: nat)
    requires CallsOk(s) && Enabled(s, HandleStep(Core(c)))
    ensures CallsOk(Next(s, HandleStep(Core(c))))
  {
    var op := OpOf(s, Core(c));
    var st' := AfterStage(s.handles[op.h], false, op.st);
    CbReleaseKeepsCall(s.calls[c], st', if op.st.SOp? then false else s.calls[c].pins);
  }

  lemma HandleStepCalls(s: State, t: Thread)
    requires CallsOk(s) && Enabled(s, HandleStep(t))
    ensures CallsOk(Next(s, HandleStep(t)))
  {
    match t
    case Coroutine(c) => AwaiterStageCalls(s, c);
    case Core(c) => CallbackStageCalls(s, c);
    case Destructor(o) =>
  }

  lemma HandleStepFrames(s: State, t: Thread)
    requires FramesOk(s) && Enabled(s, HandleStep(t))
    ensures FramesOk(Next(s, HandleStep(t)))
  {
    var s' := Next(s, HandleStep(t));
    forall c | 0 <= c < |s'.calls| ensures FrameOk(s', c) {
      assert FrameOk(s, c);
    }
  }

  lemma HandleStepObjects(s: State, t: Thread)
    requires ObjectsOk(s) && Enabled(s, HandleStep(t))
    ensures ObjectsOk(Next(s, HandleStep(t)))
  {
    var s' := Next(s, HandleStep(t));
    forall o | 0 <= o < |s'.objs| ensures ObjectOk(s', o) {
      assert ObjectOk(s, o);
    }
  }

  lemma HandleStepHolders(s: State, t: Thread)
    requires HoldersOk(s) && Enabled(s, HandleStep(t))
    ensures HoldersOk(Next(s, HandleStep(t)))
  {
    var op := OpOf(s, t);
    var s' := Next(s, HandleStep(t));
    forall h, x | 0 <= h < |s'.handles| ensures x in s'.handles[h].holders <==> Holds(s', x, h) {
      assert x in s.handles[h].holders <==> Holds(s, x, h);
    }
  }

  /** The stage moves, and no other thread's operation is touched. */
  lemma HandleStepOps(s: State, t: Thread)
    requires Inv(s) && Enabled(s, HandleStep(t))
    ensures var op := OpOf(s, t);
            var s' := Next(s, HandleStep(t));
            var st' := AfterStage(s.handles[op.h], op.AddOp?, op.st);
            && s'.handles == s.handles[op.h := Advance(s.handles[op.h], op.AddOp?, op.st, t)]
            && OpOf(s', t) == (if op.AddOp? then AddOp(op.h, st') else RelOp(op.h, st'))
            && forall u: Thread {:trigger OpOf(s', u)} {:trigger OpOf(s, u)} :: u != t ==> OpOf(s', u) == OpOf(s, u)
  {
  }

  /** The facts about one handle `x` that a stage of `t` can rely on. */
  predicate Operand(x: Handle, add: bool, st: Stage, t: Thread) {
    && x.refcount == |x.holders|
    && (x.holders != {} ==> x.closer.None? && x.mem.Live? && x.box.Live?)
    && (st.SLock? || st.SOp? ==> x.holders != {} && (HolderOf(t) in x.holders <==> !add))
  }

  lemma HandleStepOperand(s: State, t: Thread)
    requires Inv(s) && Enabled(s, HandleStep(t))
    ensures var op := OpOf(s, t); Operand(s.handles[op.h], op.AddOp?, op.st, t)
  {
    var op := OpOf(s, t);
    assert HandleOk(s, op.h);
    if BeforeOp(op.st) {
      OperandAlive(s, t);
      assert HolderOf(t) in s.handles[op.h].holders <==> Holds(s, HolderOf(t), op.h);
    }
  }

  lemma CountAfterOp(x: Handle, add: bool, t: Thread)
    requires Operand(x, add, SOp, t)
    ensures var x' := Advance(x, add, SOp, t);
            && x'.refcount == |x'.holders|
            && (x'.holders == {} <==> !add && x.refcount - 1 == 0)
  {
    var holders := x.holders - {HolderOf(t)};
    if !add {
      assert x.holders == holders + {HolderOf(t)};
    }
  }

  lemma HandleStepHandles(s: State, t: Thread)
    requires Inv(s) && Enabled(s, HandleStep(t))
    ensures HandlesOk(Next(s, HandleStep(t)))
  {
    var op := OpOf(s, t);
    var s' := Next(s, HandleStep(t));
    HandleStepOps(s, t);
    HandleStepOperand(s, t);
    assert ThreadOk(s, t);
    if op.st.SOp? {
      CountAfterOp(s.handles[op.h], op.AddOp?, t);
    }
    forall h | 0 <= h < |s'.handles| ensures HandleOk(s', h) {
      assert HandleOk(s, h);
    }
  }

  lemma HandleStepThreads(s: State, t: Thread)
    requires Inv(s) && Enabled(s, HandleStep(t))
    ensures ThreadsOk(Next(s, HandleStep(t)))
  {
    var op := OpOf(s, t);
    var s' := Next(s, HandleStep(t));
    HandleStepOps(s, t);
    HandleStepOperand(s, t);
    assert ThreadOk(s, t);
    if op.st.SOp? {
      CountAfterOp(s.handles[op.h], op.AddOp?, t);
    }
    assert HandleOk(s, op.h);
    forall u: Thread ensures ThreadOk(s', u) {
      assert ThreadOk(s, u);
    }
  }

  lemma HandleStepKeepsInv(s: State, t: Thread)
    requires Inv(s) && Enabled(s, HandleStep(t))
    ensures Inv(Next(s, HandleStep(t)))
  {
    HandleStepCalls(s, t);
    HandleStepFrames(s, t);
    HandleStepObjects(s, t);
    HandleStepHolders(s, t);
    HandleStepHandles(s, t);
    HandleStepThreads(s, t);
  }

  // ---------------------------------------------------------------------------
  // Steps of one call keep the invariant
  // ---------------------------------------------------------------------------

  /** A handle operation may be entered, or left when it is over; its stages belong to HandleStep. */
  predicate OpKept(a: HandleOp, b: HandleOp) {
    a == b || ((a.NoOp? || a.st.SEnd?) && (b.NoOp? || b.st.SLock?))
  }

  /** What a step inside one call leaves alone. */
  predicate LocalChange(r: Call, r': Call) {
    && r'.kind == r.kind && r'.obj == r.obj && r'.handle == r.handle && r'.pins == r.pins
    && ActiveFrame(r') == ActiveFrame(r)
    && OpKept(AwOp(r), AwOp(r')) && OpKept(CbOp(r), CbOp(r'))
    && (Preparing(r') ==> Preparing(r))
  }

  lemma AwLocalChange(r: Call, st: AwStep)
    requires AwEnabled(r, st) && !st.Return? && (r.aw.Before? ==> r.cb.Idle?)
    ensures LocalChange(r, AwNext(r, st))
    ensures Running(AwNext(r, st)) == (st.Resume? || (Running(r) && !st.Suspend?))
  {
  }

  lemma CbLocalChange(r: Call, st: CbStep)
    requires CbEnabled(r, st)
    ensures LocalChange(r, CbNext(r, st))
    ensures Running(CbNext(r, st)) == Running(r)
  {
  }

  /** One call moves from `s.calls[c]` to `r'`; the reactor goes along. */
  function Local(s: State, c: nat, r': Call, reactor: Option<Thread>): State
    requires c < |s.calls|
  {
    s.(calls := s.calls[c := r'], reactor := reactor)
  }

  predicate LocalMove(s: State, c: nat, r': Call, reactor: Option<Thread>) {
    && c < |s.calls| && CallMachine.Inv(r') && LocalChange(s.calls[c], r')
    && (|| reactor == s.reactor
        || (s.reactor == Some(Coroutine(c)) && reactor.None?)
        || (s.reactor.None? && reactor == Some(Coroutine(c))))
    && (reactor == Some(Coroutine(c)) <==> Running(r'))
  }

  lemma LocalFrames(s: State, c: nat, r': Call, reactor: Option<Thread>)
    requires Inv(s) && LocalMove(s, c, r', reactor)
    ensures FramesOk(Local(s, c, r', reactor)) && CallsOk(Local(s, c, r', reactor))
  {
    var s' := Local(s, c, r', reactor);
    forall d | 0 <= d < |s'.calls| ensures FrameOk(s', d) {
      assert FrameOk(s, d);
    }
  }

  lemma LocalObjects(s: State, c: nat, r': Call, reactor: Option<Thread>)
    requires Inv(s) && LocalMove(s, c, r', reactor)
    ensures ObjectsOk(Local(s, c, r', reactor)) && HoldersOk(Local(s, c, r', reactor))
  {
    var s' := Local(s, c, r', reactor);
    forall o | 0 <= o < |s'.objs| ensures ObjectOk(s', o) {
      assert ObjectOk(s, o);
    }
    forall h, x | 0 <= h < |s'.handles| ensures x in s'.handles[h].holders <==> Holds(s', x, h) {
      assert x in s.handles[h].holders <==> Holds(s, x, h);
    }
  }

  lemma LocalHandles(s: State, c: nat, r': Call, reactor: Option<Thread>)
    requires HandlesOk(s) && LocalMove(s, c, r', reactor)
    ensures HandlesOk(Local(s, c, r', reactor))
  {
    var s' := Local(s, c, r', reactor);
    assert forall u: Thread {:trigger OpOf(s', u)} :: OpKept(OpOf(s, u), OpOf(s', u));
    forall h | 0 <= h < |s'.handles| ensures HandleOk(s', h) {
      assert HandleOk(s, h);
    }
  }

  lemma LocalThreads(s: State, c: nat, r': Call, reactor: Option<Thread>)
    requires FramesOk(s) && ThreadsOk(s) && LocalMove(s, c, r', reactor)
    ensures ThreadsOk(Local(s, c, r', reactor))
  {
    var s' := Local(s, c, r', reactor);
    assert forall u: Thread {:trigger OpOf(s', u)} :: OpKept(OpOf(s, u), OpOf(s', u));
    assert FrameOk(s, c);
    forall u: Thread ensures ThreadOk(s', u) {
      assert ThreadOk(s, u);
    }
  }

  lemma LocalKeepsInv(s: State, c: nat, r': Call, reactor: Option<Thread>)
    requires Inv(s) && LocalMove(s, c, r', reactor)
    ensures Inv(Local(s, c, r', reactor))
  {
    LocalFrames(s, c, r', reactor);
    LocalObjects(s, c, r', reactor);
    LocalHandles(s, c, r', reactor);
    LocalThreads(s, c, r', reactor);
  }

  lemma CoreStepKeepsInv(s: State, c: nat, st: CbStep)
    requires Inv(s) && Enabled(s, CoreStep(c, st))
    ensures Inv(Next(s, CoreStep(c, st)))
  {
    var r := s.calls[c];
    CbKeepsInv(r, st);
    CbLocalChange(r, st);
    assert FrameOk(s, c);
    LocalKeepsInv(s, c, CbNext(r, st), s.reactor);
  }

  lemma CallStepKeepsInv(s: State, c: nat, st: AwStep)
    requires Inv(s) && Enabled(s, CallStep(c, st)) && !st.Return?
    ensures Inv(Next(s, CallStep(c, st)))
  {
    var r := s.calls[c];
    AwKeepsInv(r, st);
    AwLocalChange(r, st);
    assert FrameOk(s, c);
    var reactor := if st.Resume? then Some(Coroutine(c)) else if st.Suspend? then None else s.reactor;
    LocalKeepsInv(s, c, AwNext(r, st), reactor);
  }

  // ---------------------------------------------------------------------------
  // PHP steps, returns and destruction keep the invariant
  // ---------------------------------------------------------------------------

  /** Steps that change objects only. */
  predicate ObjectStep(st: Step) {
    st.NewObject? || st.AddUser? || st.DropUser? || st.SyncOp? || st.BeginDestroy? || st.EndRelease? || st.EndDestroy?
  }

  lemma ObjectStepFrames(s: State, st: Step)
    requires CallsOk(s) && FramesOk(s) && ObjectsOk(s) && Enabled(s, st) && ObjectStep(st)
    ensures FramesOk(Next(s, st)) && CallsOk(Next(s, st))
  {
    var s' := Next(s, st);
    assert st.EndRelease? || st.EndDestroy? ==> ObjectOk(s, st.o);
    forall c | 0 <= c < |s'.calls| ensures FrameOk(s', c) {
      assert FrameOk(s, c);
      assert ObjectOk(s, s.calls[c].obj);
    }
  }

  lemma EndDestroyObjects(s: State, d: nat)
    requires ObjectsOk(s) && Enabled(s, EndDestroy(d))
    ensures ObjectsOk(Next(s, EndDestroy(d)))
  {
    var s' := Next(s, EndDestroy(d));
    assert ObjectOk(s, d);
    forall o | 0 <= o < |s'.objs| ensures ObjectOk(s', o) {
      assert ObjectOk(s, o);
    }
  }

  lemma ReferenceStepObjects(s: State, st: Step)
    requires ObjectsOk(s) && Enabled(s, st) && (st.NewObject? || st.AddUser? || st.DropUser? || st.SyncOp?)
    ensures ObjectsOk(Next(s, st))
  {
    var s' := Next(s, st);
    forall o | 0 <= o < |s'.objs| ensures ObjectOk(s', o) {
      assert o < |s.objs| ==> ObjectOk(s, o);
    }
  }

  lemma ReleaseStepObjects(s: State, st: Step)
    requires ObjectsOk(s) && Enabled(s, st) && (st.BeginDestroy? || st.EndRelease?)
    ensures ObjectsOk(Next(s, st))
  {
    var s' := Next(s, st);
    assert ObjectOk(s, st.o);
    forall o | 0 <= o < |s'.objs| ensures ObjectOk(s', o) {
      assert ObjectOk(s, o);
    }
  }

  lemma ObjectStepHolders(s: State, st: Step)
    requires ObjectsOk(s) && HoldersOk(s) && Enabled(s, st) && ObjectStep(st)
    ensures HoldersOk(Next(s, st))
  {
    var s' := Next(s, st);
    forall h, x | 0 <= h < |s'.handles| ensures x in s'.handles[h].holders <==> Holds(s', x, h) {
      assert x in s.handles[h].holders <==> Holds(s, x, h);
      assert x.ByObject? && x.o < |s.objs| ==> ObjectOk(s, x.o);
    }
  }

  lemma ObjectStepOps(s: State, st: Step, u: Thread)
    requires ObjectsOk(s) && Enabled(s, st) && ObjectStep(st)
    ensures OpKept(OpOf(s, u), OpOf(Next(s, st), u)) && Next(s, st).handles == s.handles
    ensures var op := OpOf(Next(s, st), u); op.NoOp? || op.h < |s.handles| || op == OpOf(s, u)
  {
    assert u.Destructor? && u.o < |s.objs| ==> ObjectOk(s, u.o);
  }

  lemma ObjectStepHandles(s: State, st: Step)
    requires ObjectsOk(s) && HandlesOk(s) && Enabled(s, st) && ObjectStep(st)
    ensures HandlesOk(Next(s, st))
  {
    var s' := Next(s, st);
    forall h | 0 <= h < |s'.handles| ensures HandleOk(s', h) {
      assert HandleOk(s, h);
      if s.handles[h].lock.Some? {
        ObjectStepOps(s, st, s.handles[h].lock.value);
      }
      if s.handles[h].closer.Some? {
        ObjectStepOps(s, st, s.handles[h].closer.value);
      }
    }
  }

  lemma ObjectStepThreads(s: State, st: Step)
    requires ObjectsOk(s) && ThreadsOk(s) && Enabled(s, st) && ObjectStep(st)
    ensures ThreadsOk(Next(s, st))
  {
    forall u: Thread ensures ThreadOk(Next(s, st), u) {
      assert ThreadOk(s, u);
      ObjectStepOps(s, st, u);
    }
  }

  lemma ObjectStepKeepsInv(s: State, st: Step)
    requires Inv(s) && Enabled(s, st) && ObjectStep(st)
    ensures Inv(Next(s, st))
  {
    ObjectStepFrames(s, st);
    if st.EndDestroy? {
      EndDestroyObjects(s, st.o);
    } else if st.BeginDestroy? || st.EndRelease? {
      ReleaseStepObjects(s, st);
    } else {
      ReferenceStepObjects(s, st);
    }
    ObjectStepHolders(s, st);
    ObjectStepHandles(s, st);
    ObjectStepThreads(s, st);
  }

  lemma EnterCalls(s: State, o: nat, kind: Kind)
    requires CallsOk(s) && Enabled(s, Enter(o, kind))
    ensures CallsOk(Next(s, Enter(o, kind)))
  {
  }

  lemma EnterFrames(s: State, o: nat, kind: Kind)
    requires CallsOk(s) && FramesOk(s) && ObjectsOk(s) && Enabled(s, Enter(o, kind))
    ensures FramesOk(Next(s, Enter(o, kind)))
  {
    var s' := Next(s, Enter(o, kind));
    assert ObjectOk(s, o);
    forall d | 0 <= d < |s'.calls| ensures FrameOk(s', d) {
      assert d < |s.calls| ==> FrameOk(s, d);
    }
  }

  lemma EnterObjects(s: State, o: nat, kind: Kind)
    requires ObjectsOk(s) && Enabled(s, Enter(o, kind))
    ensures ObjectsOk(Next(s, Enter(o, kind)))
  {
    var s' := Next(s, Enter(o, kind));
    assert ObjectOk(s, o);
    forall p | 0 <= p < |s'.objs| ensures ObjectOk(s', p) {
      assert ObjectOk(s, p);
    }
  }

  lemma EnterHolders(s: State, o: nat, kind: Kind)
    requires FramesOk(s) && ObjectsOk(s) && HoldersOk(s) && Enabled(s, Enter(o, kind))
    ensures HoldersOk(Next(s, Enter(o, kind)))
  {
    var s' := Next(s, Enter(o, kind));
    assert ObjectOk(s, o);
    forall h, x | 0 <= h < |s'.handles| ensures x in s'.handles[h].holders <==> Holds(s', x, h) {
      assert h < |s.handles| ==> (x in s.handles[h].holders <==> Holds(s, x, h));
      assert x.ByObject? && x.o < |s.objs| ==> ObjectOk(s, x.o);
      assert x.ByCall? && x.c < |s.calls| ==> FrameOk(s, x.c);
    }
  }

  lemma EnterThreads(s: State, o: nat, kind: Kind)
    requires Inv(s) && Enabled(s, Enter(o, kind))
    ensures HandlesOk(Next(s, Enter(o, kind))) && ThreadsOk(Next(s, Enter(o, kind)))
  {
    var s' := Next(s, Enter(o, kind));
    assert ObjectOk(s, o);
    assert forall u: Thread {:trigger OpOf(s', u)} :: OpOf(s', u) == OpOf(s, u) by {
      forall u: Thread ensures OpOf(s', u) == OpOf(s, u) {
        assert u.Destructor? && u.o < |s.objs| ==> ObjectOk(s, u.o);
      }
    }
    forall h | 0 <= h < |s'.handles| ensures HandleOk(s', h) {
      assert h < |s.handles| ==> HandleOk(s, h);
    }
    forall u: Thread ensures ThreadOk(s', u) {
      assert ThreadOk(s, u);
    }
  }

  lemma EnterKeepsInv(s: State, o: nat, kind: Kind)
    requires Inv(s) && Enabled(s, Enter(o, kind))
    ensures Inv(Next(s, Enter(o, kind)))
  {
    EnterCalls(s, o, kind);
    EnterFrames(s, o, kind);
    EnterObjects(s, o, kind);
    EnterHolders(s, o, kind);
    EnterThreads(s, o, kind);
  }

  lemma ConstructFrames(s: State, w: nat, k: nat, coreRoom: bool, room: bool)
    requires CallsOk(s) && FramesOk(s) && ObjectsOk(s) && Enabled(s, ConstructWorker(w, k, coreRoom, room))
    ensures FramesOk(Next(s, ConstructWorker(w, k, coreRoom, room)))
    ensures CallsOk(Next(s, ConstructWorker(w, k, coreRoom, room)))
  {
    var s' := Next(s, ConstructWorker(w, k, coreRoom, room));
    assert ObjectOk(s, w) && ObjectOk(s, k);
    forall d | 0 <= d < |s'.calls| ensures FrameOk(s', d) {
      assert d < |s.calls| ==> FrameOk(s, d);
    }
  }

  lemma ConstructObjects(s: State, w: nat, k: nat, coreRoom: bool, room: bool)
    requires ObjectsOk(s) && Enabled(s, ConstructWorker(w, k, coreRoom, room))
    ensures ObjectsOk(Next(s, ConstructWorker(w, k, coreRoom, room)))
  {
    var s' := Next(s, ConstructWorker(w, k, coreRoom, room));
    assert ObjectOk(s, w) && ObjectOk(s, k);
    forall o | 0 <= o < |s'.objs| ensures ObjectOk(s', o) {
      assert ObjectOk(s, o);
    }
  }

  lemma ConstructHolders(s: State, w: nat, k: nat, coreRoom: bool, room: bool)
    requires FramesOk(s) && ObjectsOk(s) && HoldersOk(s) && Enabled(s, ConstructWorker(w, k, coreRoom, room))
    ensures HoldersOk(Next(s, ConstructWorker(w, k, coreRoom, room)))
  {
    var s' := Next(s, ConstructWorker(w, k, coreRoom, room));
    assert ObjectOk(s, w) && ObjectOk(s, k);
    forall h, x | 0 <= h < |s'.handles| ensures x in s'.handles[h].holders <==> Holds(s', x, h) {
      assert h < |s.handles| ==> (x in s.handles[h].holders <==> Holds(s, x, h));
      assert x.ByObject? && x.o < |s.objs| ==> ObjectOk(s, x.o);
      assert x.ByCall? && x.c < |s.calls| ==> FrameOk(s, x.c);
    }
  }

  lemma ConstructThreads(s: State, w: nat, k: nat, coreRoom: bool, room: bool)
    requires Inv(s) && Enabled(s, ConstructWorker(w, k, coreRoom, room))
    ensures HandlesOk(Next(s, ConstructWorker(w, k, coreRoom, room)))
    ensures ThreadsOk(Next(s, ConstructWorker(w, k, coreRoom, room)))
  {
    var s' := Next(s, ConstructWorker(w, k, coreRoom, room));
    assert ObjectOk(s, w) && ObjectOk(s, k);
    assert forall u: Thread {:trigger OpOf(s', u)} :: OpOf(s', u) == OpOf(s, u) by {
      forall u: Thread ensures OpOf(s', u) == OpOf(s, u) {
        assert u.Destructor? && u.o < |s.objs| ==> ObjectOk(s, u.o);
      }
    }
    forall h | 0 <= h < |s'.handles| ensures HandleOk(s', h) {
      assert h < |s.handles| ==> HandleOk(s, h);
    }
    forall u: Thread ensures ThreadOk(s', u) {
      assert ThreadOk(s, u);
    }
  }

  lemma ConstructKeepsInv(s: State, w: nat, k: nat, coreRoom: bool, room: bool)
    requires Inv(s) && Enabled(s, ConstructWorker(w, k, coreRoom, room))
    ensures Inv(Next(s, ConstructWorker(w, k, coreRoom, room)))
  {
    ConstructFrames(s, w, k, coreRoom, room);
    ConstructObjects(s, w, k, coreRoom, room);
    ConstructHolders(s, w, k, coreRoom, room);
    ConstructThreads(s, w, k, coreRoom, room);
  }

  /** A method returns: what its own call looks like before and after. */
  predicate Returned(r: Call, r': Call) {
    && r'.kind == r.kind && r'.obj == r.obj && r'.handle == r.handle && r'.pins == r.pins
    && Running(r) && !Preparing(r) && !ActiveFrame(r') && !Preparing(r')
    && AwOp(r).NoOp? && AwOp(r').NoOp? && CbOp(r') == CbOp(r)
  }

  lemma ReturnReturns(r: Call, room: bool)
    requires AwEnabled(r, Return(room))
    ensures Returned(r, AwNext(r, Return(room)))
  {
  }

  /** The frame of call `c` is gone; the object may have adopted a new handle. */
  function Departed(s: State, c: nat, r': Call, adopts: bool): State
    requires c < |s.calls| && s.calls[c].obj < |s.objs|
  {
    var o := s.calls[c].obj;
    var x := s.objs[o].(frames := s.objs[o].frames - {c});
    State(s.calls[c := r'], if adopts then s.handles + [NewHandle(o)] else s.handles,
          s.objs[o := if adopts then x.(handle := Some(|s.handles|), holds := true)
                      else x.(finalized := x.finalized || s.calls[c].kind.Finalize?)], None)
  }

  ghost predicate Leaves(s: State, c: nat, r': Call, adopts: bool) {
    && Inv(s) && c < |s.calls| && s.reactor == Some(Coroutine(c)) && s.calls[c].obj < |s.objs|
    && CallMachine.Inv(r') && Returned(s.calls[c], r')
    && (adopts ==> s.calls[c].kind.Connect?)
  }

  lemma DepartedFrames(s: State, c: nat, r': Call, adopts: bool)
    requires Leaves(s, c, r', adopts)
    ensures FramesOk(Departed(s, c, r', adopts)) && CallsOk(Departed(s, c, r', adopts))
  {
    var s' := Departed(s, c, r', adopts);
    assert FrameOk(s, c) && ObjectOk(s, s.calls[c].obj);
    forall d | 0 <= d < |s'.calls| ensures FrameOk(s', d) {
      assert FrameOk(s, d);
    }
  }

  lemma DepartedObjects(s: State, c: nat, r': Call, adopts: bool)
    requires Leaves(s, c, r', adopts)
    ensures ObjectsOk(Departed(s, c, r', adopts))
  {
    var s' := Departed(s, c, r', adopts);
    assert FrameOk(s, c) && ObjectOk(s, s.calls[c].obj);
    forall o | 0 <= o < |s'.objs| ensures ObjectOk(s', o) {
      assert ObjectOk(s, o);
    }
  }

  lemma DepartedHolders(s: State, c: nat, r': Call, adopts: bool)
    requires Leaves(s, c, r', adopts)
    ensures HoldersOk(Departed(s, c, r', adopts))
  {
    var s' := Departed(s, c, r', adopts);
    assert FrameOk(s, c) && ObjectOk(s, s.calls[c].obj);
    forall h, x | 0 <= h < |s'.handles| ensures x in s'.handles[h].holders <==> Holds(s', x, h) {
      assert h < |s.handles| ==> (x in s.handles[h].holders <==> Holds(s, x, h));
      assert x.ByObject? && x.o < |s.objs| ==> ObjectOk(s, x.o);
      assert x.ByCall? && x.c < |s.calls| ==> FrameOk(s, x.c);
    }
  }

  lemma DepartedThreads(s: State, c: nat, r': Call, adopts: bool)
    requires Leaves(s, c, r', adopts)
    ensures HandlesOk(Departed(s, c, r', adopts)) && ThreadsOk(Departed(s, c, r', adopts))
  {
    var s' := Departed(s, c, r', adopts);
    assert FrameOk(s, c) && ObjectOk(s, s.calls[c].obj);
    assert forall u: Thread {:trigger OpOf(s', u)} :: OpOf(s', u) == OpOf(s, u);
    forall h | 0 <= h < |s'.handles| ensures HandleOk(s', h) {
      assert h < |s.handles| ==> HandleOk(s, h);
    }
    forall u: Thread ensures ThreadOk(s', u) {
      assert ThreadOk(s, u);
    }
  }

  predicate Adopts(r: Call, room: bool) {
    r.kind.Connect? && r.out.Got? && r.out.b.connection && room
  }

  lemma ReturnDeparts(s: State, c: nat, room: bool)
    requires Enabled(s, CallStep(c, Return(room)))
    ensures Next(s, CallStep(c, Return(room)))
            == Departed(s, c, AwNext(s.calls[c], Return(room)), Adopts(s.calls[c], room))
  {
  }

  lemma LeaveKeepsInv(s: State, c: nat, room: bool)
    requires Inv(s) && Enabled(s, CallStep(c, Return(room)))
    ensures Inv(Next(s, CallStep(c, Return(room))))
  {
    var r := s.calls[c];
    var r' := AwNext(r, Return(room));
    var adopts := Adopts(r, room);
    AwKeepsInv(r, Return(room));
    ReturnReturns(r, room);
    ReturnDeparts(s, c, room);
    DepartedFrames(s, c, r', adopts);
    DepartedObjects(s, c, r', adopts);
    DepartedHolders(s, c, r', adopts);
    DepartedThreads(s, c, r', adopts);
  }

  /** Every step keeps the invariant. */
  lemma StepKeepsInv(s: State, st: Step)
    requires Inv(s) && Enabled(s, st)
    ensures Inv(Next(s, st))
  {
    match st
    case Enter(o, kind) => EnterKeepsInv(s, o, kind);
    case ConstructWorker(w, k, coreRoom, room) => ConstructKeepsInv(s, w, k, coreRoom, room);
    case CallStep(c, aw) => if aw.Return? { LeaveKeepsInv(s, c, aw.room); } else { CallStepKeepsInv(s, c, aw); }
    case CoreStep(c, cb) => CoreStepKeepsInv(s, c, cb);
    case HandleStep(t) => HandleStepKeepsInv(s, t);
    case _ => ObjectStepKeepsInv(s, st);
  }
}

/** The whole bridge: any number of operations, core handles and Zend objects, one reactor
    thread, and as many core threads as there are operations in flight. */
module Bridge {
  import opened Results
  import opened CallMachine

  // ---------------------------------------------------------------------------
  // State
  // ---------------------------------------------------------------------------

  /** The threads of control: the coroutine awaiting operation `c`, the core callback of
      operation `c`, and the free_obj handler of object `o`. */
  datatype Thread = Coroutine(c: nat) | Core(c: nat) | Destructor(o: nat)

  /** What a handle reference belongs to. */
  datatype Holder = ByObject(o: nat) | ByCall(c: nat)

  /** temporal_php_handle_t. `mem` is the struct with its mutex. `owner`, `holders` and `closer`
      record which object it was made for, who was counted, and who saw the count reach zero; no
      step looks at them. */
  datatype Handle = Handle(lock: Option<Thread>, refcount: int, box: Cell, mem: Cell,
                           owner: nat, holders: set<Holder>, closer: Option<Thread>)

  datatype Class = ConnectionClass | WorkerClass

  /** A constructor runs once per object. */
  datatype Ctor = NotRun | RunBy(c: nat) | Ran

  datatype ObjPc = Alive | HandleRelease(st: Stage) | Unpinning | Dead

  /** A Core\Connection or Core\Worker. Its Zend refcount is the number of PHP references
      (`users`), of running methods (`frames`) and of workers built on it (`pins`). `holds` says
      whether the handle's refcount still counts the object. */
  datatype Object = Object(cls: Class, pc: ObjPc, ctor: Ctor, handle: Option<nat>, holds: bool, finalized: bool,
                           users: nat, frames: set<nat>, pins: set<nat>, conn: Option<nat>)

  /** `reactor`: whose code the single reactor thread is in the middle of. */
  datatype State = State(calls: seq<Call>, handles: seq<Handle>, objs: seq<Object>, reactor: Option<Thread>)

  const INITIAL := State([], [], [], None)

  function ZendRefcount(o: Object): nat {
    o.users + |o.frames| + |o.pins|
  }

  // ---------------------------------------------------------------------------
  // Handle operations
  // ---------------------------------------------------------------------------

  /** The addref or release a thread is in the middle of. */
  datatype HandleOp = NoOp | AddOp(h: nat, st: Stage) | RelOp(h: nat, st: Stage)

  function AwOp(c: Call): HandleOp {
    if c.handle.None? then NoOp
    else if c.aw.Before? && c.aw.prep.Addref? then AddOp(c.handle.value, c.aw.prep.st)
    else if c.aw.After? && c.aw.rest.Releasing? then RelOp(c.handle.value, c.aw.rest.st)
    else NoOp
  }

  function CbOp(c: Call): HandleOp {
    if c.handle.Some? && c.cb.Past? && c.cb.tail.CbReleasing? then RelOp(c.handle.value, c.cb.tail.st) else NoOp
  }

  function ObjOp(o: Object): HandleOp {
    if o.handle.Some? && o.pc.HandleRelease? then RelOp(o.handle.value, o.pc.st) else NoOp
  }

  function OpOf(s: State, t: Thread): HandleOp {
    match t
    case Coroutine(c) => if c < |s.calls| then AwOp(s.calls[c]) else NoOp
    case Core(c) => if c < |s.calls| then CbOp(s.calls[c]) else NoOp
    case Destructor(o) => if o < |s.objs| then ObjOp(s.objs[o]) else NoOp
  }

  function HolderOf(t: Thread): Holder {
    match t
    case Coroutine(c) => ByCall(c)
    case Core(c) => ByCall(c)
    case Destructor(o) => ByObject(o)
  }

  /** temporal_php_handle_addref and temporal_php_handle_release, one stage at a time. */
  function Advance(x: Handle, add: bool, st: Stage, t: Thread): Handle {
    match st
    case SLock => x.(lock := Some(t))
    case SOp =>
      if add then x.(refcount := x.refcount + 1, holders := x.holders + {HolderOf(t)})
      else x.(refcount := x.refcount - 1, holders := x.holders - {HolderOf(t)},
              closer := if x.refcount - 1 == 0 then Some(t) else x.closer)
    case SUnlock(_) => x.(lock := None)
    case SBox => x.(box := Freed)
    case SStruct => x.(mem := Freed)
    case SEnd => x
  }

  function AfterStage(x: Handle, add: bool, st: Stage): Stage {
    match st
    case SLock => SOp
    case SOp => SUnlock(!add && x.refcount - 1 == 0)
    case SUnlock(last) => if last then SBox else SEnd
    case SBox => SStruct
    case SStruct => SEnd
    case SEnd => SEnd
  }

  /** What a stage touches is allocated; the count is never raised from zero. */
  predicate StageSafe(x: Handle, add: bool, st: Stage, t: Thread) {
    match st
    case SLock => x.mem.Live?
    case SOp => x.mem.Live? && x.lock == Some(t) && x.refcount > 0
    case SUnlock(_) => x.mem.Live? && x.lock == Some(t)
    case SBox => x.mem.Live? && x.box.Live?
    case SStruct => x.mem.Live? && x.lock.None?
    case SEnd => true
  }

  /** The thread's program counter moves to stage `st`; an Op stage also changes what is counted. */
  function SetStage(s: State, t: Thread, st: Stage, counted: bool): State {
    match t
    case Coroutine(c) =>
      if c < |s.calls| then
        var r := s.calls[c];
        var aw := if r.aw.Before? then Before(Addref(st)) else After(Releasing(st));
        s.(calls := s.calls[c := r.(aw := aw, pins := counted)])
      else s
    case Core(c) =>
      if c < |s.calls| then s.(calls := s.calls[c := s.calls[c].(cb := Past(CbReleasing(st)), pins := counted)]) else s
    case Destructor(o) =>
      if o < |s.objs| then s.(objs := s.objs[o := s.objs[o].(pc := HandleRelease(st), holds := counted)]) else s
  }

  /** Whether the thread's holder is counted at present. */
  function Counted(s: State, t: Thread): bool {
    match t
    case Coroutine(c) => c < |s.calls| && s.calls[c].pins
    case Core(c) => c < |s.calls| && s.calls[c].pins
    case Destructor(o) => o < |s.objs| && s.objs[o].holds
  }

  // ---------------------------------------------------------------------------
  // Steps
  // ---------------------------------------------------------------------------

  datatype Step =
    // PHP code
    | NewObject(cls: Class)
    | AddUser(o: nat)
    | DropUser(o: nat)
    | Enter(o: nat, kind: Kind)                                   // a method that parks, or new Connection
    | ConstructWorker(w: nat, k: nat, coreRoom: bool, room: bool) // new Worker
    | SyncOp(o: nat)                                              // recordActivityHeartbeat, initiateShutdown
    // the extension, the core and the scheduler
    | CallStep(c: nat, aw: AwStep)
    | CoreStep(c: nat, cb: CbStep)
    | HandleStep(t: Thread)
    | BeginDestroy(o: nat)
    | EndRelease(o: nat)
    | EndDestroy(o: nat)

  /** PHP code that starts something new; everything else finishes what was started. */
  predicate Starts(st: Step) {
    st.NewObject? || st.AddUser? || st.Enter? || st.ConstructWorker? || st.SyncOp?
  }

  /** PHP can reach the object. */
  predicate Usable(s: State, o: nat) {
    o < |s.objs| && s.objs[o].pc.Alive? && ZendRefcount(s.objs[o]) > 0
  }

  /** TEMPORAL_REQUIRE_LIVE_WORKER, and the test in initiateShutdown. */
  predicate LiveWorker(x: Object) {
    x.cls.WorkerClass? && x.handle.Some? && !x.finalized
  }

  /** What the methods check before they begin a call. */
  predicate Admits(x: Object, kind: Kind) {
    match kind
    case Connect => x.cls.ConnectionClass? && x.ctor.NotRun?
    case Rpc => x.cls.ConnectionClass? && x.handle.Some?
    case _ => LiveWorker(x)
  }

  predicate MayRun(s: State, c: nat, st: AwStep) {
    if st.Cancel? then true
    else if st.Resume? then s.reactor.None?
    else s.reactor == Some(Coroutine(c))
  }

  predicate Enabled(s: State, st: Step) {
    match st
    case NewObject(_) => s.reactor.None?
    case AddUser(o) => s.reactor.None? && Usable(s, o)
    case DropUser(o) => s.reactor.None? && Usable(s, o) && s.objs[o].users > 0
    case Enter(o, kind) => s.reactor.None? && Usable(s, o) && Admits(s.objs[o], kind)
    case ConstructWorker(w, k, _, _) =>
      && s.reactor.None? && Usable(s, w) && Usable(s, k)
      && s.objs[w].cls.WorkerClass? && s.objs[w].ctor.NotRun?
      && s.objs[k].cls.ConnectionClass? && s.objs[k].handle.Some?
    case SyncOp(o) => s.reactor.None? && Usable(s, o) && LiveWorker(s.objs[o])
    case CallStep(c, aw) => c < |s.calls| && s.calls[c].obj < |s.objs| && MayRun(s, c, aw) && AwEnabled(s.calls[c], aw)
    case CoreStep(c, cb) => c < |s.calls| && CbEnabled(s.calls[c], cb)
    case HandleStep(t) =>
      var op := OpOf(s, t);
      && !op.NoOp? && op.h < |s.handles| && !op.st.SEnd?
      && (t.Core? || s.reactor == Some(t))
      && (op.st.SLock? ==> s.handles[op.h].lock.None?)
    case BeginDestroy(o) => s.reactor.None? && o < |s.objs| && s.objs[o].pc.Alive? && ZendRefcount(s.objs[o]) == 0
    case EndRelease(o) => o < |s.objs| && s.objs[o].pc == HandleRelease(SEnd)
    case EndDestroy(o) => o < |s.objs| && s.objs[o].pc.Unpinning?
  }

  /** temporal_php_handle_new. */
  function NewHandle(o: nat): Handle {
    Handle(None, 1, Live, Live, o, {ByObject(o)}, None)
  }

  /** The method of operation `c` returns: finalizeShutdown marks its worker, a constructor keeps
      its new handle, and the frame lets go of the object. */
  function Leave(s: State, c: nat, room: bool): State
    requires c < |s.calls| && s.calls[c].obj < |s.objs|
  {
    var r := s.calls[c];
    var x := s.objs[r.obj].(frames := s.objs[r.obj].frames - {c});
    var s' := s.(calls := s.calls[c := AwNext(r, Return(room))], reactor := None);
    if r.kind.Connect? && r.out.Got? && r.out.b.connection && room then
      s'.(objs := s.objs[r.obj := x.(handle := Some(|s.handles|), holds := true)],
          handles := s.handles + [NewHandle(r.obj)])
    else
      s'.(objs := s.objs[r.obj := x.(finalized := x.finalized || r.kind.Finalize?)])
  }

  function Next(s: State, st: Step): State
    requires Enabled(s, st)
  {
    match st
    case NewObject(cls) =>
      s.(objs := s.objs + [Object(cls, Alive, NotRun, None, false, false, 1, {}, {}, None)])
    case AddUser(o) => s.(objs := s.objs[o := s.objs[o].(users := s.objs[o].users + 1)])
    case DropUser(o) => s.(objs := s.objs[o := s.objs[o].(users := s.objs[o].users - 1)])
    case Enter(o, kind) =>
      var c := |s.calls|;
      var x := s.objs[o];
      s.(calls := s.calls + [Entered(kind, o, if kind.Connect? then None else x.handle)],
         objs := s.objs[o := x.(frames := x.frames + {c}, ctor := if kind.Connect? then RunBy(c) else x.ctor)],
         reactor := Some(Coroutine(c)))
    case ConstructWorker(w, k, coreRoom, room) =>
      var x := s.objs[w].(ctor := Ran);
      if coreRoom && room then
        s.(objs := s.objs[w := x.(handle := Some(|s.handles|), holds := true, conn := Some(k))]
                         [k := s.objs[k].(pins := s.objs[k].pins + {w})],
           handles := s.handles + [NewHandle(w)])
      else s.(objs := s.objs[w := x])
    case SyncOp(o) => s
    case CallStep(c, aw) =>
      if aw.Return? then Leave(s, c, aw.room)
      else s.(calls := s.calls[c := AwNext(s.calls[c], aw)],
              reactor := if aw.Resume? then Some(Coroutine(c)) else if aw.Suspend? then None else s.reactor)
    case CoreStep(c, cb) => s.(calls := s.calls[c := CbNext(s.calls[c], cb)])
    case HandleStep(t) =>
      var op := OpOf(s, t);
      var x := s.handles[op.h];
      SetStage(s, t, AfterStage(x, op.AddOp?, op.st), if op.st.SOp? then op.AddOp? else Counted(s, t))
      .(handles := s.handles[op.h := Advance(x, op.AddOp?, op.st, t)])
    case BeginDestroy(o) =>
      var x := s.objs[o];
      s.(objs := s.objs[o := x.(pc := if x.handle.Some? then HandleRelease(SLock) else Unpinning)],
         reactor := Some(Destructor(o)))
    case EndRelease(o) => s.(objs := s.objs[o := s.objs[o].(pc := Unpinning, handle := None)])
    case EndDestroy(o) =>
      var x := s.objs[o];
      var objs := s.objs[o := x.(pc := Dead, conn := None)];
      s.(objs := if x.conn.Some? && x.conn.value < |objs|
                 then objs[x.conn.value := objs[x.conn.value].(pins := objs[x.conn.value].pins - {o})] else objs,
         reactor := None)
  }

  /** The handle's struct and the core box behind it are allocated. */
  predicate BoxLive(s: State, h: Option<nat>) {
    h.Some? && h.value < |s.handles| && s.handles[h.value].mem.Live? && s.handles[h.value].box.Live?
  }

  /** Every location the step dereferences, locks or frees is allocated. */
  predicate Safe(s: State, st: Step) {
    match st
    case CallStep(c, aw) =>
      && c < |s.calls| && AwSafe(s.calls[c], aw)
      && (aw.Launch? && !s.calls[c].kind.Connect? ==> BoxLive(s, s.calls[c].handle))
    case CoreStep(c, cb) => c < |s.calls| && CbSafe(s.calls[c], cb)
    case HandleStep(t) =>
      var op := OpOf(s, t);
      !op.NoOp? && op.h < |s.handles| && StageSafe(s.handles[op.h], op.AddOp?, op.st, t)
    case ConstructWorker(_, k, _, _) => k < |s.objs| && BoxLive(s, s.objs[k].handle)
    case SyncOp(o) => o < |s.objs| && BoxLive(s, s.objs[o].handle)
    case _ => true
  }

  // ---------------------------------------------------------------------------
  // Runs
  // ---------------------------------------------------------------------------

  /** `states` is a run under `steps`, from any state. */
  ghost predicate Run(states: seq<State>, steps: seq<Step>) {
    && |states| == |steps| + 1
    && forall i {:trigger steps[i]} :: 0 <= i < |steps| ==>
         Enabled(states[i], steps[i]) && states[i + 1] == Next(states[i], steps[i])
  }

  /** A run from the empty process. */
  ghost predicate Behavior(states: seq<State>, steps: seq<Step>) {
    Run(states, steps) && states[0] == INITIAL
  }
}

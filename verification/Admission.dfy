/** When PHP is let in: what the constructors, rpcCall and the worker's methods ask of an object, in
    terms of what has happened to it so far in the run. */
module Admission {
  import opened Results
  import opened CallMachine
  import opened Bridge
  import opened BridgeInvariant
  import opened BridgeSafety
  import opened Provenance
  import opened WorkerLifecycle

  // ---------------------------------------------------------------------------
  // Constructors
  // ---------------------------------------------------------------------------

  /** The step runs the constructor of object `o`. */
  predicate Constructs(st: Step, o: nat) {
    (st.Enter? && st.o == o && st.kind.Connect?) || (st.ConstructWorker? && st.w == o)
  }

  /** The step builds worker `o`: the core made one, and there was memory for its handle. */
  predicate Builds(st: Step, o: nat) {
    st.ConstructWorker? && st.w == o && st.coreRoom && st.room
  }

  /** The adoption of a connection by the constructor of object `o`. */
  predicate Connects(s: State, st: Step, o: nat) {
    && st.CallStep? && st.aw.Return? && st.c < |s.calls| && s.calls[st.c].obj == o
    && s.calls[st.c].kind.Connect? && s.calls[st.c].out.Got? && s.calls[st.c].out.b.connection && st.aw.room
  }

  lemma StepConstructs(s: State, st: Step, o: nat)
    requires Enabled(s, st) && o < |s.objs|
    ensures o < |Next(s, st).objs| && Next(s, st).objs[o].cls == s.objs[o].cls
    ensures Next(s, st).objs[o].ctor.NotRun? <==> s.objs[o].ctor.NotRun? && !Constructs(st, o)
  {
  }

  /** An object gets a handle when it is built or connected, and loses it when it is destroyed. */
  lemma StepGivesHandle(s: State, st: Step, o: nat)
    requires BridgeInvariant.Inv(s) && Enabled(s, st) && o < |s.objs| && s.objs[o].pc.Alive?
    ensures o < |Next(s, st).objs|
    ensures Next(s, st).objs[o].pc.Alive? ==>
              (Next(s, st).objs[o].handle.Some? <==> s.objs[o].handle.Some? || Builds(st, o) || Connects(s, st, o))
  {
    if st.CallStep? && st.aw.Return? {
      ReturnDeparts(s, st.c, st.aw.room);
      assert FrameOk(s, st.c);
    }
  }

  lemma AliveBefore(s: State, st: Step, o: nat)
    requires Enabled(s, st) && o < |s.objs| && o < |Next(s, st).objs| && Next(s, st).objs[o].pc.Alive?
    ensures s.objs[o].pc.Alive?
  {
  }

  lemma NewObjectIsBare(s: State, st: Step, o: nat)
    requires BridgeInvariant.Inv(s) && Enabled(s, st) && |s.objs| <= o < |Next(s, st).objs|
    ensures Next(s, st).objs[o].ctor.NotRun? && Next(s, st).objs[o].handle.None? && !Constructs(st, o)
    ensures !Builds(st, o) && !Connects(s, st, o)
  {
  }

  lemma RunConstructs(states: seq<State>, steps: seq<Step>, i: nat, o: nat)
    requires Run(states, steps) && i < |steps| && o < |states[i].objs|
    ensures o < |states[i + 1].objs| && states[i + 1].objs[o].cls == states[i].objs[o].cls
    ensures states[i + 1].objs[o].ctor.NotRun? <==> states[i].objs[o].ctor.NotRun? && !Constructs(steps[i], o)
  {
    StepConstructs(states[i], steps[i], o);
  }

  lemma RunNewObject(states: seq<State>, steps: seq<Step>, i: nat, o: nat)
    requires Behavior(states, steps) && i < |steps| && |states[i].objs| <= o < |states[i + 1].objs|
    ensures states[i + 1].objs[o].ctor.NotRun? && states[i + 1].objs[o].handle.None? && !Constructs(steps[i], o)
    ensures !Builds(steps[i], o) && !Connects(states[i], steps[i], o)
  {
    InitialInv();
    RunKeepsInv(states, steps, i);
    NewObjectIsBare(states[i], steps[i], o);
  }

  lemma RunGivesHandle(states: seq<State>, steps: seq<Step>, i: nat, o: nat)
    requires Behavior(states, steps) && i < |steps| && o < |states[i].objs|
    ensures o < |states[i + 1].objs|
    ensures states[i + 1].objs[o].pc.Alive? ==>
              && states[i].objs[o].pc.Alive?
              && (states[i + 1].objs[o].handle.Some? <==>
                    states[i].objs[o].handle.Some? || Builds(steps[i], o) || Connects(states[i], steps[i], o))
  {
    InitialInv();
    RunKeepsInv(states, steps, i);
    StepConstructs(states[i], steps[i], o);
    if states[i + 1].objs[o].pc.Alive? {
      AliveBefore(states[i], steps[i], o);
      StepGivesHandle(states[i], steps[i], o);
    }
  }

  /** The constructor of `o` has been run. */
  predicate HasRun(steps: seq<Step>, n: nat, o: nat)
    requires n <= |steps|
  {
    exists i :: 0 <= i < n && Constructs(steps[i], o)
  }

  /** Object `o` was built on a core worker, or has adopted a core connection. */
  ghost predicate Established(states: seq<State>, steps: seq<Step>, n: nat, o: nat)
    requires n <= |steps| < |states|
  {
    exists i {:trigger steps[i]} :: 0 <= i < n && (Builds(steps[i], o) || Connects(states[i], steps[i], o))
  }

  lemma ObjectsStay(states: seq<State>, steps: seq<Step>, i: nat, o: nat)
    requires Behavior(states, steps) && i < |steps| && (Constructs(steps[i], o) || Connects(states[i], steps[i], o))
    ensures o < |states[i].objs|
  {
    InitialInv();
    RunKeepsInv(states, steps, i);
    assert Enabled(states[i], steps[i]);
    if steps[i].CallStep? {
      assert FrameOk(states[i], steps[i].c);
    }
  }

  lemma {:induction false} ObjectsGrow(states: seq<State>, steps: seq<Step>, i: nat, j: nat)
    requires Run(states, steps) && i <= j < |states|
    ensures |states[i].objs| <= |states[j].objs|
  {
    if i < j {
      ObjectsGrow(states, steps, i, j - 1);
      OneMoreObject(states, steps, j - 1);
    }
  }

  lemma OneMoreObject(states: seq<State>, steps: seq<Step>, i: nat)
    requires Run(states, steps) && i < |steps|
    ensures |states[i].objs| <= |states[i + 1].objs|
  {
    assert Enabled(states[i], steps[i]);
  }

  lemma NothingBefore(states: seq<State>, steps: seq<Step>, n: nat, o: nat)
    requires Behavior(states, steps) && n <= |steps| && |states[n].objs| <= o
    ensures !HasRun(steps, n, o) && !Established(states, steps, n, o)
  {
    forall i | 0 <= i < n
      ensures !Constructs(steps[i], o) && !Builds(steps[i], o) && !Connects(states[i], steps[i], o)
    {
      if Constructs(steps[i], o) || Connects(states[i], steps[i], o) {
        ObjectsStay(states, steps, i, o);
        ObjectsGrow(states, steps, i, n);
      }
    }
  }

  lemma {:induction false} CtorIsHistory(states: seq<State>, steps: seq<Step>, n: nat, o: nat)
    requires Behavior(states, steps) && n < |states| && o < |states[n].objs|
    ensures states[n].objs[o].ctor.NotRun? <==> !HasRun(steps, n, o)
  {
    assert n > 0;
    if o < |states[n - 1].objs| {
      CtorIsHistory(states, steps, n - 1, o);
      RunConstructs(states, steps, n - 1, o);
    } else {
      NothingBefore(states, steps, n - 1, o);
      RunNewObject(states, steps, n - 1, o);
    }
  }

  lemma {:induction false} HandleIsHistory(states: seq<State>, steps: seq<Step>, n: nat, o: nat)
    requires Behavior(states, steps) && n < |states| && o < |states[n].objs| && states[n].objs[o].pc.Alive?
    ensures states[n].objs[o].handle.Some? <==> Established(states, steps, n, o)
  {
    assert n > 0;
    if o < |states[n - 1].objs| {
      RunGivesHandle(states, steps, n - 1, o);
      HandleIsHistory(states, steps, n - 1, o);
    } else {
      NothingBefore(states, steps, n - 1, o);
      RunNewObject(states, steps, n - 1, o);
    }
  }

  // ---------------------------------------------------------------------------
  // The guards
  // ---------------------------------------------------------------------------

  /** Who may begin what, from the history alone: a Connection may connect once and make calls once it
      is connected; a Worker may do anything once it is built, until a finalizeShutdown on it returns. */
  lemma AdmittedExactly(states: seq<State>, steps: seq<Step>, n: nat, o: nat, kind: Kind)
    requires Behavior(states, steps) && n < |states| && Usable(states[n], o) && states[n].reactor.None?
    ensures Enabled(states[n], Enter(o, kind)) <==>
            match kind
            case Connect => states[n].objs[o].cls.ConnectionClass? && !HasRun(steps, n, o)
            case Rpc => states[n].objs[o].cls.ConnectionClass? && Established(states, steps, n, o)
            case _ =>
              && states[n].objs[o].cls.WorkerClass? && Established(states, steps, n, o)
              && !FinalizeReturned(states[n], o)
    ensures Enabled(states[n], SyncOp(o)) <==>
            && states[n].objs[o].cls.WorkerClass? && Established(states, steps, n, o)
            && !FinalizeReturned(states[n], o)
  {
    CtorIsHistory(states, steps, n, o);
    HandleIsHistory(states, steps, n, o);
    GuardAlways(states, steps, n);
  }

  /** ... and a Worker may be constructed once, on a Connection that is connected. */
  lemma ConstructedExactly(states: seq<State>, steps: seq<Step>, n: nat, w: nat, k: nat, coreRoom: bool, room: bool)
    requires Behavior(states, steps) && n < |states| && states[n].reactor.None?
    requires Usable(states[n], w) && Usable(states[n], k)
    ensures Enabled(states[n], ConstructWorker(w, k, coreRoom, room)) <==>
            && states[n].objs[w].cls.WorkerClass? && !HasRun(steps, n, w)
            && states[n].objs[k].cls.ConnectionClass? && Established(states, steps, n, k)
  {
    CtorIsHistory(states, steps, n, w);
    HandleIsHistory(states, steps, n, k);
  }

  // ---------------------------------------------------------------------------
  // What keeps an object alive
  // ---------------------------------------------------------------------------

  /** The PHP references to object `o` that the step adds or drops. */
  function Delta(st: Step, o: nat): int {
    if st == AddUser(o) then 1 else if st == DropUser(o) then -1 else 0
  }

  function References(steps: seq<Step>, n: nat, o: nat): int
    requires n <= |steps|
  {
    if n == 0 then 0 else References(steps, n - 1, o) + Delta(steps[n - 1], o)
  }

  lemma StepCountsUsers(s: State, st: Step, o: nat)
    requires Enabled(s, st)
    ensures o < |s.objs| ==> o < |Next(s, st).objs| && Next(s, st).objs[o].users == s.objs[o].users + Delta(st, o)
    ensures |s.objs| <= o < |Next(s, st).objs| ==> Next(s, st).objs[o].users == 1
    ensures |s.objs| <= o ==> Delta(st, o) == 0
  {
  }

  lemma RunCountsUsers(states: seq<State>, steps: seq<Step>, i: nat, o: nat)
    requires Run(states, steps) && i < |steps|
    ensures o < |states[i].objs| ==>
              o < |states[i + 1].objs| && states[i + 1].objs[o].users == states[i].objs[o].users + Delta(steps[i], o)
    ensures |states[i].objs| <= o < |states[i + 1].objs| ==> states[i + 1].objs[o].users == 1
    ensures |states[i].objs| <= o ==> Delta(steps[i], o) == 0
  {
    StepCountsUsers(states[i], steps[i], o);
  }

  predicate UsersCounted(states: seq<State>, steps: seq<Step>, n: nat, o: nat)
    requires n <= |steps| < |states|
  {
    if o < |states[n].objs| then states[n].objs[o].users == 1 + References(steps, n, o)
    else References(steps, n, o) == 0
  }

  lemma RunKeepsCount(states: seq<State>, steps: seq<Step>, n: nat, o: nat)
    requires Run(states, steps) && n < |steps| && UsersCounted(states, steps, n, o)
    ensures UsersCounted(states, steps, n + 1, o)
  {
    RunCountsUsers(states, steps, n, o);
  }

  /** PHP's references to an object are the one it was made with, those added and not those dropped. */
  lemma {:induction false} UsersAreReferences(states: seq<State>, steps: seq<Step>, n: nat, o: nat)
    requires Behavior(states, steps) && n < |states|
    ensures UsersCounted(states, steps, n, o)
  {
    if n > 0 {
      UsersAreReferences(states, steps, n - 1, o);
      RunKeepsCount(states, steps, n - 1, o);
    }
  }

  lemma StepKeepsConnection(s: State, st: Step, w: nat)
    requires Enabled(s, st) && w < |Next(s, st).objs| && Next(s, st).objs[w].conn.Some?
    ensures w < |s.objs|
    ensures || Next(s, st).objs[w].conn == s.objs[w].conn
            || (Builds(st, w) && Next(s, st).objs[w].conn == Some(st.k))
  {
  }

  lemma RunKeepsConnection(states: seq<State>, steps: seq<Step>, i: nat, w: nat)
    requires Run(states, steps) && i < |steps| && w < |states[i + 1].objs| && states[i + 1].objs[w].conn.Some?
    ensures w < |states[i].objs|
    ensures || states[i + 1].objs[w].conn == states[i].objs[w].conn
            || (Builds(steps[i], w) && states[i + 1].objs[w].conn == Some(steps[i].k))
  {
    StepKeepsConnection(states[i], steps[i], w);
  }

  lemma {:induction false} WasBuiltOn(states: seq<State>, steps: seq<Step>, n: nat, w: nat) returns (i: nat)
    requires Behavior(states, steps) && n < |states| && w < |states[n].objs| && states[n].objs[w].conn.Some?
    ensures i < n && Builds(steps[i], w) && states[n].objs[w].conn == Some(steps[i].k)
  {
    assert n > 0;
    RunKeepsConnection(states, steps, n - 1, w);
    if Builds(steps[n - 1], w) && states[n].objs[w].conn == Some(steps[n - 1].k) {
      i := n - 1;
    } else {
      i := WasBuiltOn(states, steps, n - 1, w);
    }
  }

  /** The connection that a worker keeps alive, until its core worker is released, is the one its
      constructor was given. */
  lemma KeepsItsConnection(states: seq<State>, steps: seq<Step>, n: nat, w: nat) returns (i: nat)
    requires Behavior(states, steps) && n < |states| && w < |states[n].objs|
    requires states[n].objs[w].cls.WorkerClass? && states[n].objs[w].handle.Some?
    ensures i < n && Builds(steps[i], w) && steps[i].k < |states[n].objs|
    ensures var k := steps[i].k;
            && states[n].objs[k].pc.Alive? && ZendRefcount(states[n].objs[k]) > 0
            && BoxLive(states[n], states[n].objs[k].handle)
  {
    InitialInv();
    RunKeepsInv(states, steps, n);
    WorkerPinsConnection(states[n], w);
    i := WasBuiltOn(states, steps, n, w);
  }
}

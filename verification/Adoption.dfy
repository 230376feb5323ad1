/** Connections that a constructor adopted, and the handles they went into, over whole runs. */
module Adoption {
  import opened Results
  import opened CallMachine
  import CallTheorems
  import opened Bridge
  import opened BridgeInvariant
  import opened BridgeSafety

  predicate HasAdopted(r: Call) {
    r.pay.connection.Adopted?
  }

  /** Handle `h` is the one the constructor that ran as call `c` put its connection into. */
  predicate MadeBy(s: State, h: nat, c: nat) {
    && h < |s.handles| && s.handles[h].owner < |s.objs| && c < |s.calls|
    && s.objs[s.handles[h].owner].cls.ConnectionClass?
    && s.objs[s.handles[h].owner].ctor == RunBy(c) && s.calls[c].obj == s.handles[h].owner && HasAdopted(s.calls[c])
  }

  /** Handles belong to constructed objects, one each; those of connection objects and the adopted
      connections correspond one to one. */
  ghost predicate Accounted(s: State) {
    && (forall h :: 0 <= h < |s.handles| ==> s.handles[h].owner < |s.objs| && !s.objs[s.handles[h].owner].ctor.NotRun?)
    && (forall h, g ::
          0 <= h < |s.handles| && 0 <= g < |s.handles| && s.handles[h].owner == s.handles[g].owner ==> h == g)
    && (forall h :: 0 <= h < |s.handles| && s.objs[s.handles[h].owner].cls.ConnectionClass? ==>
          s.objs[s.handles[h].owner].ctor.RunBy? && MadeBy(s, h, s.objs[s.handles[h].owner].ctor.c))
    && (forall c :: 0 <= c < |s.calls| && HasAdopted(s.calls[c]) ==> exists h :: MadeBy(s, h, c))
  }

  /** An adoption is the end of a constructor that was not unwound. */
  lemma AdoptedIsOver(r: Call)
    requires CallMachine.Inv(r) && HasAdopted(r)
    ensures r.kind.Connect? && r.aw == After(Finished) && r.cb.Past? && !r.k.orphan
  {
    match r.cb
    case Idle =>
    case Due(owed) => match owed { case Pending => case Copying => case CbLocking => case Delivering => }
    case Past(_) =>
  }

  lemma AwKeepsAdoption(r: Call, st: AwStep)
    requires CallMachine.Inv(r) && AwEnabled(r, st) && !st.Return?
    ensures HasAdopted(AwNext(r, st)) == HasAdopted(r) && AwNext(r, st).obj == r.obj
  {
    if HasAdopted(r) {
      AdoptedIsOver(r);
    }
  }

  lemma CbKeepsAdoption(r: Call, st: CbStep)
    requires CallMachine.Inv(r) && CbEnabled(r, st)
    ensures HasAdopted(CbNext(r, st)) == HasAdopted(r) && CbNext(r, st).obj == r.obj
  {
    if HasAdopted(r) {
      AdoptedIsOver(r);
    }
  }

  /** A return adopts exactly when it leaves a new handle behind. */
  lemma ReturnAdopts(r: Call, room: bool)
    requires CallMachine.Inv(r) && AwEnabled(r, Return(room))
    ensures !HasAdopted(r) && (HasAdopted(AwNext(r, Return(room))) <==> Adopts(r, room))
  {
    if HasAdopted(r) {
      AdoptedIsOver(r);
    }
  }

  /** What the correspondence depends on. */
  predicate SameCalls(s: State, s': State) {
    && |s.calls| <= |s'.calls|
    && (forall c :: 0 <= c < |s.calls| ==>
          s'.calls[c].obj == s.calls[c].obj && HasAdopted(s'.calls[c]) == HasAdopted(s.calls[c]))
    && (forall c :: |s.calls| <= c < |s'.calls| ==> !HasAdopted(s'.calls[c]))
  }

  predicate SameObjects(s: State, s': State) {
    && |s.objs| <= |s'.objs| && |s.handles| == |s'.handles|
    && (forall o :: 0 <= o < |s.objs| ==>
          s'.objs[o].cls == s.objs[o].cls && (s'.objs[o].ctor == s.objs[o].ctor || s.objs[o].ctor.NotRun?))
    && (forall h :: 0 <= h < |s.handles| ==> s'.handles[h].owner == s.handles[h].owner)
  }

  /** A step that neither returns nor builds a worker. */
  predicate Plain(st: Step) {
    !(st.CallStep? && st.aw.Return?) && !st.ConstructWorker?
  }

  lemma PlainKeepsCalls(s: State, st: Step)
    requires CallsOk(s) && Enabled(s, st) && Plain(st)
    ensures SameCalls(s, Next(s, st))
  {
    match st
    case CallStep(c, aw) => AwKeepsAdoption(s.calls[c], aw);
    case CoreStep(c, cb) => CbKeepsAdoption(s.calls[c], cb);
    case _ =>
  }

  lemma PlainKeepsObjects(s: State, st: Step)
    requires Enabled(s, st) && Plain(st)
    ensures SameObjects(s, Next(s, st))
  {
  }

  lemma PlainKeepsAccounts(s: State, s': State)
    requires Accounted(s) && SameCalls(s, s') && SameObjects(s, s')
    ensures Accounted(s')
  {
    forall c | 0 <= c < |s'.calls| && HasAdopted(s'.calls[c]) ensures exists h :: MadeBy(s', h, c) {
      var h :| MadeBy(s, h, c);
      assert MadeBy(s', h, c);
    }
    forall h | 0 <= h < |s'.handles| && s'.objs[s'.handles[h].owner].cls.ConnectionClass?
      ensures s'.objs[s'.handles[h].owner].ctor.RunBy? && MadeBy(s', h, s'.objs[s'.handles[h].owner].ctor.c)
    {
      assert MadeBy(s, h, s.objs[s.handles[h].owner].ctor.c);
    }
  }

  lemma ConstructKeepsAccounts(s: State, w: nat, k: nat, coreRoom: bool, room: bool)
    requires Accounted(s) && Enabled(s, ConstructWorker(w, k, coreRoom, room))
    ensures Accounted(Next(s, ConstructWorker(w, k, coreRoom, room)))
  {
    var s' := Next(s, ConstructWorker(w, k, coreRoom, room));
    forall c | 0 <= c < |s'.calls| && HasAdopted(s'.calls[c]) ensures exists h :: MadeBy(s', h, c) {
      var h :| MadeBy(s, h, c);
      assert MadeBy(s', h, c);
    }
    forall h | 0 <= h < |s'.handles| && s'.objs[s'.handles[h].owner].cls.ConnectionClass?
      ensures s'.objs[s'.handles[h].owner].ctor.RunBy? && MadeBy(s', h, s'.objs[s'.handles[h].owner].ctor.c)
    {
      assert MadeBy(s, h, s.objs[s.handles[h].owner].ctor.c);
    }
  }

  lemma ReturnKeepsAccounts(s: State, c: nat, room: bool)
    requires CallsOk(s) && FramesOk(s) && Accounted(s) && Enabled(s, CallStep(c, Return(room)))
    ensures Accounted(Next(s, CallStep(c, Return(room))))
  {
    var r := s.calls[c];
    var r' := AwNext(r, Return(room));
    ReturnDeparts(s, c, room);
    ReturnReturns(r, room);
    ReturnAdopts(r, room);
    DepartedKeepsAccounts(s, c, r', Adopts(r, room));
  }

  lemma DepartedKeepsAccounts(s: State, c: nat, r': Call, adopts: bool)
    requires Accounted(s) && FramesOk(s) && c < |s.calls| && s.calls[c].obj < |s.objs| && r'.obj == s.calls[c].obj
    requires ActiveFrame(s.calls[c]) && !HasAdopted(s.calls[c])
    requires HasAdopted(r') == adopts && (adopts ==> s.calls[c].kind.Connect?)
    ensures Accounted(Departed(s, c, r', adopts))
  {
    var s' := Departed(s, c, r', adopts);
    var o := s.calls[c].obj;
    assert FrameOk(s, c);
    if adopts {
      forall h | 0 <= h < |s.handles| ensures s.handles[h].owner != o {
        assert s.handles[h].owner == o ==> MadeBy(s, h, c);
      }
      assert MadeBy(s', |s.handles|, c);
    }
    forall d | 0 <= d < |s'.calls| && HasAdopted(s'.calls[d]) ensures exists h :: MadeBy(s', h, d) {
      if d != c {
        var h :| MadeBy(s, h, d);
        assert MadeBy(s', h, d);
      }
    }
    forall h | 0 <= h < |s'.handles| && s'.objs[s'.handles[h].owner].cls.ConnectionClass?
      ensures s'.objs[s'.handles[h].owner].ctor.RunBy? && MadeBy(s', h, s'.objs[s'.handles[h].owner].ctor.c)
    {
      if h < |s.handles| {
        assert MadeBy(s, h, s.objs[s.handles[h].owner].ctor.c);
      }
    }
  }

  lemma StepKeepsAccounts(s: State, st: Step)
    requires BridgeInvariant.Inv(s) && Accounted(s) && Enabled(s, st)
    ensures Accounted(Next(s, st))
  {
    if st.ConstructWorker? {
      ConstructKeepsAccounts(s, st.w, st.k, st.coreRoom, st.room);
    } else if !Plain(st) {
      ReturnKeepsAccounts(s, st.c, st.aw.room);
    } else {
      PlainKeepsCalls(s, st);
      PlainKeepsObjects(s, st);
      PlainKeepsAccounts(s, Next(s, st));
    }
  }

  lemma RunKeepsAccounts(states: seq<State>, steps: seq<Step>, i: nat)
    requires Behavior(states, steps) && i < |steps| && Accounted(states[i])
    ensures Accounted(states[i + 1])
  {
    InitialInv();
    RunKeepsInv(states, steps, i);
    StepKeepsAccounts(states[i], steps[i]);
  }

  /** In every state of every run, the core connections that left a result bundle by adoption and the
      handles of connection objects are the same: each was adopted into exactly one handle, and no
      handle of a connection object came from anywhere else. */
  lemma {:induction false} AdoptedOnce(states: seq<State>, steps: seq<Step>, i: nat)
    requires Behavior(states, steps) && i < |states|
    ensures Accounted(states[i])
  {
    if i > 0 {
      AdoptedOnce(states, steps, i - 1);
      RunKeepsAccounts(states, steps, i - 1);
    }
  }

  /** Conservation from end to end, in every run: once both parties of an operation are done, the
      core's failure buffers are freed, every resource its callback was given is freed, and the one
      exception, a connection, is in a handle of the object whose constructor asked for it. */
  lemma Conservation(states: seq<State>, steps: seq<Step>, i: nat, c: nat)
    requires Behavior(states, steps) && i < |states| && c < |states[i].calls|
    requires states[i].calls[c].aw == After(Finished) && states[i].calls[c].cb == Past(CbFinished)
    ensures var r := states[i].calls[c];
            && Settled(r.pay, r.k.bundle)
            && r.led.coreFail == As(AnswerOf(r).fail.Some?, Freed)
            && r.led.coreDetails == As(AnswerOf(r).details.Some?, Freed)
            && (HasAdopted(r) <==> exists h :: MadeBy(states[i], h, c))
  {
    InitialInv();
    RunKeepsInv(states, steps, i);
    CallTheorems.BundleIsSettled(states[i].calls[c]);
    AdoptedOnce(states, steps, i);
  }
}

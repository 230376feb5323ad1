/** The bridge refines a synchronous call: an operation is answered once, and the method that
    made it then returns exactly that answer once, or is unwound, whatever else goes on. */
module BridgeRefinement {
  import opened Results
  import opened CallMachine
  import opened Bridge
  import opened BridgeInvariant
  import opened BridgeSafety

  // ---------------------------------------------------------------------------
  // The specification
  // ---------------------------------------------------------------------------

  /** A call as its caller sees it: what the callback delivered, and how the call ended. */
  datatype SpecCall = SpecCall(kind: Kind, answer: Option<Bundle>, out: Outcome)

  predicate Answers(x: SpecCall, y: SpecCall) {
    x.answer.None? && y == x.(answer := y.answer) && y.answer.Some? && Tidy(x.kind, y.answer.value)
  }

  predicate Returns(x: SpecCall, y: SpecCall) {
    x.out.NoOutcome? && x.answer.Some? && y == x.(out := Got(x.answer.value))
  }

  predicate IsUnwound(x: SpecCall, y: SpecCall) {
    x.out.NoOutcome? && y == x.(out := Cancelled)
  }

  /** One step of the specification: a new call, or one call answered, returning, or unwound. */
  ghost predicate SpecNext(x: seq<SpecCall>, y: seq<SpecCall>) {
    || y == x
    || (|y| == |x| + 1 && y == x + [SpecCall(y[|x|].kind, None, NoOutcome)])
    || (exists c: nat ::
          && c < |x| && |y| == |x| && y == x[c := y[c]]
          && (Answers(x[c], y[c]) || Returns(x[c], y[c]) || IsUnwound(x[c], y[c])))
  }

  // ---------------------------------------------------------------------------
  // The refinement mapping
  // ---------------------------------------------------------------------------

  predicate HasAnswer(c: Call) {
    c.cb == Due(CbLocking) || c.cb == Due(Delivering) || c.cb.Past?
  }

  function AbsCall(c: Call): SpecCall {
    SpecCall(c.kind, if HasAnswer(c) then Some(c.k.bundle) else None, c.out)
  }

  function Abs(s: State): seq<SpecCall> {
    seq(|s.calls|, i requires 0 <= i < |s.calls| => AbsCall(s.calls[i]))
  }

  predicate SpecMove(x: SpecCall, y: SpecCall) {
    x == y || Answers(x, y) || Returns(x, y) || IsUnwound(x, y)
  }

  lemma AwRefines(c: Call, st: AwStep)
    requires CallMachine.Inv(c) && AwEnabled(c, st)
    ensures SpecMove(AbsCall(c), AbsCall(AwNext(c, st)))
  {
    if st.LaunchFails? {
      assert Answers(AbsCall(c), AbsCall(AwNext(c, st)));
    }
  }

  lemma CbRefines(c: Call, st: CbStep)
    requires CallMachine.Inv(c) && CbEnabled(c, st)
    ensures SpecMove(AbsCall(c), AbsCall(CbNext(c, st)))
  {
    if st.Copy? {
      ContractGivesTidy(c.kind, AnswerOf(c), st.failRoom, st.detailsRoom);
    }
  }

  lemma OneCallMoves(s: State, s': State, c: nat)
    requires c < |s.calls| && |s'.calls| == |s.calls| && s'.calls == s.calls[c := s'.calls[c]]
    requires SpecMove(AbsCall(s.calls[c]), AbsCall(s'.calls[c]))
    ensures SpecNext(Abs(s), Abs(s'))
  {
    assert Abs(s') == Abs(s)[c := Abs(s')[c]];
    if Abs(s')[c] == Abs(s)[c] {
      assert Abs(s') == Abs(s);
    }
  }

  /** A handle stage changes nothing the caller sees. */
  lemma StagesAreSilent(s: State, t: Thread, c: nat)
    requires Enabled(s, HandleStep(t)) && c < |s.calls|
    ensures var s' := Next(s, HandleStep(t)); |s'.calls| == |s.calls| && AbsCall(s'.calls[c]) == AbsCall(s.calls[c])
  {
  }

  lemma QuietStep(s: State, st: Step)
    requires Enabled(s, st) && !st.CallStep? && !st.CoreStep? && !st.Enter?
    ensures Abs(Next(s, st)) == Abs(s)
  {
    if st.HandleStep? {
      forall c | 0 <= c < |s.calls|
        ensures |Next(s, st).calls| == |s.calls| && AbsCall(Next(s, st).calls[c]) == AbsCall(s.calls[c])
      {
        StagesAreSilent(s, st.t, c);
      }
    }
  }

  /** Every step of the bridge is a step of the specification, or none. */
  lemma StepRefines(s: State, st: Step)
    requires CallsOk(s) && Enabled(s, st)
    ensures SpecNext(Abs(s), Abs(Next(s, st)))
  {
    match st
    case CallStep(c, aw) =>
      AwRefines(s.calls[c], aw);
      OneCallMoves(s, Next(s, st), c);
    case CoreStep(c, cb) =>
      CbRefines(s.calls[c], cb);
      OneCallMoves(s, Next(s, st), c);
    case Enter(o, kind) =>
      assert Abs(Next(s, st)) == Abs(s) + [SpecCall(kind, None, NoOutcome)];
    case _ => QuietStep(s, st);
  }

  /** Every run of the bridge is a run of the specification. */
  lemma RunRefines(states: seq<State>, steps: seq<Step>, i: nat)
    requires Behavior(states, steps) && i < |steps|
    ensures Abs(states[0]) == [] && SpecNext(Abs(states[i]), Abs(states[i + 1]))
  {
    InitialInv();
    RunKeepsInv(states, steps, i);
    StepRefines(states[i], steps[i]);
  }

  // ---------------------------------------------------------------------------
  // Where a returned value comes from
  // ---------------------------------------------------------------------------

  /** Step `i` gave operation `c` the bundle `b`: the shim copied the core's answer, or the shim
      could not set the operation up. */
  predicate Gives(s: State, st: Step, c: nat, b: Bundle) {
    c < |s.calls| &&
    (|| (st.CallStep? && st.c == c && st.aw.LaunchFails? && b == OutOfMemory(st.aw.message))
     || (st.CoreStep? && st.c == c && st.cb.Copy? &&
         b == Delivered(s.calls[c].kind, AnswerOf(s.calls[c]), st.cb.failRoom, st.cb.detailsRoom)))
  }

  lemma AwGives(c: Call, st: AwStep)
    requires AwEnabled(c, st) && HasAnswer(AwNext(c, st))
    ensures AwNext(c, st).k.bundle == (if st.LaunchFails? then OutOfMemory(st.message) else c.k.bundle)
    ensures st.LaunchFails? || HasAnswer(c)
  {
  }

  lemma CbGives(c: Call, st: CbStep)
    requires CbEnabled(c, st) && HasAnswer(CbNext(c, st))
    ensures CbNext(c, st).k.bundle
            == if st.Copy? then Delivered(c.kind, AnswerOf(c), st.failRoom, st.detailsRoom) else c.k.bundle
    ensures st.Copy? || HasAnswer(c)
  {
  }

  lemma StepGives(s: State, st: Step, c: nat)
    requires Enabled(s, st) && c < |Next(s, st).calls| && HasAnswer(Next(s, st).calls[c])
    ensures c < |s.calls|
    ensures || Gives(s, st, c, Next(s, st).calls[c].k.bundle)
            || (HasAnswer(s.calls[c]) && s.calls[c].k.bundle == Next(s, st).calls[c].k.bundle)
  {
    match st
    case CallStep(d, aw) => if c == d { AwGives(s.calls[c], aw); }
    case CoreStep(d, cb) => if c == d { CbGives(s.calls[c], cb); }
    case HandleStep(t) => StageGives(s, t, c);
    case _ =>
  }

  lemma StageGives(s: State, t: Thread, c: nat)
    requires Enabled(s, HandleStep(t)) && c < |Next(s, HandleStep(t)).calls|
    ensures c < |s.calls| && Next(s, HandleStep(t)).calls[c].k == s.calls[c].k
    ensures HasAnswer(Next(s, HandleStep(t)).calls[c]) <==> HasAnswer(s.calls[c])
  {
  }

  lemma {:induction false} AnswerWasGiven(states: seq<State>, steps: seq<Step>, n: nat, c: nat) returns (i: nat)
    requires Behavior(states, steps) && n < |states| && c < |states[n].calls| && HasAnswer(states[n].calls[c])
    ensures i < n && Gives(states[i], steps[i], c, states[n].calls[c].k.bundle)
  {
    assert n > 0;
    var s, st := states[n - 1], steps[n - 1];
    assert Enabled(s, st) && states[n] == Next(s, st);
    StepGives(s, st, c);
    if Gives(s, st, c, states[n].calls[c].k.bundle) {
      i := n - 1;
    } else {
      i := AnswerWasGiven(states, steps, n - 1, c);
    }
  }

  // ---------------------------------------------------------------------------
  // One delivery per call
  // ---------------------------------------------------------------------------

  lemma AwPastStays(c: Call, st: AwStep)
    requires CallMachine.Inv(c) && AwEnabled(c, st) && c.cb.Past?
    ensures AwNext(c, st).cb == c.cb
  {
  }

  lemma CbPastStays(c: Call, st: CbStep)
    requires CbEnabled(c, st) && (c.cb.Past? || st.Delivers?)
    ensures CbNext(c, st).cb.Past?
  {
  }

  lemma PastStays(s: State, st: Step, c: nat)
    requires CallsOk(s) && Enabled(s, st) && c < |s.calls|
    requires s.calls[c].cb.Past? || st == CoreStep(c, Delivers)
    ensures c < |Next(s, st).calls| && Next(s, st).calls[c].cb.Past?
  {
    match st
    case CallStep(d, aw) => if c == d { AwPastStays(s.calls[c], aw); }
    case CoreStep(d, cb) => if c == d { CbPastStays(s.calls[c], cb); }
    case _ =>
  }

  lemma PastForAStep(states: seq<State>, steps: seq<Step>, i: nat, c: nat)
    requires Behavior(states, steps) && i < |steps| && c < |states[i].calls| && states[i].calls[c].cb.Past?
    ensures c < |states[i + 1].calls| && states[i + 1].calls[c].cb.Past?
  {
    InitialInv();
    RunKeepsInv(states, steps, i);
    PastStays(states[i], steps[i], c);
  }

  lemma {:induction false} PastForGood(states: seq<State>, steps: seq<Step>, i: nat, j: nat, c: nat)
    requires Behavior(states, steps) && i <= j < |states| && c < |states[i].calls| && states[i].calls[c].cb.Past?
    ensures c < |states[j].calls| && states[j].calls[c].cb.Past?
  {
    if i < j {
      PastForGood(states, steps, i, j - 1, c);
      PastForAStep(states, steps, j - 1, c);
    }
  }

  /** Over a whole run, each call is delivered at most once. */
  lemma DeliversOnce(states: seq<State>, steps: seq<Step>, i: nat, j: nat, c: nat)
    requires Behavior(states, steps) && i < |steps| && j < |steps|
    requires steps[i] == CoreStep(c, Delivers) && steps[j] == CoreStep(c, Delivers)
    ensures i == j
  {
    InitialInv();
    RunKeepsInv(states, steps, i);
    RunKeepsInv(states, steps, j);
    if i < j {
      PastStays(states[i], steps[i], c);
      PastForGood(states, steps, i + 1, j, c);
    } else if j < i {
      PastStays(states[j], steps[j], c);
      PastForGood(states, steps, j + 1, i, c);
    }
  }
}

/** From what a method returns back to what its caller asked for and what the core answered, step by
    step of the run. Nothing here speaks of what the bridge keeps in between. */
module Provenance {
  import opened CStrings
  import opened Results
  import opened CallMachine
  import opened Bridge
  import opened BridgeInvariant
  import opened BridgeSafety
  import opened BridgeRefinement
  import Adoption

  // ---------------------------------------------------------------------------
  // What was asked for
  // ---------------------------------------------------------------------------

  /** A call never changes what it is for. */
  predicate SameCall(r: Call, r': Call) {
    r'.kind == r.kind && r'.obj == r.obj && r'.handle == r.handle
  }

  lemma AwKeepsCall(r: Call, st: AwStep)
    requires AwEnabled(r, st)
    ensures SameCall(r, AwNext(r, st))
  {
  }

  lemma CbKeepsCall(r: Call, st: CbStep)
    requires CbEnabled(r, st)
    ensures SameCall(r, CbNext(r, st))
  {
  }

  lemma StageKeepsCall(s: State, t: Thread, c: nat)
    requires Enabled(s, HandleStep(t)) && c < |s.calls|
    ensures c < |Next(s, HandleStep(t)).calls| && SameCall(s.calls[c], Next(s, HandleStep(t)).calls[c])
  {
  }

  lemma StepKeepsCall(s: State, st: Step, c: nat)
    requires Enabled(s, st) && c < |s.calls|
    ensures c < |Next(s, st).calls| && SameCall(s.calls[c], Next(s, st).calls[c])
  {
    match st
    case CallStep(d, aw) => if c == d { AwKeepsCall(s.calls[c], aw); }
    case CoreStep(d, cb) => if c == d { CbKeepsCall(s.calls[c], cb); }
    case HandleStep(t) => StageKeepsCall(s, t, c);
    case _ =>
  }

  lemma RunKeepsCall(states: seq<State>, steps: seq<Step>, i: nat, c: nat)
    requires Run(states, steps) && i < |steps| && c < |states[i].calls|
    ensures c < |states[i + 1].calls| && SameCall(states[i].calls[c], states[i + 1].calls[c])
  {
    StepKeepsCall(states[i], steps[i], c);
  }

  lemma {:induction false} SameCallForGood(states: seq<State>, steps: seq<Step>, i: nat, j: nat, c: nat)
    requires Run(states, steps) && i <= j < |states| && c < |states[i].calls|
    ensures c < |states[j].calls| && SameCall(states[i].calls[c], states[j].calls[c])
  {
    if i < j {
      SameCallForGood(states, steps, i, j - 1, c);
      RunKeepsCall(states, steps, j - 1, c);
    }
  }

  /** Step `st` in state `s` is PHP entering the method that made call `r`. */
  predicate Asks(s: State, st: Step, r: Call) {
    && st.Enter? && st.o < |s.objs| && r.kind == st.kind && r.obj == st.o
    && r.handle == if st.kind.Connect? then None else s.objs[st.o].handle
  }

  lemma NewCallIsAsked(s: State, st: Step, c: nat)
    requires Enabled(s, st) && |s.calls| <= c < |Next(s, st).calls|
    ensures c == |s.calls| && Asks(s, st, Next(s, st).calls[c])
  {
  }

  lemma RunAsks(states: seq<State>, steps: seq<Step>, i: nat, c: nat)
    requires Run(states, steps) && i < |steps| && |states[i].calls| <= c < |states[i + 1].calls|
    ensures c == |states[i].calls| && Asks(states[i], steps[i], states[i + 1].calls[c])
  {
    NewCallIsAsked(states[i], steps[i], c);
  }

  /** Every call is one that PHP asked for: the kind it has, on the object it has, with the handle that
      object had. */
  lemma {:induction false} EveryCallWasAskedFor(states: seq<State>, steps: seq<Step>, n: nat, c: nat) returns (i: nat)
    requires Behavior(states, steps) && n < |states| && c < |states[n].calls|
    ensures i < n && |states[i].calls| == c && Asks(states[i], steps[i], states[n].calls[c])
  {
    assert n > 0;
    if c < |states[n - 1].calls| {
      i := EveryCallWasAskedFor(states, steps, n - 1, c);
      RunKeepsCall(states, steps, n - 1, c);
    } else {
      i := n - 1;
      RunAsks(states, steps, i, c);
    }
  }

  // ---------------------------------------------------------------------------
  // What was answered
  // ---------------------------------------------------------------------------

  /** The core calls back for operation `c` with answer `a`. */
  predicate Invokes(st: Step, c: nat, a: Answer) {
    st == CoreStep(c, Invoke(a))
  }

  lemma AwEntersCopying(c: Call, st: AwStep)
    requires AwEnabled(c, st) && AwNext(c, st).cb == Due(Copying)
    ensures c.cb == Due(Copying) && AwNext(c, st).k == c.k
  {
  }

  lemma CbEntersCopying(c: Call, st: CbStep)
    requires CbEnabled(c, st) && CbNext(c, st).cb == Due(Copying)
    ensures st.Invoke? && CbNext(c, st).k.answer == Some(st.a)
  {
  }

  lemma StepEntersCopying(s: State, st: Step, c: nat)
    requires Enabled(s, st) && c < |Next(s, st).calls| && Next(s, st).calls[c].cb == Due(Copying)
    ensures c < |s.calls|
    ensures || (st.CoreStep? && st.cb.Invoke? && Invokes(st, c, st.cb.a) &&
                Next(s, st).calls[c].k.answer == Some(st.cb.a))
            || (s.calls[c].cb == Due(Copying) && Next(s, st).calls[c].k == s.calls[c].k)
  {
    match st
    case CallStep(d, aw) => if c == d { AwEntersCopying(s.calls[c], aw); }
    case CoreStep(d, cb) => if c == d { CbEntersCopying(s.calls[c], cb); }
    case _ =>
  }

  lemma {:induction false} HasInvoked(states: seq<State>, steps: seq<Step>, n: nat, c: nat) returns (i: nat, a: Answer)
    requires Behavior(states, steps) && n < |states| && c < |states[n].calls| && states[n].calls[c].cb == Due(Copying)
    ensures i < n && Invokes(steps[i], c, a) && states[n].calls[c].k.answer == Some(a)
  {
    assert n > 0;
    var s, st := states[n - 1], steps[n - 1];
    assert Enabled(s, st) && states[n] == Next(s, st);
    StepEntersCopying(s, st, c);
    if st.CoreStep? && st.cb.Invoke? && Invokes(st, c, st.cb.a) {
      i, a := n - 1, st.cb.a;
    } else {
      i, a := HasInvoked(states, steps, n - 1, c);
    }
  }

  /** The core has answered, or never will. */
  predicate Answered(c: Call) {
    c.k.answer.Some? || HasAnswer(c)
  }

  lemma AwKeepsAnswer(c: Call, st: AwStep)
    requires CallMachine.Inv(c) && AwEnabled(c, st) && Answered(c)
    ensures Answered(AwNext(c, st)) && AwNext(c, st).k.answer == c.k.answer
  {
  }

  lemma CbKeepsAnswer(c: Call, st: CbStep)
    requires CallMachine.Inv(c) && CbEnabled(c, st) && Answered(c)
    ensures Answered(CbNext(c, st)) && CbNext(c, st).k.answer == c.k.answer
  {
  }

  lemma CallStepKeepsAnswer(s: State, c: nat, aw: AwStep)
    requires CallsOk(s) && Enabled(s, CallStep(c, aw)) && Answered(s.calls[c])
    ensures var r' := Next(s, CallStep(c, aw)).calls[c]; Answered(r') && r'.k.answer == s.calls[c].k.answer
  {
    assert Next(s, CallStep(c, aw)).calls[c] == AwNext(s.calls[c], aw);
    AwKeepsAnswer(s.calls[c], aw);
  }

  lemma StepKeepsAnswer(s: State, st: Step, c: nat)
    requires CallsOk(s) && Enabled(s, st) && c < |s.calls| && Answered(s.calls[c])
    ensures c < |Next(s, st).calls|
    ensures Answered(Next(s, st).calls[c]) && Next(s, st).calls[c].k.answer == s.calls[c].k.answer
  {
    match st
    case CallStep(d, aw) => if c == d { CallStepKeepsAnswer(s, c, aw); }
    case CoreStep(d, cb) => if c == d { CbKeepsAnswer(s.calls[c], cb); }
    case HandleStep(t) => StageGives(s, t, c);
    case _ =>
  }

  lemma RunKeepsAnswer(states: seq<State>, steps: seq<Step>, i: nat, c: nat)
    requires Behavior(states, steps) && i < |steps| && c < |states[i].calls| && Answered(states[i].calls[c])
    ensures c < |states[i + 1].calls|
    ensures Answered(states[i + 1].calls[c]) && states[i + 1].calls[c].k.answer == states[i].calls[c].k.answer
  {
    InitialInv();
    RunKeepsInv(states, steps, i);
    StepKeepsAnswer(states[i], steps[i], c);
  }

  lemma {:induction false} AnswerForGood(states: seq<State>, steps: seq<Step>, i: nat, j: nat, c: nat)
    requires Behavior(states, steps) && i <= j < |states| && c < |states[i].calls| && Answered(states[i].calls[c])
    ensures c < |states[j].calls|
    ensures Answered(states[j].calls[c]) && states[j].calls[c].k.answer == states[i].calls[c].k.answer
  {
    if i < j {
      AnswerForGood(states, steps, i, j - 1, c);
      RunKeepsAnswer(states, steps, j - 1, c);
    }
  }

  lemma NotLaunched(states: seq<State>, steps: seq<Step>, i: nat, c: nat, message: Option<Bytes>)
    requires Behavior(states, steps) && i < |steps| && steps[i] == CallStep(c, LaunchFails(message))
    ensures c < |states[i + 1].calls| && Answered(states[i + 1].calls[c]) && states[i + 1].calls[c].k.answer.None?
  {
    InitialInv();
    RunKeepsInv(states, steps, i);
    assert CallMachine.Inv(states[i].calls[c]);
  }

  /** How an operation came by its result. */
  datatype Origin =
    | FromCore(i: nat, j: nat, a: Answer, failRoom: bool, detailsRoom: bool)  // answered at i, copied at j
    | FromShim(i: nat, message: Option<Bytes>)                               // not set up, at i

  /** The steps say so, and `b` is what comes of it. */
  predicate Explains(steps: seq<Step>, n: nat, c: nat, kind: Kind, o: Origin, b: Bundle)
    requires n <= |steps|
  {
    match o
    case FromCore(i, j, a, failRoom, detailsRoom) =>
      && i < j < n && Invokes(steps[i], c, a) && steps[j] == CoreStep(c, Copy(failRoom, detailsRoom))
      && Contract(kind, a) && b == Delivered(kind, a, failRoom, detailsRoom)
    case FromShim(i, message) =>
      i < n && steps[i] == CallStep(c, LaunchFails(message)) && b == Bundle(false, None, false, 0, message, None)
  }

  lemma InvokedByContract(states: seq<State>, steps: seq<Step>, i: nat, c: nat, a: Answer)
    requires Run(states, steps) && i < |steps| && Invokes(steps[i], c, a)
    ensures c < |states[i].calls| && Contract(states[i].calls[c].kind, a)
  {
  }

  lemma CopiedFromAnswer(states: seq<State>, steps: seq<Step>, j: nat, c: nat) returns (i: nat, a: Answer)
    requires Behavior(states, steps) && j < |steps| && c < |states[j].calls|
    requires steps[j].CoreStep? && steps[j].c == c && steps[j].cb.Copy?
    ensures i < j && Invokes(steps[i], c, a) && states[j].calls[c].k.answer == Some(a)
  {
    assert Enabled(states[j], steps[j]);
    i, a := HasInvoked(states, steps, j, c);
  }

  /** What `done` was passed is what the operation was answered: the core's answer, as the core gave it
      at one step of the run and the shim copied it at a later one, or the shim's own message. */
  lemma PassedIsAnswered(states: seq<State>, steps: seq<Step>, n: nat, c: nat) returns (o: Origin)
    requires Behavior(states, steps) && n < |states| && c < |states[n].calls| && HasAnswer(states[n].calls[c])
    ensures Explains(steps, n, c, states[n].calls[c].kind, o, states[n].calls[c].k.bundle)
    ensures states[n].calls[c].k.answer == if o.FromCore? then Some(o.a) else None
  {
    var j := AnswerWasGiven(states, steps, n, c);
    SameCallForGood(states, steps, j, n, c);
    if steps[j].CallStep? {
      o := FromShim(j, steps[j].aw.message);
      NotLaunched(states, steps, j, c, o.message);
      AnswerForGood(states, steps, j + 1, n, c);
    } else {
      var i, a := CopiedFromAnswer(states, steps, j, c);
      InvokedByContract(states, steps, i, c, a);
      AnswerForGood(states, steps, j, n, c);
      SameCallForGood(states, steps, i, n, c);
      o := FromCore(i, j, a, steps[j].cb.failRoom, steps[j].cb.detailsRoom);
    }
  }

  /** A method that is not unwound returns what its own operation was answered. */
  lemma ReturnsItsOwnAnswer(states: seq<State>, steps: seq<Step>, n: nat, c: nat) returns (o: Origin)
    requires Behavior(states, steps) && n < |states| && c < |states[n].calls| && states[n].calls[c].out.Got?
    ensures Explains(steps, n, c, states[n].calls[c].kind, o, states[n].calls[c].out.b)
  {
    InitialInv();
    RunKeepsInv(states, steps, n);
    assert CallMachine.Inv(states[n].calls[c]);
    o := PassedIsAnswered(states, steps, n, c);
  }

  /** What becomes of the resources that an answer, or a failure of the shim, brought into the world. */
  predicate Released(r: Call, o: Origin, inHandle: bool) {
    match o
    case FromCore(_, _, a, failRoom, detailsRoom) =>
      && r.led.coreFail == As(a.fail.Some?, Freed) && r.led.coreDetails == As(a.details.Some?, Freed)
      && r.pay.owner == As(a.success.Some?, Freed)
      && r.pay.fail == As(a.fail.Some? && failRoom, Freed) && r.pay.details == As(a.details.Some? && detailsRoom, Freed)
      && r.pay.connection == (if !a.connection then Absent else if inHandle then Adopted else Freed)
    case FromShim(_, message) =>
      && r.led.coreFail.Absent? && r.led.coreDetails.Absent?
      && r.pay == Payload(Absent, Absent, As(message.Some?, Freed), Absent)
  }

  lemma SettledMeansReleased(r: Call, steps: seq<Step>, n: nat, c: nat, o: Origin, inHandle: bool)
    requires n <= |steps| && Explains(steps, n, c, r.kind, o, r.k.bundle)
    requires r.k.answer == if o.FromCore? then Some(o.a) else None
    requires r.led.coreFail == As(AnswerOf(r).fail.Some?, Freed)
    requires r.led.coreDetails == As(AnswerOf(r).details.Some?, Freed)
    requires Settled(r.pay, r.k.bundle) && (r.pay.connection.Adopted? <==> inHandle)
    ensures Released(r, o, inHandle)
  {
  }

  /** Conservation from the core to the end, in every run: when both parties of an operation are done,
      whatever the core handed its callback, and every copy made of that, has been freed, but for a
      connection that is in the handle its constructor made. */
  lemma AnswerIsReleased(states: seq<State>, steps: seq<Step>, n: nat, c: nat) returns (o: Origin)
    requires Behavior(states, steps) && n < |states| && c < |states[n].calls|
    requires states[n].calls[c].aw == After(Finished) && states[n].calls[c].cb == Past(CbFinished)
    ensures Explains(steps, n, c, states[n].calls[c].kind, o, states[n].calls[c].k.bundle)
    ensures Released(states[n].calls[c], o, exists h :: Adoption.MadeBy(states[n], h, c))
  {
    o := PassedIsAnswered(states, steps, n, c);
    Adoption.Conservation(states, steps, n, c);
    SettledMeansReleased(states[n].calls[c], steps, n, c, o, exists h :: Adoption.MadeBy(states[n], h, c));
  }

  /** What PHP is told at the end of a method that was entered as `kind`: exactly what the core's answer
      to it conveys, or what the shim's failure does. */
  lemma PhpIsToldTheAnswer(states: seq<State>, steps: seq<Step>, n: nat, c: nat, room: bool) returns (e: nat, o: Origin)
    requires Behavior(states, steps) && n < |states| && c < |states[n].calls| && states[n].calls[c].out.Got?
    ensures e < n && |states[e].calls| == c && steps[e].Enter? && steps[e].o == states[n].calls[c].obj
    ensures Explains(steps, n, c, steps[e].kind, o, states[n].calls[c].out.b)
    ensures var p := Report(steps[e].kind, states[n].calls[c].out.b, room);
            match o
            case FromCore(_, _, a, failRoom, detailsRoom) => Conveys(steps[e].kind, a, failRoom, detailsRoom, room, p)
            case FromShim(_, message) => ConveysFailure(steps[e].kind, message, p)
  {
    e := EveryCallWasAskedFor(states, steps, n, c);
    o := ReturnsItsOwnAnswer(states, steps, n, c);
    match o
    case FromCore(_, _, a, failRoom, detailsRoom) => ReportIsAnswer(steps[e].kind, a, failRoom, detailsRoom, room);
    case FromShim(_, message) => ReportIsFailure(steps[e].kind, message, room);
  }
}

/** The life of one operation over a whole run: the order of what its awaiter does, who frees, and
    that every resource is given up once and for all. */
module RunTheorems {
  import opened Results
  import opened CallMachine
  import opened CallTheorems
  import opened Bridge
  import opened BridgeInvariant
  import opened BridgeSafety
  import opened BridgeTermination
  import opened BridgeRefinement
  import opened Provenance

  /** Every operation of every reachable state satisfies its invariant. */
  lemma ReachableCall(states: seq<State>, steps: seq<Step>, i: nat, c: nat)
    requires Behavior(states, steps) && i < |states| && c < |states[i].calls|
    ensures BridgeInvariant.Inv(states[i]) && CallMachine.Inv(states[i].calls[c])
  {
    InitialInv();
    RunKeepsInv(states, steps, i);
  }

  // ---------------------------------------------------------------------------
  // Program order
  // ---------------------------------------------------------------------------

  lemma AwGoesOn(c: Call, st: AwStep)
    requires AwEnabled(c, st)
    ensures if st.Cancel? then AwNext(c, st).aw == c.aw else AwLeft(AwNext(c, st).aw) < AwLeft(c.aw)
  {
  }

  lemma StageGoesOn(s: State, t: Thread, c: nat)
    requires Enabled(s, HandleStep(t)) && c < |s.calls|
    ensures c < |Next(s, HandleStep(t)).calls| && AwLeft(Next(s, HandleStep(t)).calls[c].aw) <= AwLeft(s.calls[c].aw)
  {
    var op := OpOf(s, t);
    StageDecreases(s.handles[op.h], op.AddOp?, op.st);
  }

  lemma AwaiterGoesOn(s: State, st: Step, c: nat)
    requires Enabled(s, st) && c < |s.calls|
    ensures c < |Next(s, st).calls| && AwLeft(Next(s, st).calls[c].aw) <= AwLeft(s.calls[c].aw)
    ensures st.CallStep? && st.c == c && !st.aw.Cancel? ==> AwLeft(Next(s, st).calls[c].aw) < AwLeft(s.calls[c].aw)
  {
    match st
    case CallStep(d, aw) => if d == c { AwGoesOn(s.calls[c], aw); }
    case HandleStep(t) => StageGoesOn(s, t, c);
    case _ =>
  }

  lemma NoStepBack(states: seq<State>, steps: seq<Step>, i: nat, c: nat)
    requires Run(states, steps) && i < |steps| && c < |states[i].calls|
    ensures c < |states[i + 1].calls| && AwLeft(states[i + 1].calls[c].aw) <= AwLeft(states[i].calls[c].aw)
  {
    AwaiterGoesOn(states[i], steps[i], c);
  }

  lemma {:induction false} NoWayBack(states: seq<State>, steps: seq<Step>, i: nat, j: nat, c: nat)
    requires Run(states, steps) && i <= j < |states| && c < |states[i].calls|
    ensures c < |states[j].calls| && AwLeft(states[j].calls[c].aw) <= AwLeft(states[i].calls[c].aw)
  {
    if i < j {
      NoWayBack(states, steps, i, j - 1, c);
      NoStepBack(states, steps, j - 1, c);
    }
  }

  /** Where in its program the awaiter is when it takes the step. */
  function Point(st: AwStep): nat {
    match st
    case NewFails(_) => AwLeft(Fresh)
    case New => AwLeft(Fresh)
    case Pinned => AwLeft(Before(Addref(SEnd)))
    case ArmTrigger => AwLeft(Before(Arm))
    case TokenNew(_) => AwLeft(Before(NewToken))
    case LaunchFails(_) => AwLeft(Before(Launching))
    case Launch => AwLeft(Before(Launching))
    case SyncReturn => AwLeft(Waiting(Sync))
    case Suspend => AwLeft(Waiting(Suspending))
    case Cancel => AwLeft(Waiting(Parked))
    case Resume => AwLeft(Waiting(Parked))
    case Lock => AwLeft(Waiting(Locking))
    case Collects => AwLeft(Waiting(Collecting))
    case Unlock => AwLeft(After(Unlocking))
    case Dispose => AwLeft(After(Disposing))
    case CancelToken => AwLeft(After(Cancelling))
    case DropResult => AwLeft(After(Dropping))
    case Released => AwLeft(After(Releasing(SEnd)))
    case FreeCall => AwLeft(After(Freeing))
    case FreeToken => AwLeft(After(TokenFreeing))
    case Return(_) => AwLeft(After(Returning))
  }

  lemma AtPoint(c: Call, st: AwStep)
    requires AwEnabled(c, st)
    ensures if c.aw.Aborted? then st.Return? else AwLeft(c.aw) == Point(st)
    ensures AwLeft(c.aw) > 0
  {
  }

  lemma PointsFall(x: Call, y: Call, a: AwStep, b: AwStep)
    requires AwEnabled(x, a) && !a.Cancel? && AwEnabled(y, b) && AwLeft(y.aw) <= AwLeft(AwNext(x, a).aw)
    ensures Point(a) > Point(b)
  {
    AwGoesOn(x, a);
    AtPoint(x, a);
    AtPoint(y, b);
  }

  /** Over a whole run the steps of one awaiter come in program order, each at most once. */
  lemma ProgramOrder(states: seq<State>, steps: seq<Step>, i: nat, j: nat, c: nat, a: AwStep, b: AwStep)
    requires Run(states, steps) && i < j < |steps|
    requires steps[i] == CallStep(c, a) && steps[j] == CallStep(c, b) && !a.Cancel?
    ensures Point(a) > Point(b)
  {
    assert states[i + 1].calls[c] == AwNext(states[i].calls[c], a);
    NoWayBack(states, steps, i + 1, j, c);
    PointsFall(states[i].calls[c], states[j].calls[c], a, b);
  }

  /** Over a whole run: a token is cancelled at most once, freed at most once, and never cancelled
      after it was freed; a trigger is disposed at most once; a method returns at most once. */
  lemma OnceEach(states: seq<State>, steps: seq<Step>, i: nat, j: nat, c: nat, a: AwStep, b: AwStep)
    requires Run(states, steps) && i < |steps| && j < |steps|
    requires steps[i] == CallStep(c, a) && steps[j] == CallStep(c, b)
    ensures a.CancelToken? && b.CancelToken? ==> i == j
    ensures a.FreeToken? && b.FreeToken? ==> i == j
    ensures a.CancelToken? && b.FreeToken? ==> i < j
    ensures a.Dispose? && b.Dispose? ==> i == j
    ensures a.Return? && b.Return? ==> i == j
  {
    if i < j && !a.Cancel? {
      ProgramOrder(states, steps, i, j, c, a, b);
    } else if j < i && !b.Cancel? {
      ProgramOrder(states, steps, j, i, c, b, a);
    }
  }

  // ---------------------------------------------------------------------------
  // The two critical sections
  // ---------------------------------------------------------------------------

  lemma AfterByPoint(c: Call)
    ensures c.aw.After? || c.aw.Aborted? || c.aw.Gone? <==> AwLeft(c.aw) < AwLeft(Waiting(Collecting))
  {
  }

  lemma AfterCollecting(states: seq<State>, steps: seq<Step>, i: nat, j: nat, c: nat)
    requires Behavior(states, steps) && i < j < |states| && i < |steps| && steps[i] == CallStep(c, Collects)
    ensures c < |states[j].calls|
    ensures states[j].calls[c].aw.After? || states[j].calls[c].aw.Aborted? || states[j].calls[c].aw.Gone?
  {
    AwaiterGoesOn(states[i], steps[i], c);
    NoWayBack(states, steps, i + 1, j, c);
    AfterByPoint(states[j].calls[c]);
  }

  lemma BeforeCollecting(states: seq<State>, steps: seq<Step>, i: nat, j: nat, c: nat)
    requires Behavior(states, steps) && j <= i < |steps| && steps[i] == CallStep(c, Collects) && c < |states[j].calls|
    ensures !states[j].calls[c].aw.After?
  {
    NoWayBack(states, steps, j, i, c);
    AfterByPoint(states[j].calls[c]);
  }

  lemma PastOnceDelivered(states: seq<State>, steps: seq<Step>, j: nat, k: nat, c: nat)
    requires Behavior(states, steps) && j < k < |states| && j < |steps| && steps[j] == CoreStep(c, Delivers)
    ensures c < |states[j].calls| && c < |states[k].calls| && states[k].calls[c].cb.Past?
  {
    InitialInv();
    RunKeepsInv(states, steps, j);
    PastStays(states[j], steps[j], c);
    PastForGood(states, steps, j + 1, k, c);
  }

  lemma DueBeforeDelivery(states: seq<State>, steps: seq<Step>, i: nat, j: nat, c: nat)
    requires Behavior(states, steps) && i <= j < |steps| && steps[j] == CoreStep(c, Delivers) && c < |states[i].calls|
    ensures !states[i].calls[c].cb.Past?
  {
    if states[i].calls[c].cb.Past? {
      PastForGood(states, steps, i, j, c);
    }
  }

  lemma AwaiterFirst(states: seq<State>, steps: seq<Step>, i: nat, j: nat, c: nat)
    requires Behavior(states, steps) && i < j < |steps|
    requires steps[i] == CallStep(c, Collects) && steps[j] == CoreStep(c, Delivers)
    ensures states[j].calls[c].aw.After? && !states[i].calls[c].cb.Past?
  {
    ReachableCall(states, steps, j, c);
    AfterCollecting(states, steps, i, j, c);
    DueBeforeDelivery(states, steps, i, j, c);
  }

  lemma CallbackFirst(states: seq<State>, steps: seq<Step>, i: nat, j: nat, c: nat)
    requires Behavior(states, steps) && j < i < |steps|
    requires steps[i] == CallStep(c, Collects) && steps[j] == CoreStep(c, Delivers)
    ensures !states[j].calls[c].aw.After? && states[i].calls[c].cb.Past?
  {
    PastOnceDelivered(states, steps, j, i, c);
    BeforeCollecting(states, steps, i, j, c);
  }

  /** A callback that takes the lock after the awaiter finds the awaiter gone, and conversely. */
  lemma LockOrder(states: seq<State>, steps: seq<Step>, i: nat, j: nat, c: nat)
    requires Behavior(states, steps) && i < |steps| && j < |steps|
    requires steps[i] == CallStep(c, Collects) && steps[j] == CoreStep(c, Delivers)
    ensures i < j <==> states[j].calls[c].aw.After?
    ensures j < i <==> states[i].calls[c].cb.Past?
  {
    if i < j {
      AwaiterFirst(states, steps, i, j, c);
    } else {
      CallbackFirst(states, steps, i, j, c);
    }
  }

  /** Who frees, over a whole run: whichever party enters its critical section second is the one
      that is last, and so frees the call. */
  lemma SecondPartyFrees(states: seq<State>, steps: seq<Step>, i: nat, j: nat, c: nat)
    requires Behavior(states, steps) && i < |steps| && j < |steps|
    requires steps[i] == CallStep(c, Collects) && steps[j] == CoreStep(c, Delivers)
    ensures states[i + 1].calls[c].a.last <==> j < i
    ensures states[j + 1].calls[c].k.last <==> i < j
  {
    ReachableCall(states, steps, i, c);
    ReachableCall(states, steps, j, c);
    LockOrder(states, steps, i, j, c);
    WhoFrees(states[i].calls[c]);
    WhoFrees(states[j].calls[c]);
  }

  // ---------------------------------------------------------------------------
  // The outcome and the token
  // ---------------------------------------------------------------------------

  lemma AwEntersAfter(c: Call, st: AwStep)
    requires AwEnabled(c, st) && AwNext(c, st).aw.After?
    ensures (c.aw.After? && AwNext(c, st).a == c.a) || st.Collects?
  {
  }

  lemma StageKeepsLocals(s: State, t: Thread, c: nat)
    requires Enabled(s, HandleStep(t)) && c < |s.calls|
    ensures c < |Next(s, HandleStep(t)).calls|
    ensures Next(s, HandleStep(t)).calls[c].a == s.calls[c].a
    ensures Next(s, HandleStep(t)).calls[c].aw.After? == s.calls[c].aw.After?
    ensures Next(s, HandleStep(t)).calls[c].cb.Past? == s.calls[c].cb.Past?
  {
  }

  /** An awaiter is past its critical section only by way of it, and keeps what it captured there. */
  lemma StepEntersAfter(s: State, st: Step, c: nat)
    requires Enabled(s, st) && c < |Next(s, st).calls| && Next(s, st).calls[c].aw.After?
    ensures c < |s.calls|
    ensures (s.calls[c].aw.After? && Next(s, st).calls[c].a == s.calls[c].a) || st == CallStep(c, Collects)
  {
    match st
    case CallStep(d, aw) => if d == c { AwEntersAfter(s.calls[c], aw); }
    case HandleStep(t) => StageKeepsLocals(s, t, c);
    case _ =>
  }

  lemma RunEntersAfter(states: seq<State>, steps: seq<Step>, i: nat, c: nat)
    requires Run(states, steps) && i < |steps| && c < |states[i + 1].calls| && states[i + 1].calls[c].aw.After?
    ensures c < |states[i].calls|
    ensures || (states[i].calls[c].aw.After? && states[i + 1].calls[c].a == states[i].calls[c].a)
            || steps[i] == CallStep(c, Collects)
  {
    StepEntersAfter(states[i], steps[i], c);
  }

  /** How a run takes call `c` past the critical section of its awaiter, and no more. */
  ghost predicate CollectLinks(states: seq<State>, steps: seq<Step>, c: nat) {
    && |states| == |steps| + 1 && states[0].calls == []
    && forall i {:trigger steps[i]} :: 0 <= i < |steps| && c < |states[i + 1].calls| &&
                                       states[i + 1].calls[c].aw.After? ==>
         && c < |states[i].calls|
         && (|| (states[i].calls[c].aw.After? && states[i + 1].calls[c].a == states[i].calls[c].a)
             || steps[i] == CallStep(c, Collects))
  }

  lemma {:induction false} LastCollected(states: seq<State>, steps: seq<Step>, n: nat, c: nat) returns (i: nat)
    requires CollectLinks(states, steps, c) && n < |states| && c < |states[n].calls| && states[n].calls[c].aw.After?
    ensures i < n && steps[i] == CallStep(c, Collects)
    ensures c < |states[i + 1].calls| && states[i + 1].calls[c].a == states[n].calls[c].a
  {
    assert n > 0;
    if steps[n - 1] == CallStep(c, Collects) {
      i := n - 1;
    } else {
      i := LastCollected(states, steps, n - 1, c);
    }
  }

  lemma HasCollected(states: seq<State>, steps: seq<Step>, n: nat, c: nat) returns (i: nat)
    requires Behavior(states, steps) && n < |states| && c < |states[n].calls| && states[n].calls[c].aw.After?
    ensures i < n && steps[i] == CallStep(c, Collects)
    ensures c < |states[i + 1].calls| && states[i + 1].calls[c].a == states[n].calls[c].a
  {
    forall k | 0 <= k < |steps| && c < |states[k + 1].calls| && states[k + 1].calls[c].aw.After?
      ensures && c < |states[k].calls|
              && (|| (states[k].calls[c].aw.After? && states[k + 1].calls[c].a == states[k].calls[c].a)
                  || steps[k] == CallStep(c, Collects))
    {
      RunEntersAfter(states, steps, k, c);
    }
    i := LastCollected(states, steps, n, c);
  }

  lemma CbEntersPast(c: Call, st: CbStep)
    requires CbEnabled(c, st) && CbNext(c, st).cb.Past?
    ensures c.cb.Past? || st.Delivers?
  {
  }

  lemma AwEntersPast(c: Call, st: AwStep)
    requires AwEnabled(c, st) && AwNext(c, st).cb.Past?
    ensures c.cb.Past?
  {
  }

  lemma StepEntersPast(s: State, st: Step, c: nat)
    requires Enabled(s, st) && c < |Next(s, st).calls| && Next(s, st).calls[c].cb.Past?
    ensures c < |s.calls| && (s.calls[c].cb.Past? || st == CoreStep(c, Delivers))
  {
    match st
    case CallStep(d, aw) => if d == c { AwEntersPast(s.calls[c], aw); }
    case CoreStep(d, cb) => if d == c { CbEntersPast(s.calls[c], cb); }
    case HandleStep(t) => StageKeepsLocals(s, t, c);
    case _ =>
  }

  lemma RunEntersPast(states: seq<State>, steps: seq<Step>, i: nat, c: nat)
    requires Run(states, steps) && i < |steps| && c < |states[i + 1].calls| && states[i + 1].calls[c].cb.Past?
    ensures c < |states[i].calls| && (states[i].calls[c].cb.Past? || steps[i] == CoreStep(c, Delivers))
  {
    StepEntersPast(states[i], steps[i], c);
  }

  lemma {:induction false} HasDelivered(states: seq<State>, steps: seq<Step>, n: nat, c: nat) returns (i: nat)
    requires Behavior(states, steps) && n < |states| && c < |states[n].calls| && states[n].calls[c].cb.Past?
    ensures i < n && steps[i] == CoreStep(c, Delivers)
  {
    assert n > 0;
    RunEntersPast(states, steps, n - 1, c);
    if steps[n - 1] == CoreStep(c, Delivers) {
      i := n - 1;
    } else {
      i := HasDelivered(states, steps, n - 1, c);
    }
  }

  /** Among the first `n` steps the awaiter of `c` entered its critical section, and the callback had
      not delivered before. */
  predicate Interrupted(steps: seq<Step>, n: nat, c: nat)
    requires n <= |steps|
  {
    exists i :: 0 <= i < n && steps[i] == CallStep(c, Collects) && CoreStep(c, Delivers) !in steps[..i]
  }

  lemma OnlyOneCollect(states: seq<State>, steps: seq<Step>, i: nat, j: nat, c: nat)
    requires Run(states, steps) && i < |steps| && j < |steps|
    requires steps[i] == CallStep(c, Collects) && steps[j] == CallStep(c, Collects)
    ensures i == j
  {
    if i < j {
      ProgramOrder(states, steps, i, j, c, Collects, Collects);
    } else if j < i {
      ProgramOrder(states, steps, j, i, c, Collects, Collects);
    }
  }

  lemma PastMeansDelivered(states: seq<State>, steps: seq<Step>, i: nat, c: nat)
    requires Behavior(states, steps) && i < |steps| && steps[i] == CallStep(c, Collects)
    ensures states[i].calls[c].cb.Past? <==> CoreStep(c, Delivers) in steps[..i]
  {
    if states[i].calls[c].cb.Past? {
      var j := HasDelivered(states, steps, i, c);
      assert steps[..i][j] == CoreStep(c, Delivers);
    } else if CoreStep(c, Delivers) in steps[..i] {
      var j :| 0 <= j < i && steps[j] == CoreStep(c, Delivers);
      CallbackFirst(states, steps, i, j, c);
    }
  }

  lemma CollectFinds(states: seq<State>, steps: seq<Step>, i: nat, c: nat)
    requires Behavior(states, steps) && i < |steps| && steps[i] == CallStep(c, Collects)
    ensures c < |states[i + 1].calls|
    ensures states[i + 1].calls[c].a.completed <==> states[i].calls[c].cb.Past?
  {
    ReachableCall(states, steps, i, c);
  }

  /** What the awaiter found under the lock tells which party was first. */
  lemma CompletedMeansDelivered(states: seq<State>, steps: seq<Step>, n: nat, c: nat)
    requires Behavior(states, steps) && n < |states| && c < |states[n].calls| && states[n].calls[c].aw.After?
    ensures states[n].calls[c].a.completed <==> !Interrupted(steps, n, c)
  {
    var i := HasCollected(states, steps, n, c);
    CollectFinds(states, steps, i, c);
    PastMeansDelivered(states, steps, i, c);
    if Interrupted(steps, n, c) {
      var k :| 0 <= k < n && steps[k] == CallStep(c, Collects) && CoreStep(c, Delivers) !in steps[..k];
      OnlyOneCollect(states, steps, i, k, c);
    }
  }

  /** The awaiter is past the point where temporal_run_rpc asks for a token. */
  predicate PastToken(c: Call) {
    c.aw == Before(Launching) || c.aw.Waiting? || c.aw.After?
  }

  lemma AwGetsToken(c: Call, st: AwStep)
    requires AwEnabled(c, st) && c.kind.Rpc? && PastToken(AwNext(c, st))
    ensures (PastToken(c) && AwNext(c, st).m.token == c.m.token) || (st.TokenNew? && AwNext(c, st).m.token == st.room)
  {
  }

  lemma AwKeepsKind(c: Call, st: AwStep)
    requires AwEnabled(c, st)
    ensures AwNext(c, st).kind == c.kind && (AwNext(c, st).exc <==> c.exc || st.Cancel?)
  {
  }

  lemma CbKeepsToken(c: Call, st: CbStep)
    requires CbEnabled(c, st)
    ensures CbNext(c, st).kind == c.kind && CbNext(c, st).aw == c.aw && CbNext(c, st).exc == c.exc
    ensures CbNext(c, st).m.token == c.m.token
  {
  }

  lemma StageKeepsToken(s: State, t: Thread, c: nat)
    requires Enabled(s, HandleStep(t)) && c < |s.calls|
    ensures c < |Next(s, HandleStep(t)).calls|
    ensures var r' := Next(s, HandleStep(t)).calls[c];
            && r'.kind == s.calls[c].kind && r'.exc == s.calls[c].exc && r'.m == s.calls[c].m
            && (PastToken(r') <==> PastToken(s.calls[c]))
  {
  }

  lemma StepGetsToken(s: State, st: Step, c: nat)
    requires Enabled(s, st) && c < |Next(s, st).calls|
    requires Next(s, st).calls[c].kind.Rpc? && PastToken(Next(s, st).calls[c])
    ensures c < |s.calls| && s.calls[c].kind.Rpc?
    ensures || (PastToken(s.calls[c]) && Next(s, st).calls[c].m.token == s.calls[c].m.token)
            || st == CallStep(c, TokenNew(Next(s, st).calls[c].m.token))
  {
    match st
    case CallStep(d, aw) => if d == c { AwKeepsKind(s.calls[c], aw); AwGetsToken(s.calls[c], aw); }
    case CoreStep(d, cb) => if d == c { CbKeepsToken(s.calls[c], cb); }
    case HandleStep(t) => StageKeepsToken(s, t, c);
    case _ =>
  }

  lemma RunGetsToken(states: seq<State>, steps: seq<Step>, i: nat, c: nat)
    requires Run(states, steps) && i < |steps| && c < |states[i + 1].calls|
    requires states[i + 1].calls[c].kind.Rpc? && PastToken(states[i + 1].calls[c])
    ensures c < |states[i].calls| && states[i].calls[c].kind.Rpc?
    ensures || (PastToken(states[i].calls[c]) && states[i + 1].calls[c].m.token == states[i].calls[c].m.token)
            || steps[i] == CallStep(c, TokenNew(states[i + 1].calls[c].m.token))
  {
    StepGetsToken(states[i], steps[i], c);
  }

  /** What a run does to the token of call `c`, and no more. */
  ghost predicate TokenLinks(states: seq<State>, steps: seq<Step>, c: nat) {
    && |states| == |steps| + 1 && states[0].calls == []
    && forall i {:trigger steps[i]} :: 0 <= i < |steps| && c < |states[i + 1].calls| &&
                                       states[i + 1].calls[c].kind.Rpc? && PastToken(states[i + 1].calls[c]) ==>
         && c < |states[i].calls| && states[i].calls[c].kind.Rpc?
         && (|| (PastToken(states[i].calls[c]) && states[i + 1].calls[c].m.token == states[i].calls[c].m.token)
             || steps[i] == CallStep(c, TokenNew(states[i + 1].calls[c].m.token)))
  }

  lemma {:induction false} LastAsked(states: seq<State>, steps: seq<Step>, n: nat, c: nat) returns (i: nat)
    requires TokenLinks(states, steps, c) && n < |states| && c < |states[n].calls|
    requires states[n].calls[c].kind.Rpc? && PastToken(states[n].calls[c])
    ensures i < n && steps[i] == CallStep(c, TokenNew(states[n].calls[c].m.token))
  {
    assert n > 0;
    if steps[n - 1] == CallStep(c, TokenNew(states[n].calls[c].m.token)) {
      i := n - 1;
    } else {
      i := LastAsked(states, steps, n - 1, c);
    }
  }

  lemma HasAsked(states: seq<State>, steps: seq<Step>, n: nat, c: nat) returns (i: nat)
    requires Behavior(states, steps) && n < |states| && c < |states[n].calls|
    requires states[n].calls[c].kind.Rpc? && PastToken(states[n].calls[c])
    ensures i < n && steps[i] == CallStep(c, TokenNew(states[n].calls[c].m.token))
  {
    forall k | 0 <= k < |steps| && c < |states[k + 1].calls| &&
               states[k + 1].calls[c].kind.Rpc? && PastToken(states[k + 1].calls[c])
      ensures && c < |states[k].calls| && states[k].calls[c].kind.Rpc?
              && (|| (PastToken(states[k].calls[c]) && states[k + 1].calls[c].m.token == states[k].calls[c].m.token)
                  || steps[k] == CallStep(c, TokenNew(states[k + 1].calls[c].m.token)))
    {
      RunGetsToken(states, steps, k, c);
    }
    i := LastAsked(states, steps, n, c);
  }

  lemma AsksOnce(states: seq<State>, steps: seq<Step>, i: nat, j: nat, c: nat, a: bool, b: bool)
    requires Run(states, steps) && i < |steps| && j < |steps|
    requires steps[i] == CallStep(c, TokenNew(a)) && steps[j] == CallStep(c, TokenNew(b))
    ensures i == j
  {
    if i < j {
      ProgramOrder(states, steps, i, j, c, TokenNew(a), TokenNew(b));
    } else if j < i {
      ProgramOrder(states, steps, j, i, c, TokenNew(b), TokenNew(a));
    }
  }

  /** Every rpc asks for a cancel token, once, before it is launched, and goes on with what it got. */
  lemma RpcAsksForToken(states: seq<State>, steps: seq<Step>, j: nat, c: nat) returns (i: nat, room: bool)
    requires Behavior(states, steps) && j < |steps| && steps[j].CallStep? && steps[j].c == c
    requires steps[j].aw.Launch? || steps[j].aw.LaunchFails?
    requires c < |states[j].calls| && states[j].calls[c].kind.Rpc?
    ensures i < j && steps[i] == CallStep(c, TokenNew(room)) && (states[j].calls[c].m.token <==> room)
    ensures forall k, r :: 0 <= k < |steps| && steps[k] == CallStep(c, TokenNew(r)) ==> k == i && r == room
  {
    assert Enabled(states[j], steps[j]);
    room := states[j].calls[c].m.token;
    i := HasAsked(states, steps, j, c);
    forall k, r | 0 <= k < |steps| && steps[k] == CallStep(c, TokenNew(r)) ensures k == i && r == room {
      AsksOnce(states, steps, i, k, c, room, r);
    }
  }

  /** ... and no other operation does. */
  lemma OnlyRpcAsks(states: seq<State>, steps: seq<Step>, i: nat, c: nat, room: bool)
    requires Behavior(states, steps) && i < |steps| && steps[i] == CallStep(c, TokenNew(room))
    ensures c < |states[i].calls| && states[i].calls[c].kind.Rpc?
  {
    ReachableCall(states, steps, i, c);
  }

  lemma StepCancels(s: State, st: Step, c: nat)
    requires Enabled(s, st) && c < |s.calls|
    ensures c < |Next(s, st).calls|
    ensures Next(s, st).calls[c].exc <==> s.calls[c].exc || st == CallStep(c, Cancel)
  {
    match st
    case CallStep(d, aw) => if d == c { AwKeepsKind(s.calls[c], aw); }
    case CoreStep(d, cb) => if d == c { CbKeepsToken(s.calls[c], cb); }
    case HandleStep(t) => StageKeepsToken(s, t, c);
    case _ =>
  }

  lemma RunCancels(states: seq<State>, steps: seq<Step>, i: nat, c: nat)
    requires Run(states, steps) && i < |steps| && c < |states[i].calls|
    ensures c < |states[i + 1].calls|
    ensures states[i + 1].calls[c].exc <==> states[i].calls[c].exc || steps[i] == CallStep(c, Cancel)
  {
    StepCancels(states[i], steps[i], c);
  }

  lemma NewCallHasNoException(states: seq<State>, steps: seq<Step>, i: nat, c: nat)
    requires Run(states, steps) && i < |steps| && |states[i].calls| <= c < |states[i + 1].calls|
    ensures !states[i + 1].calls[c].exc && !(steps[i].CallStep? && steps[i].c == c)
  {
  }

  lemma NoStepBefore(states: seq<State>, steps: seq<Step>, i: nat, j: nat, c: nat, st: AwStep)
    requires Run(states, steps) && j < i < |states| && |states[i].calls| <= c
    ensures steps[j] != CallStep(c, st)
  {
    if steps[j] == CallStep(c, st) {
      assert Enabled(states[j], steps[j]);
      SameCallForGood(states, steps, j, i, c);
    }
  }

  /** An exception is pending in a coroutine exactly when it was cancelled. */
  lemma {:induction false} ExceptionMeansCancelled(states: seq<State>, steps: seq<Step>, n: nat, c: nat)
    requires Behavior(states, steps) && n < |states| && c < |states[n].calls|
    ensures states[n].calls[c].exc <==> CallStep(c, Cancel) in steps[..n]
  {
    assert n > 0;
    assert steps[..n] == steps[..n - 1] + [steps[n - 1]];
    if c < |states[n - 1].calls| {
      ExceptionMeansCancelled(states, steps, n - 1, c);
      RunCancels(states, steps, n - 1, c);
    } else {
      NewCallHasNoException(states, steps, n - 1, c);
      if CallStep(c, Cancel) in steps[..n - 1] {
        var j :| 0 <= j < n - 1 && steps[j] == CallStep(c, Cancel);
        NoStepBefore(states, steps, n - 1, j, c, Cancel);
      }
    }
  }

  /** The awaiter of `c` asked for a token, and there was memory for it. */
  predicate GotToken(steps: seq<Step>, n: nat, c: nat)
    requires n <= |steps|
  {
    CallStep(c, TokenNew(true)) in steps[..n]
  }

  lemma TokenMeansGot(states: seq<State>, steps: seq<Step>, n: nat, c: nat)
    requires Behavior(states, steps) && n < |states| && c < |states[n].calls| && PastToken(states[n].calls[c])
    ensures states[n].calls[c].m.token <==> GotToken(steps, n, c)
  {
    ReachableCall(states, steps, n, c);
    if states[n].calls[c].kind.Rpc? {
      var i := HasAsked(states, steps, n, c);
      assert steps[..n][i] == steps[i];
      if GotToken(steps, n, c) {
        var k :| 0 <= k < n && steps[k] == CallStep(c, TokenNew(true));
        AsksOnce(states, steps, i, k, c, states[n].calls[c].m.token, true);
      }
    } else if GotToken(steps, n, c) {
      var k :| 0 <= k < n && steps[k] == CallStep(c, TokenNew(true));
      OnlyRpcAsks(states, steps, k, c, true);
      SameCallForGood(states, steps, k, n, c);
    }
  }

  /** The token over a whole run: when temporal_call_collect is back, the token has been cancelled,
      once, if and only if there was memory for one, the coroutine was cancelled, and the awaiter took
      the lock before the callback did; and it is freed in any case. */
  lemma CancelledIffInterrupted(states: seq<State>, steps: seq<Step>, n: nat, c: nat)
    requires Behavior(states, steps) && n < |states| && c < |states[n].calls|
    requires states[n].calls[c].aw == After(Returning) || states[n].calls[c].aw == After(Finished)
    ensures var r := states[n].calls[c];
            && r.cancels == (if GotToken(steps, n, c) && CallStep(c, Cancel) in steps[..n] && Interrupted(steps, n, c)
                             then 1 else 0)
            && r.led.token == (if GotToken(steps, n, c) then Freed else Absent)
            && (r.kind.Rpc? <==> exists i, room :: 0 <= i < n && steps[i] == CallStep(c, TokenNew(room)))
  {
    ReachableCall(states, steps, n, c);
    CompletedMeansDelivered(states, steps, n, c);
    ExceptionMeansCancelled(states, steps, n, c);
    TokenMeansGot(states, steps, n, c);
    if states[n].calls[c].kind.Rpc? {
      var i := HasAsked(states, steps, n, c);
      assert steps[i] == CallStep(c, TokenNew(states[n].calls[c].m.token));
    } else {
      forall i, room | 0 <= i < n && steps[i] == CallStep(c, TokenNew(room)) ensures false {
        OnlyRpcAsks(states, steps, i, c, room);
        SameCallForGood(states, steps, i, n, c);
      }
    }
  }

  /** The outcome over a whole run: a coroutine that was not cancelled found its call delivered, and
      returns what was delivered; one that was is unwound. */
  lemma ResumedMeansDelivered(states: seq<State>, steps: seq<Step>, n: nat, c: nat)
    requires Behavior(states, steps) && n < |states| && c < |states[n].calls|
    requires states[n].calls[c].aw == After(Returning) || states[n].calls[c].aw == After(Finished)
    ensures var r := states[n].calls[c];
            var cancelled := CallStep(c, Cancel) in steps[..n];
            && (Interrupted(steps, n, c) ==> cancelled)
            && r.out == (if cancelled then Cancelled else Got(r.k.bundle))
  {
    ReachableCall(states, steps, n, c);
    CompletedMeansDelivered(states, steps, n, c);
    ExceptionMeansCancelled(states, steps, n, c);
  }

  // ---------------------------------------------------------------------------
  // The trigger
  // ---------------------------------------------------------------------------

  /** A callback that delivers to the awaiter finds it before its critical section. */
  lemma FiredBeforeCollect(states: seq<State>, steps: seq<Step>, i: nat, c: nat)
    requires Behavior(states, steps) && i < |steps|
    requires steps[i] == CoreStep(c, Delivers) && states[i].calls[c].m.trigger
    ensures AwLeft(states[i].calls[c].aw) >= AwLeft(Waiting(Collecting))
  {
    ReachableCall(states, steps, i, c);
    AfterByPoint(states[i].calls[c]);
  }

  /** The trigger is fired only before it is disposed. */
  lemma FiredBeforeDisposed(states: seq<State>, steps: seq<Step>, i: nat, j: nat, c: nat)
    requires Behavior(states, steps) && i < |steps| && j < |steps|
    requires steps[i] == CoreStep(c, Delivers) && states[i].calls[c].m.trigger && steps[j] == CallStep(c, Dispose)
    ensures i < j
  {
    FiredBeforeCollect(states, steps, i, c);
    if j < i {
      NoWayBack(states, steps, j, i, c);
    }
  }

  /** No lost wake and no spurious one: with the reactor free, a parked coroutine can resume if and
      only if its call is completed or an exception is pending. */
  lemma WakeIsExact(states: seq<State>, steps: seq<Step>, i: nat, c: nat)
    requires Behavior(states, steps) && i < |states| && c < |states[i].calls|
    requires states[i].calls[c].aw == Waiting(Parked) && states[i].reactor.None?
    ensures Enabled(states[i], CallStep(c, Resume)) <==> states[i].calls[c].m.completed || states[i].calls[c].exc
  {
    ReachableCall(states, steps, i, c);
    assert FrameOk(states[i], c);
  }

  // ---------------------------------------------------------------------------
  // Resources
  // ---------------------------------------------------------------------------

  lemma StageFreesNothing(s: State, t: Thread, c: nat)
    requires Enabled(s, HandleStep(t)) && c < |s.calls|
    ensures c < |Next(s, HandleStep(t)).calls|
    ensures Next(s, HandleStep(t)).calls[c].led == s.calls[c].led
    ensures Next(s, HandleStep(t)).calls[c].pay == s.calls[c].pay
  {
  }

  lemma CallStepMovesForward(s: State, c: nat, aw: AwStep)
    requires CallsOk(s) && Enabled(s, CallStep(c, aw))
    ensures var r' := Next(s, CallStep(c, aw)).calls[c];
            LedgerForward(s.calls[c].led, r'.led) && PayloadForward(s.calls[c].pay, r'.pay)
  {
    assert Next(s, CallStep(c, aw)).calls[c] == AwNext(s.calls[c], aw);
    if aw.LaunchFails? || aw.New? {
      SetupMovesForward(s.calls[c], aw);
    } else {
      AwMovesForward(s.calls[c], aw);
    }
  }

  lemma StepMovesForward(s: State, st: Step, c: nat)
    requires CallsOk(s) && Enabled(s, st) && c < |s.calls|
    ensures c < |Next(s, st).calls|
    ensures LedgerForward(s.calls[c].led, Next(s, st).calls[c].led)
    ensures PayloadForward(s.calls[c].pay, Next(s, st).calls[c].pay)
  {
    match st
    case CallStep(d, aw) => if d == c { CallStepMovesForward(s, c, aw); }
    case CoreStep(d, cb) => if d == c { CbMovesForward(s.calls[c], cb); }
    case HandleStep(t) => StageFreesNothing(s, t, c);
    case _ =>
  }

  lemma RunMovesForward(states: seq<State>, steps: seq<Step>, i: nat, c: nat)
    requires Behavior(states, steps) && i < |steps| && c < |states[i].calls|
    ensures c < |states[i + 1].calls|
    ensures LedgerForward(states[i].calls[c].led, states[i + 1].calls[c].led)
    ensures PayloadForward(states[i].calls[c].pay, states[i + 1].calls[c].pay)
  {
    InitialInv();
    RunKeepsInv(states, steps, i);
    StepMovesForward(states[i], steps[i], c);
  }

  /** Over a whole run a resource of an operation only moves forward, from absent to allocated to
      given up: what was freed or adopted stays so. As every free finds its resource allocated
      (BridgeSafety.MemorySafety), each is freed or adopted at most once. */
  lemma {:induction false} GivenUpForGood(states: seq<State>, steps: seq<Step>, i: nat, j: nat, c: nat)
    requires Behavior(states, steps) && i <= j < |states| && c < |states[i].calls|
    ensures c < |states[j].calls|
    ensures LedgerForward(states[i].calls[c].led, states[j].calls[c].led)
    ensures PayloadForward(states[i].calls[c].pay, states[j].calls[c].pay)
  {
    if i < j {
      GivenUpForGood(states, steps, i, j - 1, c);
      RunMovesForward(states, steps, j - 1, c);
    }
  }

  /** The step runs the free() of temporal_call_free on call `c`. */
  predicate FreesStruct(st: Step, c: nat) {
    st == CallStep(c, FreeCall) || st == CoreStep(c, CbFreeCall)
  }

  lemma StructIsFreed(s: State, st: Step, c: nat)
    requires Enabled(s, st) && FreesStruct(st, c)
    ensures Safe(s, st) ==> s.calls[c].led.call.Live?
    ensures Next(s, st).calls[c].led.call.Freed?
  {
  }

  /** Over a whole run the struct is freed at most once, by whichever party. */
  lemma StructFreedOnce(states: seq<State>, steps: seq<Step>, i: nat, j: nat, c: nat)
    requires Behavior(states, steps) && i < |steps| && j < |steps|
    requires FreesStruct(steps[i], c) && FreesStruct(steps[j], c)
    ensures i == j
  {
    MemorySafety(states, steps, i, steps[i]);
    MemorySafety(states, steps, j, steps[j]);
    StructIsFreed(states[i], steps[i], c);
    StructIsFreed(states[j], steps[j], c);
    if i < j {
      GivenUpForGood(states, steps, i + 1, j, c);
    } else if j < i {
      GivenUpForGood(states, steps, j + 1, i, c);
    }
  }
}

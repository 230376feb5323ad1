/** temporal_php_handle_t as the C code has it: a heap struct whose methods update its fields in
    place. `rec` is the record of the transition system; every method follows it stage by stage. */
module HandleStruct {
  import opened Results
  import opened CallMachine
  import Bridge

  type Thread = Bridge.Thread

  /** An undisturbed temporal_php_handle_addref of the transition system. */
  function AfterAddref(x: Bridge.Handle, t: Thread): Bridge.Handle {
    Bridge.Advance(Bridge.Advance(Bridge.Advance(x, true, SLock, t), true, SOp, t), true, SUnlock(false), t)
  }

  /** An undisturbed temporal_php_handle_release. */
  function AfterRelease(x: Bridge.Handle, t: Thread): Bridge.Handle {
    var locked := Bridge.Advance(x, false, SLock, t);
    var last := Bridge.AfterStage(locked, false, SOp).last;
    var unlocked := Bridge.Advance(Bridge.Advance(locked, false, SOp, t), false, SUnlock(last), t);
    if last then Bridge.Advance(Bridge.Advance(unlocked, false, SBox, t), false, SStruct, t) else unlocked
  }

  /** ... by a party that may not be last. */
  function ReleasedIf(last: bool, x: Bridge.Handle, t: Thread): Bridge.Handle {
    if last then AfterRelease(x, t) else x
  }

  class Handle {
    var locked: bool
    var refcount: int
    var box: Cell      // the core box, freed by free_box
    var mem: Cell      // this struct and its mutex

    ghost var rec: Bridge.Handle

    /** The fields agree with the record. */
    ghost predicate Agrees()
      reads this
    {
      && rec.refcount == refcount && rec.box == box && rec.mem == mem
      && (rec.lock.Some? <==> locked)
    }

    /** Between operations, while somebody holds a reference. */
    ghost predicate Valid()
      reads this
    {
      Agrees() && mem.Live? && box.Live? && !locked && refcount > 0
    }

    /** temporal_php_handle_new, when calloc succeeds. */
    constructor (ghost o: nat)
      ensures Valid() && rec == Bridge.NewHandle(o) && refcount == 1
    {
      locked, refcount, box, mem := false, 1, Live, Live;
      rec := Bridge.NewHandle(o);
    }

    /** temporal_php_handle_addref. */
    method AddRef(ghost t: Thread)
      requires Valid()
      modifies this
      ensures Valid() && refcount == old(refcount) + 1
      ensures rec == AfterAddref(old(rec), t)
    {
      locked := true;
      rec := Bridge.Advance(rec, true, SLock, t);
      refcount := refcount + 1;
      rec := Bridge.Advance(rec, true, SOp, t);
      locked := false;
      rec := Bridge.Advance(rec, true, SUnlock(false), t);
    }

    /** temporal_php_handle_release. */
    method Drop(ghost t: Thread)
      requires Valid()
      modifies this
      ensures Agrees() && rec == AfterRelease(old(rec), t)
      ensures refcount == old(refcount) - 1
      ensures if old(refcount) == 1 then box.Freed? && mem.Freed? else Valid()
    {
      locked := true;
      rec := Bridge.Advance(rec, false, SLock, t);
      refcount := refcount - 1;
      var last := refcount == 0;
      rec := Bridge.Advance(rec, false, SOp, t);
      locked := false;
      rec := Bridge.Advance(rec, false, SUnlock(last), t);
      if last {
        box := Freed;
        rec := Bridge.Advance(rec, false, SBox, t);
        mem := Freed;
        rec := Bridge.Advance(rec, false, SStruct, t);
      }
    }
  }

  /** An addref followed by a release, by whatever threads hold the two references, leaves the
      count as it was and frees nothing. */
  lemma AddrefThenRelease(x: Bridge.Handle, t: Thread, u: Thread)
    requires x.refcount > 0
    ensures AfterRelease(AfterAddref(x, t), u).refcount == x.refcount
    ensures AfterRelease(AfterAddref(x, t), u).box == x.box && AfterRelease(AfterAddref(x, t), u).mem == x.mem
  {
  }

  /** The release that frees is exactly the one that takes the count from one to zero. */
  lemma ReleaseFrees(x: Bridge.Handle, t: Thread)
    requires x.box.Live? && x.mem.Live?
    ensures AfterRelease(x, t).box.Freed? <==> x.refcount == 1
    ensures AfterRelease(x, t).mem == AfterRelease(x, t).box
  {
  }
}

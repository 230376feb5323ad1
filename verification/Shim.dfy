/** temporal_core.c: every operation allocates a context, copies its inputs, launches the core and
    promises exactly one `done`, which it calls itself when it cannot set the operation up. */
module Shim {
  import opened CStrings
  import opened Results
  import Metadata

  /** Addresses; 0 is NULL. */
  type Ptr = nat

  /** What the core is launched with, read back from the copies. */
  datatype Args =
    | ConnectArgs(options: seq<Bytes>, tls: Option<seq<Bytes>>)
    | RpcArgs(service: int, method_: Bytes, req: Bytes, timeout: nat, token: Ptr, metadata: seq<Bytes>)
    | PollArgs
    | CompleteArgs(completion: Bytes)
    | FinalizeArgs

  /** The operation that is launched with these arguments. */
  function KindOf(args: Args): Kind {
    match args
    case ConnectArgs(_, _) => Connect
    case RpcArgs(_, _, _, _, _, _) => Rpc
    case PollArgs => Poll
    case CompleteArgs(_) => Complete
    case FinalizeArgs => Finalize
  }

  /** The checked allocations of a worker operation: a completion is copied. */
  function Checked(args: Args): nat {
    if args.CompleteArgs? then 2 else 1
  }

  datatype Launch = Launch(ctx: Ptr, args: Args)

  /** One call of the `done` callback: the connection flag and the pointers it was passed. */
  datatype Done = Done(connection: bool, owner: Ptr, status: nat, fail: Ptr, details: Ptr)

  /** The block strdup makes. */
  function Dup(s: Bytes): Bytes {
    CutNul(s) + [NUL]
  }

  lemma {:induction false} DupReads(s: Bytes)
    ensures CutNul(Dup(s)) == CutNul(s)
  {
    CutAtNul(CutNul(s), []);
  }

  lemma {:induction false} CutAtNul(s: Bytes, rest: Bytes)
    requires NUL !in s
    ensures CutNul(s + [NUL] + rest) == s
  {
    if s != [] {
      CutAtNul(s[1..], rest);
      assert (s + [NUL] + rest)[1..] == s[1..] + [NUL] + rest;
    }
  }

  /** Copies read as far as the strings they were made from. */
  lemma {:induction false} CopiesRead(heap: map<Ptr, Bytes>, copies: seq<Ptr>, ss: seq<Bytes>)
    requires |copies| == |ss|
    requires forall i :: 0 <= i < |ss| ==> copies[i] in heap && heap[copies[i]] == Dup(ss[i])
    ensures forall i :: 0 <= i < |ss| ==> CutNul(heap[copies[i]]) == CutNul(ss[i])
  {
    forall i | 0 <= i < |ss| ensures CutNul(heap[copies[i]]) == CutNul(ss[i]) {
      DupReads(ss[i]);
    }
  }

  lemma {:induction false} OneMore<T>(s: seq<T>, i: nat)
    requires i < |s|
    ensures s[..i + 1] == s[..i] + [s[i]]
  {
  }

  lemma {:induction false} TakeAll<T>(s: seq<T>)
    ensures s[..|s|] == s
  {
  }

  /** No block is listed twice; NULL may be. */
  predicate Distinct(ps: seq<Ptr>) {
    forall i, j :: 0 <= i < j < |ps| && ps[i] == ps[j] ==> ps[i] == 0
  }

  predicate Apart(p: Ptr, q: Ptr) {
    p == q ==> p == 0
  }

  function Blocks(ps: seq<Ptr>): set<Ptr> {
    set p | p in ps && p != 0
  }

  // ---------------------------------------------------------------------------
  // What an operation does to the heap
  // ---------------------------------------------------------------------------

  /** `blocks` are new, and nothing else changed. */
  predicate Owned(before: map<Ptr, Bytes>, after: map<Ptr, Bytes>, blocks: set<Ptr>) {
    blocks !! before.Keys && after.Keys == before.Keys + blocks && after - blocks == before
  }

  lemma OwnOneMore(before: map<Ptr, Bytes>, heap: map<Ptr, Bytes>, blocks: set<Ptr>, p: Ptr, data: Bytes)
    requires Owned(before, heap, blocks) && p !in heap
    ensures Owned(before, heap[p := data], blocks + {p})
  {
    assert heap[p := data] - (blocks + {p}) == heap - blocks;
  }

  /** An allocation that may have failed. */
  lemma OwnAttempt(before: map<Ptr, Bytes>, heap: map<Ptr, Bytes>, blocks: set<Ptr>, p: Ptr, data: Bytes)
    requires Owned(before, heap, blocks) && p !in heap
    ensures Owned(before, if p == 0 then heap else heap[p := data], blocks + Blocks([p]))
  {
    if p != 0 {
      assert Blocks([p]) == {p};
      OwnOneMore(before, heap, blocks, p, data);
    } else {
      assert blocks + Blocks([p]) == blocks;
    }
  }

  /** What was on the heap is still there. */
  predicate Kept(before: map<Ptr, Bytes>, after: map<Ptr, Bytes>) {
    forall p :: p in before ==> p in after && after[p] == before[p]
  }

  /** The shim called `done` with its own message, and kept nothing. */
  predicate FailedSync(before: map<Ptr, Bytes>, after: map<Ptr, Bytes>, dones: seq<Done>, dones': seq<Done>,
                       fail: Ptr, text: Bytes) {
    && dones' == dones + [Done(false, 0, 0, fail, 0)]
    && fail !in before && after == (if fail == 0 then before else before[fail := Dup(text)])
  }

  /** What strdup and strlen make of the metadata pointers. */
  function CutAll(ss: seq<Bytes>): seq<Bytes> {
    seq(|ss|, i requires 0 <= i < |ss| => CutNul(ss[i]))
  }

  /** The message behind a pointer, without its terminator. */
  function Message(heap: map<Ptr, Bytes>, p: Ptr): Option<Bytes> {
    if p in heap && heap[p] != [] then Some(heap[p][..|heap[p]| - 1]) else None
  }

  function Contents(core: map<Ptr, Bytes>, p: Ptr): Option<Bytes> {
    if p in core then Some(core[p]) else None
  }

  /** The bundle that `done` was passed. */
  function Passed(d: Done, heap: map<Ptr, Bytes>, core: map<Ptr, Bytes>): Bundle {
    Bundle(d.connection, Contents(core, d.owner), d.owner in core, d.status,
           Message(heap, d.fail), Message(heap, d.details))
  }

  /** The core's answer behind the pointers its callback gets. */
  function AnswerAt(core: map<Ptr, Bytes>, connection: bool, success: Ptr, fail: Ptr, details: Ptr,
                    status: nat): Answer {
    Answer(connection, Contents(core, success), Contents(core, fail), Contents(core, details), status)
  }

  /** The shim's own failure is the bundle the bridge expects of it: a message and nothing else, or
      not even that. */
  lemma FailureIsOutOfMemory(before: map<Ptr, Bytes>, after: map<Ptr, Bytes>, core: map<Ptr, Bytes>, dones: seq<Done>,
                             dones': seq<Done>, fail: Ptr, text: Bytes)
    requires FailedSync(before, after, dones, dones', fail, text) && 0 !in core && 0 !in before
    ensures |dones'| == |dones| + 1
    ensures Passed(dones'[|dones|], after, core) == OutOfMemory(if fail == 0 then None else Some(CutNul(text)))
  {
  }

  /** How many of the first `n` strings are not NULL. */
  function Given(params: seq<Option<Bytes>>, n: nat): nat
    requires n <= |params|
  {
    if n == 0 then 0 else Given(params, n - 1) + (if params[n - 1].Some? then 1 else 0)
  }

  /** What the core reads of an option that is `s` to the caller; `room` says whether it could be copied. */
  function Read(s: Option<Bytes>, room: bool): Bytes {
    if s.Some? && room then CutNul(s.value) else []
  }

  /** `p` is a copy of `s`; NULL for NULL, and where there was no room. */
  predicate CopyOk(p: Ptr, s: Option<Bytes>, heap: map<Ptr, Bytes>, room: bool) {
    && (p != 0 <==> s.Some? && room)
    && (p != 0 ==> p in heap && heap[p] == Dup(s.value))
  }

  /** Each string is a copy of its parameter, if there was room for it. */
  predicate Copies(strings: seq<Ptr>, heap: map<Ptr, Bytes>, params: seq<Option<Bytes>>, finds: seq<bool>) {
    && |strings| == |params| == |finds|
    && forall i :: 0 <= i < |strings| ==> CopyOk(strings[i], params[i], heap, finds[i])
  }

  lemma CopyStays(p: Ptr, s: Option<Bytes>, before: map<Ptr, Bytes>, after: map<Ptr, Bytes>, room: bool)
    requires CopyOk(p, s, before, room) && Kept(before, after)
    ensures CopyOk(p, s, after, room)
  {
  }

  lemma CopyMore(strings: seq<Ptr>, before: map<Ptr, Bytes>, after: map<Ptr, Bytes>, params: seq<Option<Bytes>>,
                 finds: seq<bool>, p: Ptr, s: Option<Bytes>, room: bool)
    requires Copies(strings, before, params, finds) && Kept(before, after) && CopyOk(p, s, after, room)
    ensures Copies(strings + [p], after, params + [s], finds + [room])
  {
    forall i | 0 <= i < |strings| ensures CopyOk(strings[i], params[i], after, finds[i]) {
      CopyStays(strings[i], params[i], before, after, finds[i]);
    }
  }

  /** Which of the strings there was room for; allocation number `first` was for the first that is given. */
  predicate Found(finds: seq<bool>, params: seq<Option<Bytes>>, room: nat -> bool, first: nat) {
    && |finds| <= |params|
    && forall i {:trigger finds[i]} :: 0 <= i < |finds| ==> finds[i] == room(first + Given(params, i))
  }

  lemma {:induction false} FoundMore(finds: seq<bool>, params: seq<Option<Bytes>>, room: nat -> bool, first: nat)
    requires Found(finds, params, room, first) && |finds| < |params|
    ensures Found(finds + [room(first + Given(params, |finds|))], params, room, first)
  {
  }

  /** What temporal_php_ref makes of a copied string: empty if it is NULL. */
  function RefOf(heap: map<Ptr, Bytes>, p: Ptr): Bytes {
    if p in heap then CutNul(heap[p]) else []
  }

  lemma {:induction false} RefReads(p: Ptr, s: Option<Bytes>, heap: map<Ptr, Bytes>, room: bool)
    requires CopyOk(p, s, heap, room) && 0 !in heap
    ensures RefOf(heap, p) == Read(s, room)
  {
    if p != 0 {
      DupReads(s.value);
    }
  }

  /** The core is launched with the options the caller gave, each where it belongs, and with the TLS
      options if and only if TLS is on. Allocation number `first` was for the first of them. */
  predicate RightOptions(args: Args, params: seq<Option<Bytes>>, tls: bool, room: nat -> bool, first: nat)
    requires |params| == 9
  {
    && args.ConnectArgs? && |args.options| == 5
    && (args.tls.Some? <==> tls) && (tls ==> |args.tls.value| == 4)
    && (forall i {:trigger args.options[i]} :: 0 <= i < 5 ==>
          args.options[i] == Read(params[i], room(first + Given(params, i))))
    && (tls ==>
          forall j {:trigger args.tls.value[j]} :: 0 <= j < 4 ==>
            args.tls.value[j] == Read(params[5 + j], room(first + Given(params, 5 + j))))
  }

  lemma {:induction false} OptionsAreRight(refs: seq<Bytes>, params: seq<Option<Bytes>>, finds: seq<bool>, tls: bool,
                        room: nat -> bool, first: nat)
    requires |refs| == |params| == |finds| == 9 && Found(finds, params, room, first)
    requires forall i {:trigger refs[i]} :: 0 <= i < 9 ==> refs[i] == Read(params[i], finds[i])
    ensures RightOptions(ConnectArgs(refs[..5], if tls then Some(refs[5..]) else None), params, tls, room, first)
  {
    forall i {:trigger refs[i]} | 0 <= i < 9 ensures refs[i] == Read(params[i], room(first + Given(params, i))) {
      assert finds[i] == room(first + Given(params, i));
    }
  }

  /** The core is launched with the call the caller made, every string up to its first NUL. */
  predicate RightCall(args: Args, service: int, name: Bytes, req: Bytes, timeout: nat, metadata: seq<Bytes>,
                      token: Ptr) {
    && args.RpcArgs? && args.service == service && args.timeout == timeout && args.token == token
    && args.method_ == CutNul(name) && args.req == req
    && |args.metadata| == |metadata|
    && forall i :: 0 <= i < |metadata| ==> args.metadata[i] == Metadata.CoreEntry(metadata[i])
  }

  /** The heap, the core's byte arrays, and the log of what was launched and delivered. */
  class World {
    var heap: map<Ptr, Bytes>
    var core: map<Ptr, Bytes>
    var next: Ptr
    var launches: seq<Launch>
    var dones: seq<Done>
    var asked: nat              // the checked allocations so far
    const room: nat -> bool     // which of them find memory
    const oom: Bytes            // "temporal: out of memory"

    ghost predicate Valid()
      reads this
    {
      next > 0 && 0 !in core && forall p :: p in heap ==> 0 < p < next
    }

    constructor (oom: Bytes, room: nat -> bool)
      ensures Valid() && heap == map[] && core == map[] && launches == [] && dones == [] && asked == 0
      ensures this.oom == oom && this.room == room
    {
      heap, core, next, launches, dones, asked := map[], map[], 1, [], [], 0;
      this.oom, this.room := oom, room;
    }

    /** NULL, or a byte array the core has handed out. */
    ghost predicate CoreBuffer(p: Ptr)
      reads this
    {
      p != 0 ==> p in core
    }

    /** malloc or calloc without a check, and the copy into the block. */
    method AllocSure(data: Bytes) returns (p: Ptr)
      requires Valid()
      modifies this`heap, this`next
      ensures Valid() && p !in old(heap) && p != 0 && heap == old(heap)[p := data]
    {
      p := next;
      heap := heap[p := data];
      next := next + 1;
    }

    /** malloc or calloc with a check, and the copy into the block. */
    method Alloc(data: Bytes) returns (p: Ptr)
      requires Valid()
      modifies this`heap, this`next, this`asked
      ensures Valid() && p !in old(heap) && (p != 0 <==> room(old(asked))) && asked == old(asked) + 1
      ensures heap == if p == 0 then old(heap) else old(heap)[p := data]
    {
      p := 0;
      if room(asked) {
        p := AllocSure(data);
      }
      asked := asked + 1;
    }

    /** free. */
    method Free(p: Ptr)
      requires Valid() && (p != 0 ==> p in heap)
      modifies this`heap
      ensures Valid() && heap == old(heap) - {p}
    {
      heap := heap - {p};
    }

    /** The frees of a context, one after the other. */
    method FreeAll(ps: seq<Ptr>)
      requires Valid() && Distinct(ps) && Blocks(ps) <= heap.Keys
      modifies this`heap
      ensures Valid() && heap == old(heap) - Blocks(ps)
    {
      for i := 0 to |ps|
        invariant Valid() && heap == old(heap) - Blocks(ps[..i])
      {
        OneMore(ps, i);
        assert ps[i] != 0 ==> ps[i] !in ps[..i];
        assert ps[i] != 0 ==> ps[i] in Blocks(ps);
        Free(ps[i]);
      }
      TakeAll(ps);
    }

    /** temporal_core_byte_array_free. */
    method CoreFree(p: Ptr)
      requires Valid() && p in core
      modifies this`core
      ensures Valid() && core == old(core) - {p}
    {
      core := core - {p};
    }

    /** `done(...)`. */
    method CallDone(d: Done)
      modifies this`dones
      ensures dones == old(dones) + [d]
    {
      dones := dones + [d];
    }

    /** `done(user_data, ..., strdup("temporal: out of memory"), ...)`. */
    method FailSync() returns (fail: Ptr)
      requires Valid()
      modifies this`heap, this`next, this`asked, this`dones
      ensures Valid() && FailedSync(old(heap), heap, old(dones), dones, fail, oom)
      ensures (fail != 0 <==> room(old(asked))) && asked == old(asked) + 1
    {
      fail := Alloc(Dup(oom));
      CallDone(Done(false, 0, 0, fail, 0));
    }

    /** temporal_php_copy_str: copy a core buffer, release it either way. */
    method CopyStr(src: Ptr) returns (out: Ptr)
      requires Valid() && CoreBuffer(src)
      modifies this`heap, this`next, this`asked, this`core
      ensures Valid() && core == old(core) - {src} && out !in old(heap)
      ensures (out != 0 <==> src != 0 && room(old(asked))) && asked == old(asked) + (if src != 0 then 1 else 0)
      ensures heap == if out == 0 then old(heap) else old(heap)[out := old(core)[src] + [NUL]]
    {
      out := 0;
      if src != 0 {
        out := Alloc(core[src] + [NUL]);
        CoreFree(src);
      }
    }

    // -------------------------------------------------------------------------
    // RPC
    // -------------------------------------------------------------------------

    /** calloc of the context and, if there is one, strdup of the method and malloc for the request. */
    method RpcBlocks(name: Bytes, req: Bytes) returns (block: Ptr, m: Ptr, q: Ptr)
      requires Valid()
      modifies this`heap, this`next, this`asked
      ensures Valid() && Distinct([m, q, block]) && Owned(old(heap), heap, Blocks([m, q, block]))
      ensures asked == old(asked) + (if block != 0 then 3 else 1) && (block != 0 <==> room(old(asked)))
      ensures m != 0 <==> block != 0 && room(old(asked) + 1)
      ensures q != 0 <==> block != 0 && room(old(asked) + 2)
      ensures m != 0 ==> heap[m] == Dup(name)
      ensures q != 0 ==> heap[q] == req
    {
      m, q := 0, 0;
      block := Alloc([]);
      if block == 0 {
        assert Blocks([m, q, block]) == {};
        return;
      }
      OwnAttempt(old(heap), old(heap), {}, block, []);
      ghost var first := heap;
      m := Alloc(Dup(name));
      OwnAttempt(old(heap), first, {} + Blocks([block]), m, Dup(name));
      ghost var second := heap;
      q := Alloc(req);
      OwnAttempt(old(heap), second, {} + Blocks([block]) + Blocks([m]), q, req);
      assert Blocks([m, q, block]) == {} + Blocks([block]) + Blocks([m]) + Blocks([q]);
    }

    /** The three checked allocations of temporal_php_rpc_call: all, or none kept. */
    method NewRpcCtx(name: Bytes, req: Bytes) returns (c: RpcCtx?)
      requires Valid()
      modifies this`heap, this`next, this`asked
      ensures Valid() && (c != null <==> room(old(asked)) && room(old(asked) + 1) && room(old(asked) + 2))
      ensures asked == old(asked) + (if room(old(asked)) then 3 else 1)
      ensures if c == null then heap == old(heap)
              else && fresh(c) && c.arrays == [] && c.strings == []
                   && c.Owns(old(heap), heap) && heap[c.name] == Dup(name) && heap[c.req] == req
    {
      c := null;
      var block, m, q := RpcBlocks(name, req);
      if m == 0 || q == 0 {
        FreeAll([m, q, block]);
        return;
      }
      c := new RpcCtx(block, m, q);
      assert c.Ptrs() == [m, q, block];
    }

    /** temporal_php_rpc_call; `c` is NULL when `done` was called instead of the core. */
    method RpcCall(service: int, name: Bytes, req: Bytes, timeout: nat, metadata: seq<Bytes>, token: Ptr)
      returns (c: RpcCtx?, fail: Ptr)
      requires Valid()
      modifies this`heap, this`next, this`asked, this`dones, this`launches
      ensures Valid() && (c != null <==> room(old(asked)) && room(old(asked) + 1) && room(old(asked) + 2))
      ensures c == null ==> launches == old(launches) && FailedSync(old(heap), heap, old(dones), dones, fail, oom)
      ensures c == null ==> (fail != 0 <==> room(old(asked) + if room(old(asked)) then 3 else 1))
      ensures c != null ==> dones == old(dones) && fresh(c) && c.Owns(old(heap), heap) && asked == old(asked) + 3
      ensures c != null ==> |launches| == |old(launches)| + 1 && launches[..|old(launches)|] == old(launches)
      ensures c != null ==> launches[|old(launches)|].ctx == c.block
      ensures c != null ==> RightCall(launches[|old(launches)|].args, service, name, req, timeout, metadata, token)
    {
      fail := 0;
      c := NewRpcCtx(name, req);
      if c == null {
        fail := FailSync();
        return;
      }
      c.CopyMetadata(this, metadata, old(heap));
      DupReads(name);
      var args := RpcArgs(service, CutNul(heap[c.name]), heap[c.req], timeout, token, c.MetadataRefs(heap));
      launches := launches + [Launch(c.block, args)];
    }

    /** temporal_php_on_rpc: the core has answered, once. */
    method OnRpc(c: RpcCtx, success: Ptr, status: nat, failure: Ptr, details: Ptr) returns (fail: Ptr, copy: Ptr)
      requires Valid() && Distinct(c.Ptrs()) && Blocks(c.Ptrs()) <= heap.Keys
      requires CoreBuffer(success) && CoreBuffer(failure) && CoreBuffer(details)
      requires Apart(success, failure) && Apart(success, details) && Apart(failure, details)
      modifies this`heap, this`next, this`asked, this`dones, this`core
      ensures Valid() && dones == old(dones) + [Done(false, success, status, fail, copy)]
      ensures core == old(core) - {failure, details}
      ensures Owned(old(heap) - Blocks(c.Ptrs()), heap, Blocks([fail, copy]))
      ensures fail != 0 <==> failure != 0 && room(old(asked))
      ensures copy != 0 <==> details != 0 && room(old(asked) + if failure != 0 then 1 else 0)
      ensures fail != 0 ==> heap[fail] == old(core)[failure] + [NUL]
      ensures copy != 0 ==> heap[copy] == old(core)[details] + [NUL]
      ensures Passed(Done(false, success, status, fail, copy), heap, core)
              == Delivered(Rpc, AnswerAt(old(core), false, success, failure, details, status), fail != 0, copy != 0)
    {
      fail, copy := CopyTwo(failure, details);
      CallDone(Done(false, success, status, fail, copy));
      ghost var copied := heap;
      DropCtx(c.Ptrs(), old(heap), Blocks([fail, copy]));
      assert Message(heap, fail) == Message(copied, fail) && Message(heap, copy) == Message(copied, copy);
    }

    /** Both failure buffers of an RPC. */
    method CopyTwo(failure: Ptr, details: Ptr) returns (fail: Ptr, copy: Ptr)
      requires Valid() && CoreBuffer(failure) && CoreBuffer(details) && Apart(failure, details)
      modifies this`heap, this`next, this`asked, this`core
      ensures Valid() && core == old(core) - {failure, details}
      ensures Owned(old(heap), heap, Blocks([fail, copy])) && (fail != 0 && copy != 0 ==> fail != copy)
      ensures fail != 0 <==> failure != 0 && room(old(asked))
      ensures copy != 0 <==> details != 0 && room(old(asked) + if failure != 0 then 1 else 0)
      ensures fail != 0 ==> heap[fail] == old(core)[failure] + [NUL]
      ensures copy != 0 ==> heap[copy] == old(core)[details] + [NUL]
      ensures Message(heap, fail) == Copied(Contents(old(core), failure), fail != 0)
      ensures Message(heap, copy) == Copied(Contents(old(core), details), copy != 0)
    {
      fail := CopyStr(failure);
      copy := CopyStr(details);
    }

    /** The context is freed; what `done` was passed stays. */
    method DropCtx(ps: seq<Ptr>, ghost before: map<Ptr, Bytes>, ghost passed: set<Ptr>)
      requires Valid() && Distinct(ps) && Blocks(ps) <= before.Keys && Owned(before, heap, passed)
      modifies this`heap
      ensures Valid() && Owned(before - Blocks(ps), heap, passed)
      ensures forall p :: p in passed ==> p in old(heap) && heap[p] == old(heap[p])
    {
      FreeAll(ps);
      assert heap - passed == (old(heap) - passed) - Blocks(ps);
    }

    /** A whole RPC: the call, and the core's one callback if there was a launch. `done` is called
        exactly once; the core is launched once or, for lack of memory, not at all; and nothing is
        left on the heap but the copies `done` was given, nor in the core but the reply. */
    method RpcOnce(service: int, name: Bytes, req: Bytes, timeout: nat, metadata: seq<Bytes>, token: Ptr,
                   success: Ptr, status: nat, failure: Ptr, details: Ptr)
      returns (launched: bool, fail: Ptr, copy: Ptr)
      requires Valid() && CoreBuffer(success) && CoreBuffer(failure) && CoreBuffer(details)
      requires Apart(success, failure) && Apart(success, details) && Apart(failure, details)
      modifies this`heap, this`next, this`asked, this`dones, this`launches, this`core
      ensures Valid() && Owned(old(heap), heap, Blocks([fail, copy]))
      ensures var d := if launched then Done(false, success, status, fail, copy) else Done(false, 0, 0, fail, 0);
              dones == old(dones) + [d]
      ensures launched <==> room(old(asked)) && room(old(asked) + 1) && room(old(asked) + 2)
      ensures |launches| == |old(launches)| + (if launched then 1 else 0)
      ensures launched ==> RightCall(launches[|old(launches)|].args, service, name, req, timeout, metadata, token)
      ensures core == if launched then old(core) - {failure, details} else old(core)
      ensures launched ==> (fail != 0 <==> failure != 0 && room(old(asked) + 3))
      ensures launched ==> (copy != 0 <==> details != 0 && room(old(asked) + if failure != 0 then 4 else 3))
      ensures !launched ==> copy == 0 && (fail != 0 <==> room(old(asked) + if room(old(asked)) then 3 else 1))
      ensures fail != 0 ==> heap[fail] == if launched then old(core)[failure] + [NUL] else Dup(oom)
      ensures copy != 0 ==> heap[copy] == old(core)[details] + [NUL]
      ensures Passed(dones[|old(dones)|], heap, core)
              == if launched then
                   Delivered(Rpc, AnswerAt(old(core), false, success, failure, details, status), fail != 0, copy != 0)
                 else
                   OutOfMemory(if fail == 0 then None else Some(CutNul(oom)))
    {
      copy := 0;
      var c;
      c, fail := RpcCall(service, name, req, timeout, metadata, token);
      launched := c != null;
      if launched {
        ghost var before := heap;
        fail, copy := OnRpc(c, success, status, failure, details);
        assert before - Blocks(c.Ptrs()) == old(heap);
      } else {
        FailureIsOutOfMemory(old(heap), heap, core, old(dones), dones, fail, oom);
      }
    }

    // -------------------------------------------------------------------------
    // Connect
    // -------------------------------------------------------------------------

    /** temporal_php_strdup: NULL for NULL, and for a failed copy. */
    method DupOption(s: Option<Bytes>) returns (p: Ptr)
      requires Valid()
      modifies this`heap, this`next, this`asked
      ensures Valid() && p !in old(heap) && (p != 0 <==> s.Some? && room(old(asked)))
      ensures asked == old(asked) + (if s.Some? then 1 else 0)
      ensures heap == if p == 0 then old(heap) else old(heap)[p := Dup(s.value)]
    {
      p := 0;
      if s.Some? {
        p := Alloc(Dup(s.value));
      }
    }

    /** temporal_php_connect. `params` are target URL, client name, client version, identity and API
        key, and the four TLS strings, which reach the core only if `tls`. A string whose copy failed
        is unset, as if it had been NULL. */
    method StartConnect(params: seq<Option<Bytes>>, tls: bool) returns (c: ConnectCtx?, fail: Ptr)
      requires Valid() && |params| == 9
      modifies this`heap, this`next, this`asked, this`dones, this`launches
      ensures Valid()
      ensures c == null ==> launches == old(launches) && FailedSync(old(heap), heap, old(dones), dones, fail, oom)
      ensures c != null <==> room(old(asked))
      ensures c == null ==> (fail != 0 <==> room(old(asked) + 1))
      ensures c != null ==> dones == old(dones) && fresh(c) && c.Owns(old(heap), heap)
      ensures c != null ==> asked == old(asked) + 1 + Given(params, 9)
      ensures c != null ==> |launches| == |old(launches)| + 1 && launches[..|old(launches)|] == old(launches)
      ensures c != null ==> launches[|old(launches)|].ctx == c.block
      ensures c != null ==> RightOptions(launches[|old(launches)|].args, params, tls, room, old(asked) + 1)
    {
      fail := 0;
      c := null;
      var block := Alloc([]);
      if block == 0 {
        fail := FailSync();
        return;
      }
      c := new ConnectCtx(block);
      assert c.Ptrs() == [block];
      assert Owned(old(heap), heap, Blocks([block])) by {
        assert heap - {block} == old(heap);
      }
      ghost var finds := c.CopyOptions(this, params, old(heap));
      c.RefsRead(heap, params, finds);
      OptionsAreRight(c.Refs(heap), params, finds, tls, room, old(asked) + 1);
      launches := launches + [Launch(c.block, c.Options(heap, tls))];
    }

    /** temporal_php_on_connect: the message is copied only when there is no connection, and the
        core's buffer released either way. */
    method OnConnect(c: ConnectCtx, connection: bool, failure: Ptr) returns (fail: Ptr)
      requires Valid() && Distinct(c.Ptrs()) && Blocks(c.Ptrs()) <= heap.Keys && CoreBuffer(failure)
      modifies this`heap, this`next, this`asked, this`dones, this`core
      ensures Valid() && dones == old(dones) + [Done(connection, 0, 0, fail, 0)]
      ensures core == old(core) - {failure}
      ensures Owned(old(heap) - Blocks(c.Ptrs()), heap, Blocks([fail]))
      ensures fail != 0 <==> !connection && failure != 0 && room(old(asked))
      ensures fail != 0 ==> heap[fail] == old(core)[failure] + [NUL]
      ensures Passed(Done(connection, 0, 0, fail, 0), heap, core)
              == Delivered(Connect, AnswerAt(old(core), connection, 0, failure, 0, 0), fail != 0, false)
    {
      fail := 0;
      if !connection && failure != 0 {
        fail := Alloc(core[failure] + [NUL]);
      }
      if failure != 0 {
        CoreFree(failure);
      }
      CallDone(Done(connection, 0, 0, fail, 0));
      ghost var copied := heap;
      assert Owned(old(heap), heap, Blocks([fail]));
      DropCtx(c.Ptrs(), old(heap), Blocks([fail]));
      assert Message(heap, fail) == Message(copied, fail);
    }

    /** A whole connect. */
    method ConnectOnce(params: seq<Option<Bytes>>, tls: bool, connection: bool, failure: Ptr)
      returns (launched: bool, fail: Ptr)
      requires Valid() && CoreBuffer(failure) && |params| == 9
      modifies this`heap, this`next, this`asked, this`dones, this`launches, this`core
      ensures Valid() && Owned(old(heap), heap, Blocks([fail]))
      ensures dones == old(dones) + [Done(launched && connection, 0, 0, fail, 0)]
      ensures launched <==> room(old(asked))
      ensures |launches| == |old(launches)| + (if launched then 1 else 0)
      ensures launched ==> RightOptions(launches[|old(launches)|].args, params, tls, room, old(asked) + 1)
      ensures core == if launched then old(core) - {failure} else old(core)
      ensures launched ==> (fail != 0 <==> !connection && failure != 0 && room(old(asked) + 1 + Given(params, 9)))
      ensures !launched ==> (fail != 0 <==> room(old(asked) + 1))
      ensures fail != 0 ==> heap[fail] == if launched then old(core)[failure] + [NUL] else Dup(oom)
      ensures Passed(dones[|old(dones)|], heap, core)
              == if launched then
                   Delivered(Connect, AnswerAt(old(core), connection, 0, failure, 0, 0), fail != 0, false)
                 else
                   OutOfMemory(if fail == 0 then None else Some(CutNul(oom)))
    {
      var c;
      c, fail := StartConnect(params, tls);
      launched := c != null;
      if launched {
        ghost var before := heap;
        fail := OnConnect(c, connection, failure);
        assert before - Blocks(c.Ptrs()) == old(heap);
      } else {
        FailureIsOutOfMemory(old(heap), heap, core, old(dones), dones, fail, oom);
      }
    }

    // -------------------------------------------------------------------------
    // Worker operations
    // -------------------------------------------------------------------------

    /** The poll and finalize contexts: one checked allocation. */
    method StartPlain(args: Args) returns (c: WorkerCtx?, fail: Ptr)
      requires Valid()
      modifies this`heap, this`next, this`asked, this`dones, this`launches
      ensures Valid()
      ensures c == null ==> launches == old(launches) && FailedSync(old(heap), heap, old(dones), dones, fail, oom)
      ensures c != null <==> room(old(asked))
      ensures c == null ==> (fail != 0 <==> room(old(asked) + 1))
      ensures c != null ==> dones == old(dones) && fresh(c) && c.Owns(old(heap), heap) && asked == old(asked) + 1
      ensures c != null ==> launches == old(launches) + [Launch(c.block, args)]
    {
      fail := 0;
      c := null;
      var block := Alloc([]);
      if block == 0 {
        fail := FailSync();
        return;
      }
      c := new WorkerCtx(block, 0);
      assert c.Ptrs() == [0, block];
      assert heap - Blocks([0, block]) == old(heap);
      launches := launches + [Launch(c.block, args)];
    }

    /** temporal_php_worker_complete_activity and temporal_php_worker_complete_workflow. */
    method StartComplete(completion: Bytes) returns (c: WorkerCtx?, fail: Ptr)
      requires Valid()
      modifies this`heap, this`next, this`asked, this`dones, this`launches
      ensures Valid()
      ensures c == null ==> launches == old(launches) && FailedSync(old(heap), heap, old(dones), dones, fail, oom)
      ensures c != null <==> room(old(asked)) && room(old(asked) + 1)
      ensures c == null ==> (fail != 0 <==> room(old(asked) + if room(old(asked)) then 2 else 1))
      ensures c != null ==> dones == old(dones) && fresh(c) && c.Owns(old(heap), heap) && asked == old(asked) + 2
      ensures c != null ==> launches == old(launches) + [Launch(c.block, CompleteArgs(completion))]
    {
      fail := 0;
      c := null;
      var block := Alloc([]);
      var data := 0;
      if block != 0 {
        data := Alloc(completion);
      }
      if block == 0 || data == 0 {
        Free(block);
        assert heap == old(heap);
        fail := FailSync();
        return;
      }
      c := new WorkerCtx(block, data);
      assert c.Ptrs() == [data, block];
      assert heap - Blocks([data, block]) == old(heap);
      launches := launches + [Launch(c.block, CompleteArgs(heap[data]))];
    }

    /** temporal_php_on_worker_poll and, with `success` NULL, temporal_php_on_worker_done. */
    method OnWorker(c: WorkerCtx, success: Ptr, failure: Ptr) returns (fail: Ptr)
      requires Valid() && Distinct(c.Ptrs()) && Blocks(c.Ptrs()) <= heap.Keys
      requires CoreBuffer(success) && CoreBuffer(failure) && Apart(success, failure)
      modifies this`heap, this`next, this`asked, this`dones, this`core
      ensures Valid() && dones == old(dones) + [Done(false, success, 0, fail, 0)]
      ensures core == old(core) - {failure}
      ensures Owned(old(heap) - Blocks(c.Ptrs()), heap, Blocks([fail]))
      ensures fail != 0 <==> failure != 0 && room(old(asked))
      ensures fail != 0 ==> heap[fail] == old(core)[failure] + [NUL]
      ensures Passed(Done(false, success, 0, fail, 0), heap, core)
              == Delivered(Poll, AnswerAt(old(core), false, success, failure, 0, 0), fail != 0, false)
      ensures success == 0 ==>
                Passed(Done(false, success, 0, fail, 0), heap, core)
                == Delivered(Complete, AnswerAt(old(core), false, success, failure, 0, 0), fail != 0, false)
      ensures success == 0 ==>
                Passed(Done(false, success, 0, fail, 0), heap, core)
                == Delivered(Finalize, AnswerAt(old(core), false, success, failure, 0, 0), fail != 0, false)
    {
      fail := CopyStr(failure);
      CallDone(Done(false, success, 0, fail, 0));
      ghost var copied := heap;
      assert Owned(old(heap), heap, Blocks([fail]));
      DropCtx(c.Ptrs(), old(heap), Blocks([fail]));
      assert Message(heap, fail) == Message(copied, fail);
    }

    /** A whole worker operation: a poll, a completion or a finalize. */
    method WorkerOnce(args: Args, success: Ptr, failure: Ptr) returns (launched: bool, fail: Ptr)
      requires args.PollArgs? || ((args.CompleteArgs? || args.FinalizeArgs?) && success == 0)
      requires Valid() && CoreBuffer(success) && CoreBuffer(failure) && Apart(success, failure)
      modifies this`heap, this`next, this`asked, this`dones, this`launches, this`core
      ensures Valid() && Owned(old(heap), heap, Blocks([fail]))
      ensures dones == old(dones) + [Done(false, if launched then success else 0, 0, fail, 0)]
      ensures var n := Checked(args); launched <==> room(old(asked)) && (n == 2 ==> room(old(asked) + 1))
      ensures |launches| == |old(launches)| + (if launched then 1 else 0)
      ensures launched ==> launches[|old(launches)|].args == args
      ensures core == if launched then old(core) - {failure} else old(core)
      ensures launched ==> (fail != 0 <==> failure != 0 && room(old(asked) + Checked(args)))
      ensures !launched ==> (fail != 0 <==> room(old(asked) + if room(old(asked)) then 2 else 1))
      ensures fail != 0 ==> heap[fail] == if launched then old(core)[failure] + [NUL] else Dup(oom)
      ensures Passed(dones[|old(dones)|], heap, core)
              == if launched then
                   Delivered(KindOf(args), AnswerAt(old(core), false, success, failure, 0, 0), fail != 0, false)
                 else
                   OutOfMemory(if fail == 0 then None else Some(CutNul(oom)))
    {
      var c;
      if args.CompleteArgs? {
        c, fail := StartComplete(args.completion);
      } else {
        c, fail := StartPlain(args);
      }
      launched := c != null;
      if launched {
        ghost var before := heap;
        fail := OnWorker(c, success, failure);
        assert before - Blocks(c.Ptrs()) == old(heap);
      } else {
        FailureIsOutOfMemory(old(heap), heap, core, old(dones), dones, fail, oom);
      }
    }
  }

  /** temporal_php_rpc_ctx. */
  class RpcCtx {
    const block: Ptr
    const name: Ptr
    const req: Ptr
    var arrays: seq<Ptr>     // the blocks of meta_strings and meta_refs, if there is metadata
    var strings: seq<Ptr>    // the entries of meta_strings

    constructor (block: Ptr, name: Ptr, req: Ptr)
      ensures this.block == block && this.name == name && this.req == req && arrays == [] && strings == []
    {
      this.block, this.name, this.req := block, name, req;
      arrays, strings := [], [];
    }

    /** What temporal_php_rpc_ctx_free frees. */
    function Ptrs(): seq<Ptr>
      reads this
    {
      [name, req, block] + arrays + strings
    }

    /** The context owns its blocks, and they are all there is on the heap besides `before`. */
    ghost predicate Owns(before: map<Ptr, Bytes>, heap: map<Ptr, Bytes>)
      reads this
    {
      Distinct(Ptrs()) && 0 !in Ptrs() && Owned(before, heap, Blocks(Ptrs()))
    }

    /** The byte array references the core is given. */
    function MetadataRefs(heap: map<Ptr, Bytes>): seq<Bytes>
      requires forall i :: 0 <= i < |strings| ==> strings[i] in heap
      reads this
    {
      seq(|strings|, i requires 0 <= i < |strings| && strings[i] in heap reads this => CutNul(heap[strings[i]]))
    }

    /** One more block. */
    method AddBlock(w: World, data: Bytes, ghost before: map<Ptr, Bytes>) returns (p: Ptr)
      requires w.Valid() && Owns(before, w.heap)
      modifies w`heap, w`next
      ensures w.Valid() && p !in old(w.heap) && w.heap == old(w.heap)[p := data]
      ensures Distinct(Ptrs() + [p]) && 0 !in Ptrs() + [p] && Owned(before, w.heap, Blocks(Ptrs() + [p]))
    {
      p := w.AllocSure(data);
      OwnOneMore(before, old(w.heap), Blocks(Ptrs()), p, data);
      assert p !in Ptrs() by {
        assert p in Ptrs() ==> p in Blocks(Ptrs());
      }
      assert Blocks(Ptrs() + [p]) == Blocks(Ptrs()) + {p};
    }

    /** meta_strings and meta_refs. */
    method AddArrays(w: World, ghost before: map<Ptr, Bytes>)
      requires w.Valid() && arrays == [] && strings == [] && Owns(before, w.heap)
      modifies this`arrays, w`heap, w`next
      ensures w.Valid() && Owns(before, w.heap) && Kept(old(w.heap), w.heap)
    {
      var metaStrings := AddBlock(w, [], before);
      ghost var was := Ptrs();
      arrays := arrays + [metaStrings];
      assert Ptrs() == was + [metaStrings];
      var metaRefs := AddBlock(w, [], before);
      was := Ptrs();
      arrays := arrays + [metaRefs];
      assert Ptrs() == was + [metaRefs];
    }

    /** The entries are the copies of `metadata`. */
    ghost predicate Copied(heap: map<Ptr, Bytes>, metadata: seq<Bytes>)
      reads this
    {
      && |strings| == |metadata|
      && forall i :: 0 <= i < |strings| ==> strings[i] in heap && heap[strings[i]] == Dup(metadata[i])
    }

    /** strdup of one entry into meta_strings. */
    method AddString(w: World, entry: Bytes, ghost before: map<Ptr, Bytes>, ghost metadata: seq<Bytes>)
      requires w.Valid() && Owns(before, w.heap) && Copied(w.heap, metadata)
      modifies this`strings, w`heap, w`next
      ensures w.Valid() && Owns(before, w.heap) && Kept(old(w.heap), w.heap)
      ensures Copied(w.heap, metadata + [entry])
    {
      var p := AddBlock(w, Dup(entry), before);
      ghost var was := Ptrs();
      strings := strings + [p];
      assert Ptrs() == was + [p];
    }

    /** The loop over the metadata. */
    method AddStrings(w: World, metadata: seq<Bytes>, ghost before: map<Ptr, Bytes>)
      requires w.Valid() && strings == [] && Owns(before, w.heap)
      modifies this`strings, w`heap, w`next
      ensures w.Valid() && Owns(before, w.heap) && Kept(old(w.heap), w.heap) && Copied(w.heap, metadata)
    {
      for i := 0 to |metadata|
        invariant w.Valid() && Owns(before, w.heap) && Kept(old(w.heap), w.heap)
        invariant Copied(w.heap, metadata[..i])
      {
        AddString(w, metadata[i], before, metadata[..i]);
        OneMore(metadata, i);
      }
      TakeAll(metadata);
    }

    /** The metadata part of temporal_php_rpc_call. */
    method CopyMetadata(w: World, metadata: seq<Bytes>, ghost before: map<Ptr, Bytes>)
      requires w.Valid() && arrays == [] && strings == [] && Owns(before, w.heap)
      modifies this, w`heap, w`next
      ensures w.Valid() && Owns(before, w.heap) && Kept(old(w.heap), w.heap)
      ensures Copied(w.heap, metadata) && MetadataRefs(w.heap) == CutAll(metadata)
    {
      if metadata == [] {
        return;
      }
      AddArrays(w, before);
      AddStrings(w, metadata, before);
      CopiesRead(w.heap, strings, metadata);
    }
  }

  /** temporal_php_connect_ctx: the copied option strings, NULL where unset. */
  class ConnectCtx {
    const block: Ptr
    var strings: seq<Ptr>

    constructor (block: Ptr)
      ensures this.block == block && strings == []
    {
      this.block := block;
      strings := [];
    }

    /** What temporal_php_connect_ctx_free frees. */
    function Ptrs(): seq<Ptr>
      reads this
    {
      [block] + strings
    }

    ghost predicate Owns(before: map<Ptr, Bytes>, heap: map<Ptr, Bytes>)
      reads this
    {
      Distinct(Ptrs()) && Owned(before, heap, Blocks(Ptrs()))
    }

    /** temporal_php_ref of each option. */
    function Refs(heap: map<Ptr, Bytes>): seq<Bytes>
      reads this
    {
      seq(|strings|, i requires 0 <= i < |strings| reads this => RefOf(heap, strings[i]))
    }

    /** c->options, with c->tls if it is set. */
    function Options(heap: map<Ptr, Bytes>, tls: bool): Args
      requires |strings| == 9
      reads this
    {
      ConnectArgs(Refs(heap)[..5], if tls then Some(Refs(heap)[5..]) else None)
    }

    /** One string: a new block of the context, or NULL. */
    method TakeCopy(w: World, s: Option<Bytes>, ghost before: map<Ptr, Bytes>) returns (p: Ptr)
      requires w.Valid() && Owns(before, w.heap)
      modifies w`heap, w`next, w`asked
      ensures w.Valid() && (p != 0 <==> s.Some? && w.room(old(w.asked)))
      ensures w.asked == old(w.asked) + if s.Some? then 1 else 0
      ensures Kept(old(w.heap), w.heap) && (p != 0 ==> p in w.heap && w.heap[p] == Dup(s.value))
      ensures Distinct(Ptrs() + [p]) && Owned(before, w.heap, Blocks(Ptrs() + [p]))
    {
      p := w.DupOption(s);
      if p != 0 {
        OwnOneMore(before, old(w.heap), Blocks(Ptrs()), p, Dup(s.value));
        assert p !in Ptrs() by {
          assert p in Ptrs() ==> p in Blocks(Ptrs());
        }
      }
      assert Blocks(Ptrs() + [p]) == if p == 0 then Blocks(Ptrs()) else Blocks(Ptrs()) + {p};
    }

    method CopyOption(w: World, s: Option<Bytes>, ghost before: map<Ptr, Bytes>,
                      ghost params: seq<Option<Bytes>>, ghost finds: seq<bool>)
      requires w.Valid() && Owns(before, w.heap) && Copies(strings, w.heap, params, finds)
      modifies this`strings, w`heap, w`next, w`asked
      ensures w.Valid() && Owns(before, w.heap)
      ensures Copies(strings, w.heap, params + [s], finds + [w.room(old(w.asked))])
      ensures w.asked == old(w.asked) + if s.Some? then 1 else 0
    {
      var p := TakeCopy(w, s, before);
      CopyMore(strings, old(w.heap), w.heap, params, finds, p, s, w.room(old(w.asked)));
      ghost var was := Ptrs();
      strings := strings + [p];
      assert Ptrs() == was + [p];
    }

    method CopyOptions(w: World, params: seq<Option<Bytes>>, ghost before: map<Ptr, Bytes>)
      returns (ghost finds: seq<bool>)
      requires w.Valid() && strings == [] && Owns(before, w.heap)
      modifies this`strings, w`heap, w`next, w`asked
      ensures w.Valid() && Owns(before, w.heap)
      ensures Copies(strings, w.heap, params, finds) && Found(finds, params, w.room, old(w.asked))
      ensures w.asked == old(w.asked) + Given(params, |params|)
    {
      finds := [];
      for i := 0 to |params|
        invariant |finds| == i && w.Valid() && Owns(before, w.heap)
        invariant Copies(strings, w.heap, params[..i], finds) && Found(finds, params, w.room, old(w.asked))
        invariant w.asked == old(w.asked) + Given(params, i)
      {
        ghost var found := w.room(w.asked);
        assert Found(finds + [found], params, w.room, old(w.asked)) by {
          FoundMore(finds, params, w.room, old(w.asked));
        }
        CopyOption(w, params[i], before, params[..i], finds);
        finds := finds + [found];
        OneMore(params, i);
      }
      TakeAll(params);
    }

    lemma {:induction false} RefsRead(heap: map<Ptr, Bytes>, params: seq<Option<Bytes>>, finds: seq<bool>)
      requires Copies(strings, heap, params, finds) && 0 !in heap
      ensures |Refs(heap)| == |params|
      ensures forall i {:trigger Refs(heap)[i]} :: 0 <= i < |params| ==> Refs(heap)[i] == Read(params[i], finds[i])
    {
      forall i {:trigger Refs(heap)[i]} | 0 <= i < |params| ensures Refs(heap)[i] == Read(params[i], finds[i]) {
        RefReads(strings[i], params[i], heap, finds[i]);
      }
    }
  }

  /** temporal_php_poll_ctx and temporal_php_worker_done_ctx; `completion` is NULL but for a
      completion. */
  class WorkerCtx {
    const block: Ptr
    const completion: Ptr

    constructor (block: Ptr, completion: Ptr)
      ensures this.block == block && this.completion == completion
    {
      this.block, this.completion := block, completion;
    }

    function Ptrs(): seq<Ptr> {
      [completion, block]
    }

    ghost predicate Owns(before: map<Ptr, Bytes>, heap: map<Ptr, Bytes>) {
      Distinct(Ptrs()) && Owned(before, heap, Blocks(Ptrs()))
    }
  }
}

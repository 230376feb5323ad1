/** Call metadata: flattening a PHP map into the core's "<key>\n<value>" entries, and what the
    core reads back. */
module Metadata {
  import opened CStrings
  import opened Results

  // ---------------------------------------------------------------------------
  // The PHP side
  // ---------------------------------------------------------------------------

  /** A metadata value: a string, or a list of strings. */
  datatype Value = Scalar(s: Bytes) | List(items: seq<Bytes>) {
    function Items(): seq<Bytes> {
      if Scalar? then [s] else items
    }
  }

  /** One slot of the hash table; integer keys have no string. */
  datatype Entry = Entry(key: Option<Bytes>, value: Value)

  type Table = seq<Entry>

  predicate Valid(s: Bytes) {
    NEWLINE !in s
  }

  /** The entries counted before the arrays are allocated, string key or not. */
  function Cap(t: Table): nat {
    if t == [] then 0 else Cap(t[..|t| - 1]) + |t[|t| - 1].value.Items()|
  }

  /** Nothing under a string key has a newline, nor has the key. */
  predicate EntryOk(e: Entry) {
    e.key.Some? ==> Valid(e.key.value) && AllValid(e.value.Items())
  }

  predicate AllValid(items: seq<Bytes>) {
    forall i :: 0 <= i < |items| ==> Valid(items[i])
  }

  predicate TableOk(t: Table) {
    forall i :: 0 <= i < |t| ==> EntryOk(t[i])
  }

  /** The pairs a caller means: string-keyed entries in map order, lists expanded in list order. */
  function RawPairs(t: Table): seq<(Bytes, Bytes)> {
    if t == [] then [] else RawPairs(t[..|t| - 1]) + EntryPairs(t[|t| - 1])
  }

  function EntryPairs(e: Entry): seq<(Bytes, Bytes)> {
    if e.key.None? then []
    else seq(|e.value.Items()|, i requires 0 <= i < |e.value.Items()| => (e.key.value, e.value.Items()[i]))
  }

  /** zend_strpprintf("%s\n%s"). */
  function Wire(key: Bytes, value: Bytes): Bytes {
    CutNul(key) + [NEWLINE] + CutNul(value)
  }

  /** The wire entries of `t`. */
  function WireOf(t: Table): seq<Bytes> {
    seq(|RawPairs(t)|, i requires 0 <= i < |RawPairs(t)| => Wire(RawPairs(t)[i].0, RawPairs(t)[i].1))
  }

  lemma {:induction false} PairsFit(t: Table)
    ensures |RawPairs(t)| <= Cap(t)
  {
    if t != [] {
      PairsFit(t[..|t| - 1]);
    }
  }

  /** The arrays are filled to the last slot exactly when no integer key has a value: those are
      counted, and then skipped. */
  lemma {:induction false} ArraysAreFull(t: Table)
    ensures |RawPairs(t)| == Cap(t) <==> forall i :: 0 <= i < |t| && t[i].key.None? ==> t[i].value.Items() == []
  {
    if t != [] {
      var front := t[..|t| - 1];
      ArraysAreFull(front);
      PairsFit(front);
      assert forall i :: 0 <= i < |front| ==> front[i] == t[i];
    }
  }

  lemma {:induction false} CapPrefix(t: Table, i: nat)
    requires i <= |t|
    ensures Cap(t[..i]) <= Cap(t)
  {
    if i < |t| {
      CapPrefix(t[..|t| - 1], i);
      assert t[..|t| - 1][..i] == t[..i];
    } else {
      assert t[..i] == t;
    }
  }

  // ---------------------------------------------------------------------------
  // The round trip
  // ---------------------------------------------------------------------------

  /** How the core reads an entry: the key ends at the first newline. */
  function Parse(e: Bytes): (Bytes, Bytes) {
    if e == [] then ([], [])
    else if e[0] == NEWLINE then ([], e[1..])
    else var (k, v) := Parse(e[1..]); ([e[0]] + k, v)
  }

  lemma {:induction false} ParseWire(k: Bytes, v: Bytes)
    requires NEWLINE !in k
    ensures Parse(k + [NEWLINE] + v) == (k, v)
  {
    var e := k + [NEWLINE] + v;
    if k == [] {
      assert e[1..] == v;
    } else {
      assert e[1..] == k[1..] + [NEWLINE] + v;
      ParseWire(k[1..], v);
      assert [k[0]] + k[1..] == k;
    }
  }

  /** The entry as the shim copies it: strdup of a pointer into the PHP string. */
  function CoreEntry(wire: Bytes): Bytes {
    CutNul(wire)
  }

  lemma {:induction false} ParseStopsAtNewline(e: Bytes)
    ensures NEWLINE !in Parse(e).0
  {
    if e != [] && e[0] != NEWLINE {
      ParseStopsAtNewline(e[1..]);
    }
  }

  /** One pair survives both layers, up to its NUL bytes, exactly when its key has no newline
      before its first NUL. A newline in the value would do no harm to this reading. */
  lemma {:induction false} PairRoundTrip(k: Bytes, v: Bytes)
    ensures Parse(CoreEntry(Wire(k, v))) == (CutNul(k), CutNul(v)) <==> NEWLINE !in CutNul(k)
  {
    assert NUL !in Wire(k, v);
    ParseStopsAtNewline(Wire(k, v));
    if NEWLINE !in CutNul(k) {
      ParseWire(CutNul(k), CutNul(v));
    }
  }

  lemma {:induction false} KeysOk(t: Table, i: nat)
    requires TableOk(t) && i < |RawPairs(t)|
    ensures Valid(RawPairs(t)[i].0) && Valid(RawPairs(t)[i].1)
  {
    var front := t[..|t| - 1];
    if i < |RawPairs(front)| {
      KeysOk(front, i);
    } else {
      assert EntryOk(t[|t| - 1]);
      assert RawPairs(t)[i] == EntryPairs(t[|t| - 1])[i - |RawPairs(front)|];
    }
  }

  /** What the core reads from a table that flattens is, in order, exactly the table's pairs, each
      part cut at its first NUL. */
  lemma {:induction false} MetadataRoundTrip(t: Table)
    requires TableOk(t)
    ensures |WireOf(t)| == |RawPairs(t)|
    ensures forall i :: 0 <= i < |WireOf(t)| ==>
              Parse(CoreEntry(WireOf(t)[i])) == (CutNul(RawPairs(t)[i].0), CutNul(RawPairs(t)[i].1))
  {
    forall i | 0 <= i < |WireOf(t)|
      ensures Parse(CoreEntry(WireOf(t)[i])) == (CutNul(RawPairs(t)[i].0), CutNul(RawPairs(t)[i].1))
    {
      KeysOk(t, i);
      CutKeepsOut(RawPairs(t)[i].0, NEWLINE);
      PairRoundTrip(RawPairs(t)[i].0, RawPairs(t)[i].1);
    }
  }

  /** Without NUL bytes the round trip is the identity; with one in any part it is not. */
  lemma {:induction false} RoundTripIsIdentity(t: Table, i: nat)
    requires TableOk(t) && i < |RawPairs(t)|
    ensures Parse(CoreEntry(WireOf(t)[i])) == RawPairs(t)[i] <==> NUL !in RawPairs(t)[i].0 && NUL !in RawPairs(t)[i].1
  {
    MetadataRoundTrip(t);
    var (k, v) := RawPairs(t)[i];
    assert NUL !in CutNul(k) && NUL !in CutNul(v);
  }

  // ---------------------------------------------------------------------------
  // The same, slot by slot, on the table's own fields
  // ---------------------------------------------------------------------------

  /** The entries that one slot is sent as. */
  function Count(e: Entry): nat {
    if e.key.None? then 0
    else match e.value
         case Scalar(_) => 1
         case List(xs) => |xs|
  }

  /** Where the entries of slot `i` begin: after those of the slots before it. */
  function Start(t: Table, i: nat): nat
    requires i <= |t|
  {
    if i == 0 then 0 else Start(t, i - 1) + Count(t[i - 1])
  }

  /** `entry` is the string "<key>\n<value>", up to the NULs of both parts, and the core reads it so. */
  predicate Says(entry: Bytes, key: Bytes, value: Bytes) {
    && entry == CutNul(key) + [10] + CutNul(value)
    && Parse(CoreEntry(entry)) == (CutNul(key), CutNul(value))
  }

  /** From `from` on, `sent` has the values of slot `e`, item by item, in order. */
  predicate SpellsSlot(sent: seq<Bytes>, from: nat, e: Entry) {
    && from + Count(e) <= |sent|
    && (e.key.Some? ==>
          match e.value
          case Scalar(s) => Says(sent[from], e.key.value, s)
          case List(xs) => forall j :: 0 <= j < |xs| ==> Says(sent[from + j], e.key.value, xs[j]))
  }

  /** What is sent is the table, slot by slot, in order, and nothing else. */
  predicate Spells(sent: seq<Bytes>, t: Table) {
    |sent| == Start(t, |t|) && forall i :: 0 <= i < |t| ==> SpellsSlot(sent, Start(t, i), t[i])
  }

  lemma {:induction false} StartIsPrefix(t: Table, i: nat, k: nat)
    requires i <= k <= |t|
    ensures Start(t[..k], i) == Start(t, i)
  {
    if i > 0 {
      StartIsPrefix(t, i - 1, k);
    }
  }

  lemma {:induction false} StartGrows(t: Table, i: nat, k: nat)
    requires i < k <= |t|
    ensures Start(t, i) + Count(t[i]) <= Start(t, k)
  {
    if i + 1 < k {
      StartGrows(t, i, k - 1);
    }
  }

  lemma {:induction false} PairsCount(t: Table)
    ensures |RawPairs(t)| == Start(t, |t|)
  {
    if t != [] {
      PairsCount(t[..|t| - 1]);
      StartIsPrefix(t, |t| - 1, |t| - 1);
    }
  }

  /** The `j`-th value of a slot. */
  function ItemOf(e: Entry, j: nat): Bytes
    requires e.key.Some? && j < Count(e)
  {
    match e.value
    case Scalar(s) => s
    case List(xs) => xs[j]
  }

  lemma {:induction false} EntryPairAt(e: Entry, j: nat)
    requires e.key.Some? && j < Count(e)
    ensures |EntryPairs(e)| == Count(e) && EntryPairs(e)[j] == (e.key.value, ItemOf(e, j))
  {
  }

  lemma {:induction false} LastPairAt(t: Table, j: nat)
    requires t != [] && t[|t| - 1].key.Some? && j < Count(t[|t| - 1])
    ensures Start(t, |t| - 1) + j < |RawPairs(t)|
    ensures RawPairs(t)[Start(t, |t| - 1) + j] == (t[|t| - 1].key.value, ItemOf(t[|t| - 1], j))
  {
    PairsCount(t[..|t| - 1]);
    StartIsPrefix(t, |t| - 1, |t| - 1);
    EntryPairAt(t[|t| - 1], j);
  }

  lemma {:induction false} FrontPairAt(t: Table, m: nat)
    requires t != [] && m < |RawPairs(t[..|t| - 1])|
    ensures m < |RawPairs(t)| && RawPairs(t)[m] == RawPairs(t[..|t| - 1])[m]
  {
  }

  /** The pairs of slot `i` stand from Start(t, i) on. */
  lemma {:induction false} PairAt(t: Table, i: nat, j: nat)
    requires i < |t| && t[i].key.Some? && j < Count(t[i])
    ensures Start(t, i) + j < |RawPairs(t)|
    ensures RawPairs(t)[Start(t, i) + j] == (t[i].key.value, ItemOf(t[i], j))
  {
    if i == |t| - 1 {
      LastPairAt(t, j);
    } else {
      PairAt(t[..|t| - 1], i, j);
      StartIsPrefix(t, i, |t| - 1);
      FrontPairAt(t, Start(t, i) + j);
    }
  }

  lemma {:induction false} SaysPair(key: Bytes, value: Bytes)
    requires NEWLINE !in key
    ensures Says(Wire(key, value), key, value)
  {
    CutKeepsOut(key, NEWLINE);
    PairRoundTrip(key, value);
  }

  lemma {:induction false} SaysAt(t: Table, i: nat, j: nat)
    requires i < |t| && EntryOk(t[i]) && t[i].key.Some? && j < Count(t[i])
    ensures Start(t, i) + j < |WireOf(t)| && Says(WireOf(t)[Start(t, i) + j], t[i].key.value, ItemOf(t[i], j))
  {
    PairAt(t, i, j);
    SaysPair(t[i].key.value, ItemOf(t[i], j));
  }

  lemma {:induction false} SlotOfItems(sent: seq<Bytes>, from: nat, e: Entry)
    requires from + Count(e) <= |sent|
    requires e.key.Some? ==> forall j :: 0 <= j < Count(e) ==> Says(sent[from + j], e.key.value, ItemOf(e, j))
    ensures SpellsSlot(sent, from, e)
  {
    if e.key.Some? {
      match e.value
      case Scalar(_) => assert Says(sent[from + 0], e.key.value, ItemOf(e, 0));
      case List(xs) =>
        forall j | 0 <= j < |xs| ensures Says(sent[from + j], e.key.value, xs[j]) {
          assert Says(sent[from + j], e.key.value, ItemOf(e, j));
        }
    }
  }

  lemma {:induction false} SlotFits(t: Table, i: nat)
    requires i < |t|
    ensures Start(t, i) + Count(t[i]) <= |WireOf(t)| == Start(t, |t|)
  {
    PairsCount(t);
    StartGrows(t, i, |t|);
  }

  lemma {:induction false} WireSpellsSlot(t: Table, i: nat)
    requires i < |t| && EntryOk(t[i])
    ensures |WireOf(t)| == Start(t, |t|) && SpellsSlot(WireOf(t), Start(t, i), t[i])
  {
    SlotFits(t, i);
    var sent, from, e := WireOf(t), Start(t, i), t[i];
    if e.key.Some? {
      forall j | 0 <= j < Count(e) ensures Says(sent[from + j], e.key.value, ItemOf(e, j)) {
        SaysAt(t, i, j);
      }
    }
    SlotOfItems(sent, from, e);
  }

  /** What is sent of an accepted table spells it. */
  lemma {:induction false} WireSpellsTable(t: Table)
    requires Cap(t) == 0 || TableOk(t)
    ensures Spells(if Cap(t) == 0 then [] else WireOf(t), t)
  {
    if Cap(t) == 0 {
      NothingCounted(t);
      NothingSent(t, |t|);
      forall i | 0 <= i < |t| ensures SpellsSlot([], Start(t, i), t[i]) {
        NothingSent(t, i);
      }
    } else {
      forall i | 0 <= i < |t| ensures SpellsSlot(WireOf(t), Start(t, i), t[i]) {
        WireSpellsSlot(t, i);
      }
      WireSpellsSlot(t, 0);
    }
  }

  lemma {:induction false} NothingSent(t: Table, i: nat)
    requires i <= |t| && Empty(t)
    ensures Start(t, i) == 0
  {
    if i > 0 {
      NothingSent(t, i - 1);
    }
  }

  /** No slot has a value. */
  predicate Empty(t: Table) {
    forall i :: 0 <= i < |t| ==> t[i].value == List([])
  }

  /** No part under a string key has a newline. */
  predicate Clean(t: Table) {
    forall i :: 0 <= i < |t| && t[i].key.Some? ==>
      10 !in t[i].key.value &&
      match t[i].value
      case Scalar(s) => 10 !in s
      case List(xs) => forall j :: 0 <= j < |xs| ==> 10 !in xs[j]
  }

  lemma {:induction false} NothingCounted(t: Table)
    ensures Cap(t) == 0 <==> Empty(t)
  {
    if t != [] {
      var front := t[..|t| - 1];
      NothingCounted(front);
      assert forall i :: 0 <= i < |front| ==> front[i] == t[i];
    }
  }

  lemma {:induction false} CleanIsOk(t: Table)
    ensures TableOk(t) <==> Clean(t)
  {
    forall i | 0 <= i < |t| && t[i].key.Some?
      ensures EntryOk(t[i]) <==>
              10 !in t[i].key.value &&
              match t[i].value
              case Scalar(s) => 10 !in s
              case List(xs) => forall j :: 0 <= j < |xs| ==> 10 !in xs[j]
    {
      match t[i].value
      case Scalar(s) => assert AllValid([s]) <==> Valid([s][0]);
      case List(xs) =>
    }
  }

  // ---------------------------------------------------------------------------
  // The flattening loops
  // ---------------------------------------------------------------------------

  /** The strings and arrays that have been allocated and not freed. */
  class Heap {
    var live: set<object>

    constructor ()
      ensures live == {}
    {
      live := {};
    }
  }

  /** A zend_string; `refs` is its reference count. It cannot be made without entering the heap, and
      leaves it with its last reference. */
  class ZString {
    const val: Bytes
    var refs: nat

    constructor (heap: Heap, val: Bytes)
      modifies heap
      ensures this.val == val && refs == 1 && heap.live == old(heap.live) + {this}
    {
      this.val := val;
      refs := 1;
      new;
      heap.live := heap.live + {this};
    }

    /** zend_string_release. */
    method Release(heap: Heap)
      requires this in heap.live && refs > 0
      modifies this, heap
      ensures refs == old(refs) - 1
      ensures heap.live == if refs == 0 then old(heap.live) - {this} else old(heap.live)
    {
      refs := refs - 1;
      if refs == 0 {
        heap.live := heap.live - {this};
      }
    }
  }

  /** An emalloc'd array of pointers to strings. */
  class ZArray {
    const slots: array<ZString?>

    constructor (heap: Heap, n: nat)
      modifies heap
      ensures fresh(slots) && slots.Length == n && heap.live == old(heap.live) + {this}
    {
      slots := new ZString?[n](_ => null);
      new;
      heap.live := heap.live + {this};
    }

    /** efree. */
    method Efree(heap: Heap)
      requires this in heap.live
      modifies heap
      ensures heap.live == old(heap.live) - {this}
    {
      heap.live := heap.live - {this};
    }
  }

  function Strings(made: seq<ZString>): set<ZString> {
    set z | z in made
  }

  /** The strings `made` are allocated, and so is `base`, and nothing else is. */
  ghost predicate Holds(heap: Heap, base: set<object>, made: seq<ZString>)
    reads heap
  {
    heap.live == base + Strings(made) && base !! Strings(made)
  }

  /** The first slots of both arrays hold the strings `made`, all distinct, one reference each,
      which spell the entries `wire`. */
  ghost predicate Filled(zstrs: array<ZString?>, ptrs: array<ZString?>, made: seq<ZString>, wire: seq<Bytes>)
    reads zstrs, ptrs, made
  {
    && |made| == |wire| <= zstrs.Length == ptrs.Length
    && (forall i :: 0 <= i < |made| ==> zstrs[i] == made[i] && ptrs[i] == made[i])
    && (forall i :: 0 <= i < |made| ==> made[i].refs == 1 && made[i].val == wire[i])
    && (forall i, j :: 0 <= i < j < |made| ==> made[i] != made[j])
  }

  /** The strings of `made'` that are not in `made` are new. */
  twostate predicate Extends(made: seq<ZString>, new made': seq<ZString>) {
    forall i :: 0 <= i < |made'| ==> made'[i] in made || fresh(made'[i])
  }

  /** temporal_metadata_append. The string that zval_get_string returns is given back either way. */
  method Append(heap: Heap, key: Bytes, value: Bytes, zstrs: array<ZString?>, ptrs: array<ZString?>, n: nat,
                ghost base: set<object>, ghost made: seq<ZString>, ghost wire: seq<Bytes>)
    returns (ok: bool, m: nat, ghost made': seq<ZString>)
    requires zstrs != ptrs && n == |made| < zstrs.Length
    requires Filled(zstrs, ptrs, made, wire) && Holds(heap, base, made)
    modifies zstrs, ptrs, heap
    ensures ok <==> Valid(value)
    ensures m == |made'| && Extends(made, made') && Holds(heap, base, made')
    ensures Filled(zstrs, ptrs, made', if ok then wire + [Wire(key, value)] else wire)
  {
    m, made' := n, made;
    var s := new ZString(heap, value);
    if NEWLINE in s.val {
      s.Release(heap);
      return false, m, made';
    }
    var kv := new ZString(heap, Wire(key, value));
    zstrs[n] := kv;
    ptrs[n] := kv;
    m, made' := n + 1, made + [kv];
    s.Release(heap);
    ok := true;
  }

  /** The wire entries of the first `j` values under `key`. */
  function WirePart(key: Bytes, items: seq<Bytes>, j: nat): seq<Bytes>
    requires j <= |items|
  {
    seq(j, i requires 0 <= i < j => Wire(key, items[i]))
  }

  lemma {:induction false} WirePartNext(key: Bytes, items: seq<Bytes>, j: nat, wire: seq<Bytes>)
    requires j < |items|
    ensures wire + WirePart(key, items, j) + [Wire(key, items[j])] == wire + WirePart(key, items, j + 1)
  {
  }

  /** The wire entries of one slot. */
  function EntryWire(e: Entry): seq<Bytes> {
    if e.key.None? then [] else WirePart(e.key.value, e.value.Items(), |e.value.Items()|)
  }

  lemma {:induction false} WireOfNext(t: Table, i: nat)
    requires i < |t|
    ensures WireOf(t[..i + 1]) == WireOf(t[..i]) + EntryWire(t[i])
    ensures Cap(t[..i + 1]) == Cap(t[..i]) + |t[i].value.Items()|
  {
    assert t[..i + 1][..i] == t[..i];
  }

  /** The first `i` slots are valid and spell `wire`. */
  ghost predicate Scanned(t: Table, i: nat, wire: seq<Bytes>)
    requires i <= |t|
  {
    wire == WireOf(t[..i]) && forall j :: 0 <= j < i ==> EntryOk(t[j])
  }

  lemma {:induction false} ScanNext(t: Table, i: nat, wire: seq<Bytes>)
    requires i < |t| && Scanned(t, i, wire) && EntryOk(t[i])
    ensures Scanned(t, i + 1, wire + EntryWire(t[i]))
  {
    WireOfNext(t, i);
  }

  /** The arrays are large enough for the next slot. */
  lemma {:induction false} NextFits(t: Table, i: nat, wire: seq<Bytes>)
    requires i < |t| && Scanned(t, i, wire)
    ensures |wire| + |t[i].value.Items()| <= Cap(t)
  {
    PairsFit(t[..i]);
    CapPrefix(t, i + 1);
    WireOfNext(t, i);
  }

  /** Counting the entries: the first loop of temporal_flatten_metadata. */
  method CountEntries(ht: Table) returns (cap: nat)
    ensures cap == Cap(ht)
  {
    cap := 0;
    for i := 0 to |ht|
      invariant cap == Cap(ht[..i])
    {
      cap := cap + if ht[i].value.List? then |ht[i].value.items| else 1;
      WireOfNext(ht, i);
    }
    assert ht[..|ht|] == ht;
  }

  /** The values under one string key, from the first: appended until one is invalid. */
  method AppendItems(heap: Heap, key: Bytes, items: seq<Bytes>, zstrs: array<ZString?>, ptrs: array<ZString?>, n: nat,
                     ghost base: set<object>, ghost made: seq<ZString>, ghost wire: seq<Bytes>)
    returns (ok: bool, m: nat, ghost made': seq<ZString>, ghost wire': seq<Bytes>)
    requires zstrs != ptrs && n == |made| && n + |items| <= zstrs.Length
    requires Filled(zstrs, ptrs, made, wire) && Holds(heap, base, made)
    modifies zstrs, ptrs, heap
    ensures ok <==> AllValid(items)
    ensures m == |made'| && Extends(made, made') && Filled(zstrs, ptrs, made', wire') && Holds(heap, base, made')
    ensures ok ==> wire' == wire + WirePart(key, items, |items|)
  {
    ok, m, made', wire' := true, n, made, wire;
    for j := 0 to |items|
      invariant ok && m == n + j == |made'| && wire' == wire + WirePart(key, items, j)
      invariant forall i :: 0 <= i < j ==> Valid(items[i])
      invariant Extends(made, made') && Filled(zstrs, ptrs, made', wire') && Holds(heap, base, made')
    {
      ok, m, made' := Append(heap, key, items[j], zstrs, ptrs, m, base, made', wire');
      if !ok {
        return;
      }
      wire' := wire' + [Wire(key, items[j])];
      WirePartNext(key, items, j, wire);
    }
  }

  /** Every string of the list is given up. */
  ghost predicate AllReleased(made: seq<ZString>)
    reads made
  {
    forall i :: 0 <= i < |made| ==> made[i].refs == 0
  }

  /** zend_string_release over the first `n` entries: the `invalid:` path and rpcCall's clean-up. */
  method ReleaseEntries(heap: Heap, zstrs: array<ZString?>, n: nat, ghost base: set<object>, ghost made: seq<ZString>)
    requires n == |made| <= zstrs.Length && Holds(heap, base, made)
    requires forall i :: 0 <= i < n ==> zstrs[i] == made[i] && made[i].refs == 1
    requires forall i, j :: 0 <= i < j < n ==> made[i] != made[j]
    modifies made, heap
    ensures AllReleased(made) && heap.live == base
  {
    for i := 0 to n
      invariant Holds(heap, base, made[i..])
      invariant forall j :: 0 <= j < i ==> made[j].refs == 0
      invariant forall j :: i <= j < n ==> made[j].refs == 1
    {
      assert made[i..] == [made[i]] + made[i + 1..];
      assert made[i] in Strings(made[i..]) && made[i] !in made[i + 1..];
      zstrs[i].Release(heap);
    }
  }

  /** One slot: an integer key is skipped, an invalid key stops the scan. */
  method FlattenEntry(heap: Heap, e: Entry, zstrs: array<ZString?>, ptrs: array<ZString?>, n: nat,
                      ghost base: set<object>, ghost made: seq<ZString>, ghost wire: seq<Bytes>)
    returns (ok: bool, m: nat, ghost made': seq<ZString>, ghost wire': seq<Bytes>)
    requires zstrs != ptrs && n == |made| && n + |e.value.Items()| <= zstrs.Length
    requires Filled(zstrs, ptrs, made, wire) && Holds(heap, base, made)
    modifies zstrs, ptrs, heap
    ensures ok <==> EntryOk(e)
    ensures m == |made'| && Extends(made, made') && Filled(zstrs, ptrs, made', wire') && Holds(heap, base, made')
    ensures ok ==> wire' == wire + EntryWire(e)
  {
    ok, m, made', wire' := true, n, made, wire;
    if e.key.None? {
      return;
    }
    if NEWLINE in e.key.value {
      ok := false;
      return;
    }
    var items := if e.value.List? then e.value.items else [e.value.s];
    ok, m, made', wire' := AppendItems(heap, e.key.value, items, zstrs, ptrs, n, base, made, wire);
  }

  /** The second loop of temporal_flatten_metadata. */
  method FlattenEntries(heap: Heap, ht: Table, zstrs: array<ZString?>, ptrs: array<ZString?>, ghost base: set<object>)
    returns (ok: bool, n: nat, ghost made: seq<ZString>, ghost wire: seq<Bytes>)
    requires zstrs != ptrs && zstrs.Length == ptrs.Length == Cap(ht) && heap.live == base
    modifies zstrs, ptrs, heap
    ensures ok <==> TableOk(ht)
    ensures n == |made| && Extends([], made) && Filled(zstrs, ptrs, made, wire) && Holds(heap, base, made)
    ensures ok ==> wire == WireOf(ht)
  {
    ok, n, made, wire := true, 0, [], [];
    for i := 0 to |ht|
      invariant ok && n == |made| == |wire|
      invariant Scanned(ht, i, wire)
      invariant Extends([], made)
      invariant Filled(zstrs, ptrs, made, wire) && Holds(heap, base, made)
    {
      ghost var before := wire;
      NextFits(ht, i, wire);
      ok, n, made, wire := FlattenEntry(heap, ht[i], zstrs, ptrs, n, base, made, wire);
      if !ok {
        return;
      }
      ScanNext(ht, i, before);
    }
    assert ht[..|ht|] == ht;
  }

  /** temporal_flatten_metadata. `count` is -1 on a ValueError. `made` are the entries it created. */
  method Flatten(heap: Heap, ht: Table) returns (count: int, zstrs: ZArray?, ptrs: ZArray?, ghost made: seq<ZString>)
    modifies heap
    ensures Cap(ht) == 0 ==> count == 0 && made == []
    ensures count == -1 <==> Cap(ht) > 0 && !TableOk(ht)
    ensures count == -1 ==> AllReleased(made)
    ensures Cap(ht) == 0 || count == -1 ==> zstrs == null && ptrs == null && heap.live == old(heap.live)
    ensures Cap(ht) > 0 && TableOk(ht) ==>
              && zstrs != null && ptrs != null && zstrs != ptrs && fresh(zstrs) && fresh(ptrs) && fresh(zstrs.slots)
              && zstrs.slots.Length == Cap(ht) && count == |RawPairs(ht)| == |made|
              && Filled(zstrs.slots, ptrs.slots, made, WireOf(ht))
              && Holds(heap, old(heap.live) + {zstrs, ptrs}, made)
    ensures Extends([], made)
  {
    var cap := CountEntries(ht);
    zstrs, ptrs, made := null, null, [];
    if cap == 0 {
      return 0, zstrs, ptrs, made;
    }
    var zs := new ZArray(heap, cap);
    var ps := new ZArray(heap, cap);
    var ok, n;
    ghost var wire;
    ok, n, made, wire := FlattenEntries(heap, ht, zs.slots, ps.slots, heap.live);
    if !ok {
      ReleaseEntries(heap, zs.slots, n, old(heap.live) + {zs, ps}, made);
      zs.Efree(heap);
      ps.Efree(heap);
      return -1, null, null, made;
    }
    count, zstrs, ptrs := n, zs, ps;
  }

  /** What the shim reads through the pointers it is given. */
  method Pointees(ptrs: array<ZString?>, n: nat,
                  ghost zstrs: array<ZString?>, ghost made: seq<ZString>, ghost wire: seq<Bytes>)
    returns (sent: seq<Bytes>)
    requires n == |made| && Filled(zstrs, ptrs, made, wire)
    ensures sent == wire
  {
    sent := [];
    for i := 0 to n
      invariant sent == wire[..i]
    {
      sent := sent + [ptrs[i].val];
    }
  }

  /** rpcCall around the call: flatten, hand the pointers over, then release every entry once and
      free both arrays. The core shim reads `sent`. */
  method SendEntries(heap: Heap, ht: Table) returns (ok: bool, sent: seq<Bytes>, ghost made: seq<ZString>)
    modifies heap
    ensures ok <==> Cap(ht) == 0 || TableOk(ht)
    ensures ok ==> sent == if Cap(ht) == 0 then [] else WireOf(ht)
    ensures AllReleased(made) && heap.live == old(heap.live)
  {
    var count, zstrs, ptrs;
    count, zstrs, ptrs, made := Flatten(heap, ht);
    ok, sent := count != -1, [];
    if !ok {
      return;
    }
    if ptrs != null {
      sent := Pointees(ptrs.slots, count, zstrs.slots, made, WireOf(ht));
    }
    if zstrs != null {
      ReleaseEntries(heap, zstrs.slots, count, old(heap.live) + {zstrs, ptrs}, made);
      zstrs.Efree(heap);
    }
    if ptrs != null {
      ptrs.Efree(heap);
    }
  }

  /** The same on the table's own fields: rpcCall sends every value under a string key, once, in map and
      list order, or throws if and only if one of them, or such a key, has a newline. */
  method WithMetadata(heap: Heap, ht: Table) returns (ok: bool, sent: seq<Bytes>, ghost made: seq<ZString>)
    modifies heap
    ensures ok <==> Empty(ht) || Clean(ht)
    ensures ok ==> Spells(sent, ht)
    ensures AllReleased(made) && heap.live == old(heap.live)
  {
    NothingCounted(ht);
    CleanIsOk(ht);
    ok, sent, made := SendEntries(heap, ht);
    if ok {
      WireSpellsTable(ht);
    }
  }
}

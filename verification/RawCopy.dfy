/**
  `deepToRaw`: copying a graph of arrays and plain objects out of its reactive proxies. The graph may
  share nodes, contain cycles, and reach one raw node both directly and through several proxies.

  A copy starts as `{}` and is filled by assignments. Assigning to the key `__proto__` makes no slot:
  it replaces the prototype when the value is an object, and throws when that would close a cycle of
  prototypes.
*/
module RawCopy {
  import opened Wrappers

  const PROTO := "__proto__"

  /** Plain objects and arrays are copied; any other object (Date, Map, a class instance) is kept. */
  datatype Kind = Array | Plain | Exotic | Proxy

  /** `Prim` stands for everything whose type is not "object", and for null. */
  datatype Value = Prim(id: int) | Ref(o: Obj)

  /**
    A heap object: its own enumerable keys (the indices, for an array) in order, their values, and
    the prototype it was given by an assignment, if any.
  */
  class Obj {
    const kind: Kind
    const target: Obj?
    var keys: seq<string>
    var slots: map<string, Value>
    var proto: Obj?

    constructor Empty(kind: Kind)
      ensures this.kind == kind && keys == [] && slots == map[] && proto == null
    {
      this.kind := kind;
      target := null;
      keys, slots, proto := [], map[], null;
    }

    constructor ProxyOf(o: Obj)
      ensures kind == Proxy && target == o && keys == [] && slots == map[] && proto == null
    {
      kind := Proxy;
      target := o;
      keys, slots, proto := [], map[], null;
    }
  }

  /** The memo table. */
  class Seen {
    var m: map<Obj, Obj>

    constructor ()
      ensures m == map[]
    {
      m := map[];
    }
  }

  predicate IsProxy(v: Value) {
    v.Ref? && v.o.kind.Proxy? && v.o.target != null
  }

  /** `toRaw`: the raw object behind a proxy. */
  function Unwrap(v: Value): Value {
    if IsProxy(v) then Ref(v.o.target) else v
  }

  predicate ToContainer(v: Value) {
    var x := Unwrap(v);
    x.Ref? && (x.o.kind.Array? || x.o.kind.Plain?)
  }

  /** What a value becomes in the copy. */
  function Image(v: Value, m: map<Obj, Obj>): Value {
    if ToContainer(v) && Unwrap(v).o in m then Ref(m[Unwrap(v).o]) else Unwrap(v)
  }

  /** `u` is a finite heap: proxies stand for raw objects of the heap, and slots stay inside it. */
  ghost predicate Heap(u: set<Obj>)
    reads u
  {
    forall o :: o in u ==>
      && (forall i, j :: 0 <= i < j < |o.keys| ==> o.keys[i] != o.keys[j])
      && (forall k :: k in o.keys <==> k in o.slots)
      && (o.kind.Proxy? ==> o.target != null && !o.target.kind.Proxy? && o.target in u)
      && (forall k :: k in o.slots && o.slots[k].Ref? ==> o.slots[k].o in u)
      && o.proto == null
  }

  predicate In(v: Value, u: set<Obj>) {
    v.Ref? ==> v.o in u
  }

  function Containers(u: set<Obj>): set<Obj> {
    set o | o in u && (o.kind.Array? || o.kind.Plain?)
  }

  // ---------------------------------------------------------------- what becomes of a key

  /** Assigning to this key of a copy reaches the setter of the prototype. */
  predicate IsSetter(o: Obj, k: string) {
    o.kind.Plain? && k == PROTO
  }

  /** The keys that become slots. */
  function Own(o: Obj, keys: seq<string>): seq<string> {
    if keys == [] then []
    else Own(o, keys[..|keys| - 1]) + if IsSetter(o, keys[|keys| - 1]) then [] else [keys[|keys| - 1]]
  }

  lemma {:induction false} OwnAre(o: Obj, keys: seq<string>, k: string)
    ensures k in Own(o, keys) <==> k in keys && !IsSetter(o, k)
  {
    if keys != [] {
      OwnAre(o, keys[..|keys| - 1], k);
      assert keys == keys[..|keys| - 1] + [keys[|keys| - 1]];
    }
  }

  /** The prototype the copy of `n` ends up with. */
  function Prototype(n: Obj, m: map<Obj, Obj>): Obj?
    reads n
  {
    if n.kind.Plain? && PROTO in n.slots && Image(n.slots[PROTO], m).Ref? then Image(n.slots[PROTO], m).o else null
  }

  /** The container that `n` names as its prototype. */
  function Parent(n: Obj): Option<Obj>
    reads n
  {
    if n.kind.Plain? && PROTO in n.slots && ToContainer(n.slots[PROTO]) then Some(Unwrap(n.slots[PROTO]).o) else None
  }

  /** The copy of `n` has the same kind, the keys that become slots, the images of their values, and its prototype. */
  ghost predicate Complete(n: Obj, m: map<Obj, Obj>)
    reads n, if n in m then {m[n]} else {}
  {
    && n in m
    && m[n].kind == n.kind
    && m[n].keys == Own(n, n.keys)
    && (forall k :: k in m[n].slots <==> k in n.slots && !IsSetter(n, k))
    && (forall k :: k in n.slots && ToContainer(n.slots[k]) ==> Unwrap(n.slots[k]).o in m)
    && (forall k :: k in m[n].slots ==> m[n].slots[k] == Image(n.slots[k], m))
    && m[n].proto == Prototype(n, m)
  }

  ghost predicate Extends(m: map<Obj, Obj>, m': map<Obj, Obj>) {
    m.Keys <= m'.Keys && forall n :: n in m ==> m'[n] == m[n]
  }

  ghost predicate Injective(m: map<Obj, Obj>) {
    forall a, b :: a in m && b in m && a != b ==> m[a] != m[b]
  }

  /** Everything the memo table may be, between two calls on the heap `u`. */
  ghost predicate TableOk(m: map<Obj, Obj>, u: set<Obj>) {
    && m.Keys <= Containers(u)
    && Injective(m)
    && (forall n :: n in m ==> m[n] !in u && (m[n].kind.Array? || m[n].kind.Plain?))
  }

  /** `s` contains whatever its containers' slots lead to. */
  ghost predicate Closed(s: set<Obj>)
    reads s
  {
    forall o, k :: o in s && k in o.slots && ToContainer(o.slots[k]) ==> Unwrap(o.slots[k]).o in s
  }

  /** `s` holds at least what `v` leads to. */
  ghost predicate Holds(s: set<Obj>, v: Value, u: set<Obj>)
    reads s
  {
    s <= u && Closed(s) && (ToContainer(v) ==> Unwrap(v).o in s)
  }

  /** Nothing outside what `v` leads to has been entered. */
  ghost predicate OnlyReached(v: Value, before: map<Obj, Obj>, m: map<Obj, Obj>, u: set<Obj>)
    reads u
  {
    forall s | s <= u && Holds(s, v, u) :: m.Keys <= before.Keys + s
  }

  lemma CompleteInLarger(n: Obj, m: map<Obj, Obj>, m': map<Obj, Obj>)
    requires Complete(n, m) && Extends(m, m')
    ensures Complete(n, m')
  {
  }

  // ---------------------------------------------------------------- chains of prototypes

  /** `k` steps from a container to the one it names as its prototype lead from `x` to `y`. */
  ghost predicate Climbs(x: Obj, y: Obj, u: set<Obj>, k: nat)
    reads u
  {
    if k == 0 then x == y
    else x in u && Parent(x).Some? && Climbs(Parent(x).value, y, u, k - 1)
  }

  ghost predicate OnCycle(x: Obj, u: set<Obj>)
    reads u
  {
    exists k: nat :: k > 0 && Climbs(x, x, u, k)
  }

  /** From `x`, the prototypes set so far end within `k` steps. */
  ghost predicate ChainEnds(x: Obj, linked: set<Obj>, u: set<Obj>, k: nat)
    reads u
  {
    x in linked && x in u && Parent(x).Some? ==> k > 0 && ChainEnds(Parent(x).value, linked, u, k - 1)
  }

  ghost predicate Acyclic(linked: set<Obj>, u: set<Obj>)
    reads u
  {
    forall x :: x in linked ==> exists k: nat :: ChainEnds(x, linked, u, k)
  }

  /**
    `p` fits as the prototype of the copy of `x`: another copy if `x` is in `linked`, else none or an object
    of the heap.
  */
  ghost predicate LinkOk(x: Obj, p: Obj?, m: map<Obj, Obj>, linked: set<Obj>, u: set<Obj>)
    reads x
  {
    if x in linked then Parent(x).Some? && Parent(x).value in m && p == m[Parent(x).value]
    else p == null || p in u
  }

  ghost predicate ChainsOk(m: map<Obj, Obj>, linked: set<Obj>, u: set<Obj>)
    reads u
  {
    linked <= m.Keys <= u && Acyclic(linked, u)
  }

  ghost predicate Links(m: map<Obj, Obj>, linked: set<Obj>, u: set<Obj>)
    reads u, m.Keys, m.Values
  {
    ChainsOk(m, linked, u) && forall x :: x in m ==> LinkOk(x, m[x].proto, m, linked, u)
  }

  lemma {:induction false} StillEnds(x: Obj, linked: set<Obj>, source: Obj, u: set<Obj>, k: nat, n: nat)
    returns (j: nat)
    requires source in u && Parent(source).Some?
    requires ChainEnds(x, linked, u, k) && ChainEnds(Parent(source).value, linked + {source}, u, n)
    ensures ChainEnds(x, linked + {source}, u, j)
  {
    if x == source {
      j := n + 1;
    } else if x in linked && x in u && Parent(x).Some? {
      j := StillEnds(Parent(x).value, linked, source, u, k - 1, n);
      j := j + 1;
    } else {
      j := 0;
    }
  }

  lemma LinkKeepsAcyclic(linked: set<Obj>, source: Obj, u: set<Obj>, n: nat)
    requires Acyclic(linked, u) && source in u && Parent(source).Some?
    requires ChainEnds(Parent(source).value, linked + {source}, u, n)
    ensures Acyclic(linked + {source}, u)
  {
    forall x | x in linked + {source} ensures exists k: nat :: ChainEnds(x, linked + {source}, u, k) {
      if x == source {
        assert ChainEnds(x, linked + {source}, u, n + 1);
      } else {
        var k: nat :| ChainEnds(x, linked, u, k);
        var j := StillEnds(x, linked, source, u, k, n);
      }
    }
  }

  /** Whoever is named by a linked container, and names one itself, is linked too. */
  ghost predicate LinkedUpward(linked: set<Obj>, u: set<Obj>)
    reads u, linked, set z | z in linked && z in u && Parent(z).Some? :: Parent(z).value
  {
    forall z | z in linked && z in u && Parent(z).Some? ::
      Parent(Parent(z).value).Some? ==> Parent(z).value in linked
  }

  /** A chain that comes back to `x` does not end. */
  lemma {:induction false} CycleNeverEnds(y: Obj, x: Obj, linked: set<Obj>, u: set<Obj>, i: nat, n: nat, k: nat)
    requires n > 0 && Climbs(x, x, u, n) && Climbs(y, x, u, i) && y in linked
    requires LinkedUpward(linked, u)
    requires x in linked
    ensures !ChainEnds(y, linked, u, k)
    decreases k
  {
    if k > 0 {
      if i > 0 {
        Onward(y, x, linked, u, i, n);
        CycleNeverEnds(Parent(y).value, x, linked, u, i - 1, n, k - 1);
      } else {
        Onward(x, x, linked, u, n, n);
        CycleNeverEnds(Parent(x).value, x, linked, u, n - 1, n, k - 1);
      }
    }
  }

  lemma Onward(y: Obj, x: Obj, linked: set<Obj>, u: set<Obj>, i: nat, n: nat)
    requires i > 0 && n > 0 && Climbs(x, x, u, n) && Climbs(y, x, u, i) && y in linked && x in linked
    requires LinkedUpward(linked, u)
    ensures Parent(y).Some? && Parent(y).value in linked && Climbs(Parent(y).value, x, u, i - 1)
  {
  }

  // ---------------------------------------------------------------- the recursion

  /** Whatever holds all that `v` leads to has a container that is its own prototype, at some remove. */
  ghost predicate CycleUnder(v: Value, u: set<Obj>)
    reads u
  {
    forall s | s <= u && Holds(s, v, u) :: exists x :: x in s && OnCycle(x, u)
  }

  /** What every call finds and leaves: table and prototypes in order. */
  ghost predicate Ready(m: map<Obj, Obj>, linked: set<Obj>, u: set<Obj>)
    reads u, m.Keys, m.Values
  {
    TableOk(m, u) && Links(m, linked, u)
  }

  /**
    The recursion. Every raw container met for the first time gets one fresh copy, entered in the
    table before its slots are visited; on return all these copies are complete, earlier entries
    stand, and nothing that was not led to has been copied. It throws, and returns nothing, only
    where prototypes would form a cycle.
  */
  method DeepToRaw(v: Value, seen: Seen, ghost linked: set<Obj>, ghost u: set<Obj>)
    returns (r: Option<Value>, ghost linked': set<Obj>)
    requires Heap(u) && In(v, u) && Ready(seen.m, linked, u)
    modifies seen
    ensures r.None? ==> CycleUnder(v, u)
    ensures r.Some? ==> Ready(seen.m, linked', u) && Extends(old(seen.m), seen.m)
    ensures r.Some? ==> (ToContainer(v) ==> Unwrap(v).o in seen.m) && r.value == Image(v, seen.m)
    ensures r.Some? ==> StandsFor(v, r.value, seen.m)
    ensures r.Some? ==> AllComplete(old(seen.m), seen.m) && OnlyReached(v, old(seen.m), seen.m, u)
    ensures r.Some? ==> forall n :: n in seen.m && n !in old(seen.m) ==> fresh(seen.m[n])
    decreases Unseen(u, seen.m), if IsProxy(v) then 2 else 1
  {
    linked' := linked;
    if IsProxy(v) {
      r, linked' := DeepToRaw(Ref(v.o.target), seen, linked, u);
      return;
    }
    if v.Prim? {
      r := Some(v);
      return;
    }
    var source := v.o;
    if source in seen.m {
      r := Some(Ref(seen.m[source]));
      return;
    }
    if !source.kind.Array? && !source.kind.Plain? {
      r := Some(v);
      return;
    }
    var out;
    out, linked' := CopyContainer(source, seen, linked, u);
    r := if out == null then None else Some(Ref(out));
  }

  /** `source` has been copied to `out`, with all it leads to that was not in `before`. */
  ghost predicate Copied(source: Obj, out: Obj, before: map<Obj, Obj>, m: map<Obj, Obj>, linked: set<Obj>, u: set<Obj>)
    reads u, m.Keys, m.Values
  {
    && Ready(m, linked, u) && Extends(before, m) && AllComplete(before, m)
    && source in m && m[source] == out && OnlyReached(Ref(source), before, m, u)
  }

  /** A container met for the first time; null when the copying throws. */
  method CopyContainer(source: Obj, seen: Seen, ghost linked: set<Obj>, ghost u: set<Obj>)
    returns (out: Obj?, ghost linked': set<Obj>)
    requires Heap(u) && source in Containers(u) && source !in seen.m && Ready(seen.m, linked, u)
    modifies seen
    ensures out == null ==> CycleUnder(Ref(source), u)
    ensures out != null ==> Copied(source, out, old(seen.m), seen.m, linked', u)
    ensures out != null ==> forall n :: n in seen.m && n !in old(seen.m) ==> fresh(seen.m[n])
    decreases Unseen(u, seen.m), 0
  {
    ghost var before := seen.m;
    out := EnterCopy(source, seen, linked, u);
    var ok;
    ok, linked' := FillSlots(source, out, before, seen, linked, u);
    if ok {
      NowCopied(source, out, before, seen.m, linked', u);
    } else {
      out := null;
    }
  }

  method EnterCopy(source: Obj, seen: Seen, ghost linked: set<Obj>, ghost u: set<Obj>) returns (out: Obj)
    requires Heap(u) && source in Containers(u) && source !in seen.m && Ready(seen.m, linked, u)
    modifies seen
    ensures fresh(out) && seen.m == old(seen.m)[source := out]
    ensures Halfway(source, out, 0, old(seen.m), seen.m, linked, u) && Unseen(u, seen.m) < Unseen(u, old(seen.m))
  {
    out := new Obj.Empty(source.kind);
    Memoize(source, out, seen, linked, u);
  }

  method Memoize(source: Obj, out: Obj, seen: Seen, ghost linked: set<Obj>, ghost u: set<Obj>)
    requires Heap(u) && source in Containers(u) && source !in seen.m && Ready(seen.m, linked, u)
    requires out !in u && out !in seen.m.Values && out.kind == source.kind
    requires out.keys == [] && out.slots == map[] && out.proto == null
    modifies seen
    ensures seen.m == old(seen.m)[source := out]
    ensures Halfway(source, out, 0, old(seen.m), seen.m, linked, u) && Unseen(u, seen.m) < Unseen(u, old(seen.m))
  {
    ghost var before := seen.m;
    seen.m := seen.m[source := out];
    FewerUnseen(u, before, seen.m, source);
    Entered(source, out, before, linked, u);
  }

  lemma Entered(source: Obj, out: Obj, before: map<Obj, Obj>, linked: set<Obj>, u: set<Obj>)
    requires Heap(u) && source in Containers(u) && source !in before && Ready(before, linked, u)
    requires out !in u && out !in before.Values && out.kind == source.kind && out.keys == []
        && out.slots == map[] && out.proto == null
    ensures Halfway(source, out, 0, before, before[source := out], linked, u)
  {
  }

  ghost function Unseen(u: set<Obj>, m: map<Obj, Obj>): nat {
    |Containers(u) - m.Keys|
  }

  lemma FewerUnseen(u: set<Obj>, m: map<Obj, Obj>, m': map<Obj, Obj>, n: Obj)
    requires Extends(m, m') && n in Containers(u) && n !in m && n in m'
    ensures Unseen(u, m') < Unseen(u, m)
  {
    assert Containers(u) - m'.Keys < Containers(u) - m.Keys;
    SmallerSet(Containers(u) - m'.Keys, Containers(u) - m.Keys);
  }

  lemma NotMoreUnseen(u: set<Obj>, m: map<Obj, Obj>, m': map<Obj, Obj>)
    requires Extends(m, m')
    ensures Unseen(u, m') <= Unseen(u, m)
  {
    assert Containers(u) - m'.Keys <= Containers(u) - m.Keys;
    if Containers(u) - m'.Keys != Containers(u) - m.Keys {
      SmallerSet(Containers(u) - m'.Keys, Containers(u) - m.Keys);
    }
  }

  lemma SmallerSet<T>(a: set<T>, b: set<T>)
    requires a < b
    ensures |a| < |b|
  {
    assert b == a + (b - a);
  }

  ghost predicate AllComplete(before: map<Obj, Obj>, m: map<Obj, Obj>)
    reads m.Keys, m.Values
  {
    forall n :: n in m && n !in before ==> Complete(n, m)
  }

  function OtherCopies(source: Obj, m: map<Obj, Obj>): set<Obj> {
    set n | n in m && n != source :: m[n]
  }

  /** The copies but the one being filled: prototypes in order, and complete if made since `before`. */
  ghost predicate OthersOk(source: Obj, before: map<Obj, Obj>, m: map<Obj, Obj>, linked: set<Obj>, u: set<Obj>)
    reads m.Keys, OtherCopies(source, m)
  {
    forall n :: n in m && n != source ==>
      m[n] in OtherCopies(source, m) && LinkOk(n, m[n].proto, m, linked, u) && (n !in before ==> Complete(n, m))
  }

  lemma OthersInLarger(source: Obj, before: map<Obj, Obj>, m: map<Obj, Obj>, linked: set<Obj>,
      m': map<Obj, Obj>, linked': set<Obj>, u: set<Obj>)
    requires source in m && OthersOk(source, before, m, linked, u) && Extends(m, m')
    requires Links(m', linked', u) && AllComplete(m, m')
    ensures OthersOk(source, before, m', linked', u)
  {
    forall n | n in m' && n !in before && n != source ensures Complete(n, m') {
      if n in m { CompleteInLarger(n, m, m'); }
    }
  }

  lemma ReachedThroughSlot(source: Obj, k: string, before: map<Obj, Obj>, m: map<Obj, Obj>, m': map<Obj, Obj>,
      u: set<Obj>)
    requires (source.kind.Array? || source.kind.Plain?) && k in source.slots
    requires OnlyReached(Ref(source), before, m, u) && OnlyReached(source.slots[k], m, m', u)
    ensures OnlyReached(Ref(source), before, m', u)
  {
    forall s | s <= u && Holds(s, Ref(source), u) ensures m'.Keys <= before.Keys + s {
      assert Holds(s, source.slots[k], u);
    }
  }

  lemma CycleThroughSlot(source: Obj, k: string, u: set<Obj>)
    requires (source.kind.Array? || source.kind.Plain?) && k in source.slots && CycleUnder(source.slots[k], u)
    ensures CycleUnder(Ref(source), u)
  {
    forall s | s <= u && Holds(s, Ref(source), u) ensures exists x :: x in s && OnCycle(x, u) {
      assert Holds(s, source.slots[k], u);
    }
  }

  /** What the assignments to the first `i` keys make of a copy's slots. */
  ghost predicate Assigned(source: Obj, keys: seq<string>, slots: map<string, Value>, i: nat, m: map<Obj, Obj>)
    reads source
  {
    && i <= |source.keys| && (forall k :: k in source.keys <==> k in source.slots)
    && keys == Own(source, source.keys[..i])
    && (forall k :: k in slots <==> k in source.keys[..i] && !IsSetter(source, k))
    && (forall k :: k in source.keys[..i] && ToContainer(source.slots[k]) ==> Unwrap(source.slots[k]).o in m)
    && (forall k :: k in slots ==> slots[k] == Image(source.slots[k], m))
  }

  ghost predicate Filled(source: Obj, out: Obj, i: nat, m: map<Obj, Obj>)
    reads source, out
  {
    && Assigned(source, out.keys, out.slots, i, m)
    && out.proto == if PROTO in source.keys[..i] then Prototype(source, m) else null
  }

  lemma FilledInLarger(source: Obj, out: Obj, i: nat, m: map<Obj, Obj>, m': map<Obj, Obj>)
    requires Filled(source, out, i, m) && Extends(m, m')
    ensures Filled(source, out, i, m')
  {
  }

  /** All there is besides the copy that is being filled. */
  ghost predicate Around(source: Obj, out: Obj, before: map<Obj, Obj>, m: map<Obj, Obj>, linked: set<Obj>, u: set<Obj>)
    reads u, m.Keys, OtherCopies(source, m)
  {
    && Heap(u) && source in Containers(u) && source !in before && Extends(before[source := out], m)
    && source in m && m[source] == out && out !in OtherCopies(source, m) && out.kind == source.kind
    && TableOk(m, u) && ChainsOk(m, linked, u)
    && OthersOk(source, before, m, linked, u) && OnlyReached(Ref(source), before, m, u)
  }

  /** What the loop over the keys keeps. */
  ghost predicate Halfway(source: Obj, out: Obj, i: nat, before: map<Obj, Obj>, m: map<Obj, Obj>, linked: set<Obj>,
      u: set<Obj>)
    reads u, source, out, m.Keys, OtherCopies(source, m)
  {
    && Around(source, out, before, m, linked, u)
    && Filled(source, out, i, m) && LinkOk(source, out.proto, m, linked, u)
  }

  lemma FilledIsComplete(source: Obj, out: Obj, m: map<Obj, Obj>)
    requires source in m && m[source] == out && out.kind == source.kind && Filled(source, out, |source.keys|, m)
    ensures Complete(source, m)
  {
    assert source.keys[..|source.keys|] == source.keys;
  }

  lemma HalfwayIsReady(source: Obj, out: Obj, i: nat, before: map<Obj, Obj>, m: map<Obj, Obj>, linked: set<Obj>,
      u: set<Obj>)
    requires Halfway(source, out, i, before, m, linked, u)
    ensures Links(m, linked, u)
  {
  }

  lemma NowAllComplete(source: Obj, out: Obj, before: map<Obj, Obj>, m: map<Obj, Obj>, linked: set<Obj>, u: set<Obj>)
    requires OthersOk(source, before, m, linked, u) && source in m && Complete(source, m)
    ensures AllComplete(before, m)
  {
  }

  lemma NowCopied(source: Obj, out: Obj, before: map<Obj, Obj>, m: map<Obj, Obj>, linked: set<Obj>, u: set<Obj>)
    requires Halfway(source, out, |source.keys|, before, m, linked, u)
    ensures Copied(source, out, before, m, linked, u)
  {
    HalfwayIsReady(source, out, |source.keys|, before, m, linked, u);
    FilledIsComplete(source, out, m);
    NowAllComplete(source, out, before, m, linked, u);
  }

  method FillSlots(source: Obj, out: Obj, ghost before: map<Obj, Obj>, seen: Seen, ghost linked: set<Obj>,
      ghost u: set<Obj>)
    returns (ok: bool, ghost linked': set<Obj>)
    requires Halfway(source, out, 0, before, seen.m, linked, u) && seen.m == before[source := out]
    modifies seen, out
    ensures !ok ==> CycleUnder(Ref(source), u)
    ensures ok ==> Halfway(source, out, |source.keys|, before, seen.m, linked', u)
    ensures ok ==> forall n :: n in seen.m && n !in before && n != source ==> fresh(seen.m[n])
    decreases Unseen(u, seen.m), 6
  {
    ok, linked' := true, linked;
    for i := 0 to |source.keys|
      invariant ok && Halfway(source, out, i, before, seen.m, linked', u) && Extends(old(seen.m), seen.m)
      invariant forall n :: n in seen.m && n !in before && n != source ==> fresh(seen.m[n])
    {
      NotMoreUnseen(u, old(seen.m), seen.m);
      ok, linked' := CopySlot(source, out, i, before, seen, linked', u);
      if !ok { return; }
    }
  }

  method CopySlot(source: Obj, out: Obj, i: nat, ghost before: map<Obj, Obj>, seen: Seen, ghost linked: set<Obj>,
      ghost u: set<Obj>)
    returns (ok: bool, ghost linked': set<Obj>)
    requires Halfway(source, out, i, before, seen.m, linked, u) && i < |source.keys|
    modifies seen, out
    ensures !ok ==> CycleUnder(Ref(source), u)
    ensures ok ==> Halfway(source, out, i + 1, before, seen.m, linked', u) && Extends(old(seen.m), seen.m)
    ensures ok ==> forall n :: n in seen.m && n !in old(seen.m) ==> fresh(seen.m[n])
    decreases Unseen(u, seen.m), 5
  {
    var item;
    item, linked' := VisitSlot(source, out, i, before, seen, linked, u);
    ok := item.Some?;
    if ok {
      ok, linked' := Assign(source, out, i, item.value, before, seen.m, linked', u);
    }
  }

  /** `out[key] = item`. */
  method Assign(source: Obj, out: Obj, i: nat, item: Value, ghost before: map<Obj, Obj>, ghost m: map<Obj, Obj>,
      ghost linked: set<Obj>, ghost u: set<Obj>)
    returns (ok: bool, ghost linked': set<Obj>)
    requires Halfway(source, out, i, before, m, linked, u) && i < |source.keys|
    requires Visited(source, source.keys[i], item, m)
    modifies out
    ensures !ok ==> CycleUnder(Ref(source), u)
    ensures ok ==> Halfway(source, out, i + 1, before, m, linked', u)
  {
    if IsSetter(source, source.keys[i]) {
      ok, linked' := SetPrototype(source, out, i, item, before, m, linked, u);
    } else {
      Append(source, out, i, item, before, m, linked, u);
      ok, linked' := true, linked;
    }
  }

  method VisitSlot(source: Obj, out: Obj, i: nat, ghost before: map<Obj, Obj>, seen: Seen, ghost linked: set<Obj>,
      ghost u: set<Obj>)
    returns (item: Option<Value>, ghost linked': set<Obj>)
    requires Halfway(source, out, i, before, seen.m, linked, u) && i < |source.keys|
    modifies seen
    ensures item.None? ==> CycleUnder(Ref(source), u)
    ensures item.Some? ==> Halfway(source, out, i, before, seen.m, linked', u) && Extends(old(seen.m), seen.m)
    ensures item.Some? ==> forall n :: n in seen.m && n !in old(seen.m) ==> fresh(seen.m[n])
    ensures item.Some? ==> Visited(source, source.keys[i], item.value, seen.m)
    decreases Unseen(u, seen.m), 4
  {
    ghost var m := seen.m;
    item, linked' := Visit(source.slots[source.keys[i]], source, out, i, before, seen, linked, u);
    if item.None? {
      CycleThroughSlot(source, source.keys[i], u);
    } else {
      HalfwayInLarger(source, out, i, before, m, linked, seen.m, linked', u);
    }
  }

  /** The recursive call leaves the copy that is being filled alone. */
  method Visit(v: Value, ghost source: Obj, ghost out: Obj, ghost i: nat, ghost before: map<Obj, Obj>, seen: Seen,
      ghost linked: set<Obj>, ghost u: set<Obj>)
    returns (r: Option<Value>, ghost linked': set<Obj>)
    requires Halfway(source, out, i, before, seen.m, linked, u) && In(v, u)
    modifies seen
    ensures Halfway(source, out, i, before, old(seen.m), linked, u)
    ensures r.None? ==> CycleUnder(v, u)
    ensures r.Some? ==> Ready(seen.m, linked', u) && Extends(old(seen.m), seen.m)
    ensures r.Some? ==> (ToContainer(v) ==> Unwrap(v).o in seen.m) && r.value == Image(v, seen.m)
    ensures r.Some? ==> AllComplete(old(seen.m), seen.m) && OnlyReached(v, old(seen.m), seen.m, u)
    ensures r.Some? ==> forall n :: n in seen.m && n !in old(seen.m) ==> fresh(seen.m[n])
    decreases Unseen(u, seen.m), 3
  {
    HalfwayIsReady(source, out, i, before, seen.m, linked, u);
    r, linked' := DeepToRaw(v, seen, linked, u);
  }

  /** The visit has entered more copies, all complete. */
  lemma HalfwayInLarger(source: Obj, out: Obj, i: nat, before: map<Obj, Obj>, m: map<Obj, Obj>, linked: set<Obj>,
      m': map<Obj, Obj>, linked': set<Obj>, u: set<Obj>)
    requires Halfway(source, out, i, before, m, linked, u) && i < |source.keys|
    requires TableOk(m', u) && Links(m', linked', u) && Extends(m, m') && AllComplete(m, m')
    requires OnlyReached(source.slots[source.keys[i]], m, m', u)
    ensures Halfway(source, out, i, before, m', linked', u)
  {
    FilledInLarger(source, out, i, m, m');
    OthersInLarger(source, before, m, linked, m', linked', u);
    ReachedThroughSlot(source, source.keys[i], before, m, m', u);
  }

  /** `item` is what the value under `k` becomes. */
  ghost predicate Visited(source: Obj, k: string, item: Value, m: map<Obj, Obj>)
    reads source
  {
    && k in source.slots && item == Image(source.slots[k], m)
    && (ToContainer(source.slots[k]) ==> Unwrap(source.slots[k]).o in m)
  }

  lemma NextKey(source: Obj, i: nat)
    requires i < |source.keys|
    ensures source.keys[..i + 1] == source.keys[..i] + [source.keys[i]]
    ensures forall k :: k in source.keys[..i + 1] <==> k in source.keys[..i] || k == source.keys[i]
    ensures Own(source, source.keys[..i + 1])
         == Own(source, source.keys[..i]) + if IsSetter(source, source.keys[i]) then [] else [source.keys[i]]
  {
    assert source.keys[..i + 1][..i] == source.keys[..i];
  }

  lemma OneMoreAssigned(source: Obj, keys: seq<string>, slots: map<string, Value>, i: nat, item: Value,
      m: map<Obj, Obj>)
    requires Assigned(source, keys, slots, i, m) && i < |source.keys| && Visited(source, source.keys[i], item, m)
    ensures IsSetter(source, source.keys[i]) ==> Assigned(source, keys, slots, i + 1, m)
    ensures !IsSetter(source, source.keys[i]) ==>
              Assigned(source, keys + [source.keys[i]], slots[source.keys[i] := item], i + 1, m)
  {
    NextKey(source, i);
  }

  /** The assignment itself, which touches nothing around the copy. */
  method AddSlot(source: Obj, out: Obj, key: string, item: Value, ghost before: map<Obj, Obj>, ghost m: map<Obj, Obj>,
      ghost linked: set<Obj>, ghost u: set<Obj>)
    requires Around(source, out, before, m, linked, u)
    modifies out
    ensures Around(source, out, before, m, linked, u)
    ensures out.keys == old(out.keys) + [key] && out.slots == old(out.slots)[key := item] && out.proto == old(out.proto)
  {
    out.keys, out.slots := out.keys + [key], out.slots[key := item];
  }

  method Append(source: Obj, out: Obj, i: nat, item: Value, ghost before: map<Obj, Obj>, ghost m: map<Obj, Obj>,
      ghost linked: set<Obj>, ghost u: set<Obj>)
    requires Halfway(source, out, i, before, m, linked, u) && i < |source.keys|
    requires Visited(source, source.keys[i], item, m) && !IsSetter(source, source.keys[i])
    modifies out
    ensures Halfway(source, out, i + 1, before, m, linked, u)
  {
    NextKey(source, i);
    OneMoreAssigned(source, out.keys, out.slots, i, item, m);
    AddSlot(source, out, source.keys[i], item, before, m, linked, u);
  }

  /** The walk up the prototypes of `p` in search of `out`. */
  method LeadsTo(p: Obj, out: Obj, ghost x: Obj, ghost source: Obj, ghost n: nat,
      ghost m: map<Obj, Obj>, ghost linked: set<Obj>, ghost u: set<Obj>)
    returns (back: bool)
    requires Heap(u) && TableOk(m, u) && Links(m, linked, u)
    requires source in m && m[source] == out && source !in linked
    requires p in u || (x in m && p == m[x] && ChainEnds(x, linked, u, n))
    ensures p in u ==> !back
    ensures back ==> exists k: nat :: Climbs(x, source, u, k)
    ensures !back && p !in u ==> ChainEnds(x, linked + {source}, u, n)
    decreases if p in u then 0 else n + 1
  {
    if p == out {
      assert Climbs(x, source, u, 0);
      return true;
    }
    if p.proto == null {
      return false;
    }
    ghost var y := if x in linked then Parent(x).value else x;
    back := LeadsTo(p.proto, out, y, source, if x in linked then n - 1 else n, m, linked, u);
    if back {
      ghost var k: nat :| Climbs(y, source, u, k);
      assert Climbs(x, source, u, k + 1);
    }
  }

  lemma SomeEnd(x: Obj, linked: set<Obj>, u: set<Obj>) returns (n: nat)
    requires Acyclic(linked, u)
    ensures ChainEnds(x, linked, u, n)
  {
    if x in linked {
      n :| ChainEnds(x, linked, u, n);
    } else {
      n := 0;
    }
  }

  lemma CycleFound(source: Obj, u: set<Obj>, k: nat)
    requires source in Containers(u) && Parent(source).Some? && Climbs(Parent(source).value, source, u, k)
    ensures CycleUnder(Ref(source), u)
  {
    assert Climbs(source, source, u, k + 1);
    forall s | s <= u && Holds(s, Ref(source), u) ensures exists x :: x in s && OnCycle(x, u) {
      assert source in s;
    }
  }

  /** Keys are listed once, so the copy has no prototype yet. */
  lemma NoneYet(source: Obj, out: Obj, i: nat, m: map<Obj, Obj>, linked: set<Obj>, u: set<Obj>)
    requires Heap(u) && source in u && Filled(source, out, i, m) && i < |source.keys| && source.keys[i] == PROTO
    requires LinkOk(source, out.proto, m, linked, u)
    ensures out.proto == null && source !in linked && PROTO !in source.keys[..i]
  {
  }

  lemma PrimIsIgnored(source: Obj, out: Obj, i: nat, item: Value, m: map<Obj, Obj>)
    requires Filled(source, out, i, m) && i < |source.keys| && out.proto == null
    requires IsSetter(source, source.keys[i]) && Visited(source, source.keys[i], item, m) && item.Prim?
    ensures Filled(source, out, i + 1, m)
  {
    NextKey(source, i);
    OneMoreAssigned(source, out.keys, out.slots, i, item, m);
  }

  /** Assigning to `__proto__`: an object becomes the prototype unless that closes a cycle; anything else is ignored. */
  method SetPrototype(source: Obj, out: Obj, i: nat, item: Value, ghost before: map<Obj, Obj>,
      ghost m: map<Obj, Obj>, ghost linked: set<Obj>, ghost u: set<Obj>)
    returns (ok: bool, ghost linked': set<Obj>)
    requires Halfway(source, out, i, before, m, linked, u) && i < |source.keys|
    requires Visited(source, source.keys[i], item, m) && IsSetter(source, source.keys[i])
    modifies out
    ensures !ok ==> CycleUnder(Ref(source), u)
    ensures ok ==> Halfway(source, out, i + 1, before, m, linked', u)
  {
    NoneYet(source, out, i, m, linked, u);
    HalfwayIsReady(source, out, i, before, m, linked, u);
    linked' := linked;
    if item.Prim? {
      PrimIsIgnored(source, out, i, item, m);
      ok := true;
      return;
    }
    ghost var x := if Parent(source).Some? then Parent(source).value else source;
    ghost var n := SomeEnd(x, linked, u);
    var back := LeadsTo(item.o, out, x, source, n, m, linked, u);
    ok := !back;
    if back {
      ghost var k: nat :| Climbs(x, source, u, k);
      CycleFound(source, u, k);
    } else {
      linked' := if Parent(source).Some? then linked + {source} else linked;
      LinkingIsOk(source, before, item, n, m, linked, linked', u);
      Link(source, out, i, item.o, before, m, linked', u);
    }
  }

  /** The table stays in order when one copy gets its prototype. */
  method Link(source: Obj, out: Obj, i: nat, p: Obj, ghost before: map<Obj, Obj>, ghost m: map<Obj, Obj>,
      ghost linked: set<Obj>, ghost u: set<Obj>)
    requires Around(source, out, before, m, linked, u) && Filled(source, out, i, m) && i < |source.keys|
    requires IsSetter(source, source.keys[i]) && Visited(source, PROTO, Ref(p), m) && LinkOk(source, p, m, linked, u)
    modifies out
    ensures Halfway(source, out, i + 1, before, m, linked, u)
  {
    GiveProto(source, out, i, p, m);
  }

  lemma LinkingIsOk(source: Obj, before: map<Obj, Obj>, item: Value, n: nat,
      m: map<Obj, Obj>, linked: set<Obj>, linked': set<Obj>, u: set<Obj>)
    requires Heap(u) && source in u && source in m && source.kind.Plain? && source !in linked
    requires Visited(source, PROTO, item, m) && item.Ref?
    requires ChainsOk(m, linked, u) && OthersOk(source, before, m, linked, u)
    requires linked' == if Parent(source).Some? then linked + {source} else linked
    requires Parent(source).Some? ==> ChainEnds(Parent(source).value, linked + {source}, u, n)
    ensures ChainsOk(m, linked', u) && OthersOk(source, before, m, linked', u)
    ensures LinkOk(source, item.o, m, linked', u)
  {
    if Parent(source).Some? {
      LinkKeepsAcyclic(linked, source, u, n);
    }
    OthersStayOk(source, before, m, linked, linked', u);
  }

  lemma OthersStayOk(source: Obj, before: map<Obj, Obj>, m: map<Obj, Obj>, linked: set<Obj>, linked': set<Obj>,
      u: set<Obj>)
    requires OthersOk(source, before, m, linked, u)
    requires forall x :: x != source ==> (x in linked <==> x in linked')
    ensures OthersOk(source, before, m, linked', u)
  {
  }

  /** The assignment itself. */
  method GiveProto(source: Obj, out: Obj, i: nat, p: Obj, ghost m: map<Obj, Obj>)
    requires Filled(source, out, i, m) && i < |source.keys| && source != out
    requires IsSetter(source, source.keys[i]) && Visited(source, PROTO, Ref(p), m)
    modifies out
    ensures Filled(source, out, i + 1, m) && out.proto == p
  {
    NextKey(source, i);
    OneMoreAssigned(source, out.keys, out.slots, i, Ref(p), m);
    out.proto := p;
  }

  // ---------------------------------------------------------------- paths

  /**
    The value found by following keys from `v` into arrays and plain objects, looking through proxies,
    within `nodes`.
  */
  function Follow(v: Value, path: seq<string>, nodes: set<Obj>): Option<Value>
    reads nodes
    decreases |path|
  {
    if path == [] then Some(v)
    else
      var x := if v.Ref? && v.o.kind.Proxy? && v.o.target != null then Ref(v.o.target) else v;
      if x.Ref? && (x.o.kind.Array? || x.o.kind.Plain?) && x.o in nodes && path[0] in x.o.slots
      then Follow(x.o.slots[path[0]], path[1..], nodes)
      else None
  }

  /** The path takes the key `__proto__` of a plain object. */
  predicate UsesProto(v: Value, path: seq<string>, nodes: set<Obj>)
    reads nodes
    decreases |path|
  {
    path != [] &&
    var x := if v.Ref? && v.o.kind.Proxy? && v.o.target != null then Ref(v.o.target) else v;
    x.Ref? && (x.o.kind.Array? || x.o.kind.Plain?) && x.o in nodes && path[0] in x.o.slots &&
    ((x.o.kind.Plain? && path[0] == PROTO) || UsesProto(x.o.slots[path[0]], path[1..], nodes))
  }

  /** The value is the array or plain object `x`, or a proxy of it. */
  predicate IsAt(v: Option<Value>, x: Obj) {
    && v.Some? && v.value.Ref?
    && (v.value.o == x || (v.value.o.kind.Proxy? && v.value.o.target == x))
    && (x.kind.Array? || x.kind.Plain?)
  }

  ghost predicate Reached(v: Value, x: Obj, u: set<Obj>)
    reads u
  {
    exists path: seq<string> :: IsAt(Follow(v, path, u), x)
  }

  ghost function ReachedFrom(v: Value, u: set<Obj>): set<Obj>
    reads u
  {
    set x | x in u && (x.kind.Array? || x.kind.Plain?) && Reached(v, x, u)
  }

  predicate HasProtoKey(x: Obj)
    reads x
  {
    x.kind.Plain? && PROTO in x.slots
  }

  lemma {:induction false} FollowOn(v: Value, path: seq<string>, k: string, u: set<Obj>)
    requires Heap(u) && In(v, u)
    requires Follow(v, path, u).Some? && ToContainer(Follow(v, path, u).value)
    requires k in Unwrap(Follow(v, path, u).value).o.slots
    ensures var x := Unwrap(Follow(v, path, u).value).o;
            && x in u && Follow(v, path + [k], u) == Some(x.slots[k])
            && (IsSetter(x, k) ==> UsesProto(v, path + [k], u))
    decreases |path|
  {
    if path == [] {
      assert [k][1..] == [];
    } else {
      assert (path + [k])[0] == path[0] && (path + [k])[1..] == path[1..] + [k];
      FollowOn(Unwrap(v).o.slots[path[0]], path[1..], k, u);
    }
  }

  /** What `v` leads to is the least set that holds all that `v` leads to. */
  lemma {:induction false} FollowStays(v: Value, path: seq<string>, s: set<Obj>, u: set<Obj>)
    requires s <= u && Holds(s, v, u) && Follow(v, path, u).Some? && ToContainer(Follow(v, path, u).value)
    ensures Unwrap(Follow(v, path, u).value).o in s
    decreases |path|
  {
    if path != [] {
      FollowStays(Unwrap(v).o.slots[path[0]], path[1..], s, u);
    }
  }

  lemma OneKeyOn(v: Value, o: Obj, k: string, u: set<Obj>)
    requires Heap(u) && In(v, u) && o in u && Reached(v, o, u) && k in o.slots && ToContainer(o.slots[k])
    ensures Reached(v, Unwrap(o.slots[k]).o, u)
  {
    var path: seq<string> :| IsAt(Follow(v, path, u), o);
    FollowOn(v, path, k, u);
    assert IsAt(Follow(v, path + [k], u), Unwrap(o.slots[k]).o);
  }

  lemma ReachedHolds(v: Value, u: set<Obj>)
    requires Heap(u) && In(v, u)
    ensures ReachedFrom(v, u) <= u && Holds(ReachedFrom(v, u), v, u)
  {
    var s := ReachedFrom(v, u);
    if ToContainer(v) {
      assert IsAt(Follow(v, [], u), Unwrap(v).o);
    }
    forall o, k | o in s && k in o.slots && ToContainer(o.slots[k]) ensures Unwrap(o.slots[k]).o in s {
      OneKeyOn(v, o, k, u);
    }
  }

  lemma ReachedIsLeast(v: Value, s: set<Obj>, u: set<Obj>)
    requires s <= u && Holds(s, v, u)
    ensures ReachedFrom(v, u) <= s
  {
    forall x | x in ReachedFrom(v, u) ensures x in s {
      var path: seq<string> :| IsAt(Follow(v, path, u), x);
      FollowStays(v, path, s, u);
    }
  }

  // ---------------------------------------------------------------- main results

  /**
    What stands for `v` in the copy: a copy for an array or a plain object, however many proxies away, else
    what is behind the proxy, else `v`.
  */
  ghost predicate StandsFor(v: Value, r: Value, m: map<Obj, Obj>) {
    match v
    case Prim(_) => r == v
    case Ref(o) =>
      match o.kind
      case Array => o in m && r == Ref(m[o])
      case Plain => o in m && r == Ref(m[o])
      case Exotic => r == v
      case Proxy =>
        o.target != null ==>
          if o.target.kind.Array? || o.target.kind.Plain? then o.target in m && r == Ref(m[o.target]) else r == Ref(o.target)
  }

  /**
    The copy of `n` is of the same kind and has its keys in order, under each what stands for the value; the
    key `__proto__` of a plain object makes what stands for its value the prototype instead.
  */
  ghost predicate SameButRaw(n: Obj, copy: Obj, m: map<Obj, Obj>)
    reads n, copy
  {
    && copy.kind == n.kind
    && (n.kind.Array? || PROTO !in n.keys ==> copy.keys == n.keys)
    && (forall k :: k in copy.keys <==> k in n.keys && !(n.kind.Plain? && k == PROTO))
    && (forall k :: k in copy.slots <==> k in n.slots && !(n.kind.Plain? && k == PROTO))
    && (forall k :: k in copy.slots ==> StandsFor(n.slots[k], copy.slots[k], m))
    && (if n.kind.Plain? && PROTO in n.slots then
          if copy.proto == null then n.slots[PROTO].Prim? else StandsFor(n.slots[PROTO], Ref(copy.proto), m)
        else copy.proto == null)
  }

  /**
    The result by the kinds of the objects: every array and plain object that `v` leads to, and no other
    object, has one copy of its own outside the heap.
  */
  ghost predicate CopiedByKind(v: Value, r: Value, m: map<Obj, Obj>, u: set<Obj>)
    reads u, m.Values
  {
    && StandsFor(v, r, m)
    && m.Keys <= u
    && (forall o :: o in u ==> (o in m <==> (o.kind.Array? || o.kind.Plain?) && Reached(v, o, u)))
    && (forall n :: n in m ==> m[n] !in u && m[n] in m.Values && SameButRaw(n, m[n], m))
    && (forall a, b :: a in m && b in m && a != b ==> m[a] != m[b])
  }

  /** `r` is the copy of `v`; `m` maps each raw container reachable from `v`, and no other, to its one copy. */
  ghost predicate RawCopyOf(v: Value, r: Value, m: map<Obj, Obj>, u: set<Obj>)
    reads u, m.Keys, m.Values
  {
    && TableOk(m, u)
    && (forall n :: n in m ==> Complete(n, m) && !OnCycle(n, u))
    && r == Image(v, m)
    && Holds(m.Keys, v, u)
    && m.Keys == ReachedFrom(v, u)
  }

  ghost predicate Throws(v: Value, u: set<Obj>)
    reads u
  {
    exists x :: x in u && Reached(v, x, u) && OnCycle(x, u)
  }

  /** In a complete table whoever names a container as its prototype is linked to its copy. */
  lemma MustBeLinked(n: Obj, m: map<Obj, Obj>, linked: set<Obj>, u: set<Obj>)
    requires TableOk(m, u) && Links(m, linked, u) && Complete(n, m) && Parent(n).Some?
    ensures n in linked
  {
    assert m[n].proto == m[Parent(n).value];
  }

  lemma NoCycle(x: Obj, m: map<Obj, Obj>, linked: set<Obj>, u: set<Obj>)
    requires TableOk(m, u) && Links(m, linked, u) && AllComplete(map[], m) && x in m
    ensures !OnCycle(x, u)
  {
    if OnCycle(x, u) {
      var n: nat :| n > 0 && Climbs(x, x, u, n);
      MustBeLinked(x, m, linked, u);
      forall z | z in linked && z in u && Parent(z).Some? && Parent(Parent(z).value).Some?
        ensures Parent(z).value in linked
      {
        assert LinkOk(z, m[z].proto, m, linked, u);
        MustBeLinked(Parent(z).value, m, linked, u);
      }
      var k: nat :| ChainEnds(x, linked, u, k);
      CycleNeverEnds(x, x, linked, u, 0, n, k);
    }
  }

  lemma TableIsRawCopy(v: Value, m: map<Obj, Obj>, linked: set<Obj>, u: set<Obj>)
    requires Heap(u) && In(v, u) && TableOk(m, u) && Links(m, linked, u) && AllComplete(map[], m)
    requires (ToContainer(v) ==> Unwrap(v).o in m) && OnlyReached(v, map[], m, u)
    ensures RawCopyOf(v, Image(v, m), m, u) && !Throws(v, u)
  {
    forall n, k | n in m && k in n.slots && ToContainer(n.slots[k]) ensures Unwrap(n.slots[k]).o in m {
      assert Complete(n, m);
    }
    ReachedHolds(v, u);
    ReachedIsLeast(v, m.Keys, u);
    var none: map<Obj, Obj> := map[];
    assert m.Keys <= none.Keys + ReachedFrom(v, u);
    forall n | n in m ensures !OnCycle(n, u) {
      NoCycle(n, m, linked, u);
    }
  }

  lemma {:induction false} OwnAll(o: Obj, keys: seq<string>)
    requires o.kind.Array? || PROTO !in keys
    ensures Own(o, keys) == keys
  {
    if keys != [] {
      assert keys == keys[..|keys| - 1] + [keys[|keys| - 1]];
      OwnAll(o, keys[..|keys| - 1]);
    }
  }

  lemma ImageStands(v: Value, m: map<Obj, Obj>)
    requires ToContainer(v) ==> Unwrap(v).o in m
    ensures StandsFor(v, Image(v, m), m)
  {
  }

  lemma CompleteIsSame(n: Obj, m: map<Obj, Obj>)
    requires Complete(n, m) && (forall k :: k in n.keys <==> k in n.slots)
    ensures SameButRaw(n, m[n], m)
  {
    forall k ensures k in m[n].keys <==> k in n.keys && !IsSetter(n, k) {
      OwnAre(n, n.keys, k);
    }
    if n.kind.Array? || PROTO !in n.keys {
      OwnAll(n, n.keys);
    }
    forall k | k in m[n].slots ensures StandsFor(n.slots[k], m[n].slots[k], m) {
      ImageStands(n.slots[k], m);
    }
    if n.kind.Plain? && PROTO in n.slots {
      ImageStands(n.slots[PROTO], m);
    }
  }

  lemma RawCopyIsByKind(v: Value, r: Value, m: map<Obj, Obj>, u: set<Obj>)
    requires Heap(u) && In(v, u) && RawCopyOf(v, r, m, u)
    ensures CopiedByKind(v, r, m, u)
  {
    ImageStands(v, m);
    forall n | n in m ensures SameButRaw(n, m[n], m) {
      assert Complete(n, m) && n in u;
      CompleteIsSame(n, m);
    }
    forall o | o in u ensures o in m <==> (o.kind.Array? || o.kind.Plain?) && Reached(v, o, u) {
      assert o in m.Keys <==> o in ReachedFrom(v, u);
    }
  }

  /**
    What `clone` hands to the native structured clone. It throws exactly when something reachable is
    its own prototype at some remove.
  */
  method ToRaw(v: Value, ghost u: set<Obj>) returns (r: Option<Value>, ghost m: map<Obj, Obj>)
    requires Heap(u) && In(v, u)
    ensures r.None? <==> Throws(v, u)
    ensures r.Some? ==> RawCopyOf(v, r.value, m, u) && CopiedByKind(v, r.value, m, u)
    ensures r.Some? ==> forall n :: n in m ==> fresh(m[n])
    ensures forall o :: o in u ==> unchanged(o)
  {
    var seen := new Seen();
    ghost var linked;
    r, linked := DeepToRaw(v, seen, {}, u);
    m := seen.m;
    if r.Some? {
      TableIsRawCopy(v, m, linked, u);
      RawCopyIsByKind(v, r.value, m, u);
    } else {
      ReachedHolds(v, u);
    }
  }

  /** A path survives as long as it does not take a setter; what it leads to is the image of what it led to. */
  lemma {:induction false} SamePaths(v: Value, r: Value, m: map<Obj, Obj>, u: set<Obj>, path: seq<string>)
    requires Heap(u) && In(v, u) && TableOk(m, u) && (forall n :: n in m ==> Complete(n, m))
    requires (ToContainer(v) ==> Unwrap(v).o in m) && r == Image(v, m)
    ensures Follow(r, path, m.Values).Some? <==> Follow(v, path, u).Some? && !UsesProto(v, path, u)
    ensures Follow(v, path, u).Some? ==> ToContainer(Follow(v, path, u).value) ==> Unwrap(Follow(v, path, u).value).o in m
    ensures Follow(r, path, m.Values).Some? ==> Follow(r, path, m.Values).value == Image(Follow(v, path, u).value, m)
    decreases |path|
  {
    if path != [] && ToContainer(v) {
      var n, k := Unwrap(v).o, path[0];
      assert Complete(n, m) && m[n] in m.Values;
      if k in n.slots {
        SamePaths(n.slots[k], Image(n.slots[k], m), m, u, path[1..]);
      }
    }
  }

  /**
    The copy is the same graph to all who do not ask for `__proto__`: a path leads somewhere in the
    copy exactly when it does in the original without taking that key of a plain object, and then to
    the image of what it leads to there.
  */
  lemma CopyIsIsomorphic(v: Value, r: Value, m: map<Obj, Obj>, u: set<Obj>, path: seq<string>)
    requires Heap(u) && In(v, u) && RawCopyOf(v, r, m, u)
    ensures Follow(r, path, m.Values).Some? <==> Follow(v, path, u).Some? && !UsesProto(v, path, u)
    ensures Follow(r, path, m.Values).Some? ==> StandsFor(Follow(v, path, u).value, Follow(r, path, m.Values).value, m)
  {
    SamePaths(v, r, m, u, path);
    if Follow(v, path, u).Some? {
      ImageStands(Follow(v, path, u).value, m);
    }
  }

  lemma {:induction false} UserOfProto(v: Value, path: seq<string>, s: set<Obj>, u: set<Obj>)
    requires s <= u && Holds(s, v, u) && UsesProto(v, path, u)
    ensures exists x :: x in s && HasProtoKey(x)
    decreases |path|
  {
    if !IsSetter(Unwrap(v).o, path[0]) {
      UserOfProto(Unwrap(v).o.slots[path[0]], path[1..], s, u);
    }
  }

  /** The copying returns, and every path exists in the copy exactly when it does in the original. */
  ghost predicate Exact(v: Value, r: Option<Value>, m: map<Obj, Obj>, u: set<Obj>)
    reads u, m.Values
  {
    r.Some? && forall path: seq<string> :: Follow(r.value, path, m.Values).Some? <==> Follow(v, path, u).Some?
  }

  /** An own key `__proto__` within reach is a path that the copy does not have. */
  lemma ProtoKeySpoils(v: Value, r: Value, m: map<Obj, Obj>, u: set<Obj>, x: Obj) returns (path: seq<string>)
    requires Heap(u) && In(v, u) && RawCopyOf(v, r, m, u) && Reached(v, x, u) && HasProtoKey(x)
    ensures Follow(v, path, u).Some? && Follow(r, path, m.Values).None?
  {
    var p: seq<string> :| IsAt(Follow(v, p, u), x);
    path := p + [PROTO];
    FollowOn(v, p, PROTO, u);
    SamePaths(v, r, m, u, path);
  }

  lemma NothingSpoils(v: Value, r: Value, m: map<Obj, Obj>, u: set<Obj>, path: seq<string>)
    requires Heap(u) && In(v, u) && RawCopyOf(v, r, m, u)
    requires forall x :: x in u && Reached(v, x, u) ==> !HasProtoKey(x)
    ensures Follow(r, path, m.Values).Some? <==> Follow(v, path, u).Some?
  {
    SamePaths(v, r, m, u, path);
    if UsesProto(v, path, u) {
      ReachedHolds(v, u);
      UserOfProto(v, path, ReachedFrom(v, u), u);
    }
  }

  lemma CycleNeedsKey(x: Obj, u: set<Obj>)
    requires OnCycle(x, u)
    ensures HasProtoKey(x)
  {
  }

  /** The copy is exact if and only if no plain object that `v` leads to has an own key `__proto__`. */
  lemma CopyIsExactIff(v: Value, r: Option<Value>, m: map<Obj, Obj>, u: set<Obj>)
    requires Heap(u) && In(v, u) && (r.None? <==> Throws(v, u)) && (r.Some? ==> RawCopyOf(v, r.value, m, u))
    ensures Exact(v, r, m, u) <==> forall x :: x in u && Reached(v, x, u) ==> !HasProtoKey(x)
  {
    if x :| x in u && Reached(v, x, u) && HasProtoKey(x) {
      if r.Some? {
        var path := ProtoKeySpoils(v, r.value, m, u, x);
      }
    } else {
      forall x | x in u && OnCycle(x, u) ensures !Reached(v, x, u) {
        CycleNeedsKey(x, u);
      }
      forall path: seq<string> ensures Follow(r.value, path, m.Values).Some? <==> Follow(v, path, u).Some? {
        NothingSpoils(v, r.value, m, u, path);
      }
    }
  }

  /**
    Sharing and cycles are preserved, and nothing else is shared: two paths that exist in the copy end
    in one container exactly when they end in one raw container of the original, through whatever proxies.
  */
  lemma SharingIsPreserved(v: Value, r: Value, m: map<Obj, Obj>, u: set<Obj>, p: seq<string>, x: Obj, q: seq<string>,
      y: Obj)
    requires Heap(u) && In(v, u) && RawCopyOf(v, r, m, u)
    requires IsAt(Follow(v, p, u), x) && !UsesProto(v, p, u)
    requires IsAt(Follow(v, q, u), y) && !UsesProto(v, q, u)
    ensures Follow(r, p, m.Values).Some? && Follow(r, q, m.Values).Some?
    ensures Follow(r, p, m.Values).value == Follow(r, q, m.Values).value <==> x == y
  {
    SamePaths(v, r, m, u, p);
    SamePaths(v, r, m, u, q);
  }

  /** No proxy is left: not as the result, in no slot of a copy, and not as a prototype. */
  lemma CopyIsProxyFree(v: Value, r: Value, m: map<Obj, Obj>, u: set<Obj>, n: Obj)
    requires Heap(u) && In(v, u) && RawCopyOf(v, r, m, u) && n in m
    ensures (r.Ref? ==> !r.o.kind.Proxy?) && (m[n].proto != null ==> !m[n].proto.kind.Proxy?)
    ensures forall k :: k in m[n].slots && m[n].slots[k].Ref? ==>
              var o := m[n].slots[k].o; !o.kind.Proxy? && (o.kind.Array? || o.kind.Plain? ==> o in m.Values)
  {
    assert Complete(n, m) && n in u;
    assert v.Ref? ==> v.o in u;
    forall k | k in m[n].slots && m[n].slots[k].Ref?
      ensures var o := m[n].slots[k].o; !o.kind.Proxy? && (o.kind.Array? || o.kind.Plain? ==> o in m.Values)
    {
      var x := n.slots[k];
      assert x.Ref? ==> x.o in u;
      if ToContainer(x) {
        assert m[Unwrap(x).o] in m.Values;
      }
    }
  }

  // ---------------------------------------------------------------- what becomes of an own key `__proto__`

  /** Nothing but a key `__proto__` whose value is no object. */
  ghost predicate OnlyProtoKey(o: Obj, u: set<Obj>)
    reads o
  {
    u == {o} && o.kind.Plain? && o.keys == [PROTO] && PROTO in o.slots && o.slots[PROTO].Prim?
  }

  lemma OnlyProtoKeyIsLost(o: Obj, r: Option<Value>, m: map<Obj, Obj>, u: set<Obj>)
    requires Heap(u) && OnlyProtoKey(o, u)
    requires (r.None? <==> Throws(Ref(o), u)) && (r.Some? ==> RawCopyOf(Ref(o), r.value, m, u))
    ensures r.Some? && r.value.Ref? && r.value.o.kind == Plain && r.value.o.keys == [] && r.value.o.slots == map[]
  {
    forall x | x in u ensures !OnCycle(x, u) {
      assert Parent(o).None?;
    }
    assert Complete(o, m) && o.keys[..0] == [] && o.keys[..1] == o.keys;
    NextKey(o, 0);
    assert forall k :: k in o.slots ==> k == PROTO;
    assert forall k :: k !in m[o].slots;
    assert r.value == Ref(m[o]) && m[o].slots.Keys == {};
  }

  /** What `JSON.parse` makes of an object text with the one key `__proto__` and a number: its copy is empty. */
  method ProtoKeyIsLost(id: int) returns (o: Obj, copy: Obj)
    ensures o.kind == Plain && o.keys == [PROTO] && o.slots == map[PROTO := Prim(id)]
    ensures copy.kind == Plain && copy.keys == [] && copy.slots == map[]
  {
    o := new Obj.Empty(Plain);
    o.keys, o.slots := [PROTO], map[PROTO := Prim(id)];
    var r;
    ghost var m;
    r, m := ToRaw(Ref(o), {o});
    OnlyProtoKeyIsLost(o, r, m, {o});
    copy := r.value.o;
  }

  /** An object that names itself as its prototype cannot be copied. */
  lemma OwnPrototypeThrows(o: Obj, u: set<Obj>)
    requires Heap(u) && o in u && o.kind.Plain? && PROTO in o.slots && Unwrap(o.slots[PROTO]) == Ref(o)
    ensures Throws(Ref(o), u)
  {
    assert IsAt(Follow(Ref(o), [], u), o);
    assert Climbs(o, o, u, 1);
  }

  // ---------------------------------------------------------------- an array of a proxied object

  /** An array whose one item is a proxy of a plain object with one number. */
  ghost predicate ArrayOfProxied(a: Obj, p: Obj, o: Obj, id: int)
    reads a, p, o
  {
    && a.kind.Array? && a.keys == ["0"] && a.slots == map["0" := Ref(p)] && a.proto == null
    && p.kind.Proxy? && p.target == o && p.keys == [] && p.slots == map[] && p.proto == null
    && o.kind.Plain? && o.keys == ["a"] && o.slots == map["a" := Prim(id)] && o.proto == null
  }

  lemma ArrayOfProxiedReturns(a: Obj, p: Obj, o: Obj, id: int)
    requires ArrayOfProxied(a, p, o, id)
    ensures Heap({a, p, o}) && !Throws(Ref(a), {a, p, o})
  {
    assert PROTO != "a";
    forall x | x in {a, p, o} ensures !OnCycle(x, {a, p, o}) {
      if OnCycle(x, {a, p, o}) { CycleNeedsKey(x, {a, p, o}); }
    }
  }

  lemma ItemStands(a: Obj, p: Obj, o: Obj, id: int, m: map<Obj, Obj>)
    requires ArrayOfProxied(a, p, o, id) && a in m && SameButRaw(a, m[a], m)
    ensures o in m && m[a].kind == Array && m[a].keys == ["0"] && m[a].slots == map["0" := Ref(m[o])]
  {
    assert forall k :: k in m[a].slots <==> k == "0";
    assert StandsFor(a.slots["0"], m[a].slots["0"], m);
  }

  lemma NumberStands(o: Obj, id: int, m: map<Obj, Obj>)
    requires o in m && SameButRaw(o, m[o], m) && o.kind.Plain? && o.keys == ["a"] && o.slots == map["a" := Prim(id)]
    ensures m[o].kind == Plain && m[o].keys == ["a"] && m[o].slots == map["a" := Prim(id)]
  {
    assert PROTO != "a";
    assert forall k :: k in m[o].slots <==> k == "a";
    assert StandsFor(o.slots["a"], m[o].slots["a"], m);
  }

  /** Its copy is a new array of a new plain object, and the proxy is gone. */
  method ProxiedItemIsCopied(id: int) returns (a: Obj, copy: Obj, item: Obj)
    ensures a.kind == Array && a.keys == ["0"] && "0" in a.slots && a.slots["0"].Ref? && a.slots["0"].o.kind == Proxy
    ensures copy.kind == Array && copy.keys == ["0"] && copy.slots == map["0" := Ref(item)]
    ensures item.kind == Plain && item.keys == ["a"] && item.slots == map["a" := Prim(id)]
    ensures copy != a && item != a.slots["0"].o && a.slots["0"].o.target != null && item != a.slots["0"].o.target
  {
    var o := new Obj.Empty(Plain);
    o.keys, o.slots := ["a"], map["a" := Prim(id)];
    var p := new Obj.ProxyOf(o);
    a := new Obj.Empty(Array);
    a.keys, a.slots := ["0"], map["0" := Ref(p)];
    ArrayOfProxiedReturns(a, p, o, id);
    var r;
    ghost var m;
    r, m := ToRaw(Ref(a), {a, p, o});
    copy := r.value.o;
    ItemStands(a, p, o, id, m);
    item := copy.slots["0"].o;
    NumberStands(o, id, m);
  }
}

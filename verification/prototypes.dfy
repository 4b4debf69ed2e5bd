// Reading through the prototype chain, and instanceof.

module Prototypes {
  import opened Common
  import opened ClassLists
  import opened HeapValues
  import opened ManagedHeap
  import opened Objects

  const PROTO := "__proto__"

  // The object behind a value, if there is one.
  ghost function ObjectOf(s: State, v: Option<AnyVal>): Option<Addr> {
    if v.Some? && v.value.Ptr? && IsObject(s, v.value.to) then Some(v.value.to) else None
  }

  ghost function ProtoOf(s: State, o: Addr): Option<Addr>
    requires ObjectsGood(s) && IsObject(s, o)
  {
    assert GoodObject(s, o);
    ObjectOf(s, OwnValue(s, o, PROTO))
  }

  // An object and its prototypes in order, up to one that has none.  A cyclic chain has no such list.
  ghost predicate IsChain(s: State, o: Addr, chain: seq<Addr>)
    requires ObjectsGood(s)
    decreases chain
  {
    && chain != [] && chain[0] == o && IsObject(s, o)
    && if |chain| == 1 then ProtoOf(s, o) == None else ProtoOf(s, o) == Some(chain[1]) && IsChain(s, chain[1], chain[1..])
  }

  function After(chain: seq<Addr>, i: nat): Option<Addr> {
    if i + 1 < |chain| then Some(chain[i + 1]) else None
  }

  ghost predicate Next(s: State, a: Addr, next: Option<Addr>)
    requires ObjectsGood(s)
  {
    IsObject(s, a) && ProtoOf(s, a) == next
  }

  ghost predicate Each(s: State, chain: seq<Addr>)
    requires ObjectsGood(s)
  {
    forall i :: 0 <= i < |chain| ==> Next(s, chain[i], After(chain, i))
  }

  // Each object but the last has the next one under "__proto__", and the last has none there.
  lemma {:induction false} ChainIff(s: State, o: Addr, chain: seq<Addr>)
    requires ObjectsGood(s) && chain != [] && chain[0] == o
    ensures IsChain(s, o, chain) <==> Each(s, chain)
    decreases |chain|
  {
    if |chain| == 1 {
      assert IsChain(s, o, chain) <==> Next(s, chain[0], After(chain, 0));
    } else {
      ChainIff(s, chain[1], chain[1..]);
      assert IsChain(s, o, chain) <==> Next(s, chain[0], After(chain, 0)) && IsChain(s, chain[1], chain[1..]);
      var next := (a: Addr, n: Option<Addr>) => ObjectsGood(s) && Next(s, a, n);
      EachOrRest(next, chain);
      assert Each(s, chain) <==> forall i :: 0 <= i < |chain| ==> next(chain[i], After(chain, i));
      assert Each(s, chain[1..]) <==> forall i :: 0 <= i < |chain| - 1 ==> next(chain[1..][i], After(chain[1..], i));
    }
  }

  lemma EachOrRest(next: (Addr, Option<Addr>) -> bool, chain: seq<Addr>)
    requires chain != []
    ensures (forall i :: 0 <= i < |chain| ==> next(chain[i], After(chain, i))) <==>
            next(chain[0], After(chain, 0)) && forall i :: 0 <= i < |chain| - 1 ==> next(chain[1..][i], After(chain[1..], i))
  {
    var rest := chain[1..];
    if next(chain[0], After(chain, 0)) && forall i :: 0 <= i < |rest| ==> next(rest[i], After(rest, i)) {
      forall i | 0 <= i < |chain|
        ensures next(chain[i], After(chain, i))
      {
        if i > 0 { assert next(rest[i - 1], After(rest, i - 1)); }
      }
    }
    if forall i :: 0 <= i < |chain| ==> next(chain[i], After(chain, i)) {
      forall i | 0 <= i < |rest|
        ensures next(rest[i], After(rest, i))
      {
        assert next(chain[i + 1], After(chain, i + 1));
      }
    }
  }

  // What the object itself has under the name.
  ghost function Owned(s: State, o: Addr, text: string): Option<AnyVal>
    requires ObjectsGood(s)
  {
    if IsObject(s, o) then assert GoodObject(s, o); OwnValue(s, o, text) else None
  }

  ghost function OwnedAlong(s: State, chain: seq<Addr>, text: string): (r: seq<Option<AnyVal>>)
    requires ObjectsGood(s)
    ensures |r| == |chain| && (chain != [] ==> r[0] == Owned(s, chain[0], text))
  {
    if chain == [] then [] else [Owned(s, chain[0], text)] + OwnedAlong(s, chain[1..], text)
  }

  // The first value there is, or undefined.
  ghost predicate IsFirst(values: seq<Option<AnyVal>>, v: AnyVal) {
    || (v == Undefined && forall c <- values :: c.None?)
    || exists k: nat :: k < |values| && values[k] == Some(v) && forall j :: 0 <= j < k ==> values[j].None?
  }

  // Section 8.12.2 of ECMA-262 5.1: the value in the nearest object owning the name, or undefined.
  ghost predicate IsInherited(s: State, chain: seq<Addr>, text: string, v: AnyVal)
    requires ObjectsGood(s)
  {
    IsFirst(OwnedAlong(s, chain, text), v)
  }

  lemma OwnsItself(s: State, chain: seq<Addr>, text: string, v: AnyVal)
    requires ObjectsGood(s) && chain != [] && Owned(s, chain[0], text) == Some(v)
    ensures IsInherited(s, chain, text, v)
  {
    assert OwnedAlong(s, chain, text)[0] == Some(v);
  }

  lemma PassedOn(s: State, chain: seq<Addr>, text: string, v: AnyVal)
    requires ObjectsGood(s) && |chain| > 1 && Owned(s, chain[0], text) == None
    requires IsInherited(s, chain[1..], text, v)
    ensures IsInherited(s, chain, text, v)
  {
    FirstOfRest(None, OwnedAlong(s, chain[1..], text), v);
  }

  lemma HeadDecides(values: seq<Option<AnyVal>>, v: AnyVal)
    requires IsFirst(values, v) && values != []
    ensures values[0].Some? ==> v == values[0].value
    ensures |values| == 1 && values[0].None? ==> v == Undefined
  {
    if v == Undefined && forall c <- values :: c.None? {
      assert values[0] in values;
    } else {
      var k: nat :| k < |values| && values[k] == Some(v) && forall j :: 0 <= j < k ==> values[j].None?;
      assert k > 0 ==> values[0].None?;
    }
  }

  lemma FirstOfRest(first: Option<AnyVal>, rest: seq<Option<AnyVal>>, v: AnyVal)
    requires first == None && IsFirst(rest, v)
    ensures IsFirst([first] + rest, v)
  {
    if !(v == Undefined && forall c <- rest :: c.None?) {
      var k: nat :| k < |rest| && rest[k] == Some(v) && forall j :: 0 <= j < k ==> rest[j].None?;
      assert ([first] + rest)[k + 1] == Some(v);
    }
  }

  method MatchObject(h: Heap, v: AnyVal) returns (r: Option<Addr>)
    ensures r == ObjectOf(h.Abs(), Some(v))
  {
    r := if v.Ptr? && v.to in h.mem && h.mem[v.to].shape.ObjectPtrPtr? then Some(v.to) else None;
  }

  // Reads a property.  The cache speaks for the object itself only; further up the chain every
  // lookup is made afresh.
  method Get(h: Heap, o: Addr, name: StringPtr, cache: int, protoName: StringPtr, ghost chain: seq<Addr>)
    returns (v: AnyVal, cache1: int)
    requires h.Built() && ObjectsGood(h.Abs()) && IsChain(h.Abs(), o, chain) && GoodObject(h.Abs(), o)
    requires CacheFits(ClassOf(h.Abs(), o), name.text, cache) && protoName.text == "__proto__"
    ensures IsInherited(h.Abs(), chain, name.text, v)
    ensures cache1 == CacheAfter(ClassOf(h.Abs(), o), name.text, cache)
    decreases |chain|
  {
    ghost var s := h.Abs();
    CacheRightIffFits(ClassOf(s, o), name.text, cache);
    SlotInRange(ClassOf(s, o), name.text);
    SlotInRange(ClassOf(s, o), PROTO);
    var d := h.mem[o].shape.data;
    var c := h.mem[d].shape.classTag;
    var found: Option<int>;
    found, cache1 := h.classes.LookupCached(c, name, cache);
    if found.Some? {
      v := h.mem[d].cells[found.value].value;
      OwnsItself(s, chain, name.text, v);
      return;
    }
    var protoFound, _ := h.classes.LookupCached(c, protoName, -1);
    if protoFound.Some? {
      var proto := MatchObject(h, h.mem[d].cells[protoFound.value].value);
      if proto.Some? {
        assert GoodObject(s, proto.value);
        var unused: int;
        v, unused := Get(h, proto.value, name, -1, protoName, chain[1..]);
        PassedOn(s, chain, name.text, v);
        return;
      }
    }
    v := Undefined;
    assert Owned(s, chain[0], name.text) == None;
  }

  // Reading the prototype itself never goes up the chain.
  lemma ProtoIsOwn(s: State, o: Addr, chain: seq<Addr>, v: AnyVal)
    requires ObjectsGood(s) && IsChain(s, o, chain) && IsInherited(s, chain, PROTO, v)
    ensures ObjectOf(s, Some(v)) == ProtoOf(s, o)
  {
    HeadDecides(OwnedAlong(s, chain, PROTO), v);
  }

  // Is the target on the chain, its start included?
  method InclusiveInstanceOf(h: Heap, o: Addr, target: Addr, protoName: StringPtr, ghost chain: seq<Addr>) returns (r: bool)
    requires h.Built() && ObjectsGood(h.Abs()) && IsChain(h.Abs(), o, chain) && protoName.text == "__proto__"
    ensures r <==> target in chain
    decreases |chain|
  {
    if o == target {
      return true;
    }
    ghost var s := h.Abs();
    assert GoodObject(s, o);
    var shim, _ := Get(h, o, protoName, -1, protoName, chain);
    ProtoIsOwn(s, o, chain, shim);
    var proto := MatchObject(h, shim);
    if proto.Some? {
      r := InclusiveInstanceOf(h, proto.value, target, protoName, chain[1..]);
    } else {
      r := false;
    }
  }

  // `None` stands for a panic: the right-hand side is no closure, or its function object has no
  // object under "prototype".
  method InstanceOf(h: Heap, a: AnyVal, b: AnyVal, protoName: StringPtr, prototypeName: StringPtr,
                    ghost chain: seq<Addr>, ghost fnChain: seq<Addr>) returns (r: Option<bool>)
    requires h.Built() && ObjectsGood(h.Abs()) && protoName.text == "__proto__" && prototypeName.text == "prototype"
    requires ObjectOf(h.Abs(), Some(a)).Some? ==> IsChain(h.Abs(), ObjectOf(h.Abs(), Some(a)).value, chain)
    requires b.Closure? ==> b.env in h.mem && h.mem[b.env].shape.Env? && IsChain(h.Abs(), h.mem[b.env].shape.fnObj, fnChain)
    ensures !b.Closure? ==> r == None
    ensures b.Closure? && ObjectOf(h.Abs(), Some(a)) == None ==> r == Some(false)
    ensures b.Closure? && ObjectOf(h.Abs(), Some(a)).Some? ==>
      exists p :: IsInherited(h.Abs(), fnChain, "prototype", p) &&
        r == match ObjectOf(h.Abs(), Some(p)) case None => None case Some(target) => Some(target in chain[1..])
  {
    if !b.Closure? {
      return None;
    }
    var obj := MatchObject(h, a);
    if obj.None? {
      return Some(false);
    }
    ghost var s := h.Abs();
    var fnObj := h.mem[b.env].shape.fnObj;
    assert GoodObject(s, fnObj) && GoodObject(s, obj.value);
    var p, _ := Get(h, fnObj, prototypeName, -1, protoName, fnChain);
    var target := MatchObject(h, p);
    if target.None? {
      return None;
    }
    var shim, _ := Get(h, obj.value, protoName, -1, protoName, chain);
    ProtoIsOwn(s, obj.value, chain, shim);
    var proto := MatchObject(h, shim);
    if proto.None? {
      return Some(false);
    }
    var found := InclusiveInstanceOf(h, proto.value, target.value, protoName, chain[1..]);
    r := Some(found);
  }
}

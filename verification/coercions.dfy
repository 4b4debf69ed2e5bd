// Coercions between JankyScript types, and their smart constructors.

module Coercions {
  import opened Common

  datatype Type =
    | Missing
    | Any
    | Float
    | Int
    | Bool
    | Function(args: seq<Type>, ret: Type)
    | String
    | Array
    | DynObject
    | Ref(of: Type)
    | Metavar(n: nat)

  datatype Coercion =
    | Tag(t: Type)
    | Untag(t: Type)
    | IntToFloat
    | FloatToInt
    | Fun(args: seq<Coercion>, ret: Coercion)
    | Id(t: Type)
    | Seq(first: Coercion, second: Coercion)
    | Meta(t1: Type, t2: Type)

  predicate IsGround(t: Type) {
    t.Function? ==> t.ret == Any && forall a <- t.args :: a == Any
  }

  function GroundFunction(n: nat): Type {
    Function(seq(n, _ => Any), Any)
  }

  // ----- The types of coercions -----

  // The documented reading: a function coercion takes its arguments the other way.
  function TypeOf(c: Coercion): Option<(Type, Type)> {
    match c
    case Tag(t) => Some((t, Any))
    case Untag(t) => Some((Any, t))
    case IntToFloat => Some((Int, Float))
    case FloatToInt => Some((Float, Int))
    case Id(t) => Some((t, t))
    case Meta(t1, t2) => Some((t1, t2))
    case Seq(c1, c2) =>
      (match (TypeOf(c1), TypeOf(c2))
       case (Some((s, u)), Some((v, t))) => if u == v then Some((s, t)) else None
       case _ => None)
    case Fun(args, ret) =>
      match (TypesOf(args), TypeOf(ret))
      case (Some(ts), Some((t, t1))) => Some((Function(Ends(ts), t), Function(Starts(ts), t1)))
      case _ => None
  }

  function TypesOf(cs: seq<Coercion>): (r: Option<seq<(Type, Type)>>)
    ensures r.Some? <==> forall i :: 0 <= i < |cs| ==> TypeOf(cs[i]).Some?
    ensures r.Some? ==> |r.value| == |cs| && forall i :: 0 <= i < |cs| ==> TypeOf(cs[i]) == Some(r.value[i])
  {
    if cs == [] then Some([]) else
    match (TypesOf(cs[..|cs| - 1]), TypeOf(cs[|cs| - 1]))
    case (Some(ts), Some(t)) =>
      assert forall i :: 0 <= i < |cs| - 1 ==> cs[..|cs| - 1][i] == cs[i];
      Some(ts + [t])
    case _ =>
      assert forall i :: 0 <= i < |cs| - 1 ==> cs[..|cs| - 1][i] == cs[i];
      None
  }

  function Starts(ts: seq<(Type, Type)>): seq<Type> {
    seq(|ts|, i requires 0 <= i < |ts| => ts[i].0)
  }

  function Ends(ts: seq<(Type, Type)>): seq<Type> {
    seq(|ts|, i requires 0 <= i < |ts| => ts[i].1)
  }

  // ----- Smart constructors -----

  function Size(c: Coercion): nat
    decreases c, 0
  {
    match c
    case Fun(args, ret) => 1 + SizeAll(args) + Size(ret)
    case Seq(c1, c2) => 1 + Size(c1) + Size(c2)
    case _ => 1
  }

  function SizeAll(cs: seq<Coercion>): nat
    decreases cs, 0
  {
    if cs == [] then 0 else 1 + Size(cs[0]) + SizeAll(cs[1..])
  }

  // Sequencing that drops identities and fuses function coercions, each argument the other way round.
  function Sequence(c1: Coercion, c2: Coercion): Coercion
    decreases Size(c1) + Size(c2), 0
  {
    if c2.Id? then c1
    else if c1.Id? then c2
    else if c1.Fun? && c2.Fun? then Fun(SequenceArgs(c2.args, c1.args), Sequence(c1.ret, c2.ret))
    else Seq(c1, c2)
  }

  // Pairwise, as far as both lists go.
  function SequenceArgs(as1: seq<Coercion>, as2: seq<Coercion>): (r: seq<Coercion>)
    ensures |r| == if |as1| < |as2| then |as1| else |as2|
    decreases SizeAll(as1) + SizeAll(as2), 1
  {
    if as1 == [] || as2 == [] then [] else [Sequence(as1[0], as2[0])] + SequenceArgs(as1[1..], as2[1..])
  }

  function IdTypes(cs: seq<Coercion>): (r: Option<seq<Type>>)
    ensures r.Some? <==> forall c <- cs :: c.Id?
    ensures r.Some? ==> |r.value| == |cs| && forall i :: 0 <= i < |cs| ==> cs[i] == Id(r.value[i])
  {
    if cs == [] then Some([])
    else if !cs[0].Id? then None
    else match IdTypes(cs[1..]) case None => None case Some(ts) => Some([cs[0].t] + ts)
  }

  // A function coercion, unless every part of it is an identity.
  function MakeFun(args: seq<Coercion>, ret: Coercion): Coercion {
    if ret.Id? && IdTypes(args).Some? then Id(Function(IdTypes(args).value, ret.t)) else Fun(args, ret)
  }

  // ----- Building a coercion between two types -----

  function Depth(t: Type): nat {
    match t
    case Any => 0
    case Function(args, ret) => 1 + Larger(Deepest(args), Depth(ret))
    case _ => 1
  }

  function Deepest(ts: seq<Type>): (d: nat)
    ensures forall i :: 0 <= i < |ts| ==> Depth(ts[i]) <= d
  {
    if ts == [] then 0 else
    assert forall i :: 1 <= i < |ts| ==> ts[i] == ts[1..][i - 1];
    Larger(Depth(ts[0]), Deepest(ts[1..]))
  }

  function Larger(a: nat, b: nat): nat {
    if a < b then b else a
  }

  lemma {:induction false} DeepestOfAny(n: nat)
    ensures Deepest(seq(n, _ => Any)) == 0
    decreases n
  {
    if n > 0 {
      assert seq(n, _ => Any)[1..] == seq(n - 1, _ => Any);
      DeepestOfAny(n - 1);
    }
  }

  lemma GroundIsShallow(n: nat)
    ensures Depth(GroundFunction(n)) == 1 && IsGround(GroundFunction(n))
  {
    DeepestOfAny(n);
  }

  lemma {:induction false} ShallowAny(ts: seq<Type>)
    requires Deepest(ts) == 0
    ensures forall t <- ts :: t == Any
  {
    if ts != [] {
      ShallowAny(ts[1..]);
      assert Depth(ts[0]) == 0;
      assert forall t <- ts :: t == ts[0] || t in ts[1..];
    }
  }

  // Any function type that is not ground is at least two deep.
  lemma NotGroundIsDeep(t: Type)
    requires t.Function? && !IsGround(t)
    ensures Depth(t) >= 2
  {
    if Depth(t) < 2 { ShallowAny(t.args); }
  }

  // Going through a ground function keeps the depth, going through Any keeps it too: then what
  // counts is that the step has been taken.
  function Rank(t1: Type, t2: Type): nat {
    if t1.Function? && t2.Function? then 0 else if t1 == Any || t2 == Any then 1 else 2
  }

  // `None` stands for a panic.
  function New(t1: Type, t2: Type): Option<Coercion>
    decreases Larger(Depth(t1), Depth(t2)), Rank(t1, t2), 1
  {
    if t1 == t2 then Some(Id(t1))
    else if t1 == Any && IsGround(t2) then Some(Untag(t2))
    else if t2 == Any then (if IsGround(t1) then Some(Tag(t1)) else None)
    else if t1 == Any && t2.Function? then
      NotGroundIsDeep(t2);
      GroundIsShallow(|t2.args|);
      var gf := GroundFunction(|t2.args|);
      Then(New(Any, gf), New(gf, t2))
    else if t1.Function? && t2.Function? then
      if |t1.args| != |t2.args| then None else
      match (NewArgs(t2.args, t1.args), New(t1.ret, t2.ret))
      case (Some(cs), Some(c)) => Some(MakeFun(cs, c))
      case _ => None
    else if t1 == Int && t2 == Float then Some(IntToFloat)
    else if t1 == Float && t2 == Int then Some(FloatToInt)
    else Then(New(t1, Any), New(Any, t2))
  }

  function Then(c1: Option<Coercion>, c2: Option<Coercion>): Option<Coercion> {
    if c1.Some? && c2.Some? then Some(Sequence(c1.value, c2.value)) else None
  }

  // From each type of the first list to the one at its place in the second.
  function NewArgs(from: seq<Type>, to: seq<Type>): (r: Option<seq<Coercion>>)
    requires |from| == |to|
    ensures r.Some? ==> |r.value| == |from|
    decreases Larger(Deepest(from), Deepest(to)), 3, |from|
  {
    if from == [] then Some([]) else
    match (New(from[0], to[0]), NewArgs(from[1..], to[1..]))
    case (Some(c), Some(cs)) => Some([c] + cs)
    case _ => None
  }

  lemma {:induction false} NewArgsExact(from: seq<Type>, to: seq<Type>)
    requires |from| == |to|
    ensures NewArgs(from, to).Some? <==> forall i :: 0 <= i < |from| ==> New(from[i], to[i]).Some?
    ensures NewArgs(from, to).Some? ==> forall i :: 0 <= i < |from| ==> New(from[i], to[i]) == Some(NewArgs(from, to).value[i])
    decreases |from|
  {
    if from != [] {
      NewArgsExact(from[1..], to[1..]);
      assert forall i :: 1 <= i < |from| ==> from[i] == from[1..][i - 1] && to[i] == to[1..][i - 1];
    }
  }

  // ----- Every coercion has the type it was made for -----

  lemma {:induction false} SequenceTyped(c1: Coercion, c2: Coercion, s: Type, u: Type, t: Type)
    requires TypeOf(c1) == Some((s, u)) && TypeOf(c2) == Some((u, t))
    ensures TypeOf(Sequence(c1, c2)) == TypeOf(Seq(c1, c2)) == Some((s, t))
    decreases Size(c1) + Size(c2)
  {
    if !c1.Id? && !c2.Id? && c1.Fun? && c2.Fun? {
      SequenceTyped(c1.ret, c2.ret, s.ret, u.ret, t.ret);
      SequenceArgsTyped(c1, c2);
      var ts1, ts2, ts := TypesOf(c1.args).value, TypesOf(c2.args).value, TypesOf(SequenceArgs(c2.args, c1.args)).value;
      assert Ends(ts) == Ends(ts1) && Starts(ts) == Starts(ts2);
    }
  }

  lemma {:induction false} SequenceArgsTyped(c1: Coercion, c2: Coercion)
    requires c1.Fun? && c2.Fun? && TypesOf(c1.args).Some? && TypesOf(c2.args).Some?
    requires Starts(TypesOf(c1.args).value) == Ends(TypesOf(c2.args).value)
    ensures var ts1, ts2 := TypesOf(c1.args).value, TypesOf(c2.args).value;
            var args := SequenceArgs(c2.args, c1.args);
            && |args| == |ts1| == |ts2| && TypesOf(args).Some?
            && forall i :: 0 <= i < |args| ==> TypesOf(args).value[i] == (ts2[i].0, ts1[i].1)
    decreases Size(c1) + Size(c2), 0
  {
    var ts1, ts2 := TypesOf(c1.args).value, TypesOf(c2.args).value;
    var args := SequenceArgs(c2.args, c1.args);
    assert |Starts(ts1)| == |c1.args| && |Ends(ts2)| == |c2.args|;
    forall i | 0 <= i < |args|
      ensures TypeOf(args[i]) == Some((ts2[i].0, ts1[i].1))
    {
      assert Starts(ts1)[i] == Ends(ts2)[i];
      ArgSmaller(c1.args, i);
      ArgSmaller(c2.args, i);
      SequenceArgsAt(c2.args, c1.args, i);
      SequenceTyped(c2.args[i], c1.args[i], ts2[i].0, ts2[i].1, ts1[i].1);
    }
  }

  lemma {:induction false} SequenceArgsAt(as1: seq<Coercion>, as2: seq<Coercion>, i: nat)
    requires i < |as1| && i < |as2|
    ensures SequenceArgs(as1, as2)[i] == Sequence(as1[i], as2[i])
    decreases i
  {
    if i > 0 { SequenceArgsAt(as1[1..], as2[1..], i - 1); }
  }

  lemma {:induction false} ArgSmaller(cs: seq<Coercion>, i: nat)
    requires i < |cs|
    ensures Size(cs[i]) < SizeAll(cs)
  {
    if i > 0 { ArgSmaller(cs[1..], i - 1); }
  }

  lemma MakeFunTyped(args: seq<Coercion>, ret: Coercion)
    requires TypeOf(Fun(args, ret)).Some?
    ensures TypeOf(MakeFun(args, ret)) == TypeOf(Fun(args, ret))
  {
    if ret.Id? && IdTypes(args).Some? {
      var ts := TypesOf(args).value;
      var ids := IdTypes(args).value;
      forall i | 0 <= i < |args|
        ensures ts[i] == (ids[i], ids[i])
      {
        assert args[i] == Id(ids[i]);
      }
      assert Starts(ts) == ids && Ends(ts) == ids;
    }
  }

  lemma FunTyped(cs: seq<Coercion>, c: Coercion, t1: Type, t2: Type)
    requires t1.Function? && t2.Function? && |cs| == |t1.args| == |t2.args|
    requires TypeOf(c) == Some((t1.ret, t2.ret)) && forall i :: 0 <= i < |cs| ==> TypeOf(cs[i]) == Some((t2.args[i], t1.args[i]))
    ensures TypeOf(MakeFun(cs, c)) == Some((t1, t2))
  {
    var ts := TypesOf(cs).value;
    assert Starts(ts) == t2.args && Ends(ts) == t1.args;
    MakeFunTyped(cs, c);
  }

  // Whenever a coercion from t1 to t2 is made, it has the type t1 -> t2.
  lemma {:induction false} NewTyped(t1: Type, t2: Type)
    requires New(t1, t2).Some?
    ensures TypeOf(New(t1, t2).value) == Some((t1, t2))
    decreases Larger(Depth(t1), Depth(t2)), Rank(t1, t2)
  {
    if t1 == t2 || (t1 == Any && IsGround(t2)) || t2 == Any {
    } else if t1 == Any && t2.Function? {
      NotGroundIsDeep(t2);
      GroundIsShallow(|t2.args|);
      var gf := GroundFunction(|t2.args|);
      NewTyped(gf, t2);
      SequenceTyped(New(Any, gf).value, New(gf, t2).value, Any, gf, t2);
    } else if t1.Function? && t2.Function? {
      var cs := NewArgs(t2.args, t1.args).value;
      NewArgsExact(t2.args, t1.args);
      forall i | 0 <= i < |cs|
        ensures TypeOf(cs[i]) == Some((t2.args[i], t1.args[i]))
      {
        NewTyped(t2.args[i], t1.args[i]);
      }
      NewTyped(t1.ret, t2.ret);
      FunTyped(cs, New(t1.ret, t2.ret).value, t1, t2);
    } else if (t1 == Int && t2 == Float) || (t1 == Float && t2 == Int) {
    } else {
      NewTyped(Any, t2);
      SequenceTyped(New(t1, Any).value, New(Any, t2).value, t1, Any, t2);
    }
  }

  // ----- Exactly when a coercion can be made -----

  // Any value of an Any type can be taken for one of this type.
  predicate FromAny(t: Type) {
    t.Function? ==> FromAny(t.ret) && forall a <- t.args :: IsGround(a)
  }

  predicate Converts(t1: Type, t2: Type)
    decreases Larger(Depth(t1), Depth(t2))
  {
    || t1 == t2
    || if t1.Function? && t2.Function? then
         && |t1.args| == |t2.args| && Converts(t1.ret, t2.ret)
         && forall i :: 0 <= i < |t1.args| ==> Converts(t2.args[i], t1.args[i])
       else IsGround(t1) && FromAny(t2)
  }

  lemma {:induction false} NewIffConverts(t1: Type, t2: Type)
    ensures New(t1, t2).Some? <==> Converts(t1, t2)
    decreases Larger(Depth(t1), Depth(t2)), Rank(t1, t2)
  {
    if t1 == t2 || (t1 == Any && IsGround(t2)) || t2 == Any {
      if IsGround(t2) && t2.Function? { assert FromAny(t2.ret); }
    } else if t1 == Any && t2.Function? {
      NotGroundIsDeep(t2);
      GroundIsShallow(|t2.args|);
      var gf := GroundFunction(|t2.args|);
      NewIffConverts(gf, t2);
      FromAnyThroughGround(t2);
    } else if t1.Function? && t2.Function? {
      if |t1.args| == |t2.args| {
        forall i | 0 <= i < |t1.args|
          ensures New(t2.args[i], t1.args[i]).Some? <==> Converts(t2.args[i], t1.args[i])
        {
          NewIffConverts(t2.args[i], t1.args[i]);
        }
        NewIffConverts(t1.ret, t2.ret);
        FunctionsConvert(t1, t2);
      }
    } else if (t1 == Int && t2 == Float) || (t1 == Float && t2 == Int) {
    } else {
      NewIffConverts(Any, t2);
    }
  }

  lemma FunctionsConvert(t1: Type, t2: Type)
    requires t1 != t2 && t1.Function? && t2.Function? && |t1.args| == |t2.args|
    requires forall i :: 0 <= i < |t1.args| ==> (New(t2.args[i], t1.args[i]).Some? <==> Converts(t2.args[i], t1.args[i]))
    requires New(t1.ret, t2.ret).Some? <==> Converts(t1.ret, t2.ret)
    ensures New(t1, t2).Some? <==> Converts(t1, t2)
  {
    NewArgsExact(t2.args, t1.args);
  }

  lemma FromAnyThroughGround(t: Type)
    requires t.Function? && !IsGround(t)
    ensures Converts(GroundFunction(|t.args|), t) <==> FromAny(t)
  {
    var gf := GroundFunction(|t.args|);
    GroundIsShallow(|t.args|);
    assert IsGround(gf) && gf != t;
    assert Converts(Any, t.ret) <==> FromAny(t.ret);
    assert forall i :: 0 <= i < |t.args| ==> (Converts(t.args[i], Any) <==> IsGround(t.args[i]));
    assert (forall a <- t.args :: IsGround(a)) <==> forall i :: 0 <= i < |t.args| ==> IsGround(t.args[i]);
  }

  // ----- The checker reads function coercions the other way -----

  function CheckerTypeOf(c: Coercion): Option<(Type, Type)> {
    match c
    case Seq(c1, c2) =>
      (match (CheckerTypeOf(c1), CheckerTypeOf(c2))
       case (Some((s, u)), Some((v, t))) => if u == v then Some((s, t)) else None
       case _ => None)
    case Fun(args, ret) =>
      (match (CheckerTypesOf(args), CheckerTypeOf(ret))
       case (Some(ts), Some((t, t1))) => Some((Function(Starts(ts), t), Function(Ends(ts), t1)))
       case _ => None)
    case _ => TypeOf(c)
  }

  function CheckerTypesOf(cs: seq<Coercion>): Option<seq<(Type, Type)>> {
    if cs == [] then Some([]) else
    match (CheckerTypesOf(cs[..|cs| - 1]), CheckerTypeOf(cs[|cs| - 1]))
    case (Some(ts), Some(t)) => Some(ts + [t])
    case _ => None
  }

  lemma {:induction false} CheckerTypesExact(cs: seq<Coercion>)
    ensures CheckerTypesOf(cs).Some? <==> forall i :: 0 <= i < |cs| ==> CheckerTypeOf(cs[i]).Some?
    ensures var r := CheckerTypesOf(cs);
            r.Some? ==> |r.value| == |cs| && forall i :: 0 <= i < |cs| ==> CheckerTypeOf(cs[i]) == Some(r.value[i])
    decreases |cs|
  {
    if cs != [] {
      CheckerTypesExact(cs[..|cs| - 1]);
      assert forall i :: 0 <= i < |cs| - 1 ==> cs[..|cs| - 1][i] == cs[i];
    }
  }

  function Swap(p: (Type, Type)): (Type, Type) {
    (p.1, p.0)
  }

  // The ends (a1, b1) are the ends (a, b), the one way or the other, unless both pairs have equal ends.
  predicate Turned(a: Type, b: Type, a1: Type, b1: Type) {
    || (a1 == a && b1 == b)
    || (a1 == b && b1 == a)
    || (a == b && a1 == b1)
  }

  predicate Alike(a: Type, b: Type) {
    a.Function? && b.Function? && |a.args| == |b.args|
  }

  // The same at every place inside the types, place by place.
  predicate Mixed(a: Type, b: Type, a1: Type, b1: Type)
    decreases a
  {
    || Turned(a, b, a1, b1)
    || (Alike(a, b) && Alike(a, a1) && Alike(a, b1)
        && (forall i :: 0 <= i < |a.args| ==> Mixed(a.args[i], b.args[i], a1.args[i], b1.args[i]))
        && Mixed(a.ret, b.ret, a1.ret, b1.ret))
  }

  // So one end is right when the other is, and one is the other way when the other is.
  lemma {:induction false} EndsTogether(a: Type, b: Type, a1: Type, b1: Type)
    requires Mixed(a, b, a1, b1)
    ensures a1 == a <==> b1 == b
    ensures a1 == b <==> b1 == a
    decreases a
  {
    if !Turned(a, b, a1, b1) {
      EndsTogether(a.ret, b.ret, a1.ret, b1.ret);
      forall i | 0 <= i < |a.args|
        ensures a1.args[i] == a.args[i] <==> b1.args[i] == b.args[i]
        ensures a1.args[i] == b.args[i] <==> b1.args[i] == a.args[i]
      {
        EndsTogether(a.args[i], b.args[i], a1.args[i], b1.args[i]);
      }
      SameByParts(a1, a);
      SameByParts(b1, b);
      SameByParts(a1, b);
      SameByParts(b1, a);
    }
  }

  lemma SameByParts(a: Type, b: Type)
    requires Alike(a, b)
    ensures a == b <==> a.ret == b.ret && forall i :: 0 <= i < |a.args| ==> a.args[i] == b.args[i]
  {
    if a.ret == b.ret && forall i :: 0 <= i < |a.args| ==> a.args[i] == b.args[i] { assert a.args == b.args; }
  }

  lemma {:induction false} MixedTurns(a: Type, b: Type, a1: Type, b1: Type)
    requires Mixed(a, b, a1, b1)
    ensures Mixed(b, a, a1, b1)
    decreases a
  {
    if !Turned(a, b, a1, b1) {
      MixedTurns(a.ret, b.ret, a1.ret, b1.ret);
      forall i | 0 <= i < |a.args|
        ensures Mixed(b.args[i], a.args[i], a1.args[i], b1.args[i])
      {
        MixedTurns(a.args[i], b.args[i], a1.args[i], b1.args[i]);
      }
    }
  }

  lemma {:induction false} MixedParts(a: Type, b: Type, a1: Type, b1: Type)
    requires Mixed(a, b, a1, b1) && Alike(a, b) && Alike(a, a1) && Alike(a, b1)
    ensures Mixed(a.ret, b.ret, a1.ret, b1.ret)
    ensures forall i :: 0 <= i < |a.args| ==> Mixed(a.args[i], b.args[i], a1.args[i], b1.args[i])
  {
  }

  // The ends by themselves: turned as a whole, or functions of one arity all four.
  predicate TurnedOrAlike(a: Type, b: Type, a1: Type, b1: Type) {
    && (Turned(a, b, a1, b1) || (Alike(a, b) && Alike(a, a1) && Alike(a, b1)))
    && (a1 == a <==> b1 == b) && (a1 == b <==> b1 == a)
  }

  lemma MixedEnds(a: Type, b: Type, a1: Type, b1: Type)
    requires Mixed(a, b, a1, b1)
    ensures TurnedOrAlike(a, b, a1, b1)
  {
    EndsTogether(a, b, a1, b1);
  }

  // When the whole is not just turned, all are functions of one arity.
  lemma JoinAlike(a: Type, m: Type, b: Type, a1: Type, m1: Type, b1: Type)
    requires TurnedOrAlike(a, m, a1, m1) && TurnedOrAlike(m, b, m1, b1) && !Turned(a, b, a1, b1)
    ensures Alike(a, m) && Alike(a, b) && Alike(a, a1) && Alike(a, m1) && Alike(a, b1)
  {
  }

  lemma {:induction false} MixedJoins(a: Type, m: Type, b: Type, a1: Type, m1: Type, b1: Type)
    requires Mixed(a, m, a1, m1) && Mixed(m, b, m1, b1)
    ensures Mixed(a, b, a1, b1)
    decreases a
  {
    if !Turned(a, b, a1, b1) {
      MixedEnds(a, m, a1, m1);
      MixedEnds(m, b, m1, b1);
      JoinAlike(a, m, b, a1, m1, b1);
      MixedParts(a, m, a1, m1);
      MixedParts(m, b, m1, b1);
      MixedJoins(a.ret, m.ret, b.ret, a1.ret, m1.ret, b1.ret);
      forall i | 0 <= i < |a.args|
        ensures Mixed(a.args[i], b.args[i], a1.args[i], b1.args[i])
      {
        MixedJoins(a.args[i], m.args[i], b.args[i], a1.args[i], m1.args[i], b1.args[i]);
      }
    }
  }

  // Whatever the checker reads, it has only turned the ends round at some places.
  lemma {:induction false} CheckerOnlyTurns(c: Coercion)
    requires TypeOf(c).Some? && CheckerTypeOf(c).Some?
    ensures var (t, r) := (TypeOf(c).value, CheckerTypeOf(c).value); Mixed(t.0, t.1, r.0, r.1)
    decreases c
  {
    var (t, r) := (TypeOf(c).value, CheckerTypeOf(c).value);
    match c
    case Seq(c1, c2) =>
      CheckerOnlyTurns(c1);
      CheckerOnlyTurns(c2);
      MixedJoins(t.0, TypeOf(c1).value.1, t.1, r.0, CheckerTypeOf(c1).value.1, r.1);
    case Fun(args, ret) =>
      CheckerTypesExact(args);
      CheckerOnlyTurns(ret);
      var ts, rs := TypesOf(args).value, CheckerTypesOf(args).value;
      forall i | 0 <= i < |args|
        ensures Mixed(t.0.args[i], t.1.args[i], r.0.args[i], r.1.args[i])
      {
        CheckerOnlyTurns(args[i]);
        MixedTurns(ts[i].0, ts[i].1, rs[i].0, rs[i].1);
      }
    case _ =>
  }

  // The type in front of a coercion as it is written, and the one behind it: at every place of a
  // function, arguments as well, the ends of the outermost parts there.
  function Front(c: Coercion): Type {
    match c
    case Seq(c1, _) => Front(c1)
    case Fun(args, ret) => Function(seq(|args|, i requires 0 <= i < |args| => Front(args[i])), Front(ret))
    case Untag(_) => Any
    case IntToFloat => Int
    case FloatToInt => Float
    case Tag(t) => t
    case Id(t) => t
    case Meta(t1, _) => t1
  }

  function Back(c: Coercion): Type {
    match c
    case Seq(_, c2) => Back(c2)
    case Fun(args, ret) => Function(seq(|args|, i requires 0 <= i < |args| => Back(args[i])), Back(ret))
    case Tag(_) => Any
    case IntToFloat => Float
    case FloatToInt => Int
    case Untag(t) => t
    case Id(t) => t
    case Meta(_, t2) => t2
  }

  // Every sequence in it fits together as it is written.
  predicate FitsTogether(c: Coercion) {
    match c
    case Seq(c1, c2) => FitsTogether(c1) && FitsTogether(c2) && Back(c1) == Front(c2)
    case Fun(args, ret) => FitsTogether(ret) && forall i :: 0 <= i < |args| ==> FitsTogether(args[i])
    case _ => true
  }

  // What the checker accepts, and as what.
  lemma {:induction false} CheckerReadsAsWritten(c: Coercion)
    ensures CheckerTypeOf(c) == if FitsTogether(c) then Some((Front(c), Back(c))) else None
    decreases c
  {
    match c
    case Seq(c1, c2) =>
      CheckerReadsAsWritten(c1);
      CheckerReadsAsWritten(c2);
    case Fun(args, ret) =>
      CheckerReadsAsWritten(ret);
      forall i | 0 <= i < |args|
        ensures CheckerTypeOf(args[i]) == if FitsTogether(args[i]) then Some((Front(args[i]), Back(args[i]))) else None
      {
        CheckerReadsAsWritten(args[i]);
      }
      CheckerTypesExact(args);
      if FitsTogether(c) {
        var ts := CheckerTypesOf(args).value;
        EndsAt(ts);
        SameAtEach(Starts(ts), Front(c).args);
        SameAtEach(Ends(ts), Back(c).args);
      }
    case _ =>
  }

  // Read as documented.
  predicate Right(c: Coercion)
    decreases c
  {
    match c
    case Seq(c1, c2) => Right(c1) && Right(c2)
    case Fun(args, ret) => Right(ret) && forall i :: 0 <= i < |args| ==> Swapped(args[i])
    case _ => true
  }

  // Read the other way round.  A sequence has to fit together as it is written, with the outer ends
  // in each other's place.
  predicate Swapped(c: Coercion)
    decreases c
  {
    match c
    case Seq(c1, c2) =>
      FitsTogether(c) && TypeOf(c) == Some((Back(c2), Front(c1)))
    case Fun(args, ret) => Swapped(ret) && forall i :: 0 <= i < |args| ==> Right(args[i])
    case _ => TypeOf(c).Some? && TypeOf(c).value.0 == TypeOf(c).value.1
  }

  // The checker gives a coercion its documented type exactly when the misreadings cancel: every
  // argument, at every depth, has to be read the other way round once more.
  lemma {:induction false} CheckerRightIff(c: Coercion)
    requires TypeOf(c).Some?
    ensures CheckerTypeOf(c) == TypeOf(c) <==> Right(c)
    ensures CheckerTypeOf(c) == Some(Swap(TypeOf(c).value)) <==> Swapped(c)
    decreases c
  {
    match c
    case Seq(c1, c2) =>
      CheckerRightIff(c1);
      CheckerRightIff(c2);
      SequenceRightIff(c1, c2);
    case Fun(args, ret) =>
      CheckerRightIff(ret);
      forall i | 0 <= i < |args|
        ensures CheckerTypeOf(args[i]) == TypeOf(args[i]) <==> Right(args[i])
        ensures CheckerTypeOf(args[i]) == Some(Swap(TypeOf(args[i]).value)) <==> Swapped(args[i])
      {
        CheckerRightIff(args[i]);
      }
      FunctionRightIff(args, ret);
    case _ =>
  }

  lemma SequenceRightIff(c1: Coercion, c2: Coercion)
    requires TypeOf(Seq(c1, c2)).Some?
    requires (CheckerTypeOf(c1) == TypeOf(c1) <==> Right(c1)) && (CheckerTypeOf(c2) == TypeOf(c2) <==> Right(c2))
    ensures CheckerTypeOf(Seq(c1, c2)) == TypeOf(Seq(c1, c2)) <==> Right(Seq(c1, c2))
    ensures CheckerTypeOf(Seq(c1, c2)) == Some(Swap(TypeOf(Seq(c1, c2)).value)) <==> Swapped(Seq(c1, c2))
  {
    var c := Seq(c1, c2);
    CheckerReadsAsWritten(c);
    if CheckerTypeOf(c).Some? {
      CheckerOnlyTurns(c1);
      CheckerOnlyTurns(c2);
      CheckerOnlyTurns(c);
      var (t1, r1) := (TypeOf(c1).value, CheckerTypeOf(c1).value);
      var (t2, r2) := (TypeOf(c2).value, CheckerTypeOf(c2).value);
      EndsTogether(t1.0, t1.1, r1.0, r1.1);
      EndsTogether(t2.0, t2.1, r2.0, r2.1);
      EndsTogether(t1.0, t2.1, r1.0, r2.1);
    }
  }

  lemma FunctionRightIff(args: seq<Coercion>, ret: Coercion)
    requires TypeOf(Fun(args, ret)).Some?
    requires CheckerTypeOf(ret) == TypeOf(ret) <==> Right(ret)
    requires CheckerTypeOf(ret) == Some(Swap(TypeOf(ret).value)) <==> Swapped(ret)
    requires forall i :: 0 <= i < |args| ==> (CheckerTypeOf(args[i]) == TypeOf(args[i]) <==> Right(args[i]))
    requires forall i :: 0 <= i < |args| ==> (CheckerTypeOf(args[i]) == Some(Swap(TypeOf(args[i]).value)) <==> Swapped(args[i]))
    ensures CheckerTypeOf(Fun(args, ret)) == TypeOf(Fun(args, ret)) <==> Right(Fun(args, ret))
    ensures CheckerTypeOf(Fun(args, ret)) == Some(Swap(TypeOf(Fun(args, ret)).value)) <==> Swapped(Fun(args, ret))
  {
    CheckerTypesExact(args);
    if CheckerTypeOf(Fun(args, ret)).Some? {
      FunctionsTurnedIff(TypesOf(args).value, CheckerTypesOf(args).value, TypeOf(ret).value, CheckerTypeOf(ret).value);
    }
  }

  lemma FunctionsTurnedIff(ts: seq<(Type, Type)>, rs: seq<(Type, Type)>, t: (Type, Type), r: (Type, Type))
    requires |ts| == |rs|
    ensures Function(Starts(rs), r.0) == Function(Ends(ts), t.0) && Function(Ends(rs), r.1) == Function(Starts(ts), t.1) <==>
            r == t && forall i :: 0 <= i < |ts| ==> rs[i] == Swap(ts[i])
    ensures Function(Starts(rs), r.0) == Function(Starts(ts), t.1) && Function(Ends(rs), r.1) == Function(Ends(ts), t.0) <==>
            r == Swap(t) && forall i :: 0 <= i < |ts| ==> rs[i] == ts[i]
  {
    SameAtEach(Starts(rs), Ends(ts));
    SameAtEach(Ends(rs), Starts(ts));
    SameAtEach(Starts(rs), Starts(ts));
    SameAtEach(Ends(rs), Ends(ts));
    EndsAt(ts);
    EndsAt(rs);
  }

  lemma EndsAt(ts: seq<(Type, Type)>)
    ensures forall i {:trigger ts[i]} :: 0 <= i < |ts| ==> Starts(ts)[i] == ts[i].0 && Ends(ts)[i] == ts[i].1
  {
  }

  lemma SameAtEach(a: seq<Type>, b: seq<Type>)
    requires |a| == |b|
    ensures a == b <==> forall i :: 0 <= i < |a| ==> a[i] == b[i]
  {
  }

  // So it refuses the type of the coercion made from (Int) -> Int to (Any) -> Int.
  lemma CheckerMisreads()
    ensures var t1, t2 := Function([Int], Int), Function([Any], Int);
            New(t1, t2).Some? && TypeOf(New(t1, t2).value) == Some((t1, t2)) && CheckerTypeOf(New(t1, t2).value) == Some((t2, t1))
  {
    var t1, t2 := Function([Int], Int), Function([Any], Int);
    var c := Untag(Int);
    NewArgsExact(t2.args, t1.args);
    assert New(t2.args[0], t1.args[0]) == Some(c);
    assert NewArgs(t2.args, t1.args).value == [c];
    assert New(t1, t2) == Some(Fun([c], Id(Int)));
    NewTyped(t1, t2);
    assert [c][..0] == [] && CheckerTypesOf([]) == Some([]) && CheckerTypeOf(c) == Some((Any, Int));
    assert CheckerTypesOf([c]) == Some([] + [(Any, Int)]);
    assert Starts([(Any, Int)]) == [Any] && Ends([(Any, Int)]) == [Int];
  }
}

// What coercions do to values, and what a call of a coerced function does.

module CoercionMeaning {
  import opened Common
  import opened Coercions

  // ----- Chains -----

  // A value passes a row of links: a step of its own, or a wrapper around a function, which has a row
  // for each argument on its way in and one for the result on its way out.
  datatype Row = Row(links: seq<Link>)

  datatype Link = Atom(c: Coercion) | Wrap(args: seq<Row>, ret: Row)

  function RowSize(r: Row): nat
    decreases r, 1
  {
    LinksSize(r.links)
  }

  function LinksSize(ls: seq<Link>): nat
    decreases ls, 0
  {
    if ls == [] then 0 else LinkSize(ls[0]) + LinksSize(ls[1..])
  }

  function LinkSize(l: Link): nat
    decreases l, 0
  {
    match l
    case Atom(_) => 1
    case Wrap(args, ret) => 1 + RowsSize(args) + RowSize(ret)
  }

  function RowsSize(rows: seq<Row>): nat
    decreases rows, 0
  {
    if rows == [] then 0 else 1 + RowSize(rows[0]) + RowsSize(rows[1..])
  }

  predicate Mergeable(x: Link, y: Link) {
    x.Wrap? && y.Wrap? && |x.args| == |y.args|
  }

  // x around the function, and y around that: an argument passes y first, a result passes x first.
  function Merge(x: Link, y: Link): (r: Link)
    requires Mergeable(x, y)
    ensures r.Wrap? && |r.args| == |x.args|
    decreases LinkSize(x) + LinkSize(y), 0
  {
    Wrap(JoinAll(y.args, x.args), Join(x.ret, y.ret))
  }

  function JoinAll(ys: seq<Row>, xs: seq<Row>): (r: seq<Row>)
    requires |ys| == |xs|
    ensures |r| == |ys|
    decreases RowsSize(ys) + RowsSize(xs), 1
  {
    if ys == [] then [] else [Join(ys[0], xs[0])] + JoinAll(ys[1..], xs[1..])
  }

  // One row after another, wrappers that meet becoming one.
  function Join(a: Row, b: Row): Row
    decreases RowSize(a) + RowSize(b), 2
  {
    Row(JoinLinks(a.links, b.links))
  }

  function JoinLinks(a: seq<Link>, b: seq<Link>): (r: seq<Link>)
    ensures |r| >= |a|
    decreases LinksSize(a) + LinksSize(b), 1, |a|
  {
    if a == [] then b
    else if |a| > 1 then [a[0]] + JoinLinks(a[1..], b)
    else if b != [] && Mergeable(a[0], b[0]) then
      Sizes(a[0], b);
      [Merge(a[0], b[0])] + b[1..]
    else a + b
  }

  lemma Sizes(x: Link, b: seq<Link>)
    requires b != []
    ensures LinksSize([x]) == LinkSize(x) && LinkSize(b[0]) <= LinksSize(b)
  {
    assert [x][1..] == [];
  }

  // ----- Joining is associative -----

  lemma {:induction false} JoinLinksAssoc(a: seq<Link>, b: seq<Link>, c: seq<Link>)
    ensures JoinLinks(JoinLinks(a, b), c) == JoinLinks(a, JoinLinks(b, c))
    decreases LinksSize(a) + LinksSize(b) + LinksSize(c), 1, |a|
  {
    if a == [] {
    } else if |a| > 1 {
      JoinLinksAssoc(a[1..], b, c);
      Longer(a[0], JoinLinks(a[1..], b), c);
      assert JoinLinks(a, b) == [a[0]] + JoinLinks(a[1..], b);
    } else {
      assert a == [a[0]];
      OneAssoc(a[0], b, c);
    }
  }

  // A link in front of others is not touched.
  lemma Longer(x: Link, b: seq<Link>, c: seq<Link>)
    requires b != []
    ensures JoinLinks([x] + b, c) == [x] + JoinLinks(b, c)
  {
    assert ([x] + b)[1..] == b;
  }

  lemma {:induction false} OneAssoc(x: Link, b: seq<Link>, c: seq<Link>)
    ensures JoinLinks(JoinLinks([x], b), c) == JoinLinks([x], JoinLinks(b, c))
    decreases LinkSize(x) + LinksSize(b) + LinksSize(c), 0, 1
  {
    if b == [] {
      assert JoinLinks([x], []) == [x];
    } else if |b| > 1 {
      var met := if Mergeable(x, b[0]) then [Merge(x, b[0])] else [x, b[0]];
      assert JoinLinks([x], b) == met + b[1..];
      Front(met, b[1..], c);
      assert JoinLinks(b, c) == [b[0]] + JoinLinks(b[1..], c);
    } else {
      assert b == [b[0]];
      TwoAssoc(x, b[0], c);
    }
  }

  lemma {:induction false} Front(a: seq<Link>, b: seq<Link>, c: seq<Link>)
    requires b != []
    ensures JoinLinks(a + b, c) == a + JoinLinks(b, c)
  {
    if a == [] {
      assert a + b == b;
    } else {
      Front(a[1..], b, c);
      Longer(a[0], a[1..] + b, c);
      OneAndRest(a, b);
      OneAndRest(a, JoinLinks(b, c));
    }
  }

  lemma OneAndRest(a: seq<Link>, b: seq<Link>)
    requires a != []
    ensures a + b == [a[0]] + (a[1..] + b)
  {
  }

  lemma {:induction false} TwoAssoc(x: Link, y: Link, c: seq<Link>)
    ensures JoinLinks(JoinLinks([x], [y]), c) == JoinLinks([x], JoinLinks([y], c))
    decreases LinkSize(x) + LinkSize(y) + LinksSize(c), 0, 0
  {
    if c == [] {
      NothingAfter(JoinLinks([x], [y]));
      NothingAfter([y]);
    } else if Mergeable(y, c[0]) {
      var yc := Merge(y, c[0]);
      assert JoinLinks([y], c) == [yc] + c[1..];
      if Mergeable(x, y) {
        assert LinksSize(c) >= LinkSize(c[0]);
        MergeAssoc(x, y, c[0]);
        assert JoinLinks([x], [y]) == [Merge(x, y)];
      } else {
        assert JoinLinks([x], [y]) == [x, y];
        Front([x], [y], c);
      }
    } else {
      assert JoinLinks([y], c) == [y] + c;
      if Mergeable(x, y) {
        assert JoinLinks([x], [y]) == [Merge(x, y)];
        assert JoinLinks([Merge(x, y)], c) == [Merge(x, y)] + c;
      } else {
        assert JoinLinks([x], [y]) == [x, y];
        Front([x], [y], c);
      }
    }
  }

  lemma {:induction false} NothingAfter(a: seq<Link>)
    ensures JoinLinks(a, []) == a
  {
    if |a| > 1 { NothingAfter(a[1..]); }
  }

  lemma {:induction false} MergeAssoc(x: Link, y: Link, z: Link)
    requires Mergeable(x, y) && Mergeable(y, z)
    ensures Merge(Merge(x, y), z) == Merge(x, Merge(y, z))
    decreases LinkSize(x) + LinkSize(y) + LinkSize(z), -1, 0
  {
    JoinAllAssoc(z.args, y.args, x.args);
    JoinAssoc(x.ret, y.ret, z.ret);
  }

  lemma {:induction false} JoinAssoc(a: Row, b: Row, c: Row)
    ensures Join(Join(a, b), c) == Join(a, Join(b, c))
    decreases RowSize(a) + RowSize(b) + RowSize(c), 2, 0
  {
    JoinLinksAssoc(a.links, b.links, c.links);
  }

  lemma {:induction false} JoinAllAssoc(zs: seq<Row>, ys: seq<Row>, xs: seq<Row>)
    requires |zs| == |ys| == |xs|
    ensures JoinAll(JoinAll(zs, ys), xs) == JoinAll(zs, JoinAll(ys, xs))
    decreases RowsSize(zs) + RowsSize(ys) + RowsSize(xs), 0, 0
  {
    if zs != [] {
      JoinAssoc(zs[0], ys[0], xs[0]);
      JoinAllAssoc(zs[1..], ys[1..], xs[1..]);
    }
  }

  // ----- The row of a coercion -----

  function RowOf(c: Coercion): Row {
    match c
    case Id(_) => Row([])
    case Seq(c1, c2) => Join(RowOf(c1), RowOf(c2))
    case Fun(args, ret) => Wrapper(RowsOf(args), RowOf(ret))
    case _ => Row([Atom(c)])
  }

  function RowsOf(cs: seq<Coercion>): (r: seq<Row>)
    ensures |r| == |cs|
  {
    if cs == [] then [] else [RowOf(cs[0])] + RowsOf(cs[1..])
  }

  // A wrapper that does nothing anywhere is none.
  function Wrapper(args: seq<Row>, ret: Row): Row {
    if ret.links == [] && (forall i :: 0 <= i < |args| ==> args[i].links == []) then Row([]) else Row([Wrap(args, ret)])
  }

  lemma NothingBefore(r: Row)
    ensures Join(Row([]), r) == r && Join(r, Row([])) == r
  {
    NothingAfter(r.links);
  }

  lemma {:induction false} JoinAllAt(ys: seq<Row>, xs: seq<Row>, i: nat)
    requires i < |ys| == |xs|
    ensures JoinAll(ys, xs)[i] == Join(ys[i], xs[i])
  {
    if i > 0 { JoinAllAt(ys[1..], xs[1..], i - 1); }
  }

  predicate Idle(rows: seq<Row>) {
    forall i :: 0 <= i < |rows| ==> rows[i].links == []
  }

  lemma JoinIdle(a: Row, b: Row)
    ensures Join(a, b).links == [] <==> a.links == [] && b.links == []
    ensures a.links == [] ==> Join(a, b) == b
    ensures b.links == [] ==> Join(a, b) == a
  {
    NothingBefore(a);
    NothingBefore(b);
    if a.links == [] { assert a == Row([]); }
    if b.links == [] { assert b == Row([]); }
  }

  lemma JoinAllIdle(ys: seq<Row>, xs: seq<Row>)
    requires |ys| == |xs|
    ensures Idle(JoinAll(ys, xs)) <==> Idle(ys) && Idle(xs)
    ensures Idle(ys) ==> JoinAll(ys, xs) == xs
    ensures Idle(xs) ==> JoinAll(ys, xs) == ys
  {
    forall i | 0 <= i < |ys|
      ensures JoinAll(ys, xs)[i].links == [] <==> ys[i].links == [] && xs[i].links == []
      ensures ys[i].links == [] ==> JoinAll(ys, xs)[i] == xs[i]
      ensures xs[i].links == [] ==> JoinAll(ys, xs)[i] == ys[i]
    {
      JoinAllAt(ys, xs, i);
      JoinIdle(ys[i], xs[i]);
    }
  }

  // Two wrappers of one arity are one: each argument passes the outer one first.
  lemma WrappersMeet(a1: seq<Row>, r1: Row, a2: seq<Row>, r2: Row)
    requires |a1| == |a2|
    ensures Join(Wrapper(a1, r1), Wrapper(a2, r2)) == Wrapper(JoinAll(a2, a1), Join(r1, r2))
  {
    JoinAllIdle(a2, a1);
    JoinIdle(r1, r2);
    var w1, w2 := Wrapper(a1, r1), Wrapper(a2, r2);
    if (Idle(a1) && r1.links == []) || (Idle(a2) && r2.links == []) {
      JoinIdle(w1, w2);
    } else {
      assert w1.links == [Wrap(a1, r1)] && w2.links == [Wrap(a2, r2)];
      assert JoinLinks(w1.links, w2.links) == [Merge(w1.links[0], w2.links[0])];
    }
  }

  // The smart constructor leaves out what does nothing and fuses wrappers: a value passes the same row.
  lemma {:induction false} SequenceRow(c1: Coercion, c2: Coercion)
    requires TypeOf(Seq(c1, c2)).Some?
    ensures RowOf(Sequence(c1, c2)) == Join(RowOf(c1), RowOf(c2))
    decreases Size(c1) + Size(c2), 1
  {
    NothingBefore(RowOf(c1));
    NothingBefore(RowOf(c2));
    if !c1.Id? && !c2.Id? && c1.Fun? && c2.Fun? {
      SequenceRow(c1.ret, c2.ret);
      ArgsMeet(c1, c2);
      RowsInSequence(c2.args, c1.args);
      WrappersMeet(RowsOf(c1.args), RowOf(c1.ret), RowsOf(c2.args), RowOf(c2.ret));
    }
  }

  lemma ArgsMeet(c1: Coercion, c2: Coercion)
    requires c1.Fun? && c2.Fun? && TypeOf(Seq(c1, c2)).Some?
    ensures |c1.args| == |c2.args| && TypeOf(Seq(c1.ret, c2.ret)).Some?
    ensures forall i :: 0 <= i < |c1.args| ==> TypeOf(Seq(c2.args[i], c1.args[i])).Some?
  {
    var ts1, ts2 := TypesOf(c1.args).value, TypesOf(c2.args).value;
    assert Starts(ts1) == Ends(ts2);
    forall i | 0 <= i < |c1.args|
      ensures TypeOf(Seq(c2.args[i], c1.args[i])).Some?
    {
      assert Starts(ts1)[i] == Ends(ts2)[i];
    }
  }

  lemma {:induction false} RowsInSequence(as2: seq<Coercion>, as1: seq<Coercion>)
    requires |as1| == |as2| && forall i :: 0 <= i < |as1| ==> TypeOf(Seq(as2[i], as1[i])).Some?
    ensures RowsOf(SequenceArgs(as2, as1)) == JoinAll(RowsOf(as2), RowsOf(as1))
    decreases SizeAll(as1) + SizeAll(as2), 0
  {
    if as1 != [] {
      SequenceRow(as2[0], as1[0]);
      assert forall i :: 0 <= i < |as1| - 1 ==> as2[1..][i] == as2[i + 1] && as1[1..][i] == as1[i + 1];
      RowsInSequence(as2[1..], as1[1..]);
      var r := SequenceArgs(as2, as1);
      assert r[0] == Sequence(as2[0], as1[0]) && r[1..] == SequenceArgs(as2[1..], as1[1..]);
    }
  }

  // So does the one for functions.
  lemma MakeFunRow(args: seq<Coercion>, ret: Coercion)
    ensures RowOf(MakeFun(args, ret)) == Wrapper(RowsOf(args), RowOf(ret))
  {
    RowsAt(args);
    if ret.Id? && IdTypes(args).Some? {
      assert forall i :: 0 <= i < |args| ==> args[i] in args;
      assert Idle(RowsOf(args));
    }
  }

  lemma {:induction false} RowsAt(cs: seq<Coercion>)
    ensures forall i :: 0 <= i < |cs| ==> RowsOf(cs)[i] == RowOf(cs[i])
  {
    if cs != [] {
      RowsAt(cs[1..]);
      assert forall i :: 1 <= i < |cs| ==> cs[i] == cs[1..][i - 1] && RowsOf(cs)[i] == RowsOf(cs[1..])[i - 1];
    }
  }

  // ----- Values -----

  // A JavaScript value. A function is one that the program wrote, with what its arguments and its
  // result pass; anything else is known by its type.
  datatype Value =
    | IntValue(n: int)
    | FloatValue(x: real)
    | FunValue(fn: nat, args: seq<Row>, ret: Row)
    | Other(t: Type, id: nat)

  // What the runtime can tell of a value: of a function, how many arguments it takes.
  predicate HasType(v: Value, t: Type) {
    match t
    case Any => true
    case Int => v.IntValue?
    case Float => v.FloatValue?
    case Function(args, _) => v.FunValue? && |v.args| == |args|
    case _ => v.Other? && v.t == t
  }

  predicate IsI32(n: int) {
    -0x8000_0000 <= n < 0x8000_0000
  }

  // Toward zero.
  function Truncated(x: real): int {
    if x >= 0.0 then x.Floor else -((-x).Floor)
  }

  // One step of its own. `None` is a trap.
  function Step(c: Coercion, v: Value): Option<Value> {
    match c
    case Tag(_) => Some(v)
    case Untag(t) => if HasType(v, t) then Some(v) else None
    case IntToFloat => if v.IntValue? then Some(FloatValue(v.n as real)) else None
    case FloatToInt => if v.FloatValue? && IsI32(Truncated(v.x)) then Some(IntValue(Truncated(v.x))) else None
    case _ => None
  }

  function Around(w: Link, v: Value): Option<Value>
    requires w.Wrap?
  {
    if v.FunValue? && |v.args| == |w.args| then Some(FunValue(v.fn, JoinAll(w.args, v.args), Join(v.ret, w.ret))) else None
  }

  function Through(l: Link, v: Value): Option<Value> {
    if l.Wrap? then Around(l, v) else Step(l.c, v)
  }

  function Pass(ls: seq<Link>, v: Value): Option<Value> {
    if ls == [] then Some(v) else
    match Through(ls[0], v)
    case None => None
    case Some(w) => Pass(ls[1..], w)
  }

  lemma PassFirst(x: Link, ls: seq<Link>, v: Value)
    ensures Pass([x] + ls, v) == match Through(x, v) case None => None case Some(w) => Pass(ls, w)
  {
    assert ([x] + ls)[1..] == ls;
  }

  function Coerce(c: Coercion, v: Value): Option<Value> {
    Pass(RowOf(c).links, v)
  }

  function CoerceAll(cs: seq<Coercion>, vs: seq<Value>): (r: Option<seq<Value>>)
    requires |cs| == |vs|
    ensures r.Some? ==> |r.value| == |vs|
  {
    if cs == [] then Some([]) else
    match (Coerce(cs[0], vs[0]), CoerceAll(cs[1..], vs[1..]))
    case (Some(w), Some(ws)) => Some([w] + ws)
    case _ => None
  }

  function PassAll(rows: seq<Row>, vs: seq<Value>): (r: Option<seq<Value>>)
    requires |rows| == |vs|
    ensures r.Some? ==> |r.value| == |vs|
  {
    if rows == [] then Some([]) else
    match (Pass(rows[0].links, vs[0]), PassAll(rows[1..], vs[1..]))
    case (Some(w), Some(ws)) => Some([w] + ws)
    case _ => None
  }

  // A call, `run` being what the functions of the program do.
  function Call(f: Value, vs: seq<Value>, run: (nat, seq<Value>) -> Option<Value>): Option<Value>
    requires f.FunValue? && |f.args| == |vs|
  {
    match PassAll(f.args, vs)
    case None => None
    case Some(ws) => match run(f.fn, ws) case None => None case Some(r) => Pass(f.ret.links, r)
  }

  // ----- A joined row does one after the other -----

  function PassTwo(a: seq<Link>, b: seq<Link>, v: Value): Option<Value> {
    match Pass(a, v) case None => None case Some(w) => Pass(b, w)
  }

  lemma {:induction false} PassJoined(a: seq<Link>, b: seq<Link>, v: Value)
    ensures Pass(JoinLinks(a, b), v) == PassTwo(a, b, v)
    decreases |a|
  {
    if |a| > 1 {
      PassFirst(a[0], JoinLinks(a[1..], b), v);
      var first := Through(a[0], v);
      if first.Some? { PassJoined(a[1..], b, first.value); }
    } else if |a| == 1 {
      assert a == [a[0]] + [];
      PassFirst(a[0], [], v);
      PassJoinedOne(a[0], b, v);
    }
  }

  lemma PassJoinedOne(x: Link, b: seq<Link>, v: Value)
    ensures Pass(JoinLinks([x], b), v) == match Through(x, v) case None => None case Some(w) => Pass(b, w)
  {
    if b != [] && Mergeable(x, b[0]) {
      AroundMerged(x, b[0], v);
      PassFirst(Merge(x, b[0]), b[1..], v);
    } else {
      PassFirst(x, b, v);
    }
  }

  lemma AroundMerged(x: Link, y: Link, v: Value)
    requires Mergeable(x, y)
    ensures Through(Merge(x, y), v) == match Through(x, v) case None => None case Some(w) => Through(y, w)
  {
    if v.FunValue? && |v.args| == |x.args| {
      JoinAllAssoc(y.args, x.args, v.args);
      JoinAssoc(v.ret, x.ret, y.ret);
    }
  }

  lemma {:induction false} PassAllJoined(ys: seq<Row>, xs: seq<Row>, vs: seq<Value>)
    requires |ys| == |xs| == |vs|
    ensures PassAll(JoinAll(ys, xs), vs) == match PassAll(ys, vs) case None => None case Some(ws) => PassAll(xs, ws)
    decreases |ys|
  {
    if ys != [] {
      PassJoined(ys[0].links, xs[0].links, vs[0]);
      PassAllJoined(ys[1..], xs[1..], vs[1..]);
    }
  }

  lemma {:induction false} RowsPass(cs: seq<Coercion>, vs: seq<Value>)
    requires |cs| == |vs|
    ensures PassAll(RowsOf(cs), vs) == CoerceAll(cs, vs)
    decreases |cs|
  {
    if cs != [] { RowsPass(cs[1..], vs[1..]); }
  }

  // ----- What coercions do -----

  function CoerceTwice(c1: Coercion, c2: Coercion, v: Value): Option<Value> {
    match Coerce(c1, v) case None => None case Some(w) => Coerce(c2, w)
  }

  // The simplified sequence does to every value what one coercion does after the other.
  lemma SequenceMeans(c1: Coercion, c2: Coercion, v: Value)
    requires TypeOf(Seq(c1, c2)).Some?
    ensures Coerce(Sequence(c1, c2), v) == Coerce(Seq(c1, c2), v) == CoerceTwice(c1, c2, v)
  {
    SequenceRow(c1, c2);
    PassJoined(RowOf(c1).links, RowOf(c2).links, v);
  }

  // So does the simplified coercion of functions.
  lemma MakeFunMeans(args: seq<Coercion>, ret: Coercion, v: Value)
    ensures Coerce(MakeFun(args, ret), v) == Coerce(Fun(args, ret), v)
  {
    MakeFunRow(args, ret);
  }

  // A call that coerces its arguments, calls, and coerces the result.
  function CallCoerced(args: seq<Coercion>, ret: Coercion, f: Value, vs: seq<Value>, run: (nat, seq<Value>) -> Option<Value>): Option<Value>
    requires f.FunValue? && |f.args| == |args| == |vs|
  {
    match CoerceAll(args, vs)
    case None => None
    case Some(ws) => match Call(f, ws, run) case None => None case Some(r) => Coerce(ret, r)
  }

  lemma IdleWrapper(f: Value, args: seq<Row>, ret: Row)
    requires f.FunValue? && |f.args| == |args|
    ensures Pass(Wrapper(args, ret).links, f) == Around(Wrap(args, ret), f)
  {
    JoinAllIdle(args, f.args);
    JoinIdle(f.ret, ret);
  }

  // A coerced function is a function, and calling it is a coerced call.
  lemma CallMeans(args: seq<Coercion>, ret: Coercion, f: Value, vs: seq<Value>, run: (nat, seq<Value>) -> Option<Value>)
    requires f.FunValue? && |f.args| == |args| == |vs|
    ensures var g := Coerce(Fun(args, ret), f);
            g.Some? && g.value.FunValue? && |g.value.args| == |vs| && Call(g.value, vs, run) == CallCoerced(args, ret, f, vs, run)
  {
    IdleWrapper(f, RowsOf(args), RowOf(ret));
    PassAllJoined(RowsOf(args), f.args, vs);
    RowsPass(args, vs);
    forall r: Value
      ensures Pass(Join(f.ret, RowOf(ret)).links, r) == PassTwo(f.ret.links, RowOf(ret).links, r)
    {
      PassJoined(f.ret.links, RowOf(ret).links, r);
    }
  }

  // ----- What is made for two types -----

  lemma OneStep(c: Coercion, v: Value)
    ensures !c.Id? && !c.Seq? && !c.Fun? ==> Coerce(c, v) == Step(c, v)
    ensures c.Id? ==> Coerce(c, v) == Some(v)
  {
    if !c.Id? && !c.Seq? && !c.Fun? {
      assert [Atom(c)] == [Atom(c)] + [];
      PassFirst(Atom(c), [], v);
    }
  }

  // Into Any and onto itself a value stays; a number converts to the same number, the other way it
  // loses its fraction and traps if there is no such int; out of Any only a value of the type comes.
  lemma NewMeans(t1: Type, t2: Type, v: Value)
    requires New(t1, t2).Some? && HasType(v, t1)
    ensures t1 == t2 || t2 == Any ==> Coerce(New(t1, t2).value, v) == Some(v)
    ensures t1 == Int && t2 == Float ==> Coerce(New(t1, t2).value, v) == Some(FloatValue(v.n as real))
    ensures t1 == Float && t2 == Int ==>
              Coerce(New(t1, t2).value, v) == if IsI32(Truncated(v.x)) then Some(IntValue(Truncated(v.x))) else None
    ensures t1 == Any && !t2.Function? ==> Coerce(New(t1, t2).value, v) == if HasType(v, t2) then Some(v) else None
  {
    OneStep(New(t1, t2).value, v);
  }

  predicate Apart(t1: Type, t2: Type) {
    && t1 != t2 && t1 != Any && t2 != Any && !(t1.Function? && t2.Function?)
    && !(t1 == Int && t2 == Float) && !(t1 == Float && t2 == Int)
  }

  // Between any other two types, not both of functions, every value traps.
  lemma NewTraps(t1: Type, t2: Type, v: Value)
    requires New(t1, t2).Some? && HasType(v, t1) && Apart(t1, t2)
    ensures Coerce(New(t1, t2).value, v) == None
  {
    NewTyped(t1, Any);
    NewTyped(Any, t2);
    SequenceMeans(Tag(t1), New(Any, t2).value, v);
    OneStep(Tag(t1), v);
    OneTypeOnly(t1, t2, v);
    OutOfAny(t2, v);
  }

  lemma OneTypeOnly(t1: Type, t2: Type, v: Value)
    requires HasType(v, t1) && Apart(t1, t2)
    ensures !HasType(v, t2)
  {
  }

  // Out of Any: a value of another type traps; a function is taken for a ground one first.
  lemma OutOfAny(t: Type, v: Value)
    requires New(Any, t).Some? && t != Any
    ensures !HasType(v, t) ==> Coerce(New(Any, t).value, v) == None
    ensures HasType(v, t) && t.Function? ==>
              New(GroundFunction(|t.args|), t).Some? && Coerce(New(Any, t).value, v) == Coerce(New(GroundFunction(|t.args|), t).value, v)
  {
    if !t.Function? {
      OneStep(Untag(t), v);
    } else if IsGround(t) {
      GroundIsOne(t);
      OneStep(Untag(t), v);
      OneStep(Id(t), v);
    } else {
      FunctionOutOfAny(t, v);
    }
  }

  lemma GroundIsOne(t: Type)
    requires t.Function? && IsGround(t)
    ensures t == GroundFunction(|t.args|)
  {
    assert forall i :: 0 <= i < |t.args| ==> t.args[i] in t.args;
    assert t.args == seq(|t.args|, _ => Any);
  }

  lemma FunctionOutOfAny(t: Type, v: Value)
    requires New(Any, t).Some? && t.Function? && !IsGround(t)
    ensures !HasType(v, t) ==> Coerce(New(Any, t).value, v) == None
    ensures HasType(v, t) ==>
              New(GroundFunction(|t.args|), t).Some? && Coerce(New(Any, t).value, v) == Coerce(New(GroundFunction(|t.args|), t).value, v)
  {
    var gf := GroundFunction(|t.args|);
    GroundIsShallow(|t.args|);
    NewTyped(gf, t);
    SequenceMeans(Untag(gf), New(gf, t).value, v);
    OneStep(Untag(gf), v);
  }

  // Between function types, and out of Any: the function it makes coerces each argument to what the
  // given one takes, calls it, and coerces what that returns.
  lemma NewCallMeans(t1: Type, t2: Type, f: Value, vs: seq<Value>, run: (nat, seq<Value>) -> Option<Value>)
    requires New(t1, t2).Some? && (t1.Function? || t1 == Any) && t2.Function? && HasType(f, t1) && HasType(f, t2) && |vs| == |t2.args|
    ensures var s := if t1 == Any then GroundFunction(|t2.args|) else t1;
            var g := Coerce(New(t1, t2).value, f);
            && |s.args| == |t2.args| && NewArgs(t2.args, s.args).Some? && New(s.ret, t2.ret).Some?
            && g.Some? && HasType(g.value, t2)
            && Call(g.value, vs, run) == CallCoerced(NewArgs(t2.args, s.args).value, New(s.ret, t2.ret).value, f, vs, run)
  {
    if t1 == Any {
      OutOfAny(t2, f);
      FunctionCallMeans(GroundFunction(|t2.args|), t2, f, vs, run);
    } else {
      FunctionCallMeans(t1, t2, f, vs, run);
    }
  }

  lemma FunctionCallMeans(t1: Type, t2: Type, f: Value, vs: seq<Value>, run: (nat, seq<Value>) -> Option<Value>)
    requires New(t1, t2).Some? && t1.Function? && t2.Function? && |t1.args| == |t2.args| && HasType(f, t2) && |vs| == |t2.args|
    ensures NewArgs(t2.args, t1.args).Some? && New(t1.ret, t2.ret).Some?
    ensures var g := Coerce(New(t1, t2).value, f);
            && g.Some? && HasType(g.value, t2)
            && Call(g.value, vs, run) == CallCoerced(NewArgs(t2.args, t1.args).value, New(t1.ret, t2.ret).value, f, vs, run)
  {
    NewArgsExact(t2.args, t1.args);
    if t1 == t2 {
      OneStep(New(t1, t2).value, f);
      var cs := NewArgs(t2.args, t1.args).value;
      assert forall i :: 0 <= i < |cs| ==> cs[i].Id?;
      IdsCoerce(cs, vs);
    } else {
      var cs, c := NewArgs(t2.args, t1.args).value, New(t1.ret, t2.ret).value;
      MakeFunMeans(cs, c, f);
      CallMeans(cs, c, f, vs, run);
    }
  }

  lemma {:induction false} IdsCoerce(cs: seq<Coercion>, vs: seq<Value>)
    requires |cs| == |vs| && forall i :: 0 <= i < |cs| ==> cs[i].Id?
    ensures CoerceAll(cs, vs) == Some(vs)
    decreases |cs|
  {
    if cs != [] {
      IdsCoerce(cs[1..], vs[1..]);
      assert [vs[0]] + vs[1..] == vs;
    }
  }

  // ----- What comes out has the type -----

  // Every coercion with a type gives values of its second type.
  lemma {:induction false} CoerceTyped(c: Coercion, v: Value)
    requires TypeOf(c).Some? && Coerce(c, v).Some? && HasType(v, TypeOf(c).value.0)
    ensures HasType(Coerce(c, v).value, TypeOf(c).value.1)
  {
    match c
    case Seq(c1, c2) =>
      SequenceMeans(c1, c2, v);
      CoerceTyped(c1, v);
      CoerceTyped(c2, Coerce(c1, v).value);
    case Fun(args, ret) =>
      IdleWrapper(v, RowsOf(args), RowOf(ret));
    case _ =>
      OneStep(c, v);
  }
}

// A program whose captured and assigned variables are in boxes does what it did before.

module BoxingCorrect {
  import opened Common
  import opened Ids
  import opened FreeVariables
  import opened AssignAnalysis
  import opened Boxing
  import opened JankyMeaning

  ghost predicate Distinct(params: seq<Id>) {
    forall i, j :: 0 <= i < j < |params| ==> params[i] != params[j]
  }

  // Parameters are distinct, no declaration uses a name that boxing invents, and none that needs a
  // box is typed and without a value.
  ghost predicate Fit(n: Node, toBox: set<Id>)
    decreases n
  {
    match n
    case Assign(_, e) => Fit(e, toBox)
    case Var(x, any, e) => (x in toBox ==> any || e != Leaf("undefined")) && Fit(e, toBox)
    case Op(_, kids) => forall i :: 0 <= i < |kids| ==> Fit(kids[i], toBox)
    case Func(f) => Distinct(f.params) && NoneInvented(Declared(f.body)) && Fit(f.body, toBox + f.boxed)
    case _ => true
  }

  ghost predicate NodeFit(n: Node, toBox: set<Id>) {
    Prepared(n) && NoneInvented(toBox) && Covered(n, toBox) && Fit(n, toBox)
  }

  // ----- The two runs -----

  // For each call so far, the names that are boxed in it.
  type Kinds = seq<set<Id>>

  ghost predicate CellBoxed<W>(l: (nat, Id), s: State<W>, t: State<W>, k: Kinds)
    requires l in s.cells && l.0 < |k|
  {
    && l in t.cells
    && if l.1 in k[l.0] then t.cells[l].Ref? && t.cells[l].at < |t.boxes| && t.boxes[t.cells[l].at] == s.cells[l]
       else t.cells[l] == s.cells[l]
  }

  ghost predicate CellFine<W>(l: (nat, Id), s: State<W>, t: State<W>, k: Kinds, late: set<(nat, Id)>)
    requires l in s.cells
  {
    l.0 < |k| && !Invented(l.1) && if l in late then l !in t.cells else CellBoxed(l, s, t, k)
  }

  ghost predicate Apart<W>(l: (nat, Id), m: (nat, Id), t: State<W>, k: Kinds, late: set<(nat, Id)>) {
    l != m && HasBox(l, t, k, late) && HasBox(m, t, k, late) ==> t.cells[l] != t.cells[m]
  }

  ghost predicate HasBox<W>(l: (nat, Id), t: State<W>, k: Kinds, late: set<(nat, Id)>) {
    l !in late && l.0 < |k| && l.1 in k[l.0] && l in t.cells
  }

  // The variables of the source, those in `late` still to be boxed; no two share a box.
  ghost predicate CellsBoxed<W>(s: State<W>, t: State<W>, k: Kinds, late: set<(nat, Id)>) {
    && (forall l {:trigger CellFine(l, s, t, k, late)} | l in s.cells :: CellFine(l, s, t, k, late))
    && (forall l <- t.cells :: !Invented(l.1) ==> l in s.cells)
    && (forall l, m {:trigger Apart(l, m, t, k, late)} | l in s.cells && m in s.cells :: Apart(l, m, t, k, late))
  }

  lemma SameCells<W>(s: State<W>, t: State<W>, s1: State<W>, t1: State<W>, k: Kinds)
    requires CellsBoxed(s, t, k, {}) && s1.cells == s.cells && t1.cells == t.cells && t1.boxes == t.boxes
    ensures CellsBoxed(s1, t1, k, {})
  {
    forall l | l in s1.cells
      ensures CellFine(l, s1, t1, k, {})
    {
      assert CellFine(l, s, t, k, {});
    }
    forall l, m | l in s1.cells && m in s1.cells
      ensures Apart(l, m, t1, k, {})
    {
      assert Apart(l, m, t, k, {});
    }
  }

  ghost predicate ScopeBoxed(scope: map<Id, nat>, toBox: set<Id>, k: Kinds) {
    forall x <- scope :: !Invented(x) && scope[x] < |k| && (x in toBox <==> x in k[scope[x]])
  }

  ghost predicate CodeBoxedBy(c: Code, d: Code, k: Kinds, toBox: set<Id>, names: Names) {
    && c.env == [] && d.env == [] && d.scope == c.scope && Func(d.f) == Box(Func(c.f), toBox, names).0 && NodeFit(Func(c.f), toBox)
    && ScopeBoxed(c.scope, toBox, k) && c.scope.Keys <= c.f.freeVars
    && forall x <- c.f.freeVars :: !Invented(x) && (x in c.scope || x !in toBox)
  }

  ghost predicate CodeBoxed(c: Code, d: Code, k: Kinds) {
    exists toBox, names :: CodeBoxedBy(c, d, k, toBox, names)
  }

  ghost predicate RestBoxed<W>(s: State<W>, t: State<W>, k: Kinds) {
    && t.calls == s.calls == |k| && t.world == s.world && |t.funs| == |s.funs|
    && forall i {:trigger CodeBoxed(s.funs[i], t.funs[i], k)} :: 0 <= i < |s.funs| ==> CodeBoxed(s.funs[i], t.funs[i], k)
  }

  ghost predicate StateBoxed<W>(s: State<W>, t: State<W>, k: Kinds) {
    RestBoxed(s, t, k) && CellsBoxed(s, t, k, {})
  }

  ghost predicate FrameBoxed(fr: Frame, gr: Frame, toBox: set<Id>, k: Kinds) {
    && fr.env == [] && gr.env == [] && ScopeBoxed(fr.scope, toBox, k)
    && (forall x <- fr.scope :: x in gr.scope && gr.scope[x] == fr.scope[x])
    && (forall x <- gr.scope :: !Invented(x) ==> x in fr.scope)
  }

  // What is not a variable here is the runtime's, and has no box.
  ghost predicate NamesFit(n: Node, fr: Frame, toBox: set<Id>) {
    forall x <- Referenced(n) :: !Invented(x) && (x in fr.scope || x !in toBox)
  }

  ghost predicate Simulated<W>(r: Result<W>, r1: Result<W>, k: Kinds, k1: Kinds) {
    && k <= k1
    && match r
       case NoFuel => r1 == NoFuel
       case Early => false
       case Done(c, s1) => r1.Done? && r1.c == c && StateBoxed(s1, r1.s, k1)
  }

  // ----- More calls -----

  lemma FrameLater(fr: Frame, gr: Frame, toBox: set<Id>, k: Kinds, k1: Kinds)
    requires FrameBoxed(fr, gr, toBox, k) && k <= k1
    ensures FrameBoxed(fr, gr, toBox, k1)
  {
  }

  lemma CodeLater(c: Code, d: Code, k: Kinds, k1: Kinds)
    requires CodeBoxed(c, d, k) && k <= k1
    ensures CodeBoxed(c, d, k1)
  {
    var toBox, names :| CodeBoxedBy(c, d, k, toBox, names);
    assert CodeBoxedBy(c, d, k1, toBox, names);
  }

  // ----- One step at a time -----

  lemma ReadBoxed<W>(p: Runtime<W>, x: Id, toBox: set<Id>, names: Names, fr: Frame, gr: Frame, s: State<W>, t: State<W>, k: Kinds, fuel: nat)
    requires FrameBoxed(fr, gr, toBox, k) && StateBoxed(s, t, k) && NamesFit(Name(x), fr, toBox) && Read(p, x, fr, s).Some?
    ensures Eval(p, Box(Name(x), toBox, names).0, gr, t, fuel) == Done(Normal(Read(p, x, fr, s).value), t)
  {
    assert x in Referenced(Name(x));
    if x in fr.scope { assert CellFine((fr.scope[x], x), s, t, k, {}); }
    if x in toBox { assert Eval(p, Name(x), gr, t, fuel) == Done(Normal(t.cells[(gr.scope[x], x)]), t); }
  }

  lemma PutPlain<W>(x: Id, v: Value, toBox: set<Id>, fr: Frame, gr: Frame, s: State<W>, t: State<W>, k: Kinds)
    requires FrameBoxed(fr, gr, toBox, k) && StateBoxed(s, t, k) && x in fr.scope && x !in toBox
    ensures x in gr.scope && (Has(x, fr, s) <==> Has(x, gr, t)) && StateBoxed(Put(x, v, fr, s), Put(x, v, gr, t), k)
  {
    var l := (fr.scope[x], x);
    var s1, t1 := Put(x, v, fr, s), Put(x, v, gr, t);
    if l in s.cells { assert CellFine(l, s, t, k, {}); }
    forall m | m in s1.cells
      ensures CellFine(m, s1, t1, k, {})
    {
      if m != l { assert CellFine(m, s, t, k, {}); }
    }
    forall m, m1 | m in s1.cells && m1 in s1.cells
      ensures Apart(m, m1, t1, k, {})
    {
      if m != l && m1 != l { assert Apart(m, m1, t, k, {}); }
    }
  }

  lemma PutInBox<W>(x: Id, v: Value, toBox: set<Id>, fr: Frame, gr: Frame, s: State<W>, t: State<W>, k: Kinds)
    requires FrameBoxed(fr, gr, toBox, k) && StateBoxed(s, t, k) && Has(x, fr, s) && x in toBox
    ensures Has(x, gr, t)
    ensures var r := t.cells[(gr.scope[x], x)];
            r.Ref? && r.at < |t.boxes| && StateBoxed(Put(x, v, fr, s), t.(boxes := t.boxes[r.at := v]), k)
  {
    var l := (fr.scope[x], x);
    assert CellFine(l, s, t, k, {});
    var s1, t1 := Put(x, v, fr, s), t.(boxes := t.boxes[t.cells[l].at := v]);
    forall m | m in s1.cells
      ensures CellFine(m, s1, t1, k, {})
    {
      if m != l { assert CellFine(m, s, t, k, {}) && Apart(m, l, t, k, {}); }
    }
    forall m, m1 | m in s1.cells && m1 in s1.cells
      ensures Apart(m, m1, t1, k, {})
    {
      assert Apart(m, m1, t, k, {});
    }
  }

  // A variable gets its box.
  lemma Boxes<W>(l: (nat, Id), s: State<W>, t: State<W>, k: Kinds, late: set<(nat, Id)>)
    requires l in s.cells && l.0 < |k| && l.1 in k[l.0] && l in late && CellsBoxed(s, t, k, late)
    ensures CellsBoxed(s, t.(boxes := t.boxes + [s.cells[l]], cells := t.cells[l := Ref(|t.boxes|)]), k, late - {l})
  {
    var t1 := t.(boxes := t.boxes + [s.cells[l]], cells := t.cells[l := Ref(|t.boxes|)]);
    forall m | m in s.cells
      ensures CellFine(m, s, t1, k, late - {l})
    {
      assert CellFine(m, s, t, k, late);
    }
    forall m, m1 | m in s.cells && m1 in s.cells
      ensures Apart(m, m1, t1, k, late - {l})
    {
      assert CellFine(m, s, t, k, late) && CellFine(m1, s, t, k, late) && Apart(m, m1, t, k, late);
    }
  }

  lemma DeclareInBox<W>(x: Id, v: Value, toBox: set<Id>, fr: Frame, gr: Frame, s: State<W>, t: State<W>, k: Kinds)
    requires FrameBoxed(fr, gr, toBox, k) && StateBoxed(s, t, k) && x in fr.scope && x in toBox
    ensures x in gr.scope && StateBoxed(Put(x, v, fr, s), Put(x, Ref(|t.boxes|), gr, t.(boxes := t.boxes + [v])), k)
  {
    var l := (fr.scope[x], x);
    var s1, t1 := Put(x, v, fr, s), Put(x, Ref(|t.boxes|), gr, t.(boxes := t.boxes + [v]));
    forall m | m in s1.cells
      ensures CellFine(m, s1, t1, k, {})
    {
      if m != l { assert CellFine(m, s, t, k, {}); }
    }
    forall m, m1 | m in s1.cells && m1 in s1.cells
      ensures Apart(m, m1, t1, k, {})
    {
      if m in s.cells { assert CellFine(m, s, t, k, {}); }
      if m1 in s.cells { assert CellFine(m1, s, t, k, {}); }
      if m != l && m1 != l { assert Apart(m, m1, t, k, {}); }
    }
  }

  // Both sides have handed on the same variables.
  lemma SameHandedOn<W>(x: Id, a: nat, s: State<W>, t: State<W>, k: Kinds)
    requires RestBoxed(s, t, k)
    ensures HandedOn(x, a, s) <==> HandedOn(x, a, t)
    ensures HandedOn(x, a, s) ==> a < |k|
  {
    forall i | 0 <= i < |s.funs|
      ensures t.funs[i].scope == s.funs[i].scope && (x in s.funs[i].scope ==> s.funs[i].scope[x] < |k|)
    {
      assert CodeBoxed(s.funs[i], t.funs[i], k);
    }
  }

  lemma SameFreeVars(f: Function, toBox: set<Id>, names: Names)
    requires NodeFit(Func(f), toBox)
    ensures var g := Box(Func(f), toBox, names).0.f;
            f.freeVars == Referenced(Func(f)) == Referenced(Func(g))
  {
    BoxCorrect(Func(f), toBox, names, {});
  }

  lemma FuncStep<W>(p: Runtime<W>, f: Function, toBox: set<Id>, names: Names, fr: Frame, gr: Frame, s: State<W>, t: State<W>, k: Kinds, fuel: nat)
    requires FrameBoxed(fr, gr, toBox, k) && StateBoxed(s, t, k) && NodeFit(Func(f), toBox) && NamesFit(Func(f), fr, toBox)
    requires Eval(p, Func(f), fr, s, fuel) != Early
    ensures Simulated(Eval(p, Func(f), fr, s, fuel), Eval(p, Box(Func(f), toBox, names).0, gr, t, fuel), k, k)
  {
    var g := Box(Func(f), toBox, names).0.f;
    var scope := Shared(f.freeVars, fr.scope);
    SameFreeVars(f, toBox, names);
    assert scope == Shared(f.freeVars, gr.scope);
    forall x | x in scope
      ensures Has(x, gr, t)
    {
      assert Has(x, fr, s) && CellFine((fr.scope[x], x), s, t, k, {});
    }
    assert CodeBoxedBy(Code(f, scope, []), Code(g, scope, []), k, toBox, names);
    var s1, t1 := s.(funs := s.funs + [Code(f, scope, [])]), t.(funs := t.funs + [Code(g, scope, [])]);
    forall i | 0 <= i < |s1.funs|
      ensures CodeBoxed(s1.funs[i], t1.funs[i], k)
    {
      if i < |s.funs| { assert CodeBoxed(s.funs[i], t.funs[i], k); }
    }
    SameCells(s, t, s1, t1, k);
  }

  // ----- Entering a function -----

  function ArgAt<W>(p: Runtime<W>, args: seq<Value>, i: nat): Value {
    if i < |args| then args[i] else p.literal("undefined")
  }

  lemma {:induction false} OthersStay<W>(p: Runtime<W>, params: seq<Id>, args: seq<Value>, a: nat, cells: map<(nat, Id), Value>, l: (nat, Id))
    requires l.0 != a || l.1 !in params
    ensures var r := BindParams(p, params, args, a, cells); (l in r <==> l in cells) && (l in r ==> r[l] == cells[l])
  {
    if params != [] { OthersStay(p, params[..|params| - 1], args, a, cells, l); }
  }

  lemma {:induction false} Bound<W>(p: Runtime<W>, params: seq<Id>, args: seq<Value>, a: nat, cells: map<(nat, Id), Value>, i: nat)
    requires i < |params| && Distinct(params)
    ensures var r := BindParams(p, params, args, a, cells); (a, params[i]) in r && r[(a, params[i])] == ArgAt(p, args, i)
  {
    var n := |params| - 1;
    if i < n {
      Bound(p, params[..n], args, a, cells, i);
      assert params[i] != params[n];
    }
  }

  // Boxed parameters get distinct invented names, the others keep theirs.
  ghost predicate RenamedTo(params: seq<Id>, ps: seq<Id>, inside: set<Id>) {
    && |ps| == |params| && Distinct(ps)
    && forall i :: 0 <= i < |params| ==> if params[i] in inside then Invented(ps[i]) else ps[i] == params[i]
  }

  lemma OneRenamed(params: seq<Id>, ps: seq<Id>, inside: set<Id>, y: Id)
    requires params != [] && Distinct(params) && NoneInvented(Elements(params))
    requires RenamedTo(params[..|params| - 1], ps, inside)
    requires if params[|params| - 1] in inside then Invented(y) && y !in ps else y == params[|params| - 1]
    ensures RenamedTo(params, ps + [y], inside)
  {
    var last := |params| - 1;
    var front := params[..last];
    forall i | 0 <= i < last
      ensures ps[i] != y && if params[i] in inside then Invented(ps[i]) else ps[i] == params[i]
    {
      assert front[i] == params[i] && params[i] != params[last] && params[last] in Elements(params);
    }
  }

  lemma {:induction false} Renamed(params: seq<Id>, inside: set<Id>, body: Node, names: Names)
    requires Distinct(params) && NoneInvented(Elements(params))
    ensures var (ps, _, n) := RenameParams(params, inside, body, names);
            RenamedTo(params, ps, inside) && forall y <- ps :: Invented(y) ==> Known(n, y)
    decreases |params|
  {
    if params != [] {
      var last := |params| - 1;
      var front, x := params[..last], params[last];
      FrontDistinct(params);
      Renamed(front, inside, body, names);
      var (ps, _, n) := RenameParams(front, inside, body, names);
      FreshIsNew(n, "to_box");
      OneRenamed(params, ps, inside, if x in inside then FreshId(n, "to_box") else x);
    }
  }

  lemma FrontDistinct(params: seq<Id>)
    requires params != [] && Distinct(params) && NoneInvented(Elements(params))
    ensures Distinct(params[..|params| - 1]) && NoneInvented(Elements(params[..|params| - 1])) && !Invented(params[|params| - 1])
  {
    var front := params[..|params| - 1];
    assert forall i :: 0 <= i < |front| ==> front[i] == params[i];
    assert Elements(front) <= Elements(params);
    assert params[|params| - 1] in Elements(params);
  }

  lemma {:induction false} RenamedDeclares(params: seq<Id>, inside: set<Id>, body: Node, names: Names)
    ensures Declared(RenameParams(params, inside, body, names).1) == Declared(body) + Elements(params) * inside
    decreases |params|
  {
    if params != [] {
      var last := |params| - 1;
      var front, x := params[..last], params[last];
      assert front + [x] == params;
      ElementsSnoc(front, x);
      RenamedDeclares(front, inside, body, names);
      var (_, b, n) := RenameParams(front, inside, body, names);
      if x in inside { BlockOfTwo(x, FreshId(n, "to_box"), b); }
    }
  }

  lemma OwnRenamed(c: Code, d: Code, toBox: set<Id>, names: Names)
    requires NodeFit(Func(c.f), toBox) && Func(d.f) == Box(Func(c.f), toBox, names).0
    ensures Own(c.f) <= Own(d.f) && NoneInvented(Own(c.f)) && forall x <- Own(d.f) :: !Invented(x) ==> x in Own(c.f)
  {
    var inside := toBox + c.f.boxed;
    var (ps, b, n) := RenameParams(c.f.params, inside, c.f.body, names);
    assert NoneInvented(Elements(c.f.params));
    Renamed(c.f.params, inside, c.f.body, names);
    RenamedDeclares(c.f.params, inside, c.f.body, names);
    RenameKeeps(c.f.params, inside, c.f.body, names);
    BoxCorrect(b, inside, n, {});
    forall x | x in Own(c.f)
      ensures x in Own(d.f) && !Invented(x)
    {
      if x in Elements(c.f.params) {
        var i :| 0 <= i < |c.f.params| && c.f.params[i] == x;
        if x !in inside { assert ps[i] == x && x in Elements(ps); }
      }
    }
    forall x | x in Own(d.f) && !Invented(x)
      ensures x in Own(c.f)
    {
      if x in Elements(ps) {
        var i :| 0 <= i < |ps| && ps[i] == x;
        assert c.f.params[i] == x && x in Elements(c.f.params);
      }
    }
  }

  // What is boxed around a function is boxed inside it.
  lemma InsideAgrees(f: Function, toBox: set<Id>, x: Id)
    requires NodeFit(Func(f), toBox) && x in f.freeVars
    ensures x in toBox + f.boxed <==> x in toBox
  {
    if x in f.boxed {
      assert x in FreeChildren(f.body) * Assigned(f.body);
      assert x in FreeChildren(Func(f)) * Assigned(Func(f));
    }
  }

  lemma EnterFrame(c: Code, d: Code, a: nat, toBox: set<Id>, names: Names, k: Kinds)
    requires CodeBoxedBy(c, d, k, toBox, names) && a == |k|
    ensures FrameBoxed(FrameOf(c, a), FrameOf(d, a), toBox + c.f.boxed, k + [toBox + c.f.boxed])
    ensures NamesFit(c.f.body, FrameOf(c, a), toBox + c.f.boxed) && NodeFit(c.f.body, toBox + c.f.boxed)
  {
    var inside, fr := toBox + c.f.boxed, FrameOf(c, a);
    OwnRenamed(c, d, toBox, names);
    assert c.f.freeVars == Referenced(c.f.body) - Own(c.f);
    forall x | x in fr.scope
      ensures !Invented(x) && fr.scope[x] < a + 1 && (x in inside <==> x in (k + [inside])[fr.scope[x]])
    {
      if x !in Own(c.f) { InsideAgrees(c.f, toBox, x); }
    }
    forall x | x in Referenced(c.f.body)
      ensures !Invented(x) && (x in fr.scope || x !in inside)
    {
      if x !in Own(c.f) { InsideAgrees(c.f, toBox, x); }
    }
  }

  // The boxed parameters of a call that has begun are still under their invented names.
  ghost function Late(params: seq<Id>, inside: set<Id>, a: nat): set<(nat, Id)> {
    set x | x in params && x in inside :: (a, x)
  }

  ghost predicate Pending<W>(params: seq<Id>, ps: seq<Id>, inside: set<Id>, a: nat, s: State<W>, t: State<W>, k: Kinds) {
    && a < |k| && k[a] == inside && Distinct(params) && |ps| == |params|
    && RestBoxed(s, t, k) && CellsBoxed(s, t, k, Late(params, inside, a))
    && forall i :: 0 <= i < |params| && params[i] in inside ==>
         (a, params[i]) in s.cells && (a, ps[i]) in t.cells && Invented(ps[i]) && t.cells[(a, ps[i])] == s.cells[(a, params[i])]
  }

  lemma EnterRest<W>(p: Runtime<W>, c: Code, d: Code, args: seq<Value>, s: State<W>, t: State<W>, k: Kinds, inside: set<Id>)
    requires StateBoxed(s, t, k)
    ensures RestBoxed(Entered(p, c, args, s), Entered(p, d, args, t), k + [inside])
  {
    forall i | 0 <= i < |s.funs|
      ensures CodeBoxed(s.funs[i], t.funs[i], k + [inside])
    {
      CodeLater(s.funs[i], t.funs[i], k, k + [inside]);
    }
  }

  lemma OldCell<W>(p: Runtime<W>, c: Code, d: Code, args: seq<Value>, s: State<W>, t: State<W>, k: Kinds, inside: set<Id>, l: (nat, Id))
    requires StateBoxed(s, t, k) && l in s.cells
    ensures var s1, t1 := Entered(p, c, args, s), Entered(p, d, args, t);
            && l in s1.cells && CellFine(l, s1, t1, k + [inside], Late(c.f.params, inside, s.calls))
            && l.0 < |k| && l in t.cells && l in t1.cells && t1.cells[l] == t.cells[l]
  {
    assert CellFine(l, s, t, k, {});
    OthersStay(p, c.f.params, args, s.calls, s.cells, l);
    OthersStay(p, d.f.params, args, s.calls, t.cells, l);
  }

  // A parameter that needs no box is bound at once, one that does is not yet there.
  lemma NewCell<W>(p: Runtime<W>, c: Code, d: Code, args: seq<Value>, s: State<W>, t: State<W>, k: Kinds, inside: set<Id>, l: (nat, Id))
    requires StateBoxed(s, t, k) && Distinct(c.f.params) && NoneInvented(Elements(c.f.params)) && RenamedTo(c.f.params, d.f.params, inside)
    requires l in Entered(p, c, args, s).cells && l !in s.cells
    ensures var s1, t1, k1 := Entered(p, c, args, s), Entered(p, d, args, t), k + [inside];
            CellFine(l, s1, t1, k1, Late(c.f.params, inside, s.calls))
  {
    var a, ps := s.calls, d.f.params;
    if l.0 != a || l.1 !in c.f.params { OthersStay(p, c.f.params, args, a, s.cells, l); }
    var i :| 0 <= i < |c.f.params| && c.f.params[i] == l.1;
    assert l.1 in Elements(c.f.params) && l !in t.cells;
    Bound(p, c.f.params, args, a, s.cells, i);
    if l.1 in inside {
      assert l.1 !in ps;
      OthersStay(p, ps, args, a, t.cells, l);
    } else {
      Bound(p, ps, args, a, t.cells, i);
    }
  }

  lemma EnteredOnly<W>(p: Runtime<W>, c: Code, d: Code, args: seq<Value>, s: State<W>, t: State<W>, k: Kinds, inside: set<Id>, l: (nat, Id))
    requires StateBoxed(s, t, k) && Distinct(c.f.params) && RenamedTo(c.f.params, d.f.params, inside)
    requires l in Entered(p, d, args, t).cells && !Invented(l.1)
    ensures l in Entered(p, c, args, s).cells
  {
    var a, params, ps := s.calls, c.f.params, d.f.params;
    if l.0 == a && l.1 in ps {
      var i :| 0 <= i < |ps| && ps[i] == l.1;
      assert params[i] == l.1;
      Bound(p, params, args, a, s.cells, i);
    } else {
      OthersStay(p, ps, args, a, t.cells, l);
      OldCell(p, c, d, args, s, t, k, inside, l);
    }
  }

  lemma EnterCells<W>(p: Runtime<W>, c: Code, d: Code, args: seq<Value>, s: State<W>, t: State<W>, k: Kinds, inside: set<Id>)
    requires StateBoxed(s, t, k) && Distinct(c.f.params) && NoneInvented(Elements(c.f.params)) && RenamedTo(c.f.params, d.f.params, inside)
    ensures CellsBoxed(Entered(p, c, args, s), Entered(p, d, args, t), k + [inside], Late(c.f.params, inside, s.calls))
  {
    var s1, t1, k1, late := Entered(p, c, args, s), Entered(p, d, args, t), k + [inside], Late(c.f.params, inside, s.calls);
    forall l: (nat, Id) | l in s1.cells
      ensures CellFine(l, s1, t1, k1, late)
      ensures HasBox(l, t1, k1, late) ==> l in s.cells && l.0 < |k| && l in t.cells && t1.cells[l] == t.cells[l]
    {
      if l in s.cells { OldCell(p, c, d, args, s, t, k, inside, l); } else { NewCell(p, c, d, args, s, t, k, inside, l); }
      if l !in s.cells && l !in late && l.1 in k1[l.0] { OthersStay(p, c.f.params, args, s.calls, s.cells, l); }
    }
    forall l, m | l in s1.cells && m in s1.cells
      ensures Apart(l, m, t1, k1, late)
    {
      assert Apart(l, m, t, k, {});
    }
    forall l | l in t1.cells && !Invented(l.1)
      ensures l in s1.cells
    {
      EnteredOnly(p, c, d, args, s, t, k, inside, l);
    }
  }

  lemma EnterPending<W>(p: Runtime<W>, c: Code, d: Code, args: seq<Value>, toBox: set<Id>, names: Names, s: State<W>, t: State<W>, k: Kinds)
    requires StateBoxed(s, t, k) && CodeBoxedBy(c, d, k, toBox, names)
    ensures Pending(c.f.params, d.f.params, toBox + c.f.boxed, s.calls, Entered(p, c, args, s), Entered(p, d, args, t), k + [toBox + c.f.boxed])
  {
    var inside, a := toBox + c.f.boxed, s.calls;
    assert NoneInvented(Elements(c.f.params));
    Renamed(c.f.params, inside, c.f.body, names);
    EnterRest(p, c, d, args, s, t, k, inside);
    EnterCells(p, c, d, args, s, t, k, inside);
    forall i | 0 <= i < |c.f.params| && c.f.params[i] in inside
      ensures var l, m := (a, c.f.params[i]), (a, d.f.params[i]);
              l in Entered(p, c, args, s).cells && m in Entered(p, d, args, t).cells && Invented(d.f.params[i])
              && Entered(p, d, args, t).cells[m] == Entered(p, c, args, s).cells[l]
    {
      Bound(p, c.f.params, args, a, s.cells, i);
      Bound(p, d.f.params, args, a, t.cells, i);
    }
  }

  // A declaration that makes a box.
  lemma NewVarRuns<W>(p: Runtime<W>, x: Id, any: bool, e: Node, v: Value, gr: Frame, t: State<W>, t1: State<W>, fuel: nat)
    requires Eval(p, e, gr, t, fuel) == Done(Normal(v), t1) && x in gr.scope && !HandedOn(x, gr.scope[x], t1)
    ensures Eval(p, Var(x, any, NewRef(e)), gr, t, fuel) ==
            Done(Normal(p.literal("undefined")), Put(x, Ref(|t1.boxes|), gr, t1.(boxes := t1.boxes + [v])))
  {
    assert Eval(p, NewRef(e), gr, t, fuel) == Done(Normal(Ref(|t1.boxes|)), t1.(boxes := t1.boxes + [v]));
  }

  lemma StoreRuns<W>(p: Runtime<W>, x: Id, e: Node, v: Value, gr: Frame, t: State<W>, t1: State<W>, fuel: nat)
    requires Eval(p, e, gr, t, fuel) == Done(Normal(v), t1) && Has(x, gr, t1)
    requires var r := t1.cells[(gr.scope[x], x)]; r.Ref? && r.at < |t1.boxes|
    ensures Eval(p, Store(Name(x), e), gr, t, fuel) == Done(Normal(v), t1.(boxes := t1.boxes[t1.cells[(gr.scope[x], x)].at := v]))
  {
  }

  lemma TwoRun<W>(p: Runtime<W>, a: Node, b: Node, gr: Frame, t: State<W>, fuel: nat)
    ensures EvalBlock(p, [a, b], gr, t, fuel) ==
            var r := Eval(p, a, gr, t, fuel);
            if r.Done? && r.c.Normal? then Eval(p, b, gr, r.s, fuel) else r
  {
    assert [a, b][1..] == [b];
  }

  // The declaration in front of the body: it makes the box, and then the body runs.
  lemma ParamDeclared<W>(p: Runtime<W>, x: Id, y: Id, b: Node, inside: set<Id>, names: Names, gr: Frame, t: State<W>, fuel: nat)
    requires x in inside && y !in inside && x in gr.scope && !HandedOn(x, gr.scope[x], t) && Has(y, gr, t)
    ensures var v := t.cells[(gr.scope[y], y)];
            Eval(p, Box(Op("block", [Var(x, true, Name(y)), b]), inside, names).0, gr, t, fuel) ==
            Eval(p, Box(b, inside, names).0, gr, Put(x, Ref(|t.boxes|), gr, t.(boxes := t.boxes + [v])), fuel)
  {
    var kids := [Var(x, true, Name(y)), b];
    var d := Var(x, true, NewRef(Name(y)));
    assert kids[1..] == [b] && [b][1..] == [];
    assert Box(Name(y), inside, names) == (Name(y), names);
    assert Box(kids[0], inside, names) == (d, names);
    assert BoxAll([b], inside, names).0 == [Box(b, inside, names).0] + [];
    var rs := BoxAll(kids, inside, names).0;
    assert rs == [d, Box(b, inside, names).0];
    NewVarRuns(p, x, true, Name(y), t.cells[(gr.scope[y], y)], gr, t, t, fuel);
    TwoRun(p, d, Box(b, inside, names).0, gr, t, fuel);
  }

  lemma {:induction false} ParamsBoxed<W>(p: Runtime<W>, params: seq<Id>, inside: set<Id>, body: Node, names: Names, inner: Names, gr: Frame,
                                          a: nat, s: State<W>, t: State<W>, k: Kinds, fuel: nat) returns (t1: State<W>)
    requires Pending(params, RenameParams(params, inside, body, names).0, inside, a, s, t, k) && NoneInvented(inside)
    requires forall x :: x in params || x in RenameParams(params, inside, body, names).0 ==> x in gr.scope && gr.scope[x] == a
    requires Unshared(a, t)
    ensures StateBoxed(s, t1, k)
    ensures Eval(p, Box(RenameParams(params, inside, body, names).1, inside, inner).0, gr, t, fuel)
         == Eval(p, Box(body, inside, inner).0, gr, t1, fuel)
    decreases |params|
  {
    if params == [] {
      assert Late([], inside, a) == {};
      t1 := t;
    } else {
      var last := |params| - 1;
      var front, x := params[..last], params[last];
      var (ps, b, n) := RenameParams(front, inside, body, names);
      var all := RenameParams(params, inside, body, names).0;
      assert all[..last] == ps;
      if x in inside {
        var y := FreshId(n, "to_box");
        assert all[last] == y;
        var l := (a, x);
        assert params[last] in params && all[last] in all;
        assert l in Late(params, inside, a) && CellFine(l, s, t, k, Late(params, inside, a));
        assert !HandedOn(x, a, t);
        ParamDeclared(p, x, y, b, inside, inner, gr, t, fuel);
        Boxes(l, s, t, k, Late(params, inside, a));
        var t2 := t.(boxes := t.boxes + [s.cells[l]], cells := t.cells[l := Ref(|t.boxes|)]);
        PendingFront(params, all, inside, a, s, t, t2, k);
        UnsharedLater(a, t, t2);
        t1 := ParamsBoxed(p, front, inside, body, names, inner, gr, a, s, t2, k, fuel);
      } else {
        PendingSkips(params, all, inside, a, s, t, k);
        t1 := ParamsBoxed(p, front, inside, body, names, inner, gr, a, s, t, k, fuel);
      }
    }
  }

  lemma PendingSkips<W>(params: seq<Id>, ps: seq<Id>, inside: set<Id>, a: nat, s: State<W>, t: State<W>, k: Kinds)
    requires Pending(params, ps, inside, a, s, t, k) && params != [] && params[|params| - 1] !in inside
    ensures Pending(params[..|params| - 1], ps[..|params| - 1], inside, a, s, t, k)
  {
    LateFront(params, inside, a);
  }

  lemma PendingFront<W>(params: seq<Id>, ps: seq<Id>, inside: set<Id>, a: nat, s: State<W>, t: State<W>, t2: State<W>, k: Kinds)
    requires Pending(params, ps, inside, a, s, t, k) && params != [] && params[|params| - 1] in inside
    requires var l := (a, params[|params| - 1]);
             t2 == t.(boxes := t.boxes + [s.cells[l]], cells := t.cells[l := Ref(|t.boxes|)]) && CellsBoxed(s, t2, k, Late(params, inside, a) - {l})
    ensures Pending(params[..|params| - 1], ps[..|params| - 1], inside, a, s, t2, k)
  {
    LateFront(params, inside, a);
    var n := |params| - 1;
    assert params[n] in params && CellFine((a, params[n]), s, t, k, Late(params, inside, a));
    forall i | 0 <= i < n && params[i] in inside
      ensures (a, ps[i]) in t2.cells && t2.cells[(a, ps[i])] == s.cells[(a, params[i])]
    {
      assert !Invented(params[n]);
    }
  }

  lemma LateFront(params: seq<Id>, inside: set<Id>, a: nat)
    requires params != [] && Distinct(params)
    ensures var n := |params| - 1;
            Late(params[..n], inside, a) == Late(params, inside, a) - {(a, params[n])}
    ensures params[|params| - 1] !in inside ==> Late(params[..|params| - 1], inside, a) == Late(params, inside, a)
  {
    var n := |params| - 1;
    forall x
      ensures x in params[..n] <==> x in params && x != params[n]
    {
    }
  }

  // ----- Whole runs -----

  ghost predicate AllFit(kids: seq<Node>, toBox: set<Id>, fr: Frame) {
    forall i :: 0 <= i < |kids| ==> NodeFit(kids[i], toBox) && NamesFit(kids[i], fr, toBox)
  }

  lemma {:induction false} PartsOf(kids: seq<Node>, i: nat)
    requires i < |kids|
    ensures Referenced(kids[i]) <= ReferencedIn(kids) && FreeChildren(kids[i]) <= FreeChildrenIn(kids) && Assigned(kids[i]) <= AssignedIn(kids)
  {
    if i > 0 { PartsOf(kids[1..], i - 1); }
  }

  lemma KidsFit(kind: string, kids: seq<Node>, toBox: set<Id>, fr: Frame)
    requires NodeFit(Op(kind, kids), toBox) && NamesFit(Op(kind, kids), fr, toBox)
    ensures AllFit(kids, toBox, fr)
  {
    forall i | 0 <= i < |kids|
      ensures NodeFit(kids[i], toBox) && NamesFit(kids[i], fr, toBox)
    {
      PartsOf(kids, i);
    }
  }

  // A boxed run ends like the run it comes from, with every variable reading the same.
  lemma {:induction false} BoxSim<W>(p: Runtime<W>, n: Node, toBox: set<Id>, names: Names, fr: Frame, gr: Frame, s: State<W>, t: State<W>,
                                     k: Kinds, fuel: nat) returns (k1: Kinds)
    requires StateBoxed(s, t, k) && FrameBoxed(fr, gr, toBox, k) && NodeFit(n, toBox) && NamesFit(n, fr, toBox)
    requires Eval(p, n, fr, s, fuel) != Early
    ensures Simulated(Eval(p, n, fr, s, fuel), Eval(p, Box(n, toBox, names).0, gr, t, fuel), k, k1)
    decreases fuel, n, 1
  {
    k1 := k;
    match n {
      case Leaf(_) =>
      case Name(x) => ReadBoxed(p, x, toBox, names, fr, gr, s, t, k, fuel);
      case Assign(x, e) =>
        k1 := BoxSim(p, e, toBox, names, fr, gr, s, t, k, fuel);
        AssignStep(p, x, e, toBox, names, fr, gr, s, t, k, k1, fuel);
      case Var(x, any, e) =>
        k1 := BoxSim(p, e, toBox, names, fr, gr, s, t, k, fuel);
        VarStep(p, x, any, e, toBox, names, fr, gr, s, t, k, k1, fuel);
      case Op(kind, kids) =>
        KidsFit(kind, kids, toBox, fr);
        assert Box(n, toBox, names).0 == Op(kind, BoxAll(kids, toBox, names).0);
        if kind == "block" {
          k1 := BlockSim(p, kids, toBox, names, fr, gr, s, t, k, fuel);
        } else {
          k1 := OpSim(p, kind, kids, [], toBox, names, fr, gr, s, t, k, fuel);
        }
      case Func(f) => FuncStep(p, f, toBox, names, fr, gr, s, t, k, fuel);
    }
  }

  lemma AssignStep<W>(p: Runtime<W>, x: Id, e: Node, toBox: set<Id>, names: Names, fr: Frame, gr: Frame, s: State<W>, t: State<W>, k: Kinds,
                      k1: Kinds, fuel: nat)
    requires FrameBoxed(fr, gr, toBox, k) && Simulated(Eval(p, e, fr, s, fuel), Eval(p, Box(e, toBox, names).0, gr, t, fuel), k, k1)
    requires Eval(p, Assign(x, e), fr, s, fuel) != Early
    ensures Simulated(Eval(p, Assign(x, e), fr, s, fuel), Eval(p, Box(Assign(x, e), toBox, names).0, gr, t, fuel), k, k1)
  {
    var e1 := Box(e, toBox, names).0;
    match Eval(p, e, fr, s, fuel) {
      case Done(Normal(v), s1) =>
        var t1 := Eval(p, e1, gr, t, fuel).s;
        FrameLater(fr, gr, toBox, k, k1);
        VarAssigned(p, x, e1, v, toBox, fr, gr, s1, t, t1, k1, fuel);
      case _ =>
    }
  }

  lemma VarAssigned<W>(p: Runtime<W>, x: Id, e1: Node, v: Value, toBox: set<Id>, fr: Frame, gr: Frame, s1: State<W>, t: State<W>, t1: State<W>,
                       k1: Kinds, fuel: nat)
    requires FrameBoxed(fr, gr, toBox, k1) && StateBoxed(s1, t1, k1) && Has(x, fr, s1)
    requires Eval(p, e1, gr, t, fuel) == Done(Normal(v), t1)
    ensures Simulated(Done(Normal(v), Put(x, v, fr, s1)), Eval(p, if x in toBox then Store(Name(x), e1) else Assign(x, e1), gr, t, fuel), k1, k1)
  {
    if x in toBox {
      PutInBox(x, v, toBox, fr, gr, s1, t1, k1);
      StoreRuns(p, x, e1, v, gr, t, t1, fuel);
    } else {
      PutPlain(x, v, toBox, fr, gr, s1, t1, k1);
    }
  }

  lemma VarStep<W>(p: Runtime<W>, x: Id, any: bool, e: Node, toBox: set<Id>, names: Names, fr: Frame, gr: Frame, s: State<W>, t: State<W>,
                   k: Kinds, k1: Kinds, fuel: nat)
    requires FrameBoxed(fr, gr, toBox, k) && Simulated(Eval(p, e, fr, s, fuel), Eval(p, Box(e, toBox, names).0, gr, t, fuel), k, k1)
    requires Eval(p, Var(x, any, e), fr, s, fuel) != Early && (x in toBox ==> any || e != Leaf("undefined"))
    ensures Simulated(Eval(p, Var(x, any, e), fr, s, fuel), Eval(p, Box(Var(x, any, e), toBox, names).0, gr, t, fuel), k, k1)
  {
    var e1 := Box(e, toBox, names).0;
    match Eval(p, e, fr, s, fuel) {
      case Done(Normal(v), s1) =>
        var t1 := Eval(p, e1, gr, t, fuel).s;
        FrameLater(fr, gr, toBox, k, k1);
        if x in toBox { BoxedInit(any, e, toBox, names); }
        VarDeclared(p, x, any, e1, v, toBox, fr, gr, s1, t, t1, k1, fuel);
      case _ => if x in toBox { BoxedInit(any, e, toBox, names); }
    }
  }

  lemma VarDeclared<W>(p: Runtime<W>, x: Id, any: bool, e1: Node, v: Value, toBox: set<Id>, fr: Frame, gr: Frame, s1: State<W>, t: State<W>,
                       t1: State<W>, k1: Kinds, fuel: nat)
    requires FrameBoxed(fr, gr, toBox, k1) && StateBoxed(s1, t1, k1) && x in fr.scope && !HandedOn(x, fr.scope[x], s1)
    requires Eval(p, e1, gr, t, fuel) == Done(Normal(v), t1)
    ensures Simulated(Done(Normal(p.literal("undefined")), Put(x, v, fr, s1)),
                      Eval(p, Var(x, any, if x in toBox then NewRef(e1) else e1), gr, t, fuel), k1, k1)
  {
    SameHandedOn(x, fr.scope[x], s1, t1, k1);
    if x in toBox {
      DeclareInBox(x, v, toBox, fr, gr, s1, t1, k1);
      NewVarRuns(p, x, any, e1, v, gr, t, t1, fuel);
    } else {
      PutPlain(x, v, toBox, fr, gr, s1, t1, k1);
    }
  }

  lemma BoxedInit(any: bool, e: Node, toBox: set<Id>, names: Names)
    requires !IsInit(any, e)
    ensures !IsInit(any, Box(e, toBox, names).0)
  {
  }

  lemma {:induction false} BlockSim<W>(p: Runtime<W>, kids: seq<Node>, toBox: set<Id>, names: Names, fr: Frame, gr: Frame, s: State<W>,
                                       t: State<W>, k: Kinds, fuel: nat) returns (k1: Kinds)
    requires StateBoxed(s, t, k) && FrameBoxed(fr, gr, toBox, k) && AllFit(kids, toBox, fr)
    requires EvalBlock(p, kids, fr, s, fuel) != Early
    ensures Simulated(EvalBlock(p, kids, fr, s, fuel), EvalBlock(p, BoxAll(kids, toBox, names).0, gr, t, fuel), k, k1)
    decreases fuel, kids, 0
  {
    k1 := k;
    if kids != [] {
      var (k0, names1) := Box(kids[0], toBox, names);
      var rs := BoxAll(kids, toBox, names).0;
      assert rs[0] == k0 && rs[1..] == BoxAll(kids[1..], toBox, names1).0;
      k1 := BoxSim(p, kids[0], toBox, names, fr, gr, s, t, k, fuel);
      var r, r1 := Eval(p, kids[0], fr, s, fuel), Eval(p, k0, gr, t, fuel);
      if |kids| > 1 && r.Done? && r.c.Normal? {
        FrameLater(fr, gr, toBox, k, k1);
        assert forall i :: 0 <= i < |kids[1..]| ==> kids[1..][i] == kids[i + 1];
        var k2 := BlockSim(p, kids[1..], toBox, names1, fr, gr, r.s, r1.s, k1, fuel);
        k1 := k2;
      }
    }
  }

  lemma {:induction false} BoxAt(kids: seq<Node>, toBox: set<Id>, names: Names, i: nat) returns (names1: Names)
    requires i < |kids|
    ensures BoxAll(kids, toBox, names).0[i] == Box(kids[i], toBox, names1).0
  {
    names1 := names;
    if i > 0 { names1 := BoxAt(kids[1..], toBox, Box(kids[0], toBox, names).1, i - 1); }
  }

  lemma WorldStep<W>(w: W, s: State<W>, t: State<W>, k: Kinds)
    requires StateBoxed(s, t, k)
    ensures StateBoxed(s.(world := w), t.(world := w), k)
  {
    SameCells(s, t, s.(world := w), t.(world := w), k);
    forall i | 0 <= i < |s.funs|
      ensures CodeBoxed(s.funs[i], t.funs[i], k)
    {
    }
  }

  lemma {:induction false} OpSim<W>(p: Runtime<W>, kind: string, kids: seq<Node>, past: seq<Completion>, toBox: set<Id>, names: Names, fr: Frame,
                                    gr: Frame, s: State<W>, t: State<W>, k: Kinds, fuel: nat) returns (k1: Kinds)
    requires StateBoxed(s, t, k) && FrameBoxed(fr, gr, toBox, k) && AllFit(kids, toBox, fr)
    requires EvalOp(p, kind, kids, past, fr, s, fuel) != Early
    ensures Simulated(EvalOp(p, kind, kids, past, fr, s, fuel), EvalOp(p, kind, BoxAll(kids, toBox, names).0, past, gr, t, fuel), k, k1)
    decreases fuel, kids, 1
  {
    k1 := k;
    if fuel > 0 {
      var (action, w) := p.next(kind, |kids|, past, s.world);
      var s0, t0 := s.(world := w), t.(world := w);
      WorldStep(w, s, t, k);
      if action.Finish? { return; }
      k1 := ActSim(p, action, kids, toBox, names, fr, gr, s0, t0, k, fuel);
      var r, r1 := Act(p, action, kids, fr, s0, fuel), Act(p, action, BoxAll(kids, toBox, names).0, gr, t0, fuel);
      if r.Done? {
        FrameLater(fr, gr, toBox, k, k1);
        var k2 := OpSim(p, kind, kids, past + [r.c], toBox, names, fr, gr, r.s, r1.s, k1, fuel - 1);
        k1 := k2;
      }
    }
  }

  lemma {:induction false} ActSim<W>(p: Runtime<W>, action: Action, kids: seq<Node>, toBox: set<Id>, names: Names, fr: Frame, gr: Frame,
                                     s: State<W>, t: State<W>, k: Kinds, fuel: nat) returns (k1: Kinds)
    requires StateBoxed(s, t, k) && FrameBoxed(fr, gr, toBox, k) && AllFit(kids, toBox, fr) && fuel > 0 && !action.Finish?
    requires Act(p, action, kids, fr, s, fuel) != Early
    ensures Simulated(Act(p, action, kids, fr, s, fuel), Act(p, action, BoxAll(kids, toBox, names).0, gr, t, fuel), k, k1)
    decreases fuel, kids, 0
  {
    match action
    case Part(i) =>
      var names1 := BoxAt(kids, toBox, names, i);
      k1 := BoxSim(p, kids[i], toBox, names1, fr, gr, s, t, k, fuel - 1);
    case Apply(f, args) => k1 := CallSim(p, f, args, s, t, k, fuel - 1);
  }

  lemma {:induction false} CallSim<W>(p: Runtime<W>, f: Value, args: seq<Value>, s: State<W>, t: State<W>, k: Kinds, fuel: nat)
    returns (k1: Kinds)
    requires StateBoxed(s, t, k) && Call(p, f, args, s, fuel) != Early
    ensures Simulated(Call(p, f, args, s, fuel), Call(p, f, args, t, fuel), k, k1)
    decreases fuel
  {
    k1 := k;
    if f.Fn? && f.at < |s.funs| && fuel > 0 {
      assert CodeBoxed(s.funs[f.at], t.funs[f.at], k);
      k1 := BodySim(p, s.funs[f.at], t.funs[f.at], args, s, t, k, fuel - 1);
    }
  }

  lemma {:induction false} BodySim<W>(p: Runtime<W>, c: Code, d: Code, args: seq<Value>, s: State<W>, t: State<W>, k: Kinds, fuel: nat)
    returns (k1: Kinds)
    requires StateBoxed(s, t, k) && CodeBoxed(c, d, k) && Eval(p, c.f.body, FrameOf(c, s.calls), Entered(p, c, args, s), fuel) != Early
    ensures Simulated(Eval(p, c.f.body, FrameOf(c, s.calls), Entered(p, c, args, s), fuel),
                      Eval(p, d.f.body, FrameOf(d, t.calls), Entered(p, d, args, t), fuel), k, k1)
    decreases fuel, c.f.body, 2
  {
    var toBox, names :| CodeBoxedBy(c, d, k, toBox, names);
    var inside, s0 := toBox + c.f.boxed, Entered(p, c, args, s);
    EnterFrame(c, d, s.calls, toBox, names, k);
    var t1 := BodyEntered(p, c, d, args, toBox, names, s, t, k, fuel);
    var inner := RenameParams(c.f.params, inside, c.f.body, names).2;
    k1 := BoxSim(p, c.f.body, inside, inner, FrameOf(c, s.calls), FrameOf(d, s.calls), s0, t1, k + [inside], fuel);
  }

  // After its declarations of boxed parameters, the callee is where the source's callee is.
  lemma BodyEntered<W>(p: Runtime<W>, c: Code, d: Code, args: seq<Value>, toBox: set<Id>, names: Names, s: State<W>, t: State<W>, k: Kinds, fuel: nat)
    returns (t1: State<W>)
    requires StateBoxed(s, t, k) && CodeBoxedBy(c, d, k, toBox, names)
    ensures StateBoxed(Entered(p, c, args, s), t1, k + [toBox + c.f.boxed])
    ensures Eval(p, d.f.body, FrameOf(d, t.calls), Entered(p, d, args, t), fuel)
         == Eval(p, Box(c.f.body, toBox + c.f.boxed, RenameParams(c.f.params, toBox + c.f.boxed, c.f.body, names).2).0,
                 FrameOf(d, s.calls), t1, fuel)
  {
    var inside := toBox + c.f.boxed;
    var (ps, b, inner) := RenameParams(c.f.params, inside, c.f.body, names);
    EnterPending(p, c, d, args, toBox, names, s, t, k);
    EnterFrame(c, d, s.calls, toBox, names, k);
    OwnRenamed(c, d, toBox, names);
    forall x | x in c.f.params || x in ps
      ensures x in FrameOf(d, s.calls).scope && FrameOf(d, s.calls).scope[x] == s.calls
    {
      if x in c.f.params { assert x in Elements(c.f.params); } else { assert x in Elements(ps); }
    }
    forall x
      ensures !HandedOn(x, s.calls, t)
    {
      SameHandedOn(x, s.calls, s, t, k);
    }
    UnsharedLater(s.calls, t, Entered(p, d, args, t));
    t1 := ParamsBoxed(p, c.f.params, inside, c.f.body, names, inner, FrameOf(d, s.calls), s.calls, Entered(p, c, args, s),
                      Entered(p, d, args, t), k + [inside], fuel);
  }
}

// Where boxing goes wrong, and exactly when.

module ClosureLimits {
  import opened Common
  import opened Ids
  import opened FreeVariables
  import opened AssignAnalysis
  import opened Boxing
  import opened Environments
  import opened JankyMeaning
  import opened ClosuresCorrect
  import BoxingCorrect
  import opened DeclaredInTime
  import LiftedPrograms
  import Closures

  // ----- Programs accepted but for some names and declarations -----

  // `Fit`, but declarations of this form may be of a variable that needs a box.
  ghost predicate FitBut(n: Node, toBox: set<Id>, any: bool, u: string)
    decreases n
  {
    match n
    case Assign(_, e) => FitBut(e, toBox, any, u)
    case Var(x, any1, e) => (x in toBox ==> any1 || e != Leaf("undefined") || (any1 == any && e == Leaf(u))) && FitBut(e, toBox, any, u)
    case Op(_, kids) => forall i :: 0 <= i < |kids| ==> FitBut(kids[i], toBox, any, u)
    case Func(f) => BoxingCorrect.Distinct(f.params) && NoneInvented(Declared(f.body)) && FitBut(f.body, toBox + f.boxed, any, u)
    case _ => true
  }

  // `Accepted`, but for these runtime names and declarations of this form.
  ghost predicate AcceptedBut(program: Node, names: set<Id>, any: bool, u: string) {
    && Source(program) && Clean(program) && NoneInvented(Declared(program) + Referenced(program) + Assigned(program))
    && (Referenced(program) - Declared(program)) * GlobalsToBox(Annotate(program)) <= names
    && FitBut(Closures.Analysed(program), GlobalsToBox(Annotate(program)), any, u)
  }

  lemma {:induction false} FitButIsFit(n: Node, toBox: set<Id>, any: bool, u: string)
    requires FitBut(n, toBox, any, u) && (any || u != "undefined")
    ensures BoxingCorrect.Fit(n, toBox)
    decreases n
  {
    match n
    case Assign(_, e) => FitButIsFit(e, toBox, any, u);
    case Var(_, _, e) => FitButIsFit(e, toBox, any, u);
    case Op(_, kids) =>
      forall i | 0 <= i < |kids|
        ensures BoxingCorrect.Fit(kids[i], toBox)
      {
        FitButIsFit(kids[i], toBox, any, u);
      }
    case Func(f) => FitButIsFit(f.body, toBox + f.boxed, any, u);
    case _ =>
  }

  lemma AcceptedButNothing(program: Node, any: bool, u: string)
    requires AcceptedBut(program, {}, any, u) && (any || u != "undefined")
    ensures Accepted(program)
  {
    FitButIsFit(Closures.Analysed(program), GlobalsToBox(Annotate(program)), any, u);
  }

  // ----- A typed declaration makes no box -----

  // A variable declared with `u`, captured and assigned by a function, and assigned after it.
  function Inner(x: Id, v: string, vars: set<Id>): Function {
    Function([], Op("block", [Assign(x, Leaf(v))]), vars, {})
  }

  function Outer(x: Id, any: bool, u: string, v: string, vars: set<Id>): Node {
    Op("block", [Var(x, any, Leaf(u)), Op("block", [Func(Inner(x, v, vars)), Assign(x, Leaf(v))])])
  }

  function Boxed(x: Id, v: string): Function {
    Function([], Op("block", [Store(Name(x), Leaf(v))]), {x}, {})
  }

  // What the passes see in and make of a block of one part.
  lemma OneKid(a: Node)
    ensures ReferencedIn([a]) == Referenced(a) && DeclaredIn([a]) == Declared(a) && AssignedIn([a]) == Assigned(a)
    ensures FreeChildrenIn([a]) == FreeChildren(a) && AnnotateAll([a]) == [Annotate(a)] && CollectAll([a]) == [Collect(a)]
  {
    assert [a][1..] == [];
  }

  lemma OneBoxed(a: Node, toBox: set<Id>, names: Names)
    ensures BoxAll([a], toBox, names) == ([Box(a, toBox, names).0], Box(a, toBox, names).1)
  {
    var (k, names1) := Box(a, toBox, names);
    assert [a][1..] == [] && BoxAll([], toBox, names1) == ([], names1) && [k] + [] == [k];
  }

  lemma OneConverted(a: Node, order: set<Id> -> seq<Id>)
    ensures ConvertAll([a], [], order) == [Convert(a, [], order)]
  {
    assert [a][1..] == [];
  }

  // And of two.
  lemma TwoKids(a: Node, b: Node)
    ensures ReferencedIn([a, b]) == Referenced(a) + Referenced(b) && DeclaredIn([a, b]) == Declared(a) + Declared(b)
    ensures AssignedIn([a, b]) == Assigned(a) + Assigned(b) && FreeChildrenIn([a, b]) == FreeChildren(a) + FreeChildren(b)
    ensures AnnotateAll([a, b]) == [Annotate(a), Annotate(b)] && CollectAll([a, b]) == [Collect(a), Collect(b)]
  {
    assert [a, b][1..] == [b];
    OneKid(b);
  }

  lemma TwoBoxed(a: Node, b: Node, toBox: set<Id>, names: Names)
    ensures BoxAll([a, b], toBox, names).0 == [Box(a, toBox, names).0, Box(b, toBox, Box(a, toBox, names).1).0]
  {
    assert [a, b][1..] == [b] && [b][1..] == [];
  }

  lemma TwoConverted(a: Node, b: Node, order: set<Id> -> seq<Id>)
    ensures ConvertAll([a, b], [], order) == [Convert(a, [], order), Convert(b, [], order)]
  {
    assert [a, b][1..] == [b] && [b][1..] == [];
  }

  lemma OuterAnalysed(x: Id, any: bool, u: string, v: string)
    ensures Closures.Analysed(Outer(x, any, u, v, {})) == Outer(x, any, u, v, {x})
    ensures GlobalsToBox(Annotate(Outer(x, any, u, v, {}))) == {x}
    ensures var n := Outer(x, any, u, v, {}); Referenced(n) == {x} && Declared(n) == {x} && Assigned(n) == {x}
  {
    var a := Assign(x, Leaf(v));
    OneKid(a);
    assert Referenced(Func(Inner(x, v, {}))) == {x};
    var d, inner := Var(x, any, Leaf(u)), Func(Inner(x, v, {}));
    TwoKids(inner, a);
    TwoKids(d, Op("block", [inner, a]));
    var inner1 := Func(Inner(x, v, {x}));
    assert Annotate(inner) == inner1;
    TwoKids(inner1, a);
    TwoKids(d, Op("block", [inner1, a]));
    assert Annotate(Outer(x, any, u, v, {})) == Outer(x, any, u, v, {x});
    assert Collect(inner1) == inner1;
    assert FreeChildren(Outer(x, any, u, v, {x})) == {x} && Assigned(Outer(x, any, u, v, {x})) == {x};
  }

  lemma OuterBoxed(x: Id, any: bool, u: string, v: string)
    ensures Box(Outer(x, any, u, v, {x}), {x}, map[]).0
         == Op("block", [Var(x, any, if !any && u == "undefined" then Leaf(u) else NewRef(Leaf(u))),
                         Op("block", [Func(Boxed(x, v)), Store(Name(x), Leaf(v))])])
  {
    var a := Assign(x, Leaf(v));
    OneBoxed(a, {x}, map[]);
    assert {x} + {} == {x};
    assert Box(Leaf(v), {x}, map[]) == (Leaf(v), map[]) && Box(Leaf(u), {x}, map[]) == (Leaf(u), map[]);
    assert Box(a, {x}, map[]) == (Store(Name(x), Leaf(v)), map[]);
    assert Box(Func(Inner(x, v, {x})), {x}, map[]) == (Func(Boxed(x, v)), map[]);
    TwoBoxed(Func(Inner(x, v, {x})), a, {x}, map[]);
    TwoBoxed(Var(x, any, Leaf(u)), Op("block", [Func(Inner(x, v, {x})), a]), {x}, map[]);
  }

  lemma OuterAccepted(x: Id, any: bool, u: string, v: string)
    requires !Invented(x)
    ensures var n := Outer(x, any, u, v, {}); AcceptedBut(n, {}, any, u) && LiftedPrograms.Lifted(n) && FreeAssigns(n) <= Declared(n)
  {
    OuterAnalysed(x, any, u, v);
    AssignsAreReferences(Outer(x, any, u, v, {}));
    OuterShaped(x, any, u, v);
    OuterFits(x, any, u, v);
  }

  lemma OuterShaped(x: Id, any: bool, u: string, v: string)
    requires !Invented(x)
    ensures var n := Outer(x, any, u, v, {}); LiftedPrograms.Lifted(n) && Clean(n) && Source(n)
  {
    var a, kids := Assign(x, Leaf(v)), Outer(x, any, u, v, {}).kids;
    OneKid(a);
    assert LiftedPrograms.NoDecls(Leaf(v)) && Clean(Leaf(v)) && Source(Leaf(v));
    assert LiftedPrograms.NoDecls(a) && Clean(a) && Source(a);
    assert LiftedPrograms.Lifted(Inner(x, v, {}).body);
    assert Clean(Inner(x, v, {}).body) && Source(Inner(x, v, {}).body);
    assert Clean(Func(Inner(x, v, {}))) && LiftedPrograms.NoDecls(Func(Inner(x, v, {})));
    assert LiftedPrograms.NoDecls(kids[1]) && kids[1..] == [kids[1]];
    assert LiftedPrograms.LiftedIn(kids[1..]);
    assert Clean(kids[1]) && Source(kids[1]) && Clean(kids[0]) && Source(kids[0]);
  }

  lemma OuterFits(x: Id, any: bool, u: string, v: string)
    requires !Invented(x)
    ensures FitBut(Outer(x, any, u, v, {x}), {x}, any, u)
  {
    var a := Assign(x, Leaf(v));
    OneKid(a);
    assert FitBut(Leaf(v), {x}, any, u) && FitBut(a, {x}, any, u);
    assert {x} + {} == {x} && FitBut(Inner(x, v, {x}).body, {x} + {}, any, u);
    assert FitBut(Func(Inner(x, v, {x})), {x}, any, u);
    assert FitBut(Leaf(u), {x}, any, u);
    assert FitBut(Op("block", [Func(Inner(x, v, {x})), a]), {x}, any, u);
  }

  // The box is never made: the assignment after the declaration finds none.
  lemma OuterBreaks<W>(p: Runtime<W>, x: Id, v: string, order: set<Id> -> seq<Id>, w: W, fuel: nat)
    requires Enumerates(order) && !p.literal("undefined").Ref?
    ensures RunProgram(p, Closures.Converted(Outer(x, false, "undefined", v, {}), order), w, fuel) == Early
  {
    var d, f1, st := Var(x, false, Leaf("undefined")), Convert(Func(Boxed(x, v)), [], order), Store(Name(x), Leaf(v));
    OuterConverted(x, v, order);
    TwoKids(f1, st);
    TwoKids(d, Op("block", [f1, st]));
    var r := Op("block", [d, Op("block", [f1, st])]);
    var fr, s := FrameOf(Outermost(r), 0), State(map[], [], [], 1, w);
    var s1 := Put(x, p.literal("undefined"), fr, s);
    DeclRuns(p, d, fr, s, fuel);
    BoxingCorrect.TwoRun(p, d, Op("block", [f1, st]), fr, s, fuel);
    BoxingCorrect.TwoRun(p, f1, st, fr, s1, fuel);
    ClosureRuns(p, Boxed(x, v), order, fr, s1, fuel);
    var r1 := Eval(p, f1, fr, s1, fuel);
    if r1.Done? { StoreBreaks(p, x, v, fr, r1, fuel); }
  }

  lemma DeclRuns<W>(p: Runtime<W>, d: Node, fr: Frame, s: State<W>, fuel: nat)
    requires d.Var? && d.e.Leaf? && d.x in fr.scope && !HandedOn(d.x, fr.scope[d.x], s)
    ensures Eval(p, d, fr, s, fuel) == Done(Normal(p.literal("undefined")), Put(d.x, p.literal(d.e.text), fr, s))
  {
    assert Eval(p, d.e, fr, s, fuel) == Done(Normal(p.literal(d.e.text)), s);
  }

  lemma OuterConverted(x: Id, v: string, order: set<Id> -> seq<Id>)
    ensures Closures.Converted(Outer(x, false, "undefined", v, {}), order)
         == Op("block", [Var(x, false, Leaf("undefined")), Op("block", [Convert(Func(Boxed(x, v)), [], order), Store(Name(x), Leaf(v))])])
  {
    OuterAnalysed(x, false, "undefined", v);
    OuterBoxed(x, false, "undefined", v);
    var d, f, st := Var(x, false, Leaf("undefined")), Func(Boxed(x, v)), Store(Name(x), Leaf(v));
    assert Convert(Leaf(v), [], order) == Leaf(v) && Convert(Name(x), [], order) == Name(x);
    TwoConverted(f, st, order);
    TwoConverted(d, Op("block", [f, st]), order);
    assert Convert(st, [], order) == st && Convert(d, [], order) == d;
    assert Convert(Op("block", [f, st]), [], order) == Op("block", [Convert(f, [], order), st]);
  }

  lemma ClosureRuns<W>(p: Runtime<W>, f: Function, order: set<Id> -> seq<Id>, fr: Frame, s: State<W>, fuel: nat)
    ensures var r := Eval(p, Convert(Func(f), [], order), fr, s, fuel); r.Done? ==> r.s.cells == s.cells
    ensures Eval(p, Convert(Func(f), [], order), fr, s, fuel) != NoFuel
    ensures var r := Eval(p, Convert(Func(f), [], order), fr, s, fuel); r.Done? ==> r.c.Normal?
  {
  }

  lemma StoreBreaks<W>(p: Runtime<W>, x: Id, v: string, fr: Frame, r: Result<W>, fuel: nat)
    requires r.Done? && Has(x, fr, r.s) && !r.s.cells[(fr.scope[x], x)].Ref?
    ensures Eval(p, Store(Name(x), Leaf(v)), fr, r.s, fuel) == Early
  {
    assert Eval(p, Leaf(v), fr, r.s, fuel) == Done(Normal(p.literal(v)), r.s);
  }

  // Exactly the typed declaration without a value makes no box.
  lemma TypedDeclarationMakesNoBox<W(!new)>(p: Runtime<W>, x: Id, any: bool, u: string, v: string, order: set<Id> -> seq<Id>, w: W, fuel: nat)
    requires Enumerates(order) && InRange(p) && !Invented(x) && !p.literal("undefined").Ref?
    ensures var program := Outer(x, any, u, v, {});
            SameEnd(RunProgram(p, program, w, fuel), RunProgram(p, Closures.Converted(program, order), w, fuel))
            <==> any || u != "undefined"
  {
    OuterAnalysed(x, any, u, v);
    if !any && u == "undefined" {
      OuterBreaks(p, x, v, order, w, fuel);
    } else {
      OuterAccepted(x, any, u, v);
      AcceptedButNothing(Outer(x, any, u, v, {}), any, u);
      LiftedKeepMeaning(p, Outer(x, any, u, v, {}), order, w, fuel);
    }
  }

  // ----- Names, not variables, get boxes -----

  // One function uses the runtime's y, another assigns a variable z of its own, and y is read.
  function Uses(y: Id, vars: set<Id>): Node {
    Func(Function([], Op("block", [Name(y)]), vars, {}))
  }

  function Sets(z: Id, v: string): Node {
    Func(Function([z], Op("block", [Assign(z, Leaf(v))]), {}, {}))
  }

  function UseAndSet(y: Id, z: Id, v: string, vars: set<Id>): Node {
    Op("block", [Op("block", [Uses(y, vars), Op("block", [Sets(z, v), Name(y)])])])
  }

  lemma UseAndSetAnalysed(y: Id, z: Id, v: string)
    ensures Closures.Analysed(UseAndSet(y, z, v, {})) == UseAndSet(y, z, v, {y})
    ensures GlobalsToBox(Annotate(UseAndSet(y, z, v, {}))) == {y} * {z}
    ensures var n := UseAndSet(y, z, v, {}); Referenced(n) == {y} && Declared(n) == {} && Assigned(n) == {z}
  {
    OneKid(Name(y));
    OneKid(Assign(z, Leaf(v)));
    SetsAnalysed(z, v);
    UsesAnalysed(y);
    var b := Op("block", [Sets(z, v), Name(y)]);
    TwoKids(Sets(z, v), Name(y));
    TwoKids(Uses(y, {}), b);
    TwoKids(Uses(y, {y}), b);
    OneKid(Op("block", [Uses(y, {}), b]));
    OneKid(Op("block", [Uses(y, {y}), b]));
    assert Annotate(b) == b && Collect(b) == b;
    assert FreeChildren(UseAndSet(y, z, v, {y})) == {y} && Assigned(UseAndSet(y, z, v, {y})) == {z};
  }

  lemma UsesAnalysed(y: Id)
    ensures Annotate(Uses(y, {})) == Uses(y, {y}) && Collect(Uses(y, {y})) == Uses(y, {y})
    ensures Referenced(Uses(y, {})) == {y} && Referenced(Uses(y, {y})) == {y} && Assigned(Uses(y, {})) == {} == Assigned(Uses(y, {y}))
  {
    var body := Op("block", [Name(y)]);
    OneKid(Name(y));
    assert Annotate(body) == body && Collect(body) == body && FreeChildren(body) == {};
    assert Referenced(body) - Declared(body) - Elements([]) == {y};
  }

  lemma SetsAnalysed(z: Id, v: string)
    ensures Annotate(Sets(z, v)) == Sets(z, v) && Collect(Sets(z, v)) == Sets(z, v)
    ensures Referenced(Sets(z, v)) == {} && Assigned(Sets(z, v)) == {z}
  {
    var body := Op("block", [Assign(z, Leaf(v))]);
    OneKid(Assign(z, Leaf(v)));
    assert Annotate(body) == body && Collect(body) == body && FreeChildren(body) == {};
    assert Elements([z]) == {z} && Referenced(body) - Declared(body) - {z} == {};
  }

  lemma UseAndSetAccepted(y: Id, z: Id, v: string, any: bool, u: string)
    requires !Invented(y) && !Invented(z)
    ensures var n := UseAndSet(y, z, v, {});
            AcceptedBut(n, {y} * {z}, any, u) && LiftedPrograms.Lifted(n) && FreeAssigns(n) <= Declared(n)
  {
    UseAndSetAnalysed(y, z, v);
    UseAndSetShaped(y, z, v);
    UseAndSetFits(y, z, v, {y} * {z}, any, u);
    UseAndSetAssigns(y, z, v);
  }

  lemma UseAndSetAssigns(y: Id, z: Id, v: string)
    ensures FreeAssigns(UseAndSet(y, z, v, {})) == {}
  {
    SetsAnalysed(z, v);
    AssignsAreReferences(Sets(z, v));
    var b := Op("block", [Sets(z, v), Name(y)]);
    NoAssigns([Name(y)]);
    NoAssigns([Sets(z, v), Name(y)]);
    NoAssigns([Uses(y, {}), b]);
    NoAssigns([Op("block", [Uses(y, {}), b])]);
  }

  lemma {:induction false} NoAssigns(kids: seq<Node>)
    requires forall i :: 0 <= i < |kids| ==> FreeAssigns(kids[i]) == {}
    ensures FreeAssignsIn(kids) == {} && FreeAssigns(Op("block", kids)) == {}
  {
    if kids != [] { NoAssigns(kids[1..]); }
  }

  lemma UseAndSetShaped(y: Id, z: Id, v: string)
    requires !Invented(y) && !Invented(z)
    ensures var n := UseAndSet(y, z, v, {}); LiftedPrograms.Lifted(n) && Clean(n) && Source(n)
  {
    var a := Assign(z, Leaf(v));
    OneKid(a);
    OneKid(Name(y));
    assert LiftedPrograms.NoDecls(Leaf(v)) && Clean(Leaf(v)) && Source(Leaf(v));
    assert LiftedPrograms.NoDecls(a) && Clean(a) && Source(a);
    assert LiftedPrograms.LiftedIn([a]) && LiftedPrograms.LiftedIn([Name(y)]);
    assert Clean(Op("block", [a])) && Clean(Op("block", [Name(y)])) && Source(Op("block", [a])) && Source(Op("block", [Name(y)]));
    FunctionShaped([], Op("block", [Name(y)]));
    FunctionShaped([z], Op("block", [a]));
    var b := Op("block", [Sets(z, v), Name(y)]);
    assert LiftedPrograms.NoDecls(b) && Clean(b) && Source(b);
    var c := Op("block", [Uses(y, {}), b]);
    assert LiftedPrograms.NoDecls(c) && Clean(c) && Source(c);
    assert LiftedPrograms.LiftedIn([c]);
  }

  lemma FunctionShaped(params: seq<Id>, body: Node)
    requires LiftedPrograms.Lifted(body) && Clean(body) && Source(body)
    requires NoneInvented(Referenced(body) + Assigned(body) + Elements(params))
    ensures var n := Func(Function(params, body, {}, {})); LiftedPrograms.NoDecls(n) && Clean(n) && Source(n)
  {
  }

  lemma UseAndSetFits(y: Id, z: Id, v: string, toBox: set<Id>, any: bool, u: string)
    requires !Invented(y) && !Invented(z)
    ensures FitBut(UseAndSet(y, z, v, {y}), toBox, any, u)
  {
    var a := Assign(z, Leaf(v));
    OneKid(a);
    OneKid(Name(y));
    assert FitBut(Leaf(v), toBox, any, u) && FitBut(a, toBox, any, u);
    assert toBox + {} == toBox && FitBut(Op("block", [a]), toBox, any, u) && FitBut(Op("block", [Name(y)]), toBox, any, u);
    assert FitBut(Uses(y, {y}), toBox, any, u) && FitBut(Sets(z, v), toBox, any, u);
    var b := Op("block", [Sets(z, v), Name(y)]);
    assert FitBut(b, toBox, any, u);
    assert FitBut(Op("block", [Uses(y, {y}), b]), toBox, any, u);
  }

  // Read as a box, the runtime's value is none.
  lemma UseAndSetBreaks<W>(p: Runtime<W>, y: Id, v: string, order: set<Id> -> seq<Id>, w: W, fuel: nat)
    requires Enumerates(order) && !p.global(y).Ref?
    ensures RunProgram(p, Closures.Converted(UseAndSet(y, y, v, {}), order), w, fuel) == Early
  {
    UseAndSetAnalysed(y, y, v);
    assert {y} * {y} == {y};
    var g1, h1 := UseAndSetBoxed(y, v);
    BoxedUseConverted(y, g1, h1, order);
    UseRuns(p, y, g1, h1, order, State(map[], [], [], 1, w), fuel);
  }

  // Code that reads y as a box after it has made two functions.
  function UseOfBox(y: Id, g: Node, h: Node): Node {
    Op("block", [Op("block", [g, Op("block", [h, Deref(Name(y))])])])
  }

  lemma UseAndSetBoxed(y: Id, v: string) returns (g1: Function, h1: Function)
    ensures Box(UseAndSet(y, y, v, {y}), {y}, map[]).0 == UseOfBox(y, Func(g1), Func(h1))
  {
    var g, h, last := Uses(y, {y}), Sets(y, v), Name(y);
    var b := Op("block", [h, last]);
    TwoBoxed(h, last, {y}, Box(g, {y}, map[]).1);
    TwoBoxed(g, b, {y}, map[]);
    OneBoxed(Op("block", [g, b]), {y}, map[]);
    var names := Box(g, {y}, map[]).1;
    g1, h1 := Box(g, {y}, map[]).0.f, Box(h, {y}, names).0.f;
    assert Box(b, {y}, names).0 == Op("block", [Func(h1), Deref(last)]);
    assert Box(Op("block", [g, b]), {y}, map[]).0 == Op("block", [Func(g1), Op("block", [Func(h1), Deref(last)])]);
  }

  lemma BoxedUseConverted(y: Id, g: Function, h: Function, order: set<Id> -> seq<Id>)
    ensures Convert(UseOfBox(y, Func(g), Func(h)), [], order) == UseOfBox(y, Convert(Func(g), [], order), Convert(Func(h), [], order))
  {
    var last := Deref(Name(y));
    assert Convert(last, [], order) == last;
    var b := Op("block", [Func(h), last]);
    TwoConverted(Func(h), last, order);
    TwoConverted(Func(g), b, order);
    OneConverted(Op("block", [Func(g), b]), order);
    assert Convert(b, [], order) == Op("block", [Convert(Func(h), [], order), last]);
  }

  lemma UseRuns<W>(p: Runtime<W>, y: Id, g: Function, h: Function, order: set<Id> -> seq<Id>, s: State<W>, fuel: nat)
    requires !p.global(y).Ref?
    ensures var r := UseOfBox(y, Convert(Func(g), [], order), Convert(Func(h), [], order)); Eval(p, r, FrameOf(Outermost(r), 0), s, fuel) == Early
  {
    var g2, h2, last := Convert(Func(g), [], order), Convert(Func(h), [], order), Deref(Name(y));
    var b2 := Op("block", [h2, last]);
    var r := UseOfBox(y, g2, h2);
    UseDeclares(y, g2, h2);
    var fr := FrameOf(Outermost(r), 0);
    MadeOrEarly(p, h, last, order, fr, fuel, y);
    assert forall s1: State<W> :: Eval(p, b2, fr, s1, fuel) == Early;
    ThenEarly(p, g, b2, order, fr, s, fuel);
    assert Eval(p, r, fr, s, fuel) == Eval(p, Op("block", [g2, b2]), fr, s, fuel);
  }

  lemma UseDeclares(y: Id, g: Node, h: Node)
    requires g.Closure? && h.Closure?
    ensures Declared(UseOfBox(y, g, h)) == {} && FrameOf(Outermost(UseOfBox(y, g, h)), 0).scope == map[]
  {
    var b := Op("block", [h, Deref(Name(y))]);
    TwoKids(h, Deref(Name(y)));
    TwoKids(g, b);
    OneKid(Op("block", [g, b]));
  }

  lemma ThenEarly<W>(p: Runtime<W>, f: Function, b: Node, order: set<Id> -> seq<Id>, fr: Frame, s: State<W>, fuel: nat)
    requires forall s1: State<W> :: Eval(p, b, fr, s1, fuel) == Early
    ensures Eval(p, Op("block", [Convert(Func(f), [], order), b]), fr, s, fuel) == Early
  {
    var f1 := Convert(Func(f), [], order);
    BoxingCorrect.TwoRun(p, f1, b, fr, s, fuel);
    ClosureRuns(p, f, order, fr, s, fuel);
  }

  lemma MadeOrEarly<W>(p: Runtime<W>, h: Function, last: Node, order: set<Id> -> seq<Id>, fr: Frame, fuel: nat, y: Id)
    requires last == Deref(Name(y)) && y !in fr.scope && !p.global(y).Ref?
    ensures forall s: State<W> :: Eval(p, Op("block", [Convert(Func(h), [], order), last]), fr, s, fuel) == Early
  {
    forall s: State<W>
      ensures Eval(p, last, fr, s, fuel) == Early
    {
      assert Eval(p, Name(y), fr, s, fuel) == Done(Normal(p.global(y)), s);
    }
    forall s: State<W>
      ensures Eval(p, Op("block", [Convert(Func(h), [], order), last]), fr, s, fuel) == Early
    {
      ThenEarly(p, h, last, order, fr, s, fuel);
    }
  }

  // Exactly a name that is assigned somewhere, if only as another variable, is taken for a box.
  lemma NamesGetBoxes<W(!new)>(p: Runtime<W>, y: Id, z: Id, v: string, order: set<Id> -> seq<Id>, w: W, fuel: nat)
    requires Enumerates(order) && InRange(p) && !Invented(y) && !Invented(z) && !p.global(y).Ref?
    ensures var program := UseAndSet(y, z, v, {});
            SameEnd(RunProgram(p, program, w, fuel), RunProgram(p, Closures.Converted(program, order), w, fuel))
            <==> y != z
  {
    UseAndSetAnalysed(y, z, v);
    if y == z {
      UseAndSetBreaks(p, y, v, order, w, fuel);
    } else {
      UseAndSetAccepted(y, z, v, true, "");
      AcceptedButNothing(UseAndSet(y, z, v, {}), true, "");
      LiftedKeepMeaning(p, UseAndSet(y, z, v, {}), order, w, fuel);
    }
  }

  // ----- Over all programs -----

  ghost predicate Kept<W>(p: Runtime<W>, program: Node, order: set<Id> -> seq<Id>, w: W, fuel: nat) {
    SameEnd(RunProgram(p, program, w, fuel), RunProgram(p, Closures.Converted(program, order), w, fuel))
  }

  ghost predicate AllKept<W(!new)>(names: set<Id>, any: bool, u: string) {
    forall p: Runtime<W>, program: Node, order: set<Id> -> seq<Id>, w: W, fuel: nat ::
      Enumerates(order) && AcceptedBut(program, names, any, u) && RunProgram(p, program, w, fuel) != Early ==> Kept(p, program, order, w, fuel)
  }

  // A runtime without a box in it.
  function Bare<W>(): Runtime<W> {
    Runtime(text => Plain(0), x => Plain(0), (kind, n, h, w) => (Finish(Normal(Plain(0))), w))
  }

  // Programs may use these names of the runtime and box declarations of this form, and all keep their
  // meaning, exactly if no program can use the names and the form is not typed and `undefined`.
  lemma ExemptExactly<W(!new)>(names: set<Id>, any: bool, u: string, order: set<Id> -> seq<Id>, w: W)
    requires Enumerates(order)
    ensures AllKept<W>(names, any, u) <==> (forall y <- names :: Invented(y)) && (any || u != "undefined")
  {
    if y :| y in names && !Invented(y) {
      NameNotKept(names, any, u, y, order, w);
    } else if !any && u == "undefined" {
      FormNotKept(names, any, u, order, w);
    } else {
      forall p: Runtime<W>, program: Node, order: set<Id> -> seq<Id>, w: W, fuel: nat
        | Enumerates(order) && AcceptedBut(program, names, any, u) && RunProgram(p, program, w, fuel) != Early
        ensures Kept(p, program, order, w, fuel)
      {
        NoneExempt(program, names, any, u);
        ClosuresKeepMeaning(p, program, order, w, fuel);
      }
    }
  }

  lemma NoneExempt(program: Node, names: set<Id>, any: bool, u: string)
    requires AcceptedBut(program, names, any, u) && (forall y <- names :: Invented(y)) && (any || u != "undefined")
    ensures Accepted(program)
  {
    forall x | x in (Referenced(program) - Declared(program)) * GlobalsToBox(Annotate(program))
      ensures false
    {
      assert x in Declared(program) + Referenced(program) + Assigned(program);
    }
    AcceptedButNothing(program, any, u);
  }

  lemma LiftedNotKept<W(!new)>(p: Runtime<W>, program: Node, names: set<Id>, any: bool, u: string, order: set<Id> -> seq<Id>, w: W)
    requires Enumerates(order) && InRange(p) && AcceptedBut(program, names, any, u)
    requires LiftedPrograms.Lifted(program) && FreeAssigns(program) <= Declared(program)
    requires RunProgram(p, Closures.Converted(program, order), w, 0) == Early
    ensures !AllKept<W>(names, any, u)
  {
    LiftedPrograms.LiftedIsTimely(Outermost(program).f);
    ProgramNeverEarly(p, program, w, 0);
    assert !Kept(p, program, order, w, 0);
  }

  lemma NameNotKept<W(!new)>(names: set<Id>, any: bool, u: string, y: Id, order: set<Id> -> seq<Id>, w: W)
    requires Enumerates(order) && y in names && !Invented(y)
    ensures !AllKept<W>(names, any, u)
  {
    var p, program := Bare<W>(), UseAndSet(y, y, "0", {});
    UseAndSetAccepted(y, y, "0", any, u);
    UseAndSetBreaks(p, y, "0", order, w, 0);
    LiftedNotKept(p, program, names, any, u, order, w);
  }

  lemma FormNotKept<W(!new)>(names: set<Id>, any: bool, u: string, order: set<Id> -> seq<Id>, w: W)
    requires Enumerates(order) && !any && u == "undefined"
    ensures !AllKept<W>(names, any, u)
  {
    var p, program := Bare<W>(), Outer(Named("x"), any, u, "0", {});
    OuterAccepted(Named("x"), any, u, "0");
    OuterBreaks(p, Named("x"), "0", order, w, 0);
    LiftedNotKept(p, program, names, any, u, order, w);
  }
}

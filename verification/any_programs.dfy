// Programs whose declarations have the type Any are accepted for their names alone.

module AnyPrograms {
  import opened Common
  import opened Ids
  import opened FreeVariables
  import opened AssignAnalysis
  import opened Boxing
  import opened Environments
  import opened JankyMeaning
  import opened DeclaredInTime
  import opened LiftedPrograms
  import opened ClosuresCorrect
  import BoxingCorrect
  import Closures

  // No declaration, here or in a function, has a type of its own.
  predicate AllAny(n: Node)
    decreases n
  {
    match n
    case Assign(_, e) => AllAny(e)
    case Var(_, any, e) => any && AllAny(e)
    case Op(_, kids) => forall i :: 0 <= i < |kids| ==> AllAny(kids[i])
    case Func(f) => AllAny(f.body)
    case _ => true
  }

  // Any name of the program's, and any temporary but those that boxing makes.
  predicate Ordinary(x: Id) {
    x.Generated? ==> x.baseName != "to_box"
  }

  // Parameters are distinct, and every name is ordinary.
  ghost predicate WellNamed(n: Node)
    decreases n
  {
    match n
    case Name(x) => Ordinary(x)
    case Assign(x, e) => Ordinary(x) && WellNamed(e)
    case Var(x, _, e) => Ordinary(x) && WellNamed(e)
    case Op(_, kids) => forall i :: 0 <= i < |kids| ==> WellNamed(kids[i])
    case Func(f) =>
      && (forall i, j :: 0 <= i < j < |f.params| ==> f.params[i] != f.params[j])
      && (forall i :: 0 <= i < |f.params| ==> Ordinary(f.params[i]))
      && WellNamed(f.body)
    case _ => true
  }

  // Names declared here or in a function inside.
  function AllDeclared(n: Node): set<Id>
    decreases n, 0
  {
    match n
    case Assign(_, e) => AllDeclared(e)
    case Var(x, _, e) => {x} + AllDeclared(e)
    case Op(_, kids) => AllDeclaredIn(kids)
    case Func(f) => AllDeclared(f.body)
    case _ => {}
  }

  function AllDeclaredIn(kids: seq<Node>): set<Id>
    decreases kids, 0
  {
    if kids == [] then {} else AllDeclared(kids[0]) + AllDeclaredIn(kids[1..])
  }

  // ----- What lifting keeps -----

  // Shape and names of a lifted piece of code.
  ghost predicate LiftedWell(n: Node, r: Node) {
    && Source(r) && AllAny(r) && WellNamed(r)
    && Captures(r) == Captures(n) && Assigned(r) == Assigned(n) + AllDeclared(n)
  }

  ghost predicate DeclsWell(ds: seq<Node>) {
    && AllDecls(ds) && (forall i :: 0 <= i < |ds| ==> ds[i].any && !Invented(ds[i].x))
  }

  lemma {:induction false} DeclsCapture(ds: seq<Node>, more: seq<Node>)
    requires AllDecls(ds)
    ensures CapturesIn(ds + more) == CapturesIn(more) && AssignedIn(ds + more) == AssignedIn(more)
  {
    if ds == [] {
      assert ds + more == more;
    } else {
      DeclsCapture(ds[1..], more);
      assert Captures(ds[0]) == {} && Assigned(ds[0]) == {};
      assert (ds + more)[0] == ds[0] && (ds + more)[1..] == ds[1..] + more;
    }
  }

  lemma DeclsInFrontWell(ds: seq<Node>, kids: seq<Node>)
    requires DeclsWell(ds) && forall i :: 0 <= i < |kids| ==> Source(kids[i]) && AllAny(kids[i]) && WellNamed(kids[i])
    ensures var b := Op("block", ds + kids); Source(b) && AllAny(b) && WellNamed(b)
  {
    var b := Op("block", ds + kids);
    forall i | 0 <= i < |b.kids|
      ensures Source(b.kids[i]) && AllAny(b.kids[i]) && WellNamed(b.kids[i])
    {
      if i < |ds| { assert b.kids[i] == ds[i] && Source(ds[i].e); } else { assert b.kids[i] == kids[i - |ds|]; }
    }
  }

  lemma BodyWell(body: Node)
    requires IsBlock(body) && IsBlock(Lift(body).0)
    requires LiftedWell(body, Lift(body).0) && DeclsWell(Lift(body).1)
    ensures LiftedWell(body, Op("block", Lift(body).1 + Lift(body).0.kids))
  {
    var (r, ds) := Lift(body);
    DeclsInFrontWell(ds, r.kids);
    DeclsCapture(ds, r.kids);
  }

  lemma {:induction false} LiftWell(n: Node)
    requires Parsed(n) && AllAny(n) && WellNamed(n)
    ensures var (r, ds) := Lift(n); LiftedWell(n, r) && DeclsWell(ds)
    decreases n, 0
  {
    match n
    case Assign(_, e) => LiftWell(e);
    case Var(x, _, e) =>
      LiftWell(e);
      var ds := Lift(e).1;
      assert forall i :: 0 <= i < |ds| ==> (ds + [Lift(n).1[|ds|]])[i] == ds[i];
    case Op(_, kids) => LiftAllWell(kids);
    case Func(f) => FuncLiftWell(f);
    case _ =>
  }

  lemma {:induction false} FuncLiftWell(f: Function)
    requires Parsed(Func(f)) && AllAny(Func(f)) && WellNamed(Func(f))
    ensures var (r, ds) := Lift(Func(f)); LiftedWell(Func(f), r) && DeclsWell(ds)
    decreases f.body, 1
  {
    LiftWell(f.body);
    LiftLifts(f.body);
    BodyWell(f.body);
    LiftLifts(Func(f));
  }

  lemma {:induction false} LiftAllWell(kids: seq<Node>)
    requires forall i :: 0 <= i < |kids| ==> Parsed(kids[i]) && AllAny(kids[i]) && WellNamed(kids[i])
    ensures var (r, ds) := LiftAll(kids);
            && (forall i :: 0 <= i < |r| ==> Source(r[i]) && AllAny(r[i]) && WellNamed(r[i])) && DeclsWell(ds)
            && CapturesIn(r) == CapturesIn(kids) && AssignedIn(r) == AssignedIn(kids) + AllDeclaredIn(kids)
    decreases kids, 0
  {
    if kids != [] {
      LiftWell(kids[0]);
      LiftAllWell(kids[1..]);
      var (k, ds) := Lift(kids[0]);
      var (ks, ds1) := LiftAll(kids[1..]);
      assert ([k] + ks)[1..] == ks;
    }
  }

  // ----- What the passes ask for -----

  lemma {:induction false} NamesClean(n: Node)
    requires Source(n) && WellNamed(n)
    ensures Clean(n) && NoneInvented(Declared(n) + Referenced(n) + Assigned(n))
    decreases n, 0
  {
    match n
    case Assign(_, e) => NamesClean(e);
    case Var(_, _, e) => NamesClean(e);
    case Op(_, kids) => NamesCleanIn(kids);
    case Func(f) => NamesClean(f.body);
    case _ =>
  }

  lemma {:induction false} NamesCleanIn(kids: seq<Node>)
    requires forall i :: 0 <= i < |kids| ==> Source(kids[i]) && WellNamed(kids[i])
    ensures (forall i :: 0 <= i < |kids| ==> Clean(kids[i])) && NoneInvented(DeclaredIn(kids) + ReferencedIn(kids) + AssignedIn(kids))
    decreases kids, 0
  {
    if kids != [] {
      NamesClean(kids[0]);
      NamesCleanIn(kids[1..]);
      assert forall i :: 1 <= i < |kids| ==> kids[i] == kids[1..][i - 1];
    }
  }

  lemma {:induction false} CapturesAnnotated(n: Node)
    requires Source(n)
    ensures FreeChildren(Annotate(n)) == Captures(n)
    decreases n, 0
  {
    match n
    case Assign(_, e) => CapturesAnnotated(e);
    case Var(_, _, e) => CapturesAnnotated(e);
    case Op(_, kids) => CapturesAnnotatedIn(kids);
    case _ =>
  }

  lemma {:induction false} CapturesAnnotatedIn(kids: seq<Node>)
    requires forall i :: 0 <= i < |kids| ==> Source(kids[i])
    ensures FreeChildrenIn(AnnotateAll(kids)) == CapturesIn(kids)
    decreases kids, 0
  {
    if kids != [] {
      CapturesAnnotated(kids[0]);
      CapturesAnnotatedIn(kids[1..]);
      assert AnnotateAll(kids)[1..] == AnnotateAll(kids[1..]);
    }
  }

  lemma {:induction false} AnyFits(n: Node, toBox: set<Id>)
    requires Source(n) && AllAny(n) && WellNamed(n)
    ensures BoxingCorrect.Fit(Collect(Annotate(n)), toBox)
    decreases n
  {
    match n
    case Assign(_, e) => AnyFits(e, toBox);
    case Var(_, _, e) => AnyFits(e, toBox);
    case Op(_, kids) =>
      forall i | 0 <= i < |kids|
        ensures BoxingCorrect.Fit(CollectAll(AnnotateAll(kids))[i], toBox)
      {
        NotesAt(kids, i);
        AnyFits(kids[i], toBox);
      }
    case Func(f) =>
      AnnotateAnnotates(f.body);
      CollectCollects(Annotate(f.body));
      NamesClean(f.body);
      AnyFits(f.body, toBox + FreeChildren(Annotate(f.body)) * Assigned(Annotate(f.body)));
    case _ =>
  }

  // Any-typed programs are accepted when no name of the runtime is both captured and assigned.
  lemma AnyAccepted(program: Node)
    requires Source(program) && AllAny(program) && WellNamed(program)
    requires (Referenced(program) - Declared(program)) * Captures(program) * Assigned(program) == {}
    ensures Accepted(program)
  {
    NamesClean(program);
    AnnotateAnnotates(program);
    CapturesAnnotated(program);
    var toBox := GlobalsToBox(Annotate(program));
    assert (Referenced(program) - Declared(program)) * toBox == (Referenced(program) - Declared(program)) * Captures(program) * Assigned(program);
    AnyFits(program, toBox);
  }

  // So is what lifting makes of a parsed program, when no name of the runtime is captured and also
  // assigned or declared somewhere.
  lemma LiftedAccepted(parsed: Node)
    requires IsBlock(parsed) && Parsed(parsed) && AllAny(parsed) && WellNamed(parsed)
    requires (Referenced(parsed) - Declared(parsed)) * Captures(parsed) * (Assigned(parsed) + AllDeclared(parsed)) == {}
    ensures LiftVars(parsed).Some? && Accepted(LiftVars(parsed).value)
  {
    LiftWell(parsed);
    LiftLifts(parsed);
    BodyWell(parsed);
    LiftVarsLifts(parsed);
    AnyAccepted(LiftVars(parsed).value);
  }

  // Whatever variables such a program captures and assigns, boxes and environments keep its meaning:
  // all that is asked of it are names.
  lemma AnyProgramsKeepMeaning<W(!new)>(p: Runtime<W>, parsed: Node, order: set<Id> -> seq<Id>, w: W, fuel: nat)
    requires Enumerates(order) && InRange(p)
    requires IsBlock(parsed) && Parsed(parsed) && AllAny(parsed) && WellNamed(parsed) && FreeAssigns(parsed) <= Declared(parsed)
    requires (Referenced(parsed) - Declared(parsed)) * Captures(parsed) * (Assigned(parsed) + AllDeclared(parsed)) == {}
    ensures LiftVars(parsed).Some?
    ensures var program := LiftVars(parsed).value;
            SameEnd(RunProgram(p, program, w, fuel), RunProgram(p, Closures.Converted(program, order), w, fuel))
  {
    LiftedAccepted(parsed);
    LiftVarsKeepMeaning(p, parsed, order, w, fuel);
  }
}

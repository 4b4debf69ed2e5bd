// Boxing and closure conversion together: the program with environments does what the source does.

module ClosuresCorrect {
  import opened Common
  import opened Ids
  import opened FreeVariables
  import opened AssignAnalysis
  import opened Boxing
  import opened Environments
  import opened JankyMeaning
  import opened DeclaredInTime
  import BoxingCorrect
  import ConversionCorrect
  import LiftedPrograms
  import Closures

  // After boxing, what functions hand on to functions inside them is never assigned directly.
  lemma {:induction false} BoxedSettled(n: Node, toBox: set<Id>, names: Names)
    requires Prepared(n) && NoneInvented(toBox) && Covered(n, toBox)
    ensures var r := Box(n, toBox, names).0;
            && ConversionCorrect.Settled(r) && FreeChildren(r) == FreeChildren(n)
            && ConversionCorrect.Assigns(r) <= Assigned(n) && ConversionCorrect.Assigns(r) !! toBox
    decreases Size(n), 0
  {
    match n
    case Assign(_, e) => BoxedSettled(e, toBox, names);
    case Var(_, _, e) => BoxedSettled(e, toBox, names);
    case Op(kind, kids) =>
      BoxedSettledAll(kids, toBox, names);
      assert Box(n, toBox, names).0 == Op(kind, BoxAll(kids, toBox, names).0);
    case Func(f) =>
      var inside := toBox + f.boxed;
      var (params, body, n1) := RenameParams(f.params, inside, f.body, names);
      RenameKeeps(f.params, inside, f.body, names);
      BoxedSettled(body, inside, n1);
      assert FreeChildren(body) * Assigned(body) <= inside;
    case _ =>
  }

  lemma {:induction false} BoxedSettledAll(kids: seq<Node>, toBox: set<Id>, names: Names)
    requires (forall i :: 0 <= i < |kids| ==> Prepared(kids[i])) && NoneInvented(toBox) && FreeChildrenIn(kids) * AssignedIn(kids) <= toBox
    ensures var r := BoxAll(kids, toBox, names).0;
            && (forall i :: 0 <= i < |r| ==> ConversionCorrect.Settled(r[i])) && FreeChildrenIn(r) == FreeChildrenIn(kids)
            && ConversionCorrect.AssignsIn(r) <= AssignedIn(kids) && ConversionCorrect.AssignsIn(r) !! toBox
    decreases SizeAll(kids), 1, |kids|
  {
    if kids != [] {
      var (k, n1) := Box(kids[0], toBox, names);
      BoxedSettled(kids[0], toBox, names);
      assert forall i :: 0 <= i < |kids[1..]| ==> kids[1..][i] == kids[i + 1];
      BoxedSettledAll(kids[1..], toBox, n1);
      var r := BoxAll(kids, toBox, names).0;
      assert r[0] == k && r[1..] == BoxAll(kids[1..], toBox, n1).0;
      assert forall i :: 1 <= i < |r| ==> r[i] == r[1..][i - 1];
    }
  }

  // ----- Whole programs -----

  ghost predicate SameEnd<W>(r: Result<W>, r1: Result<W>) {
    match r
    case NoFuel => r1 == NoFuel
    case Early => false
    case Done(c, s) => r1.Done? && r1.c == c && r1.s.world == s.world
  }

  // All that the passes need of the analysed program and of the names that its boxes are for.
  ghost predicate Boxable(n: Node, toBox: set<Id>) {
    && BoxingCorrect.NodeFit(n, toBox) && NoneInvented(Declared(n) + Referenced(n))
    && (Referenced(n) - Declared(n)) * toBox == {}
  }

  lemma BoxedRun<W>(p: Runtime<W>, n: Node, toBox: set<Id>, w: W, fuel: nat)
    requires Boxable(n, toBox) && RunProgram(p, n, w, fuel) != Early
    ensures SameEnd(RunProgram(p, n, w, fuel), RunProgram(p, Box(n, toBox, map[]).0, w, fuel))
  {
    var r := Box(n, toBox, map[]).0;
    BoxCorrect(n, toBox, map[], {});
    var s := State(map[], [], [], 1, w);
    assert BoxingCorrect.StateBoxed(s, s, [toBox]);
    assert BoxingCorrect.FrameBoxed(FrameOf(Outermost(n), 0), FrameOf(Outermost(r), 0), toBox, [toBox]);
    forall x | x in Referenced(n)
      ensures !Invented(x) && (x in FrameOf(Outermost(n), 0).scope || x !in toBox)
    {
      assert x in Declared(n) + Referenced(n);
      if x !in Declared(n) { assert x !in (Referenced(n) - Declared(n)) * toBox; }
    }
    var k := BoxingCorrect.BoxSim(p, n, toBox, map[], FrameOf(Outermost(n), 0), FrameOf(Outermost(r), 0), s, s, [toBox], fuel);
  }

  lemma ConvertedRun<W>(p: Runtime<W>, n: Node, toBox: set<Id>, order: set<Id> -> seq<Id>, w: W, fuel: nat)
    requires Boxable(n, toBox) && Enumerates(order)
    requires RunProgram(p, Box(n, toBox, map[]).0, w, fuel) != Early
    ensures SameEnd(RunProgram(p, Box(n, toBox, map[]).0, w, fuel), RunProgram(p, Convert(Box(n, toBox, map[]).0, [], order), w, fuel))
  {
    var b := Box(n, toBox, map[]).0;
    var r := Convert(b, [], order);
    BoxCorrect(n, toBox, map[], {});
    BoxedSettled(n, toBox, map[]);
    ConvertDeclares(b, [], order);
    var s, at, h := State(map[], [], [], 1, w), ConversionCorrect.Place([], Declared(b), 0), [FreeChildren(b)];
    assert FreeChildren(n) * Assigned(n) <= toBox;
    assert Elements([]) == {};
    assert ConversionCorrect.NodeReady(b, at, h);
    assert ConversionCorrect.FrameCopied(p, FrameOf(Outermost(b), 0), FrameOf(Outermost(r), 0), at, s, h);
    var h1 := ConversionCorrect.ConvertSim(p, b, order, at, FrameOf(Outermost(b), 0), FrameOf(Outermost(r), 0), s, s, h, fuel);
  }

  // A program whose names are its own or the runtime's: no name that boxing invents, no runtime name
  // among those that get boxes, and `Fit`.
  ghost predicate Accepted(program: Node) {
    && Source(program) && Clean(program) && NoneInvented(Declared(program) + Referenced(program) + Assigned(program))
    && (Referenced(program) - Declared(program)) * GlobalsToBox(Annotate(program)) == {}
    && BoxingCorrect.Fit(Closures.Analysed(program), GlobalsToBox(Annotate(program)))
  }

  lemma AcceptedIsBoxable(program: Node)
    requires Accepted(program)
    ensures Boxable(Closures.Analysed(program), GlobalsToBox(Annotate(program)))
  {
    Closures.AnalysedIsPrepared(program);
    forall x | x in Declared(program) + Referenced(program)
      ensures !Invented(x)
    {
      assert x in Declared(program) + Referenced(program) + Assigned(program);
    }
    forall x | x in GlobalsToBox(Annotate(program))
      ensures !Invented(x)
    {
      assert x in Declared(program) + Referenced(program) + Assigned(program);
    }
  }

  // ----- Writing in free variables and boxes to make changes no run -----

  // The same code but for what the passes have written into its functions.
  ghost predicate SameCode(c: Code, d: Code) {
    Func(d.f) == Collect(Annotate(Func(c.f))) && Source(Func(c.f)) && d.scope == c.scope && d.env == c.env
  }

  ghost predicate SameButNotes<W>(s: State<W>, t: State<W>) {
    && t == s.(funs := t.funs) && |t.funs| == |s.funs|
    && forall i {:trigger SameCode(s.funs[i], t.funs[i])} :: 0 <= i < |s.funs| ==> SameCode(s.funs[i], t.funs[i])
  }

  ghost predicate SameNotes<W>(r: Result<W>, r1: Result<W>) {
    match r
    case Done(c, s) => r1.Done? && r1.c == c && SameButNotes(s, r1.s)
    case _ => r1 == r
  }

  lemma SameHandedOn<W>(x: Id, a: nat, s: State<W>, t: State<W>)
    requires SameButNotes(s, t)
    ensures HandedOn(x, a, s) <==> HandedOn(x, a, t)
  {
    forall i | 0 <= i < |s.funs|
      ensures t.funs[i].scope == s.funs[i].scope
    {
      assert SameCode(s.funs[i], t.funs[i]);
    }
  }

  lemma {:induction false} NotesSim<W>(p: Runtime<W>, n: Node, fr: Frame, s: State<W>, t: State<W>, fuel: nat)
    requires Source(n) && SameButNotes(s, t)
    ensures SameNotes(Eval(p, n, fr, s, fuel), Eval(p, Collect(Annotate(n)), fr, t, fuel))
    decreases fuel, n, 1
  {
    match n
    case Leaf(_) =>
    case Name(_) =>
    case Assign(_, e) => NotesSim(p, e, fr, s, t, fuel);
    case Var(x, _, e) =>
      NotesSim(p, e, fr, s, t, fuel);
      var r := Eval(p, e, fr, s, fuel);
      if r.Done? && x in fr.scope { SameHandedOn(x, fr.scope[x], r.s, Eval(p, Collect(Annotate(e)), fr, t, fuel).s); }
    case Op(kind, kids) =>
      if kind == "block" { NotesSimBlock(p, kids, fr, s, t, fuel); } else { NotesSimOp(p, kind, kids, [], fr, s, t, fuel); }
    case Func(f) => NotesSimFunc(p, f, fr, s, t, fuel);
  }

  lemma NotesSimFunc<W>(p: Runtime<W>, f: Function, fr: Frame, s: State<W>, t: State<W>, fuel: nat)
    requires Source(Func(f)) && SameButNotes(s, t)
    ensures SameNotes(Eval(p, Func(f), fr, s, fuel), Eval(p, Collect(Annotate(Func(f))), fr, t, fuel))
  {
    AnnotateAnnotates(Func(f));
    CollectCollects(Annotate(Func(f)));
    var g := Collect(Annotate(Func(f))).f;
    var scope := Shared(Referenced(Func(f)), fr.scope);
    assert SameCode(Code(f, scope, []), Code(g, scope, []));
  }

  lemma {:induction false} NotesSimBlock<W>(p: Runtime<W>, kids: seq<Node>, fr: Frame, s: State<W>, t: State<W>, fuel: nat)
    requires (forall i :: 0 <= i < |kids| ==> Source(kids[i])) && SameButNotes(s, t)
    ensures SameNotes(EvalBlock(p, kids, fr, s, fuel), EvalBlock(p, CollectAll(AnnotateAll(kids)), fr, t, fuel))
    decreases fuel, kids, 0
  {
    if kids != [] {
      var rs := CollectAll(AnnotateAll(kids));
      assert AnnotateAll(kids)[1..] == AnnotateAll(kids[1..]);
      assert rs[0] == Collect(Annotate(kids[0])) && rs[1..] == CollectAll(AnnotateAll(kids[1..]));
      NotesSim(p, kids[0], fr, s, t, fuel);
      var r, r1 := Eval(p, kids[0], fr, s, fuel), Eval(p, rs[0], fr, t, fuel);
      if r.Done? && r.c.Normal? && |kids| > 1 { NotesSimBlock(p, kids[1..], fr, r.s, r1.s, fuel); }
    }
  }

  lemma {:induction false} NotesSimOp<W>(p: Runtime<W>, kind: string, kids: seq<Node>, h: seq<Completion>, fr: Frame, s: State<W>, t: State<W>,
                                         fuel: nat)
    requires (forall i :: 0 <= i < |kids| ==> Source(kids[i])) && SameButNotes(s, t)
    ensures SameNotes(EvalOp(p, kind, kids, h, fr, s, fuel), EvalOp(p, kind, CollectAll(AnnotateAll(kids)), h, fr, t, fuel))
    decreases fuel, kids, 1
  {
    if fuel > 0 {
      var (action, w) := p.next(kind, |kids|, h, s.world);
      var s0, t0 := s.(world := w), t.(world := w);
      assert forall i :: 0 <= i < |s.funs| ==> SameCode(s.funs[i], t.funs[i]);
      if action.Finish? { return; }
      NotesSimAct(p, action, kids, fr, s0, t0, fuel);
      var r, r1 := Act(p, action, kids, fr, s0, fuel), Act(p, action, CollectAll(AnnotateAll(kids)), fr, t0, fuel);
      if r.Done? { NotesSimOp(p, kind, kids, h + [r.c], fr, r.s, r1.s, fuel - 1); }
    }
  }

  lemma {:induction false} NotesSimAct<W>(p: Runtime<W>, action: Action, kids: seq<Node>, fr: Frame, s: State<W>, t: State<W>, fuel: nat)
    requires fuel > 0 && !action.Finish? && (forall i :: 0 <= i < |kids| ==> Source(kids[i])) && SameButNotes(s, t)
    ensures SameNotes(Act(p, action, kids, fr, s, fuel), Act(p, action, CollectAll(AnnotateAll(kids)), fr, t, fuel))
    decreases fuel, kids, 0
  {
    match action
    case Part(i) =>
      if i < |kids| {
        NotesAt(kids, i);
        NotesSim(p, kids[i], fr, s, t, fuel - 1);
      }
    case Apply(f, args) => NotesSimCall(p, f, args, s, t, fuel - 1);
  }

  lemma {:induction false} NotesSimCall<W>(p: Runtime<W>, f: Value, args: seq<Value>, s: State<W>, t: State<W>, fuel: nat)
    requires SameButNotes(s, t)
    ensures SameNotes(Call(p, f, args, s, fuel), Call(p, f, args, t, fuel))
    decreases fuel
  {
    if f.Fn? && f.at < |s.funs| && fuel > 0 {
      var c, d := s.funs[f.at], t.funs[f.at];
      assert SameCode(c, d);
      EnterSame(p, c, d, args, s, t);
      NotesSim(p, c.f.body, FrameOf(c, s.calls), Entered(p, c, args, s), Entered(p, d, args, t), fuel - 1);
    }
  }

  lemma EnterSame<W>(p: Runtime<W>, c: Code, d: Code, args: seq<Value>, s: State<W>, t: State<W>)
    requires SameButNotes(s, t) && SameCode(c, d)
    ensures SameButNotes(Entered(p, c, args, s), Entered(p, d, args, t)) && FrameOf(d, t.calls) == FrameOf(c, s.calls)
    ensures Source(c.f.body) && d.f.body == Collect(Annotate(c.f.body))
  {
    AnnotateAnnotates(c.f.body);
    CollectCollects(Annotate(c.f.body));
    assert forall i :: 0 <= i < |s.funs| ==> SameCode(s.funs[i], t.funs[i]);
  }

  lemma {:induction false} NotesAt(kids: seq<Node>, i: nat)
    requires i < |kids|
    ensures CollectAll(AnnotateAll(kids))[i] == Collect(Annotate(kids[i]))
  {
    assert AnnotateAll(kids)[1..] == AnnotateAll(kids[1..]);
    if i > 0 { NotesAt(kids[1..], i - 1); }
  }

  lemma AnalysedRun<W>(p: Runtime<W>, program: Node, w: W, fuel: nat)
    requires Source(program)
    ensures SameNotes(RunProgram(p, program, w, fuel), RunProgram(p, Closures.Analysed(program), w, fuel))
  {
    AnnotateAnnotates(program);
    CollectCollects(Annotate(program));
    var s := State(map[], [], [], 1, w);
    assert FrameOf(Outermost(program), 0) == FrameOf(Outermost(Closures.Analysed(program)), 0);
    NotesSim(p, program, FrameOf(Outermost(program), 0), s, s, fuel);
  }

  // For every program, world and amount of fuel: what the passes make of it ends as it ends, in the
  // same world, whatever its functions captured, assigned, returned or stored away.
  lemma ClosuresKeepMeaning<W>(p: Runtime<W>, program: Node, order: set<Id> -> seq<Id>, w: W, fuel: nat)
    requires Enumerates(order) && Accepted(program) && RunProgram(p, program, w, fuel) != Early
    ensures SameEnd(RunProgram(p, program, w, fuel), RunProgram(p, Closures.Converted(program, order), w, fuel))
  {
    var n, toBox := Closures.Analysed(program), GlobalsToBox(Annotate(program));
    AnalysedRun(p, program, w, fuel);
    AcceptedIsBoxable(program);
    BoxedRun(p, n, toBox, w, fuel);
    ConvertedRun(p, n, toBox, order, w, fuel);
  }

  // Every run of a program that declares its variables in time, temporaries in the middle included.
  lemma TimelyKeepMeaning<W(!new)>(p: Runtime<W>, program: Node, order: set<Id> -> seq<Id>, w: W, fuel: nat)
    requires Enumerates(order) && Accepted(program) && InRange(p) && TimelyProgram(program)
    ensures SameEnd(RunProgram(p, program, w, fuel), RunProgram(p, Closures.Converted(program, order), w, fuel))
  {
    ProgramNeverEarly(p, program, w, fuel);
    ClosuresKeepMeaning(p, program, order, w, fuel);
  }

  // So every program keeps its meaning that begins with its declarations, as its functions do,
  lemma LiftedKeepMeaning<W(!new)>(p: Runtime<W>, program: Node, order: set<Id> -> seq<Id>, w: W, fuel: nat)
    requires Enumerates(order) && Accepted(program) && InRange(p)
    requires LiftedPrograms.Lifted(program) && FreeAssigns(program) <= Declared(program)
    ensures SameEnd(RunProgram(p, program, w, fuel), RunProgram(p, Closures.Converted(program, order), w, fuel))
  {
    LiftedPrograms.LiftedIsTimely(Outermost(program).f);
    TimelyKeepMeaning(p, program, order, w, fuel);
  }

  // and so what lifting makes of any parsed program.
  lemma LiftVarsKeepMeaning<W(!new)>(p: Runtime<W>, parsed: Node, order: set<Id> -> seq<Id>, w: W, fuel: nat)
    requires Enumerates(order) && InRange(p)
    requires LiftedPrograms.IsBlock(parsed) && LiftedPrograms.Parsed(parsed) && FreeAssigns(parsed) <= Declared(parsed)
    requires LiftedPrograms.LiftVars(parsed).Some? && Accepted(LiftedPrograms.LiftVars(parsed).value)
    ensures var program := LiftedPrograms.LiftVars(parsed).value;
            SameEnd(RunProgram(p, program, w, fuel), RunProgram(p, Closures.Converted(program, order), w, fuel))
  {
    LiftedPrograms.LiftVarsLifts(parsed);
    TimelyKeepMeaning(p, LiftedPrograms.LiftVars(parsed).value, order, w, fuel);
  }
}

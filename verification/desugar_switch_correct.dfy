// The switch desugaring keeps the meaning of every program it accepts, run for run.

module SwitchCorrectness {
  import opened Common
  import opened Ids
  import opened JavaScript
  import opened Walk
  import opened DesugarSwitch
  import opened LoopCorrectness

  // ----- Stores that differ only in the compiler's new variables -----

  ghost predicate Same(a: map<Id, Val>, b: map<Id, Val>, x: Id) {
    (x in a <==> x in b) && (x in a ==> a[x] == b[x])
  }

  // Equal as far as the source program can see, `n0` being the generator's table at the start.
  ghost predicate Agree<W>(a: Store<W>, b: Store<W>, n0: Names) {
    a.world == b.world && forall x :: Known(n0, x) ==> Same(a.temps, b.temps, x)
  }

  // From a to b only variables named between lo and hi, or known at the start, were written.
  ghost predicate Frame<W>(a: Store<W>, b: Store<W>, n0: Names, lo: Names, hi: Names) {
    forall x :: !Known(n0, x) && (Known(lo, x) || !Known(hi, x)) ==> Same(a.temps, b.temps, x)
  }

  lemma AllKnownGrow(before: Names, after: Names)
    requires Grows(before, after)
    ensures forall x :: Known(before, x) ==> Known(after, x)
  {
  }

  lemma FrameWidens<W>(a: Store<W>, b: Store<W>, n0: Names, lo: Names, hi: Names, lo0: Names, hi0: Names)
    requires Frame(a, b, n0, lo, hi) && Grows(lo0, lo) && Grows(hi, hi0)
    ensures Frame(a, b, n0, lo0, hi0)
  {
    AllKnownGrow(lo0, lo);
    AllKnownGrow(hi, hi0);
  }

  // ----- The programs -----

  // The expression neither reads nor writes variables the generator has yet to name.
  ghost predicate Unaware<W(!new)>(e: Expr<W>, n0: Names) {
    && (forall a: Store<W>, b: Store<W> {:trigger SameOutcome(Eval(e, a), Eval(e, b), n0)} | Agree(a, b, n0) ::
          SameOutcome(Eval(e, a), Eval(e, b), n0))
    && (forall a: Store<W>, x {:trigger Same(a.temps, Eval(e, a).st.temps, x)} | !Known(n0, x) :: Same(a.temps, Eval(e, a).st.temps, x))
  }

  ghost predicate SameOutcome<W>(a: EvalResult<W>, b: EvalResult<W>, n0: Names) {
    a.Ok? == b.Ok? && a.v == b.v && Agree(a.st, b.st, n0)
  }

  // Evaluating the expression changes nothing and never throws.
  ghost predicate Pure<W(!new)>(e: Expr<W>) {
    forall st: Store<W> :: Eval(e, st).Ok? && Eval(e, st).st == st
  }

  ghost predicate DeclsUnaware<W(!new)>(ds: seq<Decl<W>>, n0: Names) {
    forall d <- ds :: Unaware(d.named, n0) && Known(n0, d.name)
  }

  ghost predicate ExprsUnaware<W(!new)>(s: Stmt<W>, n0: Names) {
    match s
    case ExprStmt(e) => Unaware(e, n0)
    case VarDecl(ds) => DeclsUnaware(ds, n0)
    case If(e, _, _) => Unaware(e, n0)
    case Switch(e, cases, _) => Unaware(e, n0) && forall c <- cases :: Unaware(c.test, n0)
    case While(e, _) => Unaware(e, n0)
    case DoWhile(_, e) => Unaware(e, n0)
    case For(init, e, adv, _) =>
      Unaware(e, n0) && Unaware(adv, n0) && (if init.InitExpr? then Unaware(init.e, n0) else DeclsUnaware(init.decls, n0))
    case Return(e) => Unaware(e, n0)
    case Throw(e) => Unaware(e, n0)
    case _ => true
  }

  // Programs the pass is meant for.  The tests of a switch are evaluated again while falling
  // through, so all but the first (which nothing falls into) have to be pure.
  ghost predicate Ready<W(!new)>(s: Stmt<W>, seen: set<Id>, n0: Names) {
    && ExprsUnaware(s, n0)
    && (s.Label? ==> s.name !in seen)
    && (OwnLabel(s).Some? ==> Known(n0, OwnLabel(s).value))
    && (s.Switch? ==> forall i | 1 <= i < |s.cases| :: Pure(s.cases[i].test))
    && forall c <- Children(s) :: Ready(c, SeenInside(s, seen), n0)
  }

  lemma {:induction false} ReadyKnown<W(!new)>(s: Stmt<W>, seen: set<Id>, n0: Names)
    requires Ready(s, seen, n0)
    ensures LabelsKnown(s, n0)
    decreases s
  {
    forall c | c in Children(s)
      ensures LabelsKnown(c, n0)
    {
      ReadyKnown(c, SeenInside(s, seen), n0);
    }
  }

  lemma ChildReady<W(!new)>(s: Stmt<W>, i: nat, seen: set<Id>, n0: Names)
    requires Ready(s, seen, n0) && i < |Children(s)|
    ensures Ready(Children(s)[i], SeenInside(s, seen), n0)
  {
  }

  // ----- Simulation -----

  // A break out of the innermost switch names that switch's label in the output.
  ghost function JumpOut(c: Completion, loc: Loc, stack: seq<Id>): Completion {
    if c == Breaks(None) && InSwitchBlock(loc) && stack != [] then Breaks(Some(stack[|stack| - 1])) else c
  }

  // The translation has come from `from` to st1 while the source is at st.
  ghost predicate Linked<W>(st: Store<W>, st1: Store<W>, from: Store<W>, n0: Names, lo: Names, hi: Names) {
    Agree(st, st1, n0) && Frame(from, st1, n0, lo, hi)
  }

  // r is the run of the source, r1 the run of its translation starting at `from`.
  ghost predicate Simulates<W>(r: Result<W>, r1: Result<W>, loc: Loc, stack: seq<Id>, from: Store<W>, n0: Names, lo: Names, hi: Names) {
    && r.Done? == r1.Done?
    && (r.Done? ==> r1.c == JumpOut(r.c, loc, stack) && Linked(r.st, r1.st, from, n0, lo, hi))
  }

  lemma EvalSim<W(!new)>(e: Expr<W>, st: Store<W>, st1: Store<W>, from: Store<W>, n0: Names, lo: Names, hi: Names)
    requires Unaware(e, n0) && Linked(st, st1, from, n0, lo, hi)
    ensures Eval(e, st).Ok? == Eval(e, st1).Ok? && Eval(e, st).v == Eval(e, st1).v
    ensures Linked(Eval(e, st).st, Eval(e, st1).st, from, n0, lo, hi)
  {
    assert SameOutcome(Eval(e, st), Eval(e, st1), n0);
    assert forall x :: !Known(n0, x) ==> Same(st1.temps, Eval(e, st1).st.temps, x);
  }

  lemma {:induction false} DeclsSim<W(!new)>(ds: seq<Decl<W>>, st: Store<W>, st1: Store<W>, from: Store<W>, n0: Names, lo: Names, hi: Names,
                                             loc: Loc, stack: seq<Id>)
    requires DeclsUnaware(ds, n0) && Linked(st, st1, from, n0, lo, hi)
    ensures Simulates(ExecDecls(ds, st), ExecDecls(ds, st1), loc, stack, from, n0, lo, hi)
  {
    if ds != [] {
      var d := ds[0];
      EvalSim(d.named, st, st1, from, n0, lo, hi);
      var a := Eval(d.named, st);
      var b := Eval(d.named, st1);
      if a.Ok? {
        WriteSim(d.name, a.v, a.st, b.st, from, n0, lo, hi);
        DeclsSim(ds[1..], Write(a.st, d.name, a.v), Write(b.st, d.name, b.v), from, n0, lo, hi, loc, stack);
      }
    }
  }

  ghost function Write<W>(st: Store<W>, x: Id, v: Val): Store<W> {
    st.(temps := st.temps[x := v])
  }

  lemma WriteSim<W>(x: Id, v: Val, st: Store<W>, st1: Store<W>, from: Store<W>, n0: Names, lo: Names, hi: Names)
    requires Known(n0, x) && Linked(st, st1, from, n0, lo, hi)
    ensures Linked(Write(st, x, v), Write(st1, x, v), from, n0, lo, hi)
  {
  }

  lemma InitSim<W(!new)>(s: Stmt<W>, st: Store<W>, st1: Store<W>, from: Store<W>, n0: Names, lo: Names, hi: Names, loc: Loc, stack: seq<Id>)
    requires s.For? && ExprsUnaware(s, n0) && Linked(st, st1, from, n0, lo, hi)
    ensures Simulates(ExecInit(s.init, st), ExecInit(s.init, st1), loc, stack, from, n0, lo, hi)
    ensures var r := ExecInit(s.init, st); r.Done? && (r.c.Normal? || r.c.Throws?)
  {
    InitCompletes(s.init, st);
    if s.init.InitExpr? {
      EvalSim(s.init.e, st, st1, from, n0, lo, hi);
    } else {
      DeclsSim(s.init.decls, st, st1, from, n0, lo, hi, loc, stack);
    }
  }

  // What holds of the walk at every point: `stack` is the compiler's, the store agrees.
  ghost predicate At<W>(stack: seq<Id>, names: Names, n0: Names, st: Store<W>, st1: Store<W>) {
    Grows(n0, names) && (forall x <- stack :: !Known(n0, x)) && Agree(st, st1, n0)
  }

  lemma {:induction false} NamesGrow<W>(s: Stmt<W>, loc: Loc, stack: seq<Id>, names: Names)
    requires SwitchToIf(s, loc, stack, names).Some?
    ensures Grows(names, SwitchToIf(s, loc, stack, names).value.1)
    decreases s, 1
  {
    match s
    case Block(ss) => NamesGrowSeq(ss, Node(InBlock, loc), stack, names);
    case If(_, thn, els) =>
      NamesGrow(thn, Node(InStmt, loc), stack, names);
      NamesGrow(els, Node(InStmt, loc), stack, SwitchToIf(thn, Node(InStmt, loc), stack, names).value.1);
    case Label(_, body) => NamesGrow(body, Node(InStmt, loc), stack, names);
    case While(_, body) => NamesGrow(body, Node(InLoop, loc), stack, names);
    case DoWhile(body, _) => NamesGrow(body, Node(InLoop, loc), stack, names);
    case For(_, _, _, body) => NamesGrow(body, Node(InLoop, loc), stack, names);
    case Switch(_, _, _) => NamesGrowSwitch(s, loc, stack, names);
    case _ =>
  }

  lemma {:induction false} NamesGrowSwitch<W>(s: Stmt<W>, loc: Loc, stack: seq<Id>, names: Names)
    requires s.Switch? && SwitchToIf(s, loc, stack, names).Some?
    ensures Grows(names, SwitchToIf(s, loc, stack, names).value.1)
    decreases s, 0
  {
    var n1 := AfterFresh(names, "sw");
    var loc1 := Node(InSwitch, loc);
    var stack1 := stack + [FreshId(names, "sw")];
    NamesGrowCases(s.cases, loc1, stack1, n1);
    NamesGrow(s.default, loc1, stack1, SwitchToIfCases(s.cases, loc1, stack1, n1).value.1);
  }

  lemma {:induction false} NamesGrowSeq<W>(ss: seq<Stmt<W>>, loc: Loc, stack: seq<Id>, names: Names)
    requires SwitchToIfSeq(ss, loc, stack, names).Some?
    ensures Grows(names, SwitchToIfSeq(ss, loc, stack, names).value.1)
    decreases ss, 0
  {
    if ss != [] {
      NamesGrow(ss[0], loc, stack, names);
      NamesGrowSeq(ss[1..], loc, stack, SwitchToIf(ss[0], loc, stack, names).value.1);
    }
  }

  lemma {:induction false} NamesGrowCases<W>(cases: seq<Case<W>>, loc: Loc, stack: seq<Id>, names: Names)
    requires SwitchToIfCases(cases, loc, stack, names).Some?
    ensures Grows(names, SwitchToIfCases(cases, loc, stack, names).value.1)
    decreases cases, 0
  {
    if cases != [] {
      CaseBodySmaller(cases, 0);
      NamesGrow(cases[0].body, loc, stack, names);
      NamesGrowCases(cases[1..], loc, stack, SwitchToIf(cases[0].body, loc, stack, names).value.1);
    }
  }

  // ----- Loops -----

  ghost predicate RoundSimulates<W>(end: RoundEnd<W>, end1: RoundEnd<W>, loc: Loc, stack: seq<Id>, from: Store<W>, n0: Names, lo: Names, hi: Names) {
    && end.Stop? == end1.Stop?
    && (end.Stop? ==> Simulates(end.r, end1.r, loc, stack, from, n0, lo, hi))
    && (end.Again? ==> Linked(end.st, end1.st, from, n0, lo, hi))
  }

  lemma EndRoundSim<W(!new)>(r: Result<W>, r1: Result<W>, adv: Expr<W>, post: Expr<W>, labels: set<Id>, skip: bool, loc: Loc, stack: seq<Id>,
                             from: Store<W>, n0: Names, lo: Names, hi: Names)
    requires Unaware(adv, n0) && Unaware(post, n0)
    requires Simulates(r, r1, Node(InLoop, loc), stack, from, n0, lo, hi)
    ensures RoundSimulates(EndRound(r, adv, post, labels, skip), EndRound(r1, adv, post, labels, skip), loc, stack, from, n0, lo, hi)
  {
    if r.Done? && r.c != Breaks(None) && GoesOn(r.c, labels) {
      EvalSim(adv, r.st, r1.st, from, n0, lo, hi);
      EvalSim(post, Eval(adv, r.st).st, Eval(adv, r1.st).st, from, n0, lo, hi);
    }
  }

  lemma TrueUnaware<W(!new)>(n0: Names)
    ensures Unaware<W>(True(), n0)
  {
  }

  // A run that starts at `mid`, seen from the earlier state `from`.
  lemma SimulatesFrom<W>(r: Result<W>, r1: Result<W>, loc: Loc, loc1: Loc, stack: seq<Id>, from: Store<W>, mid: Store<W>,
                         n0: Names, lo: Names, hi: Names, lo1: Names, hi1: Names)
    requires Frame(from, mid, n0, lo, hi) && Simulates(r, r1, loc1, stack, mid, n0, lo1, hi1)
    requires Grows(lo, lo1) && Grows(hi1, hi) && InSwitchBlock(loc1) == InSwitchBlock(loc)
    ensures Simulates(r, r1, loc, stack, from, n0, lo, hi)
  {
    if r.Done? { FrameWidens(mid, r1.st, n0, lo1, hi1, lo, hi); }
  }

  ghost function Output<W>(s: Stmt<W>, loc: Loc, stack: seq<Id>, names: Names): Stmt<W>
    requires SwitchToIf(s, loc, stack, names).Some?
  {
    SwitchToIf(s, loc, stack, names).value.0
  }

  ghost function After<W>(s: Stmt<W>, loc: Loc, stack: seq<Id>, names: Names): Names
    requires SwitchToIf(s, loc, stack, names).Some?
  {
    SwitchToIf(s, loc, stack, names).value.1
  }

  // Every statement of the source and its translation run in step.
  lemma {:induction false} SwitchSim<W(!new)>(s: Stmt<W>, seen: set<Id>, loc: Loc, stack: seq<Id>, names: Names, n0: Names,
                                              labels: set<Id>, st: Store<W>, st1: Store<W>, fuel: nat, skip: bool)
    requires SwitchToIf(s, loc, stack, names).Some?
    requires Ready(s, seen, n0) && At(stack, names, n0, st, st1)
    ensures Simulates(Exec(s, labels, st, fuel, skip), Exec(Output(s, loc, stack, names), labels, st1, fuel, skip),
                      loc, stack, st1, n0, names, After(s, loc, stack, names))
    decreases fuel, s, 3
  {
    if IsLoop(s) {
      LoopSim(s, seen, loc, stack, names, n0, labels, st, st1, fuel, skip);
    } else if s.Block? {
      BlockSim(s, seen, loc, stack, names, n0, labels, st, st1, fuel, skip);
    } else if s.If? {
      BranchSim(s, seen, loc, stack, names, n0, labels, st, st1, fuel, skip);
    } else if s.Label? {
      LabelledSim(s, seen, loc, stack, names, n0, labels, st, st1, fuel, skip);
    } else if s.Switch? {
      SwitchStmtSim(Site(s, seen, loc, stack, names, n0), labels, st, st1, fuel, skip);
    } else {
      LeafSim(s, loc, stack, names, n0, labels, st, st1, fuel, skip);
    }
  }

  lemma {:induction false} BlockSim<W(!new)>(s: Stmt<W>, seen: set<Id>, loc: Loc, stack: seq<Id>, names: Names, n0: Names,
                                             labels: set<Id>, st: Store<W>, st1: Store<W>, fuel: nat, skip: bool)
    requires s.Block? && SwitchToIf(s, loc, stack, names).Some?
    requires Ready(s, seen, n0) && At(stack, names, n0, st, st1)
    ensures Simulates(Exec(s, labels, st, fuel, skip), Exec(Output(s, loc, stack, names), labels, st1, fuel, skip),
                      loc, stack, st1, n0, names, After(s, loc, stack, names))
    decreases fuel, s, 2
  {
    assert SeenInside(s, seen) == seen;
    SeqSim(s.stmts, seen, Node(InBlock, loc), stack, names, n0, st, st1, fuel, skip);
  }

  lemma LeafSim<W(!new)>(s: Stmt<W>, loc: Loc, stack: seq<Id>, names: Names, n0: Names, labels: set<Id>,
                         st: Store<W>, st1: Store<W>, fuel: nat, skip: bool)
    requires Children(s) == [] && SwitchToIf(s, loc, stack, names).Some? && !s.Block?
    requires ExprsUnaware(s, n0) && Agree(st, st1, n0)
    ensures Simulates(Exec(s, labels, st, fuel, skip), Exec(Output(s, loc, stack, names), labels, st1, fuel, skip),
                      loc, stack, st1, n0, names, After(s, loc, stack, names))
  {
    LeafOutput(s, loc, stack, names);
    match s
    case ExprStmt(e) => EvalSim(e, st, st1, st1, n0, names, names);
    case VarDecl(ds) => DeclsSim(ds, st, st1, st1, n0, names, names, loc, stack);
    case Return(e) => EvalSim(e, st, st1, st1, n0, names, names);
    case Throw(e) => EvalSim(e, st, st1, st1, n0, names, names);
    case _ =>
  }

  lemma LeafOutput<W(!new)>(s: Stmt<W>, loc: Loc, stack: seq<Id>, names: Names)
    requires Children(s) == [] && SwitchToIf(s, loc, stack, names).Some? && !s.Block?
    ensures After(s, loc, stack, names) == names && (!s.Break? ==> Output(s, loc, stack, names) == s)
  {
  }

  lemma {:induction false} LabelledSim<W(!new)>(s: Stmt<W>, seen: set<Id>, loc: Loc, stack: seq<Id>, names: Names, n0: Names,
                                                labels: set<Id>, st: Store<W>, st1: Store<W>, fuel: nat, skip: bool)
    requires s.Label? && SwitchToIf(s, loc, stack, names).Some?
    requires Ready(s, seen, n0) && At(stack, names, n0, st, st1)
    ensures Simulates(Exec(s, labels, st, fuel, skip), Exec(Output(s, loc, stack, names), labels, st1, fuel, skip),
                      loc, stack, st1, n0, names, After(s, loc, stack, names))
    decreases fuel, s, 2
  {
    ChildReady(s, 0, seen, n0);
    SwitchSim(s.body, seen + {s.name}, Node(InStmt, loc), stack, names, n0, labels + {s.name}, st, st1, fuel, skip);
  }

  lemma {:induction false} BranchSim<W(!new)>(s: Stmt<W>, seen: set<Id>, loc: Loc, stack: seq<Id>, names: Names, n0: Names,
                                              labels: set<Id>, st: Store<W>, st1: Store<W>, fuel: nat, skip: bool)
    requires s.If? && SwitchToIf(s, loc, stack, names).Some?
    requires Ready(s, seen, n0) && At(stack, names, n0, st, st1)
    ensures Simulates(Exec(s, labels, st, fuel, skip), Exec(Output(s, loc, stack, names), labels, st1, fuel, skip),
                      loc, stack, st1, n0, names, After(s, loc, stack, names))
    decreases fuel, s, 2
  {
    var loc1 := Node(InStmt, loc);
    var n1 := After(s.thn, loc1, stack, names);
    var n2 := After(s.els, loc1, stack, n1);
    NamesGrow(s.thn, loc1, stack, names);
    NamesGrow(s.els, loc1, stack, n1);
    ChildReady(s, 0, seen, n0);
    ChildReady(s, 1, seen, n0);
    EvalSim(s.cond, st, st1, st1, n0, names, n2);
    var a := Eval(s.cond, st);
    var b := Eval(s.cond, st1);
    SwitchSim(s.thn, seen, loc1, stack, names, n0, {}, a.st, b.st, fuel, skip);
    SwitchSim(s.els, seen, loc1, stack, n1, n0, {}, a.st, b.st, fuel, skip);
    SimulatesFrom(Exec(s.thn, {}, a.st, fuel, skip), Exec(Output(s.thn, loc1, stack, names), {}, b.st, fuel, skip),
                  loc, loc1, stack, st1, b.st, n0, names, n2, names, n1);
    SimulatesFrom(Exec(s.els, {}, a.st, fuel, skip), Exec(Output(s.els, loc1, stack, n1), {}, b.st, fuel, skip),
                  loc, loc1, stack, st1, b.st, n0, names, n2, n1, n2);
  }

  lemma {:induction false} SeqSim<W(!new)>(ss: seq<Stmt<W>>, seen: set<Id>, loc: Loc, stack: seq<Id>, names: Names, n0: Names,
                                           st: Store<W>, st1: Store<W>, fuel: nat, skip: bool)
    requires SwitchToIfSeq(ss, loc, stack, names).Some?
    requires (forall s <- ss :: Ready(s, seen, n0)) && At(stack, names, n0, st, st1)
    ensures var (ts, hi) := SwitchToIfSeq(ss, loc, stack, names).value;
            Simulates(ExecSeq(ss, st, fuel, skip), ExecSeq(ts, st1, fuel, skip), loc, stack, st1, n0, names, hi)
    decreases fuel, ss, 0
  {
    if ss != [] {
      var (ts, hi) := SwitchToIfSeq(ss, loc, stack, names).value;
      var n1 := After(ss[0], loc, stack, names);
      NamesGrow(ss[0], loc, stack, names);
      NamesGrowSeq(ss[1..], loc, stack, n1);
      SwitchSim(ss[0], seen, loc, stack, names, n0, {}, st, st1, fuel, skip);
      var r := Exec(ss[0], {}, st, fuel, skip);
      var r1 := Exec(ts[0], {}, st1, fuel, skip);
      assert ts[1..] == SwitchToIfSeq(ss[1..], loc, stack, n1).value.0;
      SimulatesFrom(r, r1, loc, loc, stack, st1, st1, n0, names, hi, names, n1);
      if r.Done? {
        SeqSim(ss[1..], seen, loc, stack, n1, n0, r.st, r1.st, fuel, skip);
        SimulatesFrom(ExecSeq(ss[1..], r.st, fuel, skip), ExecSeq(ts[1..], r1.st, fuel, skip), loc, loc, stack, st1, r1.st,
                      n0, names, hi, n1, hi);
      }
    }
  }

  lemma {:induction false} LoopSim<W(!new)>(s: Stmt<W>, seen: set<Id>, loc: Loc, stack: seq<Id>, names: Names, n0: Names,
                                            labels: set<Id>, st: Store<W>, st1: Store<W>, fuel: nat, skip: bool)
    requires IsLoop(s) && SwitchToIf(s, loc, stack, names).Some?
    requires Ready(s, seen, n0) && At(stack, names, n0, st, st1)
    ensures Simulates(Exec(s, labels, st, fuel, skip), Exec(Output(s, loc, stack, names), labels, st1, fuel, skip),
                      loc, stack, st1, n0, names, After(s, loc, stack, names))
    decreases fuel, s, 2
  {
    var s1 := Output(s, loc, stack, names);
    var hi := After(s, loc, stack, names);
    assert s.body == Children(s)[0] && SeenInside(s, seen) == seen;
    LoopInParts(s, labels, st, fuel, skip);
    LoopInParts(s1, labels, st1, fuel, skip);
    TrueUnaware<W>(n0);
    if s.For? { InitSim(s, st, st1, st1, n0, names, hi, loc, stack); }
    IterSim(PreTest(s), s.body, Advance(s), PostTest(s), seen, loc, stack, names, n0, labels, Start(s, st).st, Start(s1, st1).st, st1, fuel, skip);
  }

  lemma {:induction false} IterSim<W(!new)>(pre: Expr<W>, body: Stmt<W>, adv: Expr<W>, post: Expr<W>, seen: set<Id>, loc: Loc, stack: seq<Id>,
                                            names: Names, n0: Names, labels: set<Id>, st: Store<W>, st1: Store<W>, from: Store<W>,
                                            fuel: nat, skip: bool)
    requires SwitchToIf(body, Node(InLoop, loc), stack, names).Some?
    requires Unaware(pre, n0) && Unaware(adv, n0) && Unaware(post, n0)
    requires Ready(body, seen, n0) && At(stack, names, n0, st, st1)
    requires Linked(st, st1, from, n0, names, After(body, Node(InLoop, loc), stack, names))
    ensures Simulates(ExecLoop(pre, body, adv, post, labels, st, fuel, skip),
                      ExecLoop(pre, Output(body, Node(InLoop, loc), stack, names), adv, post, labels, st1, fuel, skip),
                      loc, stack, from, n0, names, After(body, Node(InLoop, loc), stack, names))
    decreases fuel, body, 5
  {
    if fuel != 0 {
      var t := Output(body, Node(InLoop, loc), stack, names);
      RoundSim(pre, body, adv, post, seen, loc, stack, names, n0, labels, st, st1, from, fuel, skip);
      var end := Round(pre, body, adv, post, labels, st, fuel, skip);
      var end1 := Round(pre, t, adv, post, labels, st1, fuel, skip);
      if end.Again? {
        IterSim(pre, body, adv, post, seen, loc, stack, names, n0, labels, end.st, end1.st, from, fuel - 1, skip);
      }
    }
  }

  lemma {:induction false} RoundSim<W(!new)>(pre: Expr<W>, body: Stmt<W>, adv: Expr<W>, post: Expr<W>, seen: set<Id>, loc: Loc, stack: seq<Id>,
                                             names: Names, n0: Names, labels: set<Id>, st: Store<W>, st1: Store<W>, from: Store<W>,
                                             fuel: nat, skip: bool)
    requires SwitchToIf(body, Node(InLoop, loc), stack, names).Some?
    requires Unaware(pre, n0) && Unaware(adv, n0) && Unaware(post, n0)
    requires Ready(body, seen, n0) && At(stack, names, n0, st, st1)
    requires Linked(st, st1, from, n0, names, After(body, Node(InLoop, loc), stack, names))
    ensures RoundSimulates(Round(pre, body, adv, post, labels, st, fuel, skip),
                           Round(pre, Output(body, Node(InLoop, loc), stack, names), adv, post, labels, st1, fuel, skip),
                           loc, stack, from, n0, names, After(body, Node(InLoop, loc), stack, names))
    decreases fuel, body, 4
  {
    EvalSim(pre, st, st1, from, n0, names, After(body, Node(InLoop, loc), stack, names));
    SwitchSim(body, seen, Node(InLoop, loc), stack, names, n0, {}, Eval(pre, st).st, Eval(pre, st1).st, fuel, skip);
    RoundFromBody(pre, body, Output(body, Node(InLoop, loc), stack, names), adv, post, labels, loc, stack, st, st1, from,
                  n0, names, After(body, Node(InLoop, loc), stack, names), fuel, skip);
  }

  lemma RoundFromBody<W(!new)>(pre: Expr<W>, body: Stmt<W>, t: Stmt<W>, adv: Expr<W>, post: Expr<W>, labels: set<Id>, loc: Loc, stack: seq<Id>,
                               st: Store<W>, st1: Store<W>, from: Store<W>, n0: Names, lo: Names, hi: Names, fuel: nat, skip: bool)
    requires Unaware(pre, n0) && Unaware(adv, n0) && Unaware(post, n0) && Linked(st, st1, from, n0, lo, hi)
    requires Simulates(Exec(body, {}, Eval(pre, st).st, fuel, skip), Exec(t, {}, Eval(pre, st1).st, fuel, skip),
                       Node(InLoop, loc), stack, Eval(pre, st1).st, n0, lo, hi)
    ensures RoundSimulates(Round(pre, body, adv, post, labels, st, fuel, skip), Round(pre, t, adv, post, labels, st1, fuel, skip),
                           loc, stack, from, n0, lo, hi)
  {
    EvalSim(pre, st, st1, from, n0, lo, hi);
    var r := Exec(body, {}, Eval(pre, st).st, fuel, skip);
    var r1 := Exec(t, {}, Eval(pre, st1).st, fuel, skip);
    SimulatesFrom(r, r1, Node(InLoop, loc), Node(InLoop, loc), stack, from, Eval(pre, st1).st, n0, lo, hi, lo, hi);
    RoundUnfolds(pre, body, adv, post, labels, st, fuel, skip);
    RoundUnfolds(pre, t, adv, post, labels, st1, fuel, skip);
    AfterTestSim(Eval(pre, st), Eval(pre, st1), r, r1, adv, post, labels, skip, loc, stack, from, n0, lo, hi);
  }

  // A round whose test has been evaluated and whose body would end with r.
  ghost function AfterTest<W>(o: EvalResult<W>, r: Result<W>, adv: Expr<W>, post: Expr<W>, labels: set<Id>, skip: bool): RoundEnd<W> {
    if o.Thrown? then Stop(Done(Throws(o.v), o.st))
    else if !Truthy(o.v) then Stop(Done(Normal, o.st))
    else EndRound(r, adv, post, labels, skip)
  }

  lemma RoundUnfolds<W>(pre: Expr<W>, body: Stmt<W>, adv: Expr<W>, post: Expr<W>, labels: set<Id>, st: Store<W>, fuel: nat, skip: bool)
    ensures Round(pre, body, adv, post, labels, st, fuel, skip) ==
            AfterTest(Eval(pre, st), Exec(body, {}, Eval(pre, st).st, fuel, skip), adv, post, labels, skip)
  {
  }

  lemma AfterTestSim<W(!new)>(o: EvalResult<W>, o1: EvalResult<W>, r: Result<W>, r1: Result<W>, adv: Expr<W>, post: Expr<W>, labels: set<Id>,
                              skip: bool, loc: Loc, stack: seq<Id>, from: Store<W>, n0: Names, lo: Names, hi: Names)
    requires Unaware(adv, n0) && Unaware(post, n0)
    requires o.Ok? == o1.Ok? && o.v == o1.v && Linked(o.st, o1.st, from, n0, lo, hi)
    requires Simulates(r, r1, Node(InLoop, loc), stack, from, n0, lo, hi)
    ensures RoundSimulates(AfterTest(o, r, adv, post, labels, skip), AfterTest(o1, r1, adv, post, labels, skip), loc, stack, from, n0, lo, hi)
  {
    if o.Ok? && Truthy(o.v) { EndRoundSim(r, r1, adv, post, labels, skip, loc, stack, from, n0, lo, hi); }
  }

  // ----- The switch itself -----

  // A switch statement where the walk meets it, and the parts of its translation.
  datatype Site<!W(!new)> = Site(s: Stmt<W>, seen: set<Id>, loc: Loc, stack: seq<Id>, names: Names, n0: Names) {
    ghost predicate Valid() {
      && s.Switch? && SwitchToIf(s, loc, stack, names).Some?
      && Ready(s, seen, n0) && Grows(n0, names) && forall x <- stack :: !Known(n0, x)
    }

    ghost function Name(): Id { FreshId(names, "sw") }
    ghost function N1(): Names { AfterFresh(names, "sw") }
    ghost function Inside(): Loc { Node(InSwitch, loc) }
    ghost function Stack(): seq<Id> { stack + [Name()] }

    ghost function Cases(): seq<Case<W>>
      requires Valid()
    {
      SwitchToIfCases(s.cases, Inside(), Stack(), N1()).value.0
    }

    ghost function N2(): Names
      requires Valid()
    {
      SwitchToIfCases(s.cases, Inside(), Stack(), N1()).value.1
    }

    ghost function N3(): Names
      requires Valid()
    {
      After(s.default, Inside(), Stack(), N2())
    }

    ghost function Default(): seq<Stmt<W>>
      requires Valid()
    {
      DefaultStmts(Output(s.default, Inside(), Stack(), N2())).value
    }

    ghost function Test(): Id
      requires Valid()
    {
      FreshId(N3(), "test")
    }

    ghost function Fall(): Id
      requires Valid()
    {
      FreshId(AfterFresh(N3(), "test"), "fallthrough")
    }

    ghost function Hi(): Names
      requires Valid()
    {
      AfterFresh(AfterFresh(N3(), "test"), "fallthrough")
    }

    // What is left to run of the translation before case i.
    ghost function Rest(i: nat): seq<Stmt<W>>
      requires Valid() && i <= |s.cases|
    {
      CasesToIfs(Test(), Fall(), Cases())[i..] + Default()
    }

    // In front of case i: `fell` says whether an earlier case has been taken.
    ghost predicate Before(st: Store<W>, st1: Store<W>, from: Store<W>, v: Val, fell: bool)
      requires Valid()
    {
      && Linked(st, st1, from, n0, names, Hi())
      && Test() in st1.temps && st1.temps[Test()] == v
      && Fall() in st1.temps && st1.temps[Fall()] == Bool(fell)
    }
  }

  lemma SiteNames<W(!new)>(p: Site<W>)
    requires p.Valid()
    ensures Output(p.s, p.loc, p.stack, p.names) == SwitchToBlock(p.Name(), p.Test(), p.Fall(), p.s.subject, p.Cases(), p.Default())
    ensures After(p.s, p.loc, p.stack, p.names) == p.Hi()
    ensures Grows(p.names, p.N1()) && Grows(p.N1(), p.N2()) && Grows(p.N2(), p.N3()) && Grows(p.N3(), p.Hi())
  {
    NamesGrowCases(p.s.cases, p.Inside(), p.Stack(), p.N1());
    NamesGrow(p.s.default, p.Inside(), p.Stack(), p.N2());
  }

  // The two variables are out of sight of the source and of the translated clauses.
  lemma SiteVariables<W(!new)>(p: Site<W>)
    requires p.Valid()
    ensures p.Test() != p.Fall()
    ensures !Known(p.N3(), p.Test()) && !Known(p.N3(), p.Fall()) && !Known(p.n0, p.Test()) && !Known(p.n0, p.Fall())
    ensures !Known(p.names, p.Test()) && !Known(p.names, p.Fall()) && Known(p.Hi(), p.Test()) && Known(p.Hi(), p.Fall())
    ensures forall x <- p.Stack() :: !Known(p.n0, x)
  {
    SiteNames(p);
    FreshIsNew(p.N3(), "test");
    FreshIsNew(AfterFresh(p.N3(), "test"), "fallthrough");
    FreshIsNew(p.names, "sw");
    AllKnownGrow(p.n0, p.names);
    AllKnownGrow(p.names, p.N1());
    AllKnownGrow(p.N1(), p.N2());
    AllKnownGrow(p.N2(), p.N3());
    AllKnownGrow(p.N3(), AfterFresh(p.N3(), "test"));
    AllKnownGrow(AfterFresh(p.N3(), "test"), p.Hi());
  }

  // The generator's table where the walk meets case i.
  lemma {:induction false} CaseNames<W>(cases: seq<Case<W>>, i: nat, loc: Loc, stack: seq<Id>, names: Names) returns (m: Names)
    requires SwitchToIfCases(cases, loc, stack, names).Some? && i < |cases|
    ensures var (ts, hi) := SwitchToIfCases(cases, loc, stack, names).value;
            && SwitchToIf(cases[i].body, loc, stack, m).Some? && Output(cases[i].body, loc, stack, m) == ts[i].body
            && Grows(names, m) && Grows(After(cases[i].body, loc, stack, m), hi)
  {
    var n1 := After(cases[0].body, loc, stack, names);
    NamesGrow(cases[0].body, loc, stack, names);
    NamesGrowCases(cases[1..], loc, stack, n1);
    if i == 0 {
      m := names;
    } else {
      m := CaseNames(cases[1..], i - 1, loc, stack, n1);
    }
  }

  // A case body, run where its turn comes.
  lemma {:induction false} CaseBodySim<W(!new)>(p: Site<W>, i: nat, st: Store<W>, st1: Store<W>, from: Store<W>, fuel: nat, skip: bool)
    requires p.Valid() && i < |p.s.cases| && Linked(st, st1, from, p.n0, p.names, p.Hi())
    ensures Simulates(Exec(p.s.cases[i].body, {}, st, fuel, skip), Exec(p.Cases()[i].body, {}, st1, fuel, skip),
                      p.Inside(), p.Stack(), from, p.n0, p.names, p.Hi())
    ensures var r1 := Exec(p.Cases()[i].body, {}, st1, fuel, skip); r1.Done? ==> Frame(st1, r1.st, p.n0, p.names, p.N3())
    decreases fuel, p.s, 0
  {
    SiteNames(p);
    SiteVariables(p);
    assert Children(p.s)[i] == p.s.cases[i].body && SeenInside(p.s, p.seen) == p.seen;
    ChildReady(p.s, i, p.seen, p.n0);
    var m := CaseNames(p.s.cases, i, p.Inside(), p.Stack(), p.N1());
    var m1 := After(p.s.cases[i].body, p.Inside(), p.Stack(), m);
    SwitchSim(p.s.cases[i].body, p.seen, p.Inside(), p.Stack(), m, p.n0, {}, st, st1, fuel, skip);
    var r := Exec(p.s.cases[i].body, {}, st, fuel, skip);
    var r1 := Exec(p.Cases()[i].body, {}, st1, fuel, skip);
    SimulatesFrom(r, r1, p.Inside(), p.Inside(), p.Stack(), st1, st1, p.n0, p.names, p.N3(), m, m1);
    SimulatesFrom(r, r1, p.Inside(), p.Inside(), p.Stack(), from, st1, p.n0, p.names, p.Hi(), p.names, p.N3());
  }

  // The default clause, once every case has been passed.
  lemma {:induction false} DefaultSim<W(!new)>(p: Site<W>, st: Store<W>, st1: Store<W>, from: Store<W>, fuel: nat, skip: bool)
    requires p.Valid() && Linked(st, st1, from, p.n0, p.names, p.Hi())
    ensures Simulates(Exec(p.s.default, {}, st, fuel, skip), ExecSeq(p.Default(), st1, fuel, skip),
                      p.Inside(), p.Stack(), from, p.n0, p.names, p.Hi())
    decreases fuel, p.s, 0
  {
    SiteNames(p);
    SiteVariables(p);
    var k := |p.s.cases|;
    assert Children(p.s)[k] == p.s.default && SeenInside(p.s, p.seen) == p.seen;
    ChildReady(p.s, k, p.seen, p.n0);
    var t := Output(p.s.default, p.Inside(), p.Stack(), p.N2());
    SwitchSim(p.s.default, p.seen, p.Inside(), p.Stack(), p.N2(), p.n0, {}, st, st1, fuel, skip);
    assert Exec(t, {}, st1, fuel, skip) == ExecSeq(p.Default(), st1, fuel, skip);
    SimulatesFrom(Exec(p.s.default, {}, st, fuel, skip), Exec(t, {}, st1, fuel, skip), p.Inside(), p.Inside(), p.Stack(), from, st1,
                  p.n0, p.names, p.Hi(), p.N2(), p.N3());
  }

  // The guard of a translated case.
  ghost function GuardOf<W(!new)>(p: Site<W>, i: nat): Expr<W>
    requires p.Valid() && i < |p.s.cases|
  {
    LogicalOr(StrictEqual(Temp(p.Test()), p.s.cases[i].test), Temp(p.Fall()))
  }

  lemma GuardEval<W(!new)>(p: Site<W>, i: nat, st: Store<W>, st1: Store<W>, from: Store<W>, v: Val, fell: bool)
    requires p.Valid() && i < |p.s.cases| && p.Before(st, st1, from, v, fell)
    ensures var a := Eval(p.s.cases[i].test, st);
            var g := Eval(GuardOf(p, i), st1);
            && a.Ok? == g.Ok?
            && p.Before(a.st, g.st, from, v, fell)
            && (a.Ok? ==> (Truthy(g.v) <==> StrictEquals(v, a.v) || fell))
            && (a.Thrown? ==> g.v == a.v)
  {
    SiteVariables(p);
    var e := p.s.cases[i].test;
    UntouchedSim(e, p.Test(), p.Fall(), st, st1, from, p.n0, p.names, p.Hi());
    GuardValue(p.Test(), p.Fall(), e, st1);
  }

  lemma UntouchedSim<W(!new)>(e: Expr<W>, x: Id, y: Id, st: Store<W>, st1: Store<W>, from: Store<W>, n0: Names, lo: Names, hi: Names)
    requires Unaware(e, n0) && Linked(st, st1, from, n0, lo, hi) && !Known(n0, x) && !Known(n0, y)
    ensures Eval(e, st).Ok? == Eval(e, st1).Ok? && Eval(e, st).v == Eval(e, st1).v
    ensures Linked(Eval(e, st).st, Eval(e, st1).st, from, n0, lo, hi)
    ensures Same(st1.temps, Eval(e, st1).st.temps, x) && Same(st1.temps, Eval(e, st1).st.temps, y)
  {
    EvalSim(e, st, st1, from, n0, lo, hi);
  }

  lemma GuardValue<W>(test: Id, fall: Id, e: Expr<W>, st: Store<W>)
    requires test in st.temps && fall in Eval(e, st).st.temps
    ensures var a := Eval(e, st);
            Eval(LogicalOr(StrictEqual(Temp(test), e), Temp(fall)), st) ==
            if a.Thrown? then a
            else if StrictEquals(st.temps[test], a.v) then Ok(Bool(true), a.st)
            else Ok(a.st.temps[fall], a.st)
  {
    var a := Eval(e, st);
    var equal := StrictEqual(Temp(test), e);
    assert Eval(Temp<W>(test), st) == Ok(st.temps[test], st);
    assert Eval(equal, st) == if a.Thrown? then a else Ok(Bool(StrictEquals(st.temps[test], a.v)), a.st);
    assert Eval(Temp<W>(fall), a.st) == Ok(a.st.temps[fall], a.st);
  }

  // The body of case i and everything after it, in the translation.
  ghost function RunTaken<W(!new)>(p: Site<W>, i: nat, st1: Store<W>, fuel: nat, skip: bool): Result<W>
    requires p.Valid() && i < |p.s.cases|
  {
    var r := Exec(p.Cases()[i].body, {}, st1, fuel, skip);
    if r.Done? && r.c == Normal then ExecSeq(p.Rest(i + 1), Write(r.st, p.Fall(), Bool(true)), fuel, skip) else r
  }

  lemma RestIs<W(!new)>(p: Site<W>, i: nat)
    requires p.Valid() && i < |p.s.cases|
    ensures p.Rest(i) == [CaseToIf(p.Test(), p.Fall(), p.Cases()[i])] + p.Rest(i + 1)
  {
    OneOff(CasesToIfs(p.Test(), p.Fall(), p.Cases()), i, p.Default());
  }

  lemma OneOff<T>(s: seq<T>, i: nat, more: seq<T>)
    requires i < |s|
    ensures s[i..] + more == [s[i]] + (s[i + 1..] + more)
  {
  }

  lemma RestUnfolds<W(!new)>(p: Site<W>, i: nat, st1: Store<W>, fuel: nat, skip: bool)
    requires p.Valid() && i < |p.s.cases|
    ensures var g := Eval(GuardOf(p, i), st1);
            ExecSeq(p.Rest(i), st1, fuel, skip) ==
            if g.Thrown? then Done(Throws(g.v), g.st)
            else if Truthy(g.v) then RunTaken(p, i, g.st, fuel, skip)
            else ExecSeq(p.Rest(i + 1), g.st, fuel, skip)
  {
    RestIs(p, i);
    CaseRuns(p.Test(), p.Fall(), p.Cases()[i], p.Rest(i + 1), st1, fuel, skip);
  }

  lemma CaseRuns<W>(test: Id, fall: Id, c: Case<W>, rest: seq<Stmt<W>>, st: Store<W>, fuel: nat, skip: bool)
    ensures var g := Eval(LogicalOr(StrictEqual(Temp(test), c.test), Temp(fall)), st);
            ExecSeq([CaseToIf(test, fall, c)] + rest, st, fuel, skip) ==
            if g.Thrown? then Done(Throws(g.v), g.st)
            else if !Truthy(g.v) then ExecSeq(rest, g.st, fuel, skip)
            else var r := Exec(c.body, {}, g.st, fuel, skip);
                 if r.Done? && r.c == Normal then ExecSeq(rest, Write(r.st, fall, Bool(true)), fuel, skip) else r
  {
    var guarded := CaseToIf(test, fall, c);
    assert ([guarded] + rest)[1..] == rest;
    var g := Eval(LogicalOr(StrictEqual(Temp(test), c.test), Temp(fall)), st);
    if g.Ok? {
      TakenRuns(c.body, fall, g.st, fuel, skip);
      assert guarded.els == Empty && Exec(guarded.els, {}, g.st, fuel, skip) == Done(Normal, g.st);
    }
  }

  lemma TakenRuns<W>(body: Stmt<W>, fall: Id, st: Store<W>, fuel: nat, skip: bool)
    ensures Exec(Block([body, ExprStmt(AssignTemp(fall, True()))]), {}, st, fuel, skip) ==
            var r := Exec(body, {}, st, fuel, skip);
            if r.Done? && r.c == Normal then Done(Normal, Write(r.st, fall, Bool(true))) else r
  {
    var mark: Stmt<W> := ExprStmt(AssignTemp(fall, True()));
    ExecPair(body, mark, st, fuel, skip);
    var r := Exec(body, {}, st, fuel, skip);
    if r.Done? { assert Exec(mark, {}, r.st, fuel, skip) == Done(Normal, Write(r.st, fall, Bool(true))); }
  }

  lemma {:induction false} TakenSim<W(!new)>(p: Site<W>, i: nat, st: Store<W>, st1: Store<W>, from: Store<W>, v: Val, fell: bool,
                                             fuel: nat, skip: bool)
    requires p.Valid() && i < |p.s.cases| && p.Before(st, st1, from, v, fell)
    ensures Simulates(ExecFrom(p.s, i, st, fuel, skip), RunTaken(p, i, st1, fuel, skip), p.Inside(), p.Stack(), from, p.n0, p.names, p.Hi())
    decreases fuel, p.s, 1, 2 * (|p.s.cases| - i)
  {
    CaseBodySim(p, i, st, st1, from, fuel, skip);
    var r := Exec(p.s.cases[i].body, {}, st, fuel, skip);
    var r1 := Exec(p.Cases()[i].body, {}, st1, fuel, skip);
    if r.Done? && r.c == Normal {
      MarkFallen(p, r.st, st1, r1.st, from, v);
      FallSim(p, i + 1, r.st, Write(r1.st, p.Fall(), Bool(true)), from, v, fuel, skip);
    }
  }

  lemma MarkFallen<W(!new)>(p: Site<W>, st: Store<W>, st1: Store<W>, st2: Store<W>, from: Store<W>, v: Val)
    requires p.Valid() && Linked(st, st2, from, p.n0, p.names, p.Hi()) && Frame(st1, st2, p.n0, p.names, p.N3())
    requires p.Test() in st1.temps && st1.temps[p.Test()] == v
    ensures p.Before(st, Write(st2, p.Fall(), Bool(true)), from, v, true)
  {
    SiteVariables(p);
    assert Same(st1.temps, st2.temps, p.Test());
  }

  lemma {:induction false} FallSim<W(!new)>(p: Site<W>, i: nat, st: Store<W>, st1: Store<W>, from: Store<W>, v: Val, fuel: nat, skip: bool)
    requires p.Valid() && 1 <= i <= |p.s.cases| && p.Before(st, st1, from, v, true)
    ensures Simulates(ExecFrom(p.s, i, st, fuel, skip), ExecSeq(p.Rest(i), st1, fuel, skip), p.Inside(), p.Stack(), from, p.n0, p.names, p.Hi())
    decreases fuel, p.s, 1, 2 * (|p.s.cases| - i) + 1
  {
    if i == |p.s.cases| {
      assert p.Rest(i) == p.Default();
      DefaultSim(p, st, st1, from, fuel, skip);
    } else {
      assert Pure(p.s.cases[i].test);
      GuardEval(p, i, st, st1, from, v, true);
      RestUnfolds(p, i, st1, fuel, skip);
      assert Eval(p.s.cases[i].test, st).st == st;
      TakenSim(p, i, st, Eval(GuardOf(p, i), st1).st, from, v, true, fuel, skip);
    }
  }

  ghost function SearchFrom<W>(s: Stmt<W>, v: Val, i: nat, st: Store<W>, fuel: nat, skip: bool): Result<W>
    requires s.Switch? && i <= |s.cases|
  {
    match FindCase(v, s.cases[i..], st)
    case TestThrows(x, st1) => Done(Throws(x), st1)
    case NotFound(st1) => ExecFrom(s, |s.cases|, st1, fuel, skip)
    case Found(j, st1) => ExecFrom(s, i + j, st1, fuel, skip)
  }

  lemma SearchEnds<W(!new)>(p: Site<W>, v: Val, st: Store<W>, fuel: nat, skip: bool)
    requires p.Valid()
    ensures p.Rest(|p.s.cases|) == p.Default()
    ensures SearchFrom(p.s, v, |p.s.cases|, st, fuel, skip) == Exec(p.s.default, {}, st, fuel, skip)
  {
    assert p.s.cases[|p.s.cases|..] == [];
  }

  lemma SearchUnfolds<W>(s: Stmt<W>, v: Val, i: nat, st: Store<W>, fuel: nat, skip: bool)
    requires s.Switch? && i < |s.cases|
    ensures var a := Eval(s.cases[i].test, st);
            SearchFrom(s, v, i, st, fuel, skip) ==
            if a.Thrown? then Done(Throws(a.v), a.st)
            else if StrictEquals(v, a.v) then ExecFrom(s, i, a.st, fuel, skip)
            else SearchFrom(s, v, i + 1, a.st, fuel, skip)
  {
    assert s.cases[i..][0] == s.cases[i] && s.cases[i..][1..] == s.cases[i + 1..];
  }

  lemma {:induction false} SearchSim<W(!new)>(p: Site<W>, i: nat, st: Store<W>, st1: Store<W>, from: Store<W>, v: Val, fuel: nat, skip: bool)
    requires p.Valid() && i <= |p.s.cases| && p.Before(st, st1, from, v, false)
    ensures Simulates(SearchFrom(p.s, v, i, st, fuel, skip), ExecSeq(p.Rest(i), st1, fuel, skip), p.Inside(), p.Stack(), from, p.n0, p.names, p.Hi())
    decreases fuel, p.s, 1, 2 * (|p.s.cases| - i) + 1
  {
    if i == |p.s.cases| {
      SearchEnds(p, v, st, fuel, skip);
      DefaultSim(p, st, st1, from, fuel, skip);
    } else {
      GuardEval(p, i, st, st1, from, v, false);
      RestUnfolds(p, i, st1, fuel, skip);
      SearchUnfolds(p.s, v, i, st, fuel, skip);
      var a := Eval(p.s.cases[i].test, st);
      var g := Eval(GuardOf(p, i), st1);
      if a.Ok? {
        if StrictEquals(v, a.v) {
          TakenSim(p, i, a.st, g.st, from, v, false, fuel, skip);
        } else {
          SearchSim(p, i + 1, a.st, g.st, from, v, fuel, skip);
        }
      }
    }
  }

  lemma {:induction false} SwitchStmtSim<W(!new)>(p: Site<W>, labels: set<Id>, st: Store<W>, st1: Store<W>, fuel: nat, skip: bool)
    requires p.Valid() && Agree(st, st1, p.n0)
    ensures Simulates(Exec(p.s, labels, st, fuel, skip), Exec(Output(p.s, p.loc, p.stack, p.names), labels, st1, fuel, skip),
                      p.loc, p.stack, st1, p.n0, p.names, After(p.s, p.loc, p.stack, p.names))
    decreases fuel, p.s, 2
  {
    SiteNames(p);
    BlockUnfolds(p, labels, st1, fuel, skip);
    HeadSim(p, st, st1);
    var a := Eval(p.s.subject, st);
    if a.Ok? {
      var b := Eval(p.s.subject, Write(st1, p.Fall(), Bool(false)));
      CasesSim(p, a.v, a.st, Write(b.st, p.Test(), b.v), st1, fuel, skip);
    }
  }

  lemma {:induction false} CasesSim<W(!new)>(p: Site<W>, v: Val, st: Store<W>, st1: Store<W>, from: Store<W>, fuel: nat, skip: bool)
    requires p.Valid() && p.Before(st, st1, from, v, false)
    ensures Simulates(LeaveSwitch(ExecSwitch(v, p.s, st, fuel, skip)), CatchBreak(p.Name(), ExecSeq(p.Rest(0), st1, fuel, skip)),
                      p.loc, p.stack, from, p.n0, p.names, p.Hi())
    decreases fuel, p.s, 1, 2 * |p.s.cases| + 2
  {
    SearchSim(p, 0, st, st1, from, v, fuel, skip);
    assert p.s.cases[0..] == p.s.cases;
    var r := ExecSwitch(v, p.s, st, fuel, skip);
    assert SearchFrom(p.s, v, 0, st, fuel, skip) == r;
    SwitchCompletes(p, v, st, fuel, skip);
    LeaveSim(p, r, ExecSeq(p.Rest(0), st1, fuel, skip), from);
  }

  lemma HeadSim<W(!new)>(p: Site<W>, st: Store<W>, st1: Store<W>)
    requires p.Valid() && Agree(st, st1, p.n0)
    ensures var a := Eval(p.s.subject, st);
            var b := Eval(p.s.subject, Write(st1, p.Fall(), Bool(false)));
            && a.Ok? == b.Ok? && a.v == b.v && Linked(a.st, b.st, st1, p.n0, p.names, p.Hi())
            && (a.Ok? ==> p.Before(a.st, Write(b.st, p.Test(), b.v), st1, a.v, false))
  {
    SiteVariables(p);
    var st2 := Write(st1, p.Fall(), Bool(false));
    OwnWrite(st, st1, st1, p.Fall(), Bool(false), p.n0, p.names, p.Hi());
    UntouchedSim(p.s.subject, p.Fall(), p.Fall(), st, st2, st1, p.n0, p.names, p.Hi());
    var a, b := Eval(p.s.subject, st), Eval(p.s.subject, st2);
    OwnWrite(a.st, b.st, st1, p.Test(), b.v, p.n0, p.names, p.Hi());
  }

  // Writing a variable that the translation has made disturbs nothing.
  lemma OwnWrite<W>(st: Store<W>, st1: Store<W>, from: Store<W>, x: Id, v: Val, n0: Names, lo: Names, hi: Names)
    requires Linked(st, st1, from, n0, lo, hi) && !Known(n0, x) && !Known(lo, x) && Known(hi, x)
    ensures Linked(st, Write(st1, x, v), from, n0, lo, hi)
  {
  }

  lemma SwitchCompletes<W(!new)>(p: Site<W>, v: Val, st: Store<W>, fuel: nat, skip: bool)
    requires p.Valid()
    ensures var r := ExecSwitch(v, p.s, st, fuel, skip); r.Done? ==> CompletionKnown(r.c, p.n0)
  {
    ReadyKnown(p.s, p.seen, p.n0);
    match FindCase(v, p.s.cases, st)
    case TestThrows(_, _) =>
    case NotFound(st1) => CompletionsAreKnownFrom(p.s, |p.s.cases|, p.n0, st1, fuel, skip);
    case Found(i, st1) => CompletionsAreKnownFrom(p.s, i, p.n0, st1, fuel, skip);
  }

  // The switch's own label stops exactly the breaks that the switch would stop.
  lemma LeaveSim<W(!new)>(p: Site<W>, r: Result<W>, r1: Result<W>, from: Store<W>)
    requires p.Valid() && Simulates(r, r1, p.Inside(), p.Stack(), from, p.n0, p.names, p.Hi())
    requires r.Done? ==> CompletionKnown(r.c, p.n0)
    ensures Simulates(LeaveSwitch(r), CatchBreak(p.Name(), r1), p.loc, p.stack, from, p.n0, p.names, p.Hi())
  {
    SiteVariables(p);
    assert p.Stack()[|p.Stack()| - 1] == p.Name() && p.Name() in p.Stack();
  }

  lemma BlockUnfolds<W(!new)>(p: Site<W>, labels: set<Id>, st1: Store<W>, fuel: nat, skip: bool)
    requires p.Valid()
    ensures var b := Eval(p.s.subject, Write(st1, p.Fall(), Bool(false)));
            Exec(SwitchToBlock(p.Name(), p.Test(), p.Fall(), p.s.subject, p.Cases(), p.Default()), labels, st1, fuel, skip) ==
            if b.Thrown? then Done(Throws(b.v), b.st)
            else CatchBreak(p.Name(), ExecSeq(p.Rest(0), Write(b.st, p.Test(), b.v), fuel, skip))
  {
    HeadRuns(p.Name(), p.Test(), p.Fall(), p.s.subject, CasesToIfs(p.Test(), p.Fall(), p.Cases()), p.Default(), st1, fuel, skip);
    assert p.Rest(0) == CasesToIfs(p.Test(), p.Fall(), p.Cases()) + p.Default();
  }

  lemma DeclRuns<W>(x: Id, e: Expr<W>, st: Store<W>, fuel: nat, skip: bool)
    ensures Exec(VarDecl([Decl(x, e)]), {}, st, fuel, skip) ==
            var a := Eval(e, st);
            if a.Thrown? then Done(Throws(a.v), a.st) else Done(Normal, Write(a.st, x, a.v))
  {
    var ds := [Decl(x, e)];
    assert ds[1..] == [];
    var a := Eval(e, st);
    assert ExecDecls<W>([], Write(a.st, x, a.v)) == Done(Normal, Write(a.st, x, a.v));
  }

  lemma HeadRuns<W>(name: Id, test: Id, fall: Id, subject: Expr<W>, ifs: seq<Stmt<W>>, default: seq<Stmt<W>>, st: Store<W>, fuel: nat, skip: bool)
    ensures var b := Eval(subject, Write(st, fall, Bool(false)));
            CatchBreak(name, ExecSeq([VarDecl([Decl(fall, False())]), VarDecl([Decl(test, subject)])] + ifs + default, st, fuel, skip)) ==
            if b.Thrown? then Done(Throws(b.v), b.st)
            else CatchBreak(name, ExecSeq(ifs + default, Write(b.st, test, b.v), fuel, skip))
  {
    var d1: Stmt<W> := VarDecl([Decl(fall, False())]);
    var d2: Stmt<W> := VarDecl([Decl(test, subject)]);
    var ss := [d1, d2] + ifs + default;
    assert ss[0] == d1 && ss[1..][0] == d2 && ss[1..][1..] == ifs + default;
    DeclRuns(fall, False<W>(), st, fuel, skip);
    DeclRuns(test, subject, Write(st, fall, Bool(false)), fuel, skip);
  }

  // ----- The whole pass -----

  // Run r1 of a translation ends as run r of the source does, as far as the source can see.
  ghost predicate SameRun<W>(r: Result<W>, r1: Result<W>, names: Names) {
    r.Done? == r1.Done? && (r.Done? ==> r1.c == r.c && Agree(r.st, r1.st, names))
  }

  // For every program the pass accepts, every store and every amount of fuel, the result ends with
  // the same completion in the same world, or runs out of fuel in step with the source.
  lemma SwitchPreservesMeaning<W(!new)>(s: Stmt<W>, names: Names, st: Store<W>, fuel: nat, skip: bool)
    requires Ready(s, {}, names) && Desugar(s, names).Some?
    ensures SameRun(Exec(s, {}, st, fuel, skip), Exec(Desugar(s, names).value.0, {}, st, fuel, skip), names)
  {
    SwitchSim(s, {}, Top, [], names, names, {}, st, st, fuel, skip);
  }

  // ----- Why the tests have to be pure -----

  // Falling into a case evaluates its test again, which JavaScript does not.  Here e is such a test.
  function FallInto<W>(e: Expr<W>): Stmt<W> {
    Switch(Lit(Num(0)), [Case(Lit(Num(0)), Empty), Case(e, Empty)], Empty)
  }

  lemma FallIntoSource<W>(e: Expr<W>, st: Store<W>, fuel: nat, skip: bool)
    ensures Exec(FallInto(e), {}, st, fuel, skip) == Done(Normal, st)
  {
    var s := FallInto(e);
    assert Eval(Lit<W>(Num(0)), st) == Ok(Num(0), st);
    assert FindCase(Num(0), s.cases, st) == Found(0, st);
    assert ExecFrom(s, 2, st, fuel, skip) == Done(Normal, st);
    assert ExecFrom(s, 1, st, fuel, skip) == Done(Normal, st);
    assert ExecFrom(s, 0, st, fuel, skip) == Done(Normal, st);
  }

  lemma FallIntoOutput<W>(e: Expr<W>, names: Names)
    ensures var n1 := AfterFresh(names, "sw");
            var n2 := AfterFresh(n1, "test");
            Desugar(FallInto(e), names) ==
            Some((SwitchToBlock(FreshId(names, "sw"), FreshId(n1, "test"), FreshId(n2, "fallthrough"), Lit(Num(0)), FallInto(e).cases, []),
                  AfterFresh(n2, "fallthrough")))
  {
    var nothing: Stmt<W> := Empty;
    var loc := Node(InSwitch, Top);
    var stack := [FreshId(names, "sw")];
    var n1 := AfterFresh(names, "sw");
    assert SwitchToIf(nothing, loc, stack, n1) == Some((nothing, n1));
    var cases := FallInto(e).cases;
    assert SwitchToIfCases(cases[2..], loc, stack, n1) == Some(([], n1));
    CasesFrom(cases, 1, loc, stack, n1);
    CasesFrom(cases, 0, loc, stack, n1);
    assert cases[0..] == cases && [] + stack == stack;
    assert [cases[1]] + [] == [cases[1]] && [cases[0]] + [cases[1]] == cases;
  }

  // The store in which the second test is evaluated.
  ghost function InsideFall<W>(test: Id, fall: Id, st: Store<W>): Store<W> {
    Write(Write(Write(st, fall, Bool(false)), test, Num(0)), fall, Bool(true))
  }

  lemma TwoIfs<W>(test: Id, fall: Id, cases: seq<Case<W>>)
    requires |cases| == 2
    ensures var ifs := CasesToIfs(test, fall, cases);
            ifs == [CaseToIf(test, fall, cases[0])] + [CaseToIf(test, fall, cases[1])] && ifs + [] == ifs
  {
  }

  lemma FallIntoTarget<W>(name: Id, test: Id, fall: Id, e: Expr<W>, st: Store<W>, fuel: nat, skip: bool)
    requires test != fall && fall in Eval(e, InsideFall(test, fall, st)).st.temps
    requires Eval(e, InsideFall(test, fall, st)).st.temps[fall] == Bool(true)
    ensures var a := Eval(e, InsideFall(test, fall, st));
            Exec(SwitchToBlock(name, test, fall, Lit(Num(0)), FallInto(e).cases, []), {}, st, fuel, skip) ==
            if a.Thrown? then Done(Throws(a.v), a.st) else Done(Normal, Write(a.st, fall, Bool(true)))
  {
    var cases := FallInto(e).cases;
    var ifs := CasesToIfs(test, fall, cases);
    TwoIfs(test, fall, cases);
    HeadRuns(name, test, fall, Lit(Num(0)), ifs, [], st, fuel, skip);
    FirstCaseRuns(test, fall, e, Write(Write(st, fall, Bool(false)), test, Num(0)), fuel, skip);
  }

  lemma FirstCaseRuns<W>(test: Id, fall: Id, e: Expr<W>, st: Store<W>, fuel: nat, skip: bool)
    requires test != fall && test in st.temps && fall in st.temps && st.temps[test] == Num(0)
    requires var a := Eval(e, Write(st, fall, Bool(true))); fall in a.st.temps && a.st.temps[fall] == Bool(true)
    ensures var a := Eval(e, Write(st, fall, Bool(true)));
            ExecSeq([CaseToIf(test, fall, FallInto(e).cases[0])] + [CaseToIf(test, fall, FallInto(e).cases[1])], st, fuel, skip) ==
            if a.Thrown? then Done(Throws(a.v), a.st) else Done(Normal, Write(a.st, fall, Bool(true)))
  {
    var cases := FallInto(e).cases;
    CaseRuns(test, fall, cases[0], [CaseToIf(test, fall, cases[1])], st, fuel, skip);
    GuardValue(test, fall, Lit(Num(0)), st);
    assert Exec(cases[0].body, {}, st, fuel, skip) == Done(Normal, st);
    SecondCaseRuns(test, fall, e, Write(st, fall, Bool(true)), fuel, skip);
  }

  lemma SecondCaseRuns<W>(test: Id, fall: Id, e: Expr<W>, st: Store<W>, fuel: nat, skip: bool)
    requires test in st.temps && fall in Eval(e, st).st.temps && Eval(e, st).st.temps[fall] == Bool(true)
    ensures var a := Eval(e, st);
            ExecSeq([CaseToIf(test, fall, FallInto(e).cases[1])], st, fuel, skip) ==
            if a.Thrown? then Done(Throws(a.v), a.st) else Done(Normal, Write(a.st, fall, Bool(true)))
  {
    var c := FallInto(e).cases[1];
    assert [CaseToIf(test, fall, c)] + [] == [CaseToIf(test, fall, c)];
    CaseRuns(test, fall, c, [], st, fuel, skip);
    GuardValue(test, fall, e, st);
    var a := Eval(e, st);
    assert Exec(c.body, {}, a.st, fuel, skip) == Done(Normal, a.st);
  }

  // At any one store, falling into a test does not show exactly when evaluating it there changes
  // nothing and does not throw.
  lemma ImpureTestRunsAgain<W(!new)>(e: Expr<W>, names: Names, st: Store<W>, fuel: nat, skip: bool)
    requires Unaware(e, names)
    ensures Desugar(FallInto(e), names).Some?
    ensures SameRun(Exec(FallInto(e), {}, st, fuel, skip), Exec(Desugar(FallInto(e), names).value.0, {}, st, fuel, skip), names)
            <==> Eval(e, st).Ok? && Eval(e, st).st == st
  {
    FallIntoSource(e, st, fuel, skip);
    FallIntoOutput(e, names);
    var name, n1 := FreshId(names, "sw"), AfterFresh(names, "sw");
    var n2 := AfterFresh(n1, "test");
    var test, fall := FreshId(n1, "test"), FreshId(n2, "fallthrough");
    FallNamesNew(names);
    EvaluatedAgain(e, names, st, InsideFall(test, fall, st), fall);
    FallIntoTarget(name, test, fall, e, st, fuel, skip);
  }

  lemma EvaluatedAgain<W(!new)>(e: Expr<W>, names: Names, st: Store<W>, st2: Store<W>, fall: Id)
    requires Unaware(e, names) && Agree(st, st2, names) && !Known(names, fall)
    requires fall in st2.temps && st2.temps[fall] == Bool(true)
    ensures var a := Eval(e, st2);
            && fall in a.st.temps && a.st.temps[fall] == Bool(true)
            && (a.Ok? && Agree(st, Write(a.st, fall, Bool(true)), names) <==> Eval(e, st).Ok? && Eval(e, st).st == st)
  {
    var a := Eval(e, st2);
    assert SameOutcome(Eval(e, st), a, names) && Same(st2.temps, a.st.temps, fall);
    UnchangedIff(e, names, st, a.st);
  }

  lemma FallNamesNew(names: Names)
    ensures var n1 := AfterFresh(names, "sw");
            var n2 := AfterFresh(n1, "test");
            var test, fall := FreshId(n1, "test"), FreshId(n2, "fallthrough");
            test != fall && !Known(names, test) && !Known(names, fall)
  {
    FreshIsNew(names, "sw");
    var n1 := AfterFresh(names, "sw");
    FreshIsNew(n1, "test");
    FreshIsNew(AfterFresh(n1, "test"), "fallthrough");
    AllKnownGrow(names, n1);
    AllKnownGrow(n1, AfterFresh(n1, "test"));
  }

  // For a store that e leaves behind, agreeing on what the source can see is being the same.
  lemma UnchangedIff<W(!new)>(e: Expr<W>, names: Names, st: Store<W>, after: Store<W>)
    requires Unaware(e, names) && Agree(Eval(e, st).st, after, names)
    ensures Agree(st, after, names) <==> Eval(e, st).st == st
  {
    var b := Eval(e, st).st;
    if Agree(st, after, names) {
      forall x
        ensures Same(st.temps, b.temps, x)
      {
        if Known(names, x) { assert Same(b.temps, after.temps, x) && Same(st.temps, after.temps, x); }
      }
      SameEverywhere(st.temps, b.temps);
    }
  }

  lemma SameEverywhere(a: map<Id, Val>, b: map<Id, Val>)
    requires forall x :: Same(a, b, x)
    ensures a == b
  {
    assert forall x :: Same(a, b, x) ==> (x in a <==> x in b);
  }

  // A program like those of Ready, except that e may stand after the first test of a switch as well.
  ghost predicate Hosts<W(!new)>(s: Stmt<W>, e: Expr<W>, seen: set<Id>, n0: Names) {
    && ExprsUnaware(s, n0)
    && (s.Label? ==> s.name !in seen)
    && (OwnLabel(s).Some? ==> Known(n0, OwnLabel(s).value))
    && (s.Switch? ==> forall i | 1 <= i < |s.cases| :: s.cases[i].test == e || Pure(s.cases[i].test))
    && forall c <- Children(s) :: Hosts(c, e, SeenInside(s, seen), n0)
  }

  lemma {:induction false} HostsReady<W(!new)>(s: Stmt<W>, e: Expr<W>, seen: set<Id>, n0: Names)
    requires Hosts(s, e, seen, n0) && Pure(e)
    ensures Ready(s, seen, n0)
    decreases s
  {
    forall c | c in Children(s)
      ensures Ready(c, SeenInside(s, seen), n0)
    {
      HostsReady(c, e, SeenInside(s, seen), n0);
    }
  }

  // The pass keeps every run of the program.
  ghost predicate Kept<W(!new)>(s: Stmt<W>, names: Names)
    requires Desugar(s, names).Some?
  {
    forall st: Store<W>, fuel: nat, skip: bool ::
      SameRun(Exec(s, {}, st, fuel, skip), Exec(Desugar(s, names).value.0, {}, st, fuel, skip), names)
  }

  // So a test may stand after the first, in every program that the pass accepts and at every store,
  // exactly when it is pure.
  lemma PureTestsExactly<W(!new)>(e: Expr<W>, names: Names)
    requires Unaware(e, names)
    ensures Pure(e) <==> forall s: Stmt<W> :: Hosts(s, e, {}, names) && Desugar(s, names).Some? ==> Kept(s, names)
  {
    if Pure(e) {
      forall s: Stmt<W> | Hosts(s, e, {}, names) && Desugar(s, names).Some?
        ensures Kept(s, names)
      {
        HostsReady(s, e, {}, names);
        ReadyKept(s, names);
      }
    } else {
      FallIntoHosts(e, names);
      FallIntoOutput(e, names);
      var st: Store<W> :| !(Eval(e, st).Ok? && Eval(e, st).st == st);
      ImpureTestRunsAgain(e, names, st, 0, false);
      assert !Kept(FallInto(e), names);
    }
  }

  lemma ReadyKept<W(!new)>(s: Stmt<W>, names: Names)
    requires Ready(s, {}, names) && Desugar(s, names).Some?
    ensures Kept(s, names)
  {
    forall st: Store<W>, fuel: nat, skip: bool
      ensures SameRun(Exec(s, {}, st, fuel, skip), Exec(Desugar(s, names).value.0, {}, st, fuel, skip), names)
    {
      SwitchPreservesMeaning(s, names, st, fuel, skip);
    }
  }

  lemma FallIntoHosts<W(!new)>(e: Expr<W>, names: Names)
    requires Unaware(e, names)
    ensures Hosts(FallInto(e), e, {}, names)
  {
    var s := FallInto(e);
    assert Hosts(Stmt<W>.Empty, e, {}, names);
    assert Unaware(Lit<W>(Num(0)), names);
    forall c | c in Children(s)
      ensures c == Empty
    {
    }
  }

  // ----- Which programs are accepted -----

  ghost predicate DefaultsAreBlocks<W>(s: Stmt<W>) {
    && (s.Switch? ==> s.default.Block? || s.default.Empty?)
    && forall c <- Children(s) :: DefaultsAreBlocks(c)
  }

  lemma {:induction false} AcceptsExactlyBlockDefaults<W>(s: Stmt<W>, loc: Loc, stack: seq<Id>, names: Names)
    requires InSwitchBlock(loc) ==> stack != []
    ensures SwitchToIf(s, loc, stack, names).Some? <==> DefaultsAreBlocks(s)
    decreases s, 1
  {
    match s
    case Block(ss) => AcceptsSeq(ss, Node(InBlock, loc), stack, names);
    case If(_, thn, els) =>
      assert Children(s) == [thn, els] && [thn, els][0] == thn && [thn, els][1] == els;
      AcceptsExactlyBlockDefaults(thn, Node(InStmt, loc), stack, names);
      var r := SwitchToIf(thn, Node(InStmt, loc), stack, names);
      if r.Some? { AcceptsExactlyBlockDefaults(els, Node(InStmt, loc), stack, r.value.1); }
    case Label(_, body) =>
      assert Children(s)[0] == body;
      AcceptsExactlyBlockDefaults(body, Node(InStmt, loc), stack, names);
    case While(_, body) =>
      assert Children(s)[0] == body;
      AcceptsExactlyBlockDefaults(body, Node(InLoop, loc), stack, names);
    case DoWhile(body, _) =>
      assert Children(s)[0] == body;
      AcceptsExactlyBlockDefaults(body, Node(InLoop, loc), stack, names);
    case For(_, _, _, body) =>
      assert Children(s)[0] == body;
      AcceptsExactlyBlockDefaults(body, Node(InLoop, loc), stack, names);
    case Switch(_, _, _) => AcceptsSwitch(s, loc, stack, names);
    case _ =>
  }

  lemma {:induction false} AcceptsSeq<W>(ss: seq<Stmt<W>>, loc: Loc, stack: seq<Id>, names: Names)
    requires InSwitchBlock(loc) ==> stack != []
    ensures SwitchToIfSeq(ss, loc, stack, names).Some? <==> forall s <- ss :: DefaultsAreBlocks(s)
    decreases ss, 0
  {
    if ss != [] {
      AcceptsExactlyBlockDefaults(ss[0], loc, stack, names);
      var r := SwitchToIf(ss[0], loc, stack, names);
      if r.Some? { AcceptsSeq(ss[1..], loc, stack, r.value.1); }
      assert forall s :: s in ss <==> s == ss[0] || s in ss[1..];
    }
  }

  lemma {:induction false} AcceptsCases<W>(cases: seq<Case<W>>, loc: Loc, stack: seq<Id>, names: Names)
    requires InSwitchBlock(loc) ==> stack != []
    ensures SwitchToIfCases(cases, loc, stack, names).Some? <==> forall c <- cases :: DefaultsAreBlocks(c.body)
    decreases cases, 0
  {
    if cases != [] {
      CaseBodySmaller(cases, 0);
      AcceptsExactlyBlockDefaults(cases[0].body, loc, stack, names);
      var r := SwitchToIf(cases[0].body, loc, stack, names);
      if r.Some? { AcceptsCases(cases[1..], loc, stack, r.value.1); }
      assert forall c :: c in cases <==> c == cases[0] || c in cases[1..];
    }
  }

  lemma {:induction false} AcceptsSwitch<W>(s: Stmt<W>, loc: Loc, stack: seq<Id>, names: Names)
    requires s.Switch?
    ensures SwitchToIf(s, loc, stack, names).Some? <==> DefaultsAreBlocks(s)
    decreases s, 0
  {
    var loc1 := Node(InSwitch, loc);
    var stack1 := stack + [FreshId(names, "sw")];
    var n1 := AfterFresh(names, "sw");
    ClausesAreChildren(s);
    AcceptsCases(s.cases, loc1, stack1, n1);
    var r := SwitchToIfCases(s.cases, loc1, stack1, n1);
    if r.Some? {
      AcceptsExactlyBlockDefaults(s.default, loc1, stack1, r.value.1);
      if SwitchToIf(s.default, loc1, stack1, r.value.1).Some? { DefaultStaysBlock(s.default, loc1, stack1, r.value.1); }
    }
  }

  lemma DefaultStaysBlock<W>(s: Stmt<W>, loc: Loc, stack: seq<Id>, names: Names)
    requires SwitchToIf(s, loc, stack, names).Some?
    ensures DefaultStmts(Output(s, loc, stack, names)).Some? <==> s.Block? || s.Empty?
  {
  }

  lemma ClausesAreChildren<W>(s: Stmt<W>)
    requires s.Switch?
    ensures (forall c <- Children(s) :: DefaultsAreBlocks(c)) <==>
            (forall c <- s.cases :: DefaultsAreBlocks(c.body)) && DefaultsAreBlocks(s.default)
    ensures s.default < s
  {
    var k := |s.cases|;
    var cs := Children(s);
    assert cs[k] == s.default;
    if forall c <- cs :: DefaultsAreBlocks(c) {
      forall i | 0 <= i < k ensures DefaultsAreBlocks(s.cases[i].body) { assert cs[i] == s.cases[i].body; }
    }
    if (forall c <- s.cases :: DefaultsAreBlocks(c.body)) && DefaultsAreBlocks(s.default) {
      forall i | 0 <= i < |cs| ensures DefaultsAreBlocks(cs[i]) { if i < k { assert cs[i] == s.cases[i].body; } }
    }
  }

  // ----- The output is fit for the loop passes -----

  lemma {:induction false} WellFormedGrows<W>(s: Stmt<W>, seen: set<Id>, before: Names, after: Names)
    requires WellFormed(s, seen, before) && Grows(before, after)
    ensures WellFormed(s, seen, after)
    decreases s
  {
    if OwnLabel(s).Some? { KnownGrows(before, after, OwnLabel(s).value); }
    forall c | c in Children(s)
      ensures WellFormed(c, SeenInside(s, seen), after)
    {
      WellFormedGrows(c, SeenInside(s, seen), before, after);
    }
  }

  // `seen` are the labels around the statement in the source, `seen1` those in the output.
  ghost predicate Around(stack: seq<Id>, names: Names, n0: Names, seen: set<Id>, seen1: set<Id>) {
    && Grows(n0, names)
    && (forall x <- stack :: Known(names, x) && !Known(n0, x))
    && (forall x <- seen1 :: Known(names, x) && (Known(n0, x) ==> x in seen))
  }

  lemma AroundGrows(stack: seq<Id>, names: Names, after: Names, n0: Names, seen: set<Id>, seen1: set<Id>)
    requires Around(stack, names, n0, seen, seen1) && Grows(names, after)
    ensures Around(stack, after, n0, seen, seen1)
  {
    AllKnownGrow(names, after);
  }

  lemma {:induction false} OutputWellFormed<W(!new)>(s: Stmt<W>, loc: Loc, stack: seq<Id>, names: Names, n0: Names, seen: set<Id>, seen1: set<Id>)
    requires SwitchToIf(s, loc, stack, names).Some?
    requires Ready(s, seen, n0) && Around(stack, names, n0, seen, seen1)
    ensures WellFormed(Output(s, loc, stack, names), seen1, After(s, loc, stack, names))
    decreases s, 1
  {
    var t := Output(s, loc, stack, names);
    AllKnownGrow(n0, names);
    if IsLoop(s) {
      ChildReady(s, 0, seen, n0);
      assert SeenInside(s, seen) == seen && SeenInside(t, seen1) == seen1 && Children(t) == [t.body];
      OutputWellFormed(s.body, Node(InLoop, loc), stack, names, n0, seen, seen1);
      return;
    }
    match s
    case Block(ss) =>
      assert SeenInside(s, seen) == seen && SeenInside(t, seen1) == seen1;
      OutputWellFormedSeq(ss, Node(InBlock, loc), stack, names, n0, seen, seen1);
    case If(_, thn, els) => OutputWellFormedIf(s, loc, stack, names, n0, seen, seen1);
    case Label(l, body) =>
      ChildReady(s, 0, seen, n0);
      assert Children(t) == [t.body];
      OutputWellFormed(body, Node(InStmt, loc), stack, names, n0, seen + {l}, seen1 + {l});
      NamesGrow(body, Node(InStmt, loc), stack, names);
      KnownGrows(names, After(s, loc, stack, names), l);
    case Switch(_, _, _) => OutputWellFormedSwitch(Site(s, seen, loc, stack, names, n0), seen1);
    case Break(None) => assert Children(t) == [];
    case _ =>
  }

  lemma {:induction false} OutputWellFormedIf<W(!new)>(s: Stmt<W>, loc: Loc, stack: seq<Id>, names: Names, n0: Names, seen: set<Id>, seen1: set<Id>)
    requires s.If? && SwitchToIf(s, loc, stack, names).Some?
    requires Ready(s, seen, n0) && Around(stack, names, n0, seen, seen1)
    ensures WellFormed(Output(s, loc, stack, names), seen1, After(s, loc, stack, names))
    decreases s, 0
  {
    var t := Output(s, loc, stack, names);
    var loc1 := Node(InStmt, loc);
    var n1 := After(s.thn, loc1, stack, names);
    ChildReady(s, 0, seen, n0);
    ChildReady(s, 1, seen, n0);
    assert SeenInside(s, seen) == seen && SeenInside(t, seen1) == seen1 && Children(t) == [t.thn, t.els];
    NamesGrow(s.thn, loc1, stack, names);
    NamesGrow(s.els, loc1, stack, n1);
    AroundGrows(stack, names, n1, n0, seen, seen1);
    OutputWellFormed(s.thn, loc1, stack, names, n0, seen, seen1);
    OutputWellFormed(s.els, loc1, stack, n1, n0, seen, seen1);
    WellFormedGrows(t.thn, seen1, n1, After(s, loc, stack, names));
  }

  lemma {:induction false} OutputWellFormedSeq<W(!new)>(ss: seq<Stmt<W>>, loc: Loc, stack: seq<Id>, names: Names, n0: Names,
                                                        seen: set<Id>, seen1: set<Id>)
    requires SwitchToIfSeq(ss, loc, stack, names).Some?
    requires (forall s <- ss :: Ready(s, seen, n0)) && Around(stack, names, n0, seen, seen1)
    ensures var (ts, hi) := SwitchToIfSeq(ss, loc, stack, names).value; forall t <- ts :: WellFormed(t, seen1, hi)
    decreases ss, 0
  {
    if ss != [] {
      var n1 := After(ss[0], loc, stack, names);
      var (ts, hi) := SwitchToIfSeq(ss[1..], loc, stack, n1).value;
      NamesGrow(ss[0], loc, stack, names);
      NamesGrowSeq(ss[1..], loc, stack, n1);
      AroundGrows(stack, names, n1, n0, seen, seen1);
      OutputWellFormed(ss[0], loc, stack, names, n0, seen, seen1);
      OutputWellFormedSeq(ss[1..], loc, stack, n1, n0, seen, seen1);
      WellFormedGrows(Output(ss[0], loc, stack, names), seen1, n1, hi);
      assert forall t :: t in [Output(ss[0], loc, stack, names)] + ts <==> t == Output(ss[0], loc, stack, names) || t in ts;
    }
  }

  lemma {:induction false} OutputWellFormedCase<W(!new)>(p: Site<W>, i: nat, seen1: set<Id>)
    requires p.Valid() && i < |p.s.cases| && Around(p.Stack(), p.N1(), p.n0, p.seen, seen1)
    ensures WellFormed(p.Cases()[i].body, seen1, p.Hi())
    decreases p.s, -1
  {
    SiteNames(p);
    assert Children(p.s)[i] == p.s.cases[i].body && SeenInside(p.s, p.seen) == p.seen;
    ChildReady(p.s, i, p.seen, p.n0);
    var m := CaseNames(p.s.cases, i, p.Inside(), p.Stack(), p.N1());
    AroundGrows(p.Stack(), p.N1(), m, p.n0, p.seen, seen1);
    OutputWellFormed(p.s.cases[i].body, p.Inside(), p.Stack(), m, p.n0, p.seen, seen1);
    WellFormedGrows(p.Cases()[i].body, seen1, After(p.s.cases[i].body, p.Inside(), p.Stack(), m), p.Hi());
  }

  lemma {:induction false} OutputWellFormedDefault<W(!new)>(p: Site<W>, seen1: set<Id>)
    requires p.Valid() && Around(p.Stack(), p.N1(), p.n0, p.seen, seen1)
    ensures forall t <- p.Default() :: WellFormed(t, seen1, p.Hi())
    decreases p.s, -1
  {
    SiteNames(p);
    var k := |p.s.cases|;
    assert Children(p.s)[k] == p.s.default && SeenInside(p.s, p.seen) == p.seen;
    ChildReady(p.s, k, p.seen, p.n0);
    AroundGrows(p.Stack(), p.N1(), p.N2(), p.n0, p.seen, seen1);
    OutputWellFormed(p.s.default, p.Inside(), p.Stack(), p.N2(), p.n0, p.seen, seen1);
    var t := Output(p.s.default, p.Inside(), p.Stack(), p.N2());
    WellFormedGrows(t, seen1, p.N3(), p.Hi());
    assert SeenInside(t, seen1) == seen1 || t.Label?;
  }

  lemma CaseToIfWellFormed<W>(test: Id, fall: Id, c: Case<W>, seen: set<Id>, names: Names)
    requires WellFormed(c.body, seen, names)
    ensures WellFormed(CaseToIf(test, fall, c), seen, names)
  {
    var t := CaseToIf(test, fall, c);
    var mark: Stmt<W> := ExprStmt(AssignTemp(fall, True()));
    var taken := Block([c.body, mark]);
    var nothing: Stmt<W> := Empty;
    assert WellFormed(mark, seen, names) && WellFormed(nothing, seen, names);
    assert SeenInside(taken, seen) == seen && WellFormed(taken, seen, names);
    assert Children(t) == [taken, nothing] && SeenInside(t, seen) == seen;
  }

  // Inside the labelled block, the switch's own label has been added to the labels around.
  lemma AroundSwitch<W(!new)>(p: Site<W>, seen1: set<Id>)
    requires p.Valid() && Around(p.stack, p.names, p.n0, p.seen, seen1)
    ensures Around(p.Stack(), p.N1(), p.n0, p.seen, seen1 + {p.Name()})
    ensures p.Name() !in seen1 && Known(p.Hi(), p.Name())
  {
    SiteNames(p);
    FreshIsNew(p.names, "sw");
    AllKnownGrow(p.n0, p.names);
    AllKnownGrow(p.names, p.N1());
    AllKnownGrow(p.N1(), p.N2());
    AllKnownGrow(p.N2(), p.N3());
    AllKnownGrow(p.N3(), p.Hi());
  }

  lemma SwitchBlockWellFormed<W>(name: Id, test: Id, fall: Id, subject: Expr<W>, cases: seq<Case<W>>, default: seq<Stmt<W>>,
                                 seen: set<Id>, names: Names)
    requires name !in seen && Known(names, name)
    requires forall i | 0 <= i < |cases| :: WellFormed(cases[i].body, seen + {name}, names)
    requires forall t <- default :: WellFormed(t, seen + {name}, names)
    ensures WellFormed(SwitchToBlock(name, test, fall, subject, cases, default), seen, names)
  {
    var seen1 := seen + {name};
    var ifs := CasesToIfs(test, fall, cases);
    forall t | t in ifs
      ensures WellFormed(t, seen1, names)
    {
      var i :| 0 <= i < |ifs| && ifs[i] == t;
      CaseToIfWellFormed(test, fall, cases[i], seen1, names);
    }
    var head: seq<Stmt<W>> := [VarDecl([Decl(fall, False())]), VarDecl([Decl(test, subject)])];
    BlockOfParts(head, ifs, default, seen1, names);
    var block := Block(head + ifs + default);
    assert Children(Label(name, block)) == [block];
  }

  lemma BlockOfParts<W>(a: seq<Stmt<W>>, b: seq<Stmt<W>>, c: seq<Stmt<W>>, seen: set<Id>, names: Names)
    requires forall t <- a :: t.VarDecl?
    requires forall t <- b :: WellFormed(t, seen, names)
    requires forall t <- c :: WellFormed(t, seen, names)
    ensures WellFormed(Block(a + b + c), seen, names)
  {
    var block := Block(a + b + c);
    assert SeenInside(block, seen) == seen;
    forall t | t in a
      ensures WellFormed(t, seen, names)
    {
      assert Children(t) == [];
    }
  }

  lemma {:induction false} OutputWellFormedSwitch<W(!new)>(p: Site<W>, seen1: set<Id>)
    requires p.s.Switch? && SwitchToIf(p.s, p.loc, p.stack, p.names).Some?
    requires Ready(p.s, p.seen, p.n0) && Around(p.stack, p.names, p.n0, p.seen, seen1)
    ensures WellFormed(Output(p.s, p.loc, p.stack, p.names), seen1, After(p.s, p.loc, p.stack, p.names))
    decreases p.s, 0
  {
    var seen2 := seen1 + {p.Name()};
    AroundSwitch(p, seen1);
    SiteNames(p);
    forall i | 0 <= i < |p.s.cases|
      ensures WellFormed(p.Cases()[i].body, seen2, p.Hi())
    {
      OutputWellFormedCase(p, i, seen2);
    }
    OutputWellFormedDefault(p, seen2);
    SwitchBlockWellFormed(p.Name(), p.Test(), p.Fall(), p.s.subject, p.Cases(), p.Default(), seen1, p.Hi());
  }
}

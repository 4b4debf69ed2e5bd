// The emitted WebAssembly does what the NotWasm function means, on every run.

module NotWasmCorrectness {
  import opened Common
  import opened NotWasm

  // ----- Scopes -----

  // Every identifier has a local of its own, and the next free one comes after all of them.
  ghost predicate Good(sc: Scope) {
    && (forall x <- sc.ids :: sc.ids[x].0 < sc.next)
    && (forall x <- sc.ids, y <- sc.ids :: x != y ==> sc.ids[x].0 != sc.ids[y].0)
  }

  ghost predicate Within(a: Scope, b: Scope) {
    a.next <= b.next && forall x <- a.ids :: x in b.ids && b.ids[x] == a.ids[x]
  }

  // Every name is declared once.
  predicate Unique(s: Stmt)
    decreases s, 0
  {
    match s
    case If(_, conseq, alt) => Unique(conseq) && Unique(alt) && Decls(conseq).Keys !! Decls(alt).Keys
    case Loop(body) => Unique(body)
    case Label(_, body) => Unique(body)
    case Block(ss) => UniqueSeq(ss)
    case _ => true
  }

  predicate UniqueSeq(ss: seq<Stmt>)
    decreases ss, 0
  {
    ss == [] || (Unique(ss[0]) && UniqueSeq(ss[1..]) && Decls(ss[0]).Keys !! DeclsSeq(ss[1..]).Keys)
  }

  // From sc to sc1 exactly these names were added, each with its type and a local of its own.
  ghost predicate Grown(sc: Scope, sc1: Scope, decls: map<Id, Ty>) {
    && Within(sc, sc1) && (Good(sc) ==> Good(sc1))
    && sc1.ids.Keys == sc.ids.Keys + decls.Keys
    && (forall x <- sc1.ids :: x !in sc.ids ==> sc1.ids[x].0 >= sc.next && sc1.ids[x].1 == decls[x])
    && sc1.next - |sc1.locals| == sc.next - |sc.locals|
  }

  lemma GrownJoins(a: Scope, b: Scope, c: Scope, decls: map<Id, Ty>, more: map<Id, Ty>)
    requires Grown(a, b, decls) && Grown(b, c, more) && decls.Keys !! more.Keys
    ensures Grown(a, c, decls + more)
  {
    JoinedKeys(decls, more);
    forall x | x in c.ids && x !in a.ids
      ensures c.ids[x].0 >= a.next && c.ids[x].1 == (decls + more)[x]
    {
      AddedOnce(a, b, c, decls, more, x);
    }
  }

  lemma JoinedKeys(decls: map<Id, Ty>, more: map<Id, Ty>)
    ensures (decls + more).Keys == decls.Keys + more.Keys
  {
  }

  lemma AddedOnce(a: Scope, b: Scope, c: Scope, decls: map<Id, Ty>, more: map<Id, Ty>, x: Id)
    requires Grown(a, b, decls) && Grown(b, c, more) && decls.Keys !! more.Keys && x in c.ids && x !in a.ids
    ensures x in decls + more && c.ids[x].0 >= a.next && c.ids[x].1 == (decls + more)[x]
  {
    if x in b.ids { assert x !in more && c.ids[x] == b.ids[x]; } else { assert x in more; }
  }

  lemma DeclareGrows(sc: Scope, x: Id, ty: Ty)
    requires x !in sc.ids
    ensures Grown(sc, Declare(sc, x, ty), map[x := ty])
  {
  }

  lemma {:induction false} ScopeGrows(s: Stmt, labels: Labels, sc: Scope, cx: Context)
    requires StmtCode(s, labels, sc, cx).Some? && Unique(s) && Decls(s).Keys !! sc.ids.Keys
    ensures Grown(sc, StmtCode(s, labels, sc, cx).value.1, Decls(s))
    decreases s, 0
  {
    match s
    case Var(x, ty, e) =>
      assert x in Decls(s);
      DeclareGrows(sc, x, ty);
    case If(_, conseq, alt) =>
      var sc1 := StmtCode(conseq, [None] + labels, sc, cx).value.1;
      ScopeGrows(conseq, [None] + labels, sc, cx);
      ScopeGrows(alt, [None] + labels, sc1, cx);
      GrownJoins(sc, sc1, StmtCode(alt, [None] + labels, sc1, cx).value.1, Decls(conseq), Decls(alt));
    case Loop(body) => ScopeGrows(body, [None] + labels, sc, cx);
    case Label(l, body) => ScopeGrows(body, [Some(l)] + labels, sc, cx);
    case Block(ss) => ScopeGrowsSeq(ss, labels, sc, cx);
    case _ =>
  }

  lemma {:induction false} ScopeGrowsSeq(ss: seq<Stmt>, labels: Labels, sc: Scope, cx: Context)
    requires SeqCode(ss, labels, sc, cx).Some? && UniqueSeq(ss) && DeclsSeq(ss).Keys !! sc.ids.Keys
    ensures Grown(sc, SeqCode(ss, labels, sc, cx).value.1, DeclsSeq(ss))
    decreases ss, 0
  {
    if ss != [] {
      var sc1 := StmtCode(ss[0], labels, sc, cx).value.1;
      ScopeGrows(ss[0], labels, sc, cx);
      ScopeGrowsSeq(ss[1..], labels, sc1, cx);
      GrownJoins(sc, sc1, SeqCode(ss[1..], labels, sc1, cx).value.1, Decls(ss[0]), DeclsSeq(ss[1..]));
    }
  }

  // ----- Running code in parts -----

  lemma {:induction false} RunConcat<W>(wm: Module<W>, a: seq<Node>, b: seq<Node>, m: Machine<W>, fuel: nat)
    ensures RunCode(wm, a + b, m, fuel) ==
            var r := RunCode(wm, a, m, fuel);
            if r.Ran? && r.exit == Fall then RunCode(wm, b, r.m, fuel) else r
    decreases a
  {
    if a == [] {
      assert a + b == b;
    } else {
      assert (a + b)[0] == a[0] && (a + b)[1..] == a[1..] + b;
      var r := RunNode(wm, a[0], m, fuel);
      if r.Ran? { RunConcat(wm, a[1..], b, r.m, fuel); }
    }
  }

  lemma RunOne<W>(wm: Module<W>, n: Node, m: Machine<W>, fuel: nat)
    ensures RunCode(wm, [n], m, fuel) == RunNode(wm, n, m, fuel)
  {
    var r := RunNode(wm, n, m, fuel);
    if r.Ran? { assert RunCode(wm, [n][1..], r.m, fuel) == Ran(Fall, r.m); }
  }

  // ----- Atoms -----

  // The program, what the translator knows of it and the machine agree on everything but the functions.
  ghost predicate Linked<W>(p: Program<W>, wm: Module<W>, cx: Context) {
    wm.rt == p.rt && wm.imports == p.globals.imports && cx.globals == p.globals
  }

  // The locals hold what the variables hold.
  ghost predicate Reads<W>(st: Store<W>, m: Machine<W>, ids: map<Id, (nat, Ty)>) {
    && m.world == st.world
    && forall x <- ids :: ids[x].0 < |m.locals| && m.locals[ids[x].0] == Lookup(st, x)
  }

  // The variables in scope are those that the translator knows; any other name is a function's.
  ghost predicate Knows<W>(st: Store<W>, ids: map<Id, (nat, Ty)>) {
    st.types.Keys == ids.Keys && forall x <- ids :: st.types[x] == ids[x].1
  }

  ghost predicate AtomRan<W>(r: Run<W>, m: Machine<W>, a: Answer<W>) {
    match a
    case Val(v, w) => r == Ran(Fall, Push(m, v).(world := w))
    case Trapping(w) => r.Ran? && r.exit == Trapped && r.m.world == w
  }

  ghost predicate ArgsRan<W>(r: Run<W>, m: Machine<W>, a: ArgsAnswer<W>, n: nat) {
    match a
    case Args(vs, w) => |vs| == n && r == Ran(Fall, m.(stack := m.stack + vs, world := w))
    case ArgsTrap(w) => r.Ran? && r.exit == Trapped && r.m.world == w
  }

  // What every atom finds.
  ghost predicate Ready<W>(p: Program<W>, wm: Module<W>, cx: Context, ids: map<Id, (nat, Ty)>, st: Store<W>, m: Machine<W>) {
    Linked(p, wm, cx) && Reads(st, m, ids) && Knows(st, ids)
  }

  lemma {:induction false} AtomRuns<W>(p: Program<W>, wm: Module<W>, a: Atom, ids: map<Id, (nat, Ty)>, cx: Context, st: Store<W>,
                                       m: Machine<W>, fuel: nat)
    requires AtomCode(a, ids, cx).Some? && Ready(p, wm, cx, ids, st, m)
    ensures AtomRan(RunCode(wm, AtomCode(a, ids, cx).value, m, fuel), m, EvalAtom(p, a, st))
    decreases a, 1
  {
    match a
    case Lit(n) => RunOne(wm, Do(Const(n)), m, fuel);
    case Undefined => UndefinedRuns(wm, m, fuel);
    case Get(x) => RunOne(wm, Do(GetCode(x, ids, cx).value), m, fuel);
    case Prim(op, args) =>
      ArgsRun(p, wm, args, ids, cx, st, m, fuel);
      RunConcat(wm, ArgsCode(args, ids, cx).value, [Do(Call(op, |args|))], m, fuel);
      match EvalArgs(p, args, st) {
        case ArgsTrap(_) =>
        case Args(vs, w) => CallRuns(wm, op, vs, m, w, fuel);
      }
  }

  lemma UndefinedRuns<W>(wm: Module<W>, m: Machine<W>, fuel: nat)
    ensures AtomRan(RunCode(wm, [Do(Call("get_undefined", 0))], m, fuel), m, wm.rt.call("get_undefined", [], m.world))
  {
    RunOne(wm, Do(Call("get_undefined", 0)), m, fuel);
    assert m.stack[|m.stack|..] == [] && m.stack[..|m.stack|] == m.stack;
  }

  lemma Popped<W>(m: Machine<W>, vs: seq<int>, w: W)
    ensures var m1 := m.(stack := m.stack + vs, world := w);
            m1.stack[|m1.stack| - |vs|..] == vs && Pop(m1, |vs|) == m.(world := w)
  {
    var m1 := m.(stack := m.stack + vs, world := w);
    assert m1.stack[..|m1.stack| - |vs|] == m.stack;
  }

  lemma CallRuns<W>(wm: Module<W>, op: string, vs: seq<int>, m: Machine<W>, w: W, fuel: nat)
    ensures AtomRan(RunCode(wm, [Do(Call(op, |vs|))], m.(stack := m.stack + vs, world := w), fuel), m, wm.rt.call(op, vs, w))
  {
    RunOne(wm, Do(Call(op, |vs|)), m.(stack := m.stack + vs, world := w), fuel);
    Popped(m, vs, w);
  }

  lemma {:induction false} ArgsRun<W>(p: Program<W>, wm: Module<W>, args: seq<Atom>, ids: map<Id, (nat, Ty)>, cx: Context, st: Store<W>,
                                      m: Machine<W>, fuel: nat)
    requires ArgsCode(args, ids, cx).Some? && Ready(p, wm, cx, ids, st, m)
    ensures ArgsRan(RunCode(wm, ArgsCode(args, ids, cx).value, m, fuel), m, EvalArgs(p, args, st), |args|)
    decreases args, 0
  {
    if args == [] {
      assert m.stack + [] == m.stack;
    } else {
      var front, last := args[..|args| - 1], args[|args| - 1];
      ArgsRun(p, wm, front, ids, cx, st, m, fuel);
      RunConcat(wm, ArgsCode(front, ids, cx).value, AtomCode(last, ids, cx).value, m, fuel);
      match EvalArgs(p, front, st) {
        case ArgsTrap(_) =>
        case Args(vs, w) =>
          var m1 := m.(stack := m.stack + vs, world := w);
          AtomRuns(p, wm, last, ids, cx, st.(world := w), m1, fuel);
          match EvalAtom(p, last, st.(world := w)) {
            case Trapping(_) =>
            case Val(v, _) => assert m1.stack + [v] == m.stack + (vs + [v]);
          }
      }
    }
  }

  // ----- Expressions and calls -----

  ghost predicate ExprRan<W>(r: Run<W>, m: Machine<W>, a: ExprAnswer<W>) {
    match a
    case NoAnswer => r == NoFuel
    case Ended(b) => AtomRan(r, m, b)
  }

  ghost predicate WellNamed(f: Function) {
    UniqueParams(f.params) && Unique(f.body) && Decls(f.body).Keys !! ParamTypes(f.params).Keys
  }

  // ----- Names, read off in order -----

  function DeclNames(s: Stmt): seq<Id>
    decreases s, 0
  {
    match s
    case Var(x, _, _) => [x]
    case If(_, conseq, alt) => DeclNames(conseq) + DeclNames(alt)
    case Loop(body) => DeclNames(body)
    case Label(_, body) => DeclNames(body)
    case Block(ss) => DeclNamesSeq(ss)
    case _ => []
  }

  function DeclNamesSeq(ss: seq<Stmt>): seq<Id>
    decreases ss, 0
  {
    if ss == [] then [] else DeclNames(ss[0]) + DeclNamesSeq(ss[1..])
  }

  function ParamNames(params: seq<(Id, Ty)>): seq<Id> {
    seq(|params|, i requires 0 <= i < |params| => params[i].0)
  }

  predicate NoRepeats(ids: seq<Id>) {
    forall i, j :: 0 <= i < j < |ids| ==> ids[i] != ids[j]
  }

  lemma NoRepeatsSplit(a: seq<Id>, b: seq<Id>)
    ensures NoRepeats(a + b) <==> NoRepeats(a) && NoRepeats(b) && forall x <- a :: x !in b
  {
    if NoRepeats(a + b) {
      PartsDoNot(a, b);
    } else if NoRepeats(a) && NoRepeats(b) {
      var c := a + b;
      var i, j :| 0 <= i < j < |c| && c[i] == c[j];
      assert i < |a| <= j && a[i] == b[j - |a|];
      assert a[i] in a && a[i] in b;
    }
  }

  lemma PartsDoNot(a: seq<Id>, b: seq<Id>)
    requires NoRepeats(a + b)
    ensures NoRepeats(a) && NoRepeats(b) && forall x <- a :: x !in b
  {
    var c := a + b;
    forall i, j | 0 <= i < j < |a|
      ensures a[i] != a[j]
    {
      assert c[i] != c[j];
    }
    forall i, j | 0 <= i < j < |b|
      ensures b[i] != b[j]
    {
      assert c[|a| + i] != c[|a| + j];
    }
    forall i, j | 0 <= i < |a| && 0 <= j < |b|
      ensures a[i] != b[j]
    {
      assert c[i] != c[|a| + j];
    }
  }

  lemma {:induction false} NamesDeclared(s: Stmt)
    ensures forall x :: x in DeclNames(s) <==> x in Decls(s)
    decreases s, 0
  {
    match s
    case If(_, conseq, alt) => NamesDeclared(conseq); NamesDeclared(alt);
    case Loop(body) => NamesDeclared(body);
    case Label(_, body) => NamesDeclared(body);
    case Block(ss) => NamesDeclaredSeq(ss);
    case _ =>
  }

  lemma {:induction false} NamesDeclaredSeq(ss: seq<Stmt>)
    ensures forall x :: x in DeclNamesSeq(ss) <==> x in DeclsSeq(ss)
    decreases ss, 0
  {
    if ss != [] {
      NamesDeclared(ss[0]);
      NamesDeclaredSeq(ss[1..]);
    }
  }

  lemma Apart(a: seq<Id>, b: seq<Id>, da: map<Id, Ty>, db: map<Id, Ty>)
    requires (forall x :: x in a <==> x in da) && (forall x :: x in b <==> x in db)
    ensures NoRepeats(a + b) <==> NoRepeats(a) && NoRepeats(b) && da.Keys !! db.Keys
  {
    NoRepeatsSplit(a, b);
    if da.Keys !! db.Keys { assert forall x <- a :: x in da.Keys && x !in db.Keys; }
    if forall x <- a :: x !in b { assert forall x <- da.Keys :: x in a && x !in db.Keys; }
  }

  lemma {:induction false} UniqueIff(s: Stmt)
    ensures Unique(s) <==> NoRepeats(DeclNames(s))
    decreases s, 0
  {
    match s
    case If(_, conseq, alt) =>
      UniqueIff(conseq);
      UniqueIff(alt);
      NamesDeclared(conseq);
      NamesDeclared(alt);
      Apart(DeclNames(conseq), DeclNames(alt), Decls(conseq), Decls(alt));
    case Loop(body) => UniqueIff(body);
    case Label(_, body) => UniqueIff(body);
    case Block(ss) => UniqueSeqIff(ss);
    case _ =>
  }

  lemma {:induction false} UniqueSeqIff(ss: seq<Stmt>)
    ensures UniqueSeq(ss) <==> NoRepeats(DeclNamesSeq(ss))
    decreases ss, 0
  {
    if ss != [] {
      UniqueIff(ss[0]);
      UniqueSeqIff(ss[1..]);
      NamesDeclared(ss[0]);
      NamesDeclaredSeq(ss[1..]);
      Apart(DeclNames(ss[0]), DeclNamesSeq(ss[1..]), Decls(ss[0]), DeclsSeq(ss[1..]));
    }
  }

  lemma {:induction false} ParamsDeclared(params: seq<(Id, Ty)>)
    ensures forall x :: x in ParamNames(params) <==> x in ParamTypes(params)
    decreases |params|
  {
    if params != [] {
      var n := |params| - 1;
      ParamsDeclared(params[..n]);
      assert ParamNames(params) == ParamNames(params[..n]) + [params[n].0];
    }
  }

  // What the theorems ask of the names of a function: that no two of its parameters and its
  // declarations have the same one.
  lemma WellNamedIff(f: Function)
    ensures WellNamed(f) <==> NoRepeats(ParamNames(f.params) + DeclNames(f.body))
  {
    ParamsDeclared(f.params);
    NamesDeclared(f.body);
    UniqueIff(f.body);
    Apart(ParamNames(f.params), DeclNames(f.body), ParamTypes(f.params), Decls(f.body));
    ParamsUnique(f.params, ParamNames(f.params));
  }

  lemma ParamsUnique(params: seq<(Id, Ty)>, names: seq<Id>)
    requires |names| == |params| && forall i {:trigger names[i]} {:trigger params[i]} :: 0 <= i < |params| ==> names[i] == params[i].0
    ensures UniqueParams(params) <==> NoRepeats(names)
  {
    if NoRepeats(names) {
      forall i, j | 0 <= i < j < |params|
        ensures params[i].0 != params[j].0
      {
        assert names[i] != names[j];
      }
    }
  }

  ghost predicate CompilesTo(f: Function, c: Compiled, cx: Context) {
    && WellNamed(f) && FunctionCode(f, cx).Some?
    && c == Compiled(SigOf(FnTypeOf(f)), |FunctionCode(f, cx).value.1.locals|, FunctionCode(f, cx).value.0)
  }

  // The module holds the code of every function of the program.
  ghost predicate Compiles<W>(p: Program<W>, wm: Module<W>, cx: Context) {
    Linked(p, wm, cx) && |wm.funs| == |p.funs| && forall i :: 0 <= i < |p.funs| ==> CompilesTo(p.funs[i], wm.funs[i], cx)
  }

  // The machine's comparison of signatures is the comparison of what the types hold.
  lemma AcceptsExact(f: Function, t: Option<FnType>, n: nat)
    ensures Accepts(f, t, n) <==> MayCall(SigOf(FnTypeOf(f)), Expected(t), n)
  {
    var own := SigOf(FnTypeOf(f));
    SigExact(FnTypeOf(f));
    assert forall i :: 0 <= i < |f.params| ==> own.params[i] == Width(FnTypeOf(f).args[i]) == Width(f.params[i].1);
    if t.Some? {
      var sig := SigOf(t.value);
      SigExact(t.value);
      if |t.value.args| == |f.params| { SameElements(sig.params, own.params); }
      assert |t.value.args| != |f.params| ==> sig != own;
    }
  }

  // A signature has the width of each argument at its place, and that of the result.
  lemma SigExact(t: FnType)
    ensures var sig := SigOf(t);
            && |sig.params| == |t.args| && (forall i {:trigger sig.params[i]} :: 0 <= i < |t.args| ==> sig.params[i] == Width(t.args[i]))
            && sig.result == if t.result.Some? then Some(Width(t.result.value)) else None
  {
    forall ty
      ensures AsWasm(ty) == Width(ty)
    {
      AsWasmExact(Words(w => 0, w => (0, 0), w => NoPointer), ty, 0);
    }
  }

  lemma SameElements(a: seq<ValType>, b: seq<ValType>)
    requires |a| == |b|
    ensures a == b <==> forall i :: 0 <= i < |a| ==> a[i] == b[i]
  {
  }

  // A call does what the function does, and gives the caller its shadow frames back.
  lemma {:induction false} CallSim<W>(p: Program<W>, wm: Module<W>, cx: Context, index: int, t: Option<FnType>, vs: seq<int>, m: Machine<W>,
                                      w: W, fuel: nat)
    requires Compiles(p, wm, cx)
    ensures ExprRan(RunCall(wm, index, Expected(t), |vs|, m.(stack := m.stack + vs, world := w), fuel), m, CallFunction(p, index, t, vs, w, fuel))
    decreases fuel, 0, 0
  {
    Popped(m, vs, w);
    var i := index - p.globals.imports;
    if 0 <= i < |p.funs| {
      var f := p.funs[i];
      assert CompilesTo(f, wm.funs[i], cx);
      AcceptsExact(f, t, |vs|);
      if Accepts(f, t, |vs|) && fuel > 0 {
        FunctionCorrect(p, wm, f, cx, vs, w, m.frames, m.words, fuel - 1);
        var c := wm.funs[i];
        AfterCall(Exec(p, f.body, EntryVars(f, vs, w), fuel - 1), RunCode(wm, c.code, Entry(vs, c.locals, w, m.frames, m.words), fuel - 1), m, w);
      }
    }
  }

  lemma AfterCall<W>(r: Result<W>, r1: Run<W>, m: Machine<W>, w: W)
    requires FunctionRuns(r, r1, m.frames)
    ensures ExprRan(Resumed(m.(world := w), r1), m, AnswerOf(r))
  {
  }

  lemma IndirectRuns<W>(wm: Module<W>, i: nat, sig: Sig, n: nat, m: Machine<W>, fuel: nat)
    requires i < |m.locals|
    ensures RunCode(wm, [Do(GetLocal(i)), Do(CallIndirect(sig, n))], m, fuel) == RunCall(wm, m.locals[i], Some(sig), n, m, fuel)
  {
    var code := [Do(GetLocal(i)), Do(CallIndirect(sig, n))];
    assert code[1..] == [code[1]];
    RunOne(wm, code[1], Push(m, m.locals[i]), fuel);
    assert Pop(Push(m, m.locals[i]), 1).stack == m.stack;
  }

  lemma LocalCallRuns<W>(wm: Module<W>, i: nat, op: string, m: Machine<W>, fuel: nat)
    requires i < |m.locals|
    ensures AtomRan(RunCode(wm, [Do(GetLocal(i)), Do(Call(op, 1))], m, fuel), m, wm.rt.call(op, [m.locals[i]], m.world))
  {
    var code := [Do(GetLocal(i)), Do(Call(op, 1))];
    assert code[1..] == [code[1]];
    CallRuns(wm, op, [m.locals[i]], m, m.world, fuel);
  }

  lemma {:induction false} ExprRuns<W>(p: Program<W>, wm: Module<W>, e: Expr, ids: map<Id, (nat, Ty)>, cx: Context, st: Store<W>,
                                       m: Machine<W>, fuel: nat)
    requires Compiles(p, wm, cx) && ExprCode(e, ids, cx).Some? && Ready(p, wm, cx, ids, st, m)
    ensures ExprRan(RunCode(wm, ExprCode(e, ids, cx).value, m, fuel), m, EvalExpr(p, e, st, fuel))
    decreases fuel, 1, e, 0
  {
    match e
    case Simple(a) => AtomRuns(p, wm, a, ids, cx, st, m, fuel);
    case CallFn(f, args) => NamedCallRuns(p, wm, f, args, ids, cx, st, m, fuel);
    case ClosureCall(f, args) => ClosureCallRuns(p, wm, f, args, ids, cx, st, m, fuel);
  }

  lemma {:induction false} NamedCallRuns<W>(p: Program<W>, wm: Module<W>, f: Id, args: seq<Id>, ids: map<Id, (nat, Ty)>, cx: Context,
                                            st: Store<W>, m: Machine<W>, fuel: nat)
    requires Compiles(p, wm, cx) && ExprCode(CallFn(f, args), ids, cx).Some? && Ready(p, wm, cx, ids, st, m)
    ensures ExprRan(RunCode(wm, ExprCode(CallFn(f, args), ids, cx).value, m, fuel), m, EvalExpr(p, CallFn(f, args), st, fuel))
    decreases fuel, 0, 3
  {
    ArgsRun(p, wm, Gets(args), ids, cx, st, m, fuel);
    RunConcat(wm, ArgsCode(Gets(args), ids, cx).value, CallCode(f, |args|, ids, cx).value, m, fuel);
    match EvalArgs(p, Gets(args), st) {
      case ArgsTrap(_) =>
      case Args(vs, w) => CallNamedRuns(p, wm, f, vs, ids, cx, st, m, w, fuel);
    }
  }

  lemma {:induction false} CallNamedRuns<W>(p: Program<W>, wm: Module<W>, f: Id, vs: seq<int>, ids: map<Id, (nat, Ty)>, cx: Context,
                                            st: Store<W>, m: Machine<W>, w: W, fuel: nat)
    requires Compiles(p, wm, cx) && CallCode(f, |vs|, ids, cx).Some? && Ready(p, wm, cx, ids, st, m)
    ensures ExprRan(RunCode(wm, CallCode(f, |vs|, ids, cx).value, m.(stack := m.stack + vs, world := w), fuel), m,
                    CallNamed(p, f, st, vs, w, fuel))
    decreases fuel, 0, 2
  {
    if f in ids {
      IndirectCallRuns(p, wm, f, vs, ids, cx, st, m, w, fuel);
    } else {
      DirectCallRuns(p, wm, f, vs, ids, cx, st, m, w, fuel);
    }
  }

  lemma {:induction false} DirectCallRuns<W>(p: Program<W>, wm: Module<W>, f: Id, vs: seq<int>, ids: map<Id, (nat, Ty)>, cx: Context,
                                             st: Store<W>, m: Machine<W>, w: W, fuel: nat)
    requires Compiles(p, wm, cx) && CallCode(f, |vs|, ids, cx).Some? && Ready(p, wm, cx, ids, st, m) && f !in ids
    ensures ExprRan(RunCode(wm, CallCode(f, |vs|, ids, cx).value, m.(stack := m.stack + vs, world := w), fuel), m,
                    CallNamed(p, f, st, vs, w, fuel))
    decreases fuel, 0, 1
  {
    var index := cx.globals.imports + cx.globals.names[f];
    assert f !in st.types && ValueOf(p, st, f) == index;
    RunOne(wm, Do(CallFun(index, |vs|)), m.(stack := m.stack + vs, world := w), fuel);
    CallSim(p, wm, cx, index, None, vs, m, w, fuel);
  }

  lemma {:induction false} IndirectCallRuns<W>(p: Program<W>, wm: Module<W>, f: Id, vs: seq<int>, ids: map<Id, (nat, Ty)>, cx: Context,
                                               st: Store<W>, m: Machine<W>, w: W, fuel: nat)
    requires Compiles(p, wm, cx) && CallCode(f, |vs|, ids, cx).Some? && Ready(p, wm, cx, ids, st, m) && f in ids
    ensures ExprRan(RunCode(wm, CallCode(f, |vs|, ids, cx).value, m.(stack := m.stack + vs, world := w), fuel), m,
                    CallNamed(p, f, st, vs, w, fuel))
    decreases fuel, 0, 1
  {
    IndirectRuns(wm, ids[f].0, SigOf(ids[f].1.fn), |vs|, m.(stack := m.stack + vs, world := w), fuel);
    CallSim(p, wm, cx, Lookup(st, f), Some(ids[f].1.fn), vs, m, w, fuel);
  }

  // A closure's function runs with the closure's environment in front of the arguments.
  lemma {:induction false} ClosureCallRuns<W>(p: Program<W>, wm: Module<W>, f: Id, args: seq<Id>, ids: map<Id, (nat, Ty)>, cx: Context,
                                              st: Store<W>, m: Machine<W>, fuel: nat)
    requires Compiles(p, wm, cx) && ExprCode(ClosureCall(f, args), ids, cx).Some? && Ready(p, wm, cx, ids, st, m)
    ensures ExprRan(RunCode(wm, ExprCode(ClosureCall(f, args), ids, cx).value, m, fuel), m, EvalExpr(p, ClosureCall(f, args), st, fuel))
    decreases fuel, 0, 3
  {
    var i, sig := ids[f].0, SigOf(ids[f].1.fn);
    var get := Do(GetLocal(i));
    var enter, code := [get, Do(Call("closure_env", 1))], ArgsCode(Gets(args), ids, cx).value;
    var call := [get, Do(Call("closure_func", 1)), Do(CallIndirect(sig, |args| + 1))];
    assert enter + code + call == enter + (code + call);
    RunConcat(wm, enter, code + call, m, fuel);
    LocalCallRuns(wm, i, "closure_env", m, fuel);
    match p.rt.call("closure_env", [Lookup(st, f)], st.world) {
      case Trapping(_) =>
      case Val(env, w) => WithEnvRuns(p, wm, f, args, env, ids, cx, st.(world := w), m.(world := w), fuel);
    }
  }

  lemma {:induction false} WithEnvRuns<W>(p: Program<W>, wm: Module<W>, f: Id, args: seq<Id>, env: int, ids: map<Id, (nat, Ty)>, cx: Context,
                                          st: Store<W>, m: Machine<W>, fuel: nat)
    requires Compiles(p, wm, cx) && ExprCode(ClosureCall(f, args), ids, cx).Some? && Ready(p, wm, cx, ids, st, m)
    ensures var i, sig := ids[f].0, SigOf(ids[f].1.fn);
            ExprRan(RunCode(wm, ArgsCode(Gets(args), ids, cx).value
                                + [Do(GetLocal(i)), Do(Call("closure_func", 1)), Do(CallIndirect(sig, |args| + 1))], Push(m, env), fuel),
                    m, CallWithEnv(p, f, args, env, st, fuel))
    decreases fuel, 0, 2
  {
    var code := ArgsCode(Gets(args), ids, cx).value;
    var call := [Do(GetLocal(ids[f].0)), Do(Call("closure_func", 1)), Do(CallIndirect(SigOf(ids[f].1.fn), |args| + 1))];
    RunConcat(wm, code, call, Push(m, env), fuel);
    ArgsRun(p, wm, Gets(args), ids, cx, st, Push(m, env), fuel);
    match EvalArgs(p, Gets(args), st) {
      case ArgsTrap(_) =>
      case Args(vs, w) =>
        assert m.stack + [env] + vs == m.stack + ([env] + vs);
        CallClosureRuns(p, wm, f, [env] + vs, ids, cx, st, m, w, fuel);
    }
  }

  lemma {:induction false} CallClosureRuns<W>(p: Program<W>, wm: Module<W>, f: Id, vs: seq<int>, ids: map<Id, (nat, Ty)>, cx: Context,
                                              st: Store<W>, m: Machine<W>, w: W, fuel: nat)
    requires Compiles(p, wm, cx) && Ready(p, wm, cx, ids, st, m) && f in ids && ids[f].1.Closure?
    ensures var i, sig := ids[f].0, SigOf(ids[f].1.fn);
            ExprRan(RunCode(wm, [Do(GetLocal(i)), Do(Call("closure_func", 1)), Do(CallIndirect(sig, |vs|))],
                            m.(stack := m.stack + vs, world := w), fuel),
                    m, CallClosure(p, f, st, vs, w, fuel))
    decreases fuel, 0, 1
  {
    var sig := SigOf(ids[f].1.fn);
    ClosureFuncRuns(wm, ids[f].0, sig, |vs|, m.(stack := m.stack + vs, world := w), fuel);
    match p.rt.call("closure_func", [Lookup(st, f)], w) {
      case Trapping(_) =>
      case Val(index, w1) => CallSim(p, wm, cx, index, Some(ids[f].1.fn), vs, m, w1, fuel);
    }
  }

  // The closure's function is looked up and called.
  ghost predicate FoundAndRan<W>(r: Run<W>, wm: Module<W>, sig: Sig, n: nat, m: Machine<W>, a: Answer<W>, fuel: nat) {
    match a
    case Trapping(w) => r.Ran? && r.exit == Trapped && r.m.world == w
    case Val(index, w) => r == RunCall(wm, index, Some(sig), n, m.(world := w), fuel)
  }

  lemma ClosureFuncRuns<W>(wm: Module<W>, i: nat, sig: Sig, n: nat, m: Machine<W>, fuel: nat)
    requires i < |m.locals|
    ensures FoundAndRan(RunCode(wm, [Do(GetLocal(i)), Do(Call("closure_func", 1)), Do(CallIndirect(sig, n))], m, fuel),
                        wm, sig, n, m, wm.rt.call("closure_func", [m.locals[i]], m.world), fuel)
  {
    var find, call := [Do(GetLocal(i)), Do(Call("closure_func", 1))], [Do(CallIndirect(sig, n))];
    assert find + call == [Do(GetLocal(i)), Do(Call("closure_func", 1)), Do(CallIndirect(sig, n))];
    RunConcat(wm, find, call, m, fuel);
    LocalCallRuns(wm, i, "closure_func", m, fuel);
    match wm.rt.call("closure_func", [m.locals[i]], m.world) {
      case Trapping(_) =>
      case Val(index, w) =>
        var m1 := Push(m, index).(world := w);
        RunOne(wm, call[0], m1, fuel);
        assert Pop(m1, 1).stack == m.stack;
    }
  }

  // ----- Statements -----

  // What a variable's slot in the shadow frame holds: the heap address in its value, if there is one,
  // once a statement has set it.
  ghost function SlotOf<W>(words: Words, st: Store<W>, x: Id, ty: Ty): Slot {
    if x in st.written then AddressIn(ValueAs(words, ty, Lookup(st, x))) else None
  }

  lemma RootsHeld(words: Words, ty: Ty, word: int)
    ensures AddressIn(ValueAs(words, ty, word)) == if IsGcRoot(ty) then RootOf(words, ShadowFrameFn(ty), word) else None
  {
  }

  // The machine inside a function whose identifiers are, in the end, those of f; `base` are the
  // shadow frames of its callers.
  ghost predicate Mirrors<W>(st: Store<W>, m: Machine<W>, f: Scope, cx: Context, base: seq<seq<Slot>>) {
    && |m.locals| == f.next && Reads(st, m, f.ids)
    && if cx.gc then |m.frames| == |base| + 1 && m.frames[..|base|] == base && FrameMirrors(m.words, st, m.frames[|base|], f) else m.frames == base
  }

  ghost predicate FrameMirrors<W>(words: Words, st: Store<W>, frame: seq<Slot>, f: Scope) {
    |frame| == f.next && forall x <- f.ids :: f.ids[x].0 < |frame| && frame[f.ids[x].0] == SlotOf(words, st, x, f.ids[x].1)
  }

  ghost predicate Simulates<W>(r: Result<W>, r1: Run<W>, m: Machine<W>, labels: Labels, f: Scope, cx: Context, base: seq<seq<Slot>>) {
    && r.Done? == r1.Ran?
    && (r.Done? ==>
        && r1.m.world == r.st.world
        && match r.c
           case Normal => r1.exit == Fall && r1.m.stack == m.stack && Mirrors(r.st, r1.m, f, cx, base)
           case Breaks(l) =>
             && IndexOf(labels, l).Some? && r1.exit == BrTo(IndexOf(labels, l).value)
             && r1.m.stack == m.stack && Mirrors(r.st, r1.m, f, cx, base)
           case Returns(v) => r1.exit == Ret(v) && r1.m.frames == base
           case Traps => r1.exit == Trapped)
  }

  // Setting the local, and its slot if it is a root.
  lemma WriteRuns<W>(wm: Module<W>, x: Id, v: int, st: Store<W>, m: Machine<W>, f: Scope, cx: Context, base: seq<seq<Slot>>, fuel: nat)
    requires Mirrors(st, m, f, cx, base) && Good(f) && x in f.ids
    ensures var r1 := RunCode(wm, WriteCode(f.ids[x].0, f.ids[x].1, cx.gc), Push(m, v), fuel);
            r1.Ran? && r1.exit == Fall && r1.m.stack == m.stack && Mirrors(Written(st, x, v), r1.m, f, cx, base)
  {
    var (i, ty) := f.ids[x];
    var m1 := m.(locals := m.locals[i := v]);
    if !cx.gc || !IsGcRoot(ty) {
      RunOne(wm, Do(SetLocal(i)), Push(m, v), fuel);
      assert Push(m, v).stack[..|m.stack|] == m.stack;
      assert RunCode(wm, WriteCode(i, ty, cx.gc), Push(m, v), fuel) == Ran(Fall, m1);
      if cx.gc { PlainWriteMirrors(m.words, st, m.frames[|base|], f, x, v); }
    } else {
      SlotWriteRuns(wm, i, ty, v, m, |base|, fuel);
      SlotWriteMirrors(m.words, st, m.frames[|base|], f, x, v);
    }
  }

  lemma PlainWriteMirrors<W>(words: Words, st: Store<W>, frame: seq<Slot>, f: Scope, x: Id, v: int)
    requires FrameMirrors(words, st, frame, f) && Good(f) && x in f.ids && !IsGcRoot(f.ids[x].1)
    ensures FrameMirrors(words, Written(st, x, v), frame, f)
  {
    RootsHeld(words, f.ids[x].1, v);
    RootsHeld(words, f.ids[x].1, Lookup(st, x));
    OthersMirror(words, st, f, x, v);
  }

  lemma SlotWriteMirrors<W>(words: Words, st: Store<W>, frame: seq<Slot>, f: Scope, x: Id, v: int)
    requires FrameMirrors(words, st, frame, f) && Good(f) && x in f.ids && IsGcRoot(f.ids[x].1)
    ensures FrameMirrors(words, Written(st, x, v), frame[f.ids[x].0 := RootOf(words, ShadowFrameFn(f.ids[x].1), v)], f)
  {
    RootsHeld(words, f.ids[x].1, v);
    OthersMirror(words, st, f, x, v);
  }

  lemma OthersMirror<W>(words: Words, st: Store<W>, f: Scope, x: Id, v: int)
    ensures forall y <- f.ids :: y != x ==> SlotOf(words, Written(st, x, v), y, f.ids[y].1) == SlotOf(words, st, y, f.ids[y].1)
    ensures forall ty :: SlotOf(words, Written(st, x, v), x, ty) == AddressIn(ValueAs(words, ty, v))
  {
  }

  lemma SlotWriteRuns<W>(wm: Module<W>, i: nat, ty: Ty, v: int, m: Machine<W>, top: nat, fuel: nat)
    requires i < |m.locals| && |m.frames| == top + 1 && i < |m.frames[top]| && IsGcRoot(ty)
    ensures RunCode(wm, WriteCode(i, ty, true), Push(m, v), fuel) ==
            Ran(Fall, m.(locals := m.locals[i := v], frames := m.frames[top := m.frames[top][i := RootOf(m.words, ShadowFrameFn(ty), v)]]))
  {
    var code := WriteCode(i, ty, true);
    var m1 := Push(m, v).(locals := m.locals[i := v]);
    var m2 := Push(m1, i);
    assert code[1..] == [Do(Const(i)), Do(SetSlot(ShadowFrameFn(ty)))] && code[1..][1..] == [Do(SetSlot(ShadowFrameFn(ty)))];
    assert RunNode(wm, code[0], Push(m, v), fuel) == Ran(Fall, m1);
    assert RunNode(wm, code[1], m1, fuel) == Ran(Fall, m2);
    assert m2.stack[|m2.stack| - 2] == v && m2.stack[..|m2.stack| - 2] == m.stack;
    RunOne(wm, Do(SetSlot(ShadowFrameFn(ty))), m2, fuel);
  }

  // What every statement of the function finds: sc is where the translator is, and the rest of the
  // translation only adds to it.
  ghost predicate Here<W>(s: Stmt, labels: Labels, sc: Scope, st: Store<W>, m: Machine<W>, f: Scope, cx: Context, base: seq<seq<Slot>>) {
    && StmtCode(s, labels, sc, cx).Some? && Unique(s) && Decls(s).Keys !! sc.ids.Keys
    && Within(StmtCode(s, labels, sc, cx).value.1, f) && Good(f) && Mirrors(st, m, f, cx, base) && Knows(st, sc.ids)
  }

  lemma ReadsWithin<W>(st: Store<W>, m: Machine<W>, sc: Scope, f: Scope)
    requires Reads(st, m, f.ids) && Within(sc, f)
    ensures Reads(st, m, sc.ids)
  {
  }

  lemma WorldMoves<W>(st: Store<W>, m: Machine<W>, w: W, f: Scope, cx: Context, base: seq<seq<Slot>>)
    requires Mirrors(st, m, f, cx, base)
    ensures Mirrors(st.(world := w), m.(world := w), f, cx, base)
  {
    if cx.gc {
      assert forall x <- f.ids :: SlotOf(m.words, st.(world := w), x, f.ids[x].1) == SlotOf(m.words, st, x, f.ids[x].1);
    }
  }

  // Which variables are in scope makes no difference to what the locals and slots hold.
  lemma RetypedMirrors<W>(st: Store<W>, st1: Store<W>, m: Machine<W>, f: Scope, cx: Context, base: seq<seq<Slot>>)
    requires Mirrors(st, m, f, cx, base) && st1 == st.(types := st1.types)
    ensures Mirrors(st1, m, f, cx, base)
  {
    if cx.gc {
      assert forall x <- f.ids :: SlotOf(m.words, st1, x, f.ids[x].1) == SlotOf(m.words, st, x, f.ids[x].1);
    }
  }

  lemma AfterKnows<W>(before: Store<W>, sc: Scope, sc1: Scope, s: Stmt, st: Store<W>)
    requires Knows(before, sc.ids) && Grown(sc, sc1, Decls(s)) && Decls(s).Keys !! sc.ids.Keys
    ensures Knows(After(before, s, st), sc1.ids)
  {
    JoinedKeys(before.types, Decls(s));
  }

  lemma {:induction false} WriteVarSim<W>(p: Program<W>, wm: Module<W>, x: Id, e: Expr, sc: Scope, st: Store<W>, m: Machine<W>, labels: Labels,
                                          f: Scope, cx: Context, base: seq<seq<Slot>>, fuel: nat)
    requires Compiles(p, wm, cx)
    requires ExprCode(e, sc.ids, cx).Some? && Within(sc, f) && Good(f) && Mirrors(st, m, f, cx, base) && Knows(st, sc.ids) && x in f.ids
    ensures Simulates(WriteVar(x, EvalExpr(p, e, st, fuel), st),
                      RunCode(wm, ExprCode(e, sc.ids, cx).value + WriteCode(f.ids[x].0, f.ids[x].1, cx.gc), m, fuel), m, labels, f, cx, base)
    decreases fuel, 1, e, 1
  {
    ReadsWithin(st, m, sc, f);
    ExprRuns(p, wm, e, sc.ids, cx, st, m, fuel);
    RunConcat(wm, ExprCode(e, sc.ids, cx).value, WriteCode(f.ids[x].0, f.ids[x].1, cx.gc), m, fuel);
    match EvalExpr(p, e, st, fuel) {
      case NoAnswer =>
      case Ended(Trapping(_)) =>
      case Ended(Val(v, w)) =>
        WorldMoves(st, m, w, f, cx, base);
        WriteRuns(wm, x, v, st.(world := w), m.(world := w), f, cx, base, fuel);
    }
  }

  lemma {:induction false} ExpressionSim<W>(p: Program<W>, wm: Module<W>, s: Stmt, sc: Scope, st: Store<W>, m: Machine<W>, labels: Labels,
                                            f: Scope, cx: Context, base: seq<seq<Slot>>, fuel: nat)
    requires Compiles(p, wm, cx)
    requires s.Expression? && Here(s, labels, sc, st, m, f, cx, base)
    ensures Simulates(Exec(p, s, st, fuel), RunCode(wm, StmtCode(s, labels, sc, cx).value.0, m, fuel), m, labels, f, cx, base)
    decreases fuel, 1, s, 1
  {
    ReadsWithin(st, m, sc, f);
    ExprRuns(p, wm, s.e, sc.ids, cx, st, m, fuel);
    RunConcat(wm, ExprCode(s.e, sc.ids, cx).value, [Do(DropTop)], m, fuel);
    match EvalExpr(p, s.e, st, fuel) {
      case NoAnswer =>
      case Ended(Trapping(_)) =>
      case Ended(Val(v, w)) =>
        WorldMoves(st, m, w, f, cx, base);
        DropRuns(wm, v, m.(world := w), fuel);
    }
  }

  lemma DropRuns<W>(wm: Module<W>, v: int, m: Machine<W>, fuel: nat)
    ensures RunCode(wm, [Do(DropTop)], Push(m, v), fuel) == Ran(Fall, m)
  {
    RunOne(wm, Do(DropTop), Push(m, v), fuel);
    assert Push(m, v).stack[..|m.stack|] == m.stack;
  }

  lemma {:induction false} StoreSim<W>(p: Program<W>, wm: Module<W>, s: Stmt, sc: Scope, st: Store<W>, m: Machine<W>, labels: Labels,
                                       f: Scope, cx: Context, base: seq<seq<Slot>>, fuel: nat)
    requires Compiles(p, wm, cx)
    requires s.Store? && Here(s, labels, sc, st, m, f, cx, base)
    ensures Simulates(Exec(p, s, st, fuel), RunCode(wm, StmtCode(s, labels, sc, cx).value.0, m, fuel), m, labels, f, cx, base)
    decreases fuel, 1, s, 1
  {
    ReadsWithin(st, m, sc, f);
    var get := [Do(GetLocal(sc.ids[s.x].0))];
    var code := ExprCode(s.e, sc.ids, cx).value;
    var m1 := Push(m, Lookup(st, s.x));
    RunOne(wm, get[0], m, fuel);
    RunConcat(wm, get + code, [Do(StoreTop)], m, fuel);
    RunConcat(wm, get, code, m, fuel);
    ExprRuns(p, wm, s.e, sc.ids, cx, st, m1, fuel);
    match EvalExpr(p, s.e, st, fuel) {
      case NoAnswer =>
      case Ended(Trapping(_)) =>
      case Ended(Val(v, w)) =>
        StoreTopRuns(wm, Lookup(st, s.x), v, m.(world := w), fuel);
        match p.rt.call("store", [Lookup(st, s.x), v], w) {
          case Trapping(_) =>
          case Val(_, w1) => WorldMoves(st, m, w1, f, cx, base);
        }
    }
  }

  lemma StoreTopRuns<W>(wm: Module<W>, a: int, v: int, m: Machine<W>, fuel: nat)
    ensures RunCode(wm, [Do(StoreTop)], Push(Push(m, a), v), fuel) ==
            match wm.rt.call("store", [a, v], m.world)
            case Trapping(w) => Ran(Trapped, Push(Push(m, a), v).(world := w))
            case Val(_, w) => Ran(Fall, m.(world := w))
  {
    var m2 := Push(Push(m, a), v);
    RunOne(wm, Do(StoreTop), m2, fuel);
    assert m2.stack[|m2.stack| - 2..] == [a, v] && m2.stack[..|m2.stack| - 2] == m.stack;
  }

  // The frame goes first, then the value is computed and returned.
  lemma LeaveRuns<W>(wm: Module<W>, code: seq<Node>, gc: bool, m: Machine<W>, base: seq<seq<Slot>>, fuel: nat)
    requires if gc then |m.frames| == |base| + 1 && m.frames[..|base|] == base else m.frames == base
    ensures RunCode(wm, (if gc then [Do(GcExitFn)] else []) + code + [Do(ReturnTop)], m, fuel) ==
            var r := RunCode(wm, code, m.(frames := base), fuel);
            if r.Ran? && r.exit == Fall then Step(wm.rt, ReturnTop, r.m) else r
  {
    var leave := if gc then [Do(GcExitFn)] else [];
    var m1 := m.(frames := base);
    RunConcat(wm, leave + code, [Do(ReturnTop)], m, fuel);
    RunConcat(wm, leave, code, m, fuel);
    if gc { RunOne(wm, Do(GcExitFn), m, fuel); }
    assert RunCode(wm, leave, m, fuel) == Ran(Fall, m1);
    var r := RunCode(wm, code, m1, fuel);
    if r.Ran? { RunOne(wm, Do(ReturnTop), r.m, fuel); }
  }

  lemma ReturnSim<W>(p: Program<W>, wm: Module<W>, s: Stmt, sc: Scope, st: Store<W>, m: Machine<W>, labels: Labels, f: Scope, cx: Context,
                     base: seq<seq<Slot>>, fuel: nat)
    requires Compiles(p, wm, cx)
    requires s.Return? && Here(s, labels, sc, st, m, f, cx, base)
    ensures Simulates(Exec(p, s, st, fuel), RunCode(wm, StmtCode(s, labels, sc, cx).value.0, m, fuel), m, labels, f, cx, base)
  {
    ReadsWithin(st, m, sc, f);
    var code := AtomCode(s.a, sc.ids, cx).value;
    var m1 := m.(frames := base);
    LeaveRuns(wm, code, cx.gc, m, base, fuel);
    AtomRuns(p, wm, s.a, sc.ids, cx, st, m1, fuel);
  }

  // ----- Blocks, branches and loops -----

  // One block further out: a break to l stops at a block labelled l, any other goes on.
  lemma LeaveSim<W>(r: Result<W>, r1: Run<W>, m: Machine<W>, own: Option<Id>, labels: Labels, f: Scope, cx: Context, base: seq<seq<Slot>>)
    requires Simulates(r, r1, m, [own] + labels, f, cx, base)
    ensures Simulates(if r.Done? && r.c.Breaks? && own == Some(r.c.l) then Done(Normal, r.st) else r, Leave(r1), m, labels, f, cx, base)
  {
    if r.Done? && r.c.Breaks? {
      assert ([own] + labels)[0] == own && ([own] + labels)[1..] == labels;
    }
  }

  // Every statement and its code run in step: the same variables, the same world, the same exit, a
  // break reaching exactly the block that carries its label.
  lemma {:induction false} StmtSim<W>(p: Program<W>, wm: Module<W>, s: Stmt, labels: Labels, sc: Scope, st: Store<W>, m: Machine<W>,
                                      f: Scope, cx: Context, base: seq<seq<Slot>>, fuel: nat)
    requires Compiles(p, wm, cx)
    requires Here(s, labels, sc, st, m, f, cx, base)
    ensures Simulates(Exec(p, s, st, fuel), RunCode(wm, StmtCode(s, labels, sc, cx).value.0, m, fuel), m, labels, f, cx, base)
    decreases fuel, 1, s, 2
  {
    match s
    case Empty =>
    case Var(x, ty, e) => VarSim(p, wm, s, labels, sc, st, m, f, cx, base, fuel);
    case Expression(_) => ExpressionSim(p, wm, s, sc, st, m, labels, f, cx, base, fuel);
    case Assign(x, e) => WriteVarSim(p, wm, x, e, sc, st, m, labels, f, cx, base, fuel);
    case Store(_, _) => StoreSim(p, wm, s, sc, st, m, labels, f, cx, base, fuel);
    case If(_, _, _) => IfSim(p, wm, s, labels, sc, st, m, f, cx, base, fuel);
    case Loop(_) => LoopSim(p, wm, s, labels, sc, st, m, f, cx, base, fuel);
    case Label(_, _) => LabelSim(p, wm, s, labels, sc, st, m, f, cx, base, fuel);
    case Break(l) => RunOne(wm, Do(Br(IndexOf(labels, l).value)), m, fuel);
    case Return(_) => ReturnSim(p, wm, s, sc, st, m, labels, f, cx, base, fuel);
    case Block(ss) => SeqSim(p, wm, ss, labels, sc, st, m, f, cx, base, fuel);
    case Trap => RunOne(wm, Do(Unreachable), m, fuel);
  }

  lemma {:induction false} LabelSim<W>(p: Program<W>, wm: Module<W>, s: Stmt, labels: Labels, sc: Scope, st: Store<W>, m: Machine<W>,
                                       f: Scope, cx: Context, base: seq<seq<Slot>>, fuel: nat)
    requires Compiles(p, wm, cx)
    requires s.Label? && Here(s, labels, sc, st, m, f, cx, base)
    ensures Simulates(Exec(p, s, st, fuel), RunCode(wm, StmtCode(s, labels, sc, cx).value.0, m, fuel), m, labels, f, cx, base)
    decreases fuel, 1, s, 1
  {
    var inner := [Some(s.l)] + labels;
    var code := StmtCode(s.body, inner, sc, cx).value.0;
    StmtSim(p, wm, s.body, inner, sc, st, m, f, cx, base, fuel);
    RunOne(wm, BlockOf(code), m, fuel);
    LeaveSim(Exec(p, s.body, st, fuel), RunCode(wm, code, m, fuel), m, Some(s.l), labels, f, cx, base);
  }

  lemma {:induction false} VarSim<W>(p: Program<W>, wm: Module<W>, s: Stmt, labels: Labels, sc: Scope, st: Store<W>, m: Machine<W>, f: Scope,
                                     cx: Context, base: seq<seq<Slot>>, fuel: nat)
    requires Compiles(p, wm, cx)
    requires s.Var? && Here(s, labels, sc, st, m, f, cx, base)
    ensures Simulates(Exec(p, s, st, fuel), RunCode(wm, StmtCode(s, labels, sc, cx).value.0, m, fuel), m, labels, f, cx, base)
    decreases fuel, 1, s, 1
  {
    var sc1 := Declare(sc, s.x, s.ty);
    assert s.x in sc1.ids && f.ids[s.x] == (sc.next, s.ty);
    ScopeGrows(s, labels, sc, cx);
    if !IsInit(s.ty, s.named) {
      WriteVarSim(p, wm, s.x, s.named, sc, st, m, labels, f, cx, base, fuel);
    }
  }

  lemma IfRuns<W>(wm: Module<W>, thn: seq<Node>, els: seq<Node>, v: int, m: Machine<W>, fuel: nat)
    ensures RunCode(wm, [IfOf(thn, els)], Push(m, v), fuel) == Leave(RunCode(wm, if v != 0 then thn else els, m, fuel))
  {
    RunOne(wm, IfOf(thn, els), Push(m, v), fuel);
    assert Pop(Push(m, v), 1).stack == m.stack;
  }

  lemma {:induction false} IfSim<W>(p: Program<W>, wm: Module<W>, s: Stmt, labels: Labels, sc: Scope, st: Store<W>, m: Machine<W>, f: Scope,
                                    cx: Context, base: seq<seq<Slot>>, fuel: nat)
    requires Compiles(p, wm, cx)
    requires s.If? && Here(s, labels, sc, st, m, f, cx, base)
    ensures Simulates(Exec(p, s, st, fuel), RunCode(wm, StmtCode(s, labels, sc, cx).value.0, m, fuel), m, labels, f, cx, base)
    decreases fuel, 1, s, 1
  {
    var inner := [None] + labels;
    var code := AtomCode(s.cond, sc.ids, cx).value;
    var (thn, sc1) := StmtCode(s.conseq, inner, sc, cx).value;
    var (els, sc2) := StmtCode(s.alt, inner, sc1, cx).value;
    ScopeGrows(s.conseq, inner, sc, cx);
    ScopeGrows(s.alt, inner, sc1, cx);
    ReadsWithin(st, m, sc, f);
    AtomRuns(p, wm, s.cond, sc.ids, cx, st, m, fuel);
    RunConcat(wm, code, [IfOf(thn, els)], m, fuel);
    match EvalAtom(p, s.cond, st) {
      case Trapping(_) =>
      case Val(v, w) =>
        var st1, m1 := st.(world := w), m.(world := w);
        WorldMoves(st, m, w, f, cx, base);
        IfRuns(wm, thn, els, v, m1, fuel);
        if v != 0 {
          StmtSim(p, wm, s.conseq, inner, sc, st1, m1, f, cx, base, fuel);
          LeaveSim(Exec(p, s.conseq, st1, fuel), RunCode(wm, thn, m1, fuel), m1, None, labels, f, cx, base);
        } else {
          var st2 := After(st, s.conseq, st1);
          AfterKnows(st, sc, sc1, s.conseq, st1);
          RetypedMirrors(st1, st2, m1, f, cx, base);
          StmtSim(p, wm, s.alt, inner, sc1, st2, m1, f, cx, base, fuel);
          LeaveSim(Exec(p, s.alt, st2, fuel), RunCode(wm, els, m1, fuel), m1, None, labels, f, cx, base);
        }
    }
  }

  lemma {:induction false} SeqSim<W>(p: Program<W>, wm: Module<W>, ss: seq<Stmt>, labels: Labels, sc: Scope, st: Store<W>, m: Machine<W>,
                                     f: Scope, cx: Context, base: seq<seq<Slot>>, fuel: nat)
    requires Compiles(p, wm, cx)
    requires SeqCode(ss, labels, sc, cx).Some? && UniqueSeq(ss) && DeclsSeq(ss).Keys !! sc.ids.Keys
    requires Within(SeqCode(ss, labels, sc, cx).value.1, f) && Good(f) && Mirrors(st, m, f, cx, base) && Knows(st, sc.ids)
    ensures Simulates(ExecSeq(p, ss, st, fuel), RunCode(wm, SeqCode(ss, labels, sc, cx).value.0, m, fuel), m, labels, f, cx, base)
    decreases fuel, 1, ss, 0
  {
    if ss != [] {
      var (code, sc1) := StmtCode(ss[0], labels, sc, cx).value;
      var (rest, sc2) := SeqCode(ss[1..], labels, sc1, cx).value;
      ScopeGrows(ss[0], labels, sc, cx);
      ScopeGrowsSeq(ss[1..], labels, sc1, cx);
      StmtSim(p, wm, ss[0], labels, sc, st, m, f, cx, base, fuel);
      RunConcat(wm, code, rest, m, fuel);
      var r, r1 := Exec(p, ss[0], st, fuel), RunCode(wm, code, m, fuel);
      if r.Done? && r.c == Normal {
        var st1 := After(st, ss[0], r.st);
        AfterKnows(st, sc, sc1, ss[0], r.st);
        RetypedMirrors(r.st, st1, r1.m, f, cx, base);
        SeqSim(p, wm, ss[1..], labels, sc1, st1, r1.m, f, cx, base, fuel);
        SameStack(ExecSeq(p, ss[1..], st1, fuel), RunCode(wm, rest, r1.m, fuel), r1.m, m, labels, f, cx, base);
      }
    }
  }

  lemma SameStack<W>(r: Result<W>, r1: Run<W>, m: Machine<W>, m1: Machine<W>, labels: Labels, f: Scope, cx: Context, base: seq<seq<Slot>>)
    requires Simulates(r, r1, m, labels, f, cx, base) && m.stack == m1.stack
    ensures Simulates(r, r1, m1, labels, f, cx, base)
  {
  }

  lemma {:induction false} LoopSim<W>(p: Program<W>, wm: Module<W>, s: Stmt, labels: Labels, sc: Scope, st: Store<W>, m: Machine<W>,
                                      f: Scope, cx: Context, base: seq<seq<Slot>>, fuel: nat)
    requires Compiles(p, wm, cx)
    requires s.Loop? && Here(s, labels, sc, st, m, f, cx, base)
    ensures Simulates(Exec(p, s, st, fuel), RunCode(wm, StmtCode(s, labels, sc, cx).value.0, m, fuel), m, labels, f, cx, base)
    decreases fuel, 1, s, 1
  {
    var inner := [None] + labels;
    var code := StmtCode(s.body, inner, sc, cx).value.0;
    RunOne(wm, LoopOf(code + [Do(Br(0))]), m, fuel);
    RoundsSim(p, wm, s.body, labels, sc, st, m, f, cx, base, fuel);
  }

  lemma {:induction false} RoundsSim<W>(p: Program<W>, wm: Module<W>, body: Stmt, labels: Labels, sc: Scope, st: Store<W>, m: Machine<W>,
                                        f: Scope, cx: Context, base: seq<seq<Slot>>, fuel: nat)
    requires Compiles(p, wm, cx)
    requires Here(body, [None] + labels, sc, st, m, f, cx, base)
    ensures Simulates(ExecLoop(p, body, st, fuel),
                      RunLoop(wm, StmtCode(body, [None] + labels, sc, cx).value.0 + [Do(Br(0))], m, fuel), m, labels, f, cx, base)
    decreases fuel, 1, body, 3
  {
    if fuel > 0 {
      var inner := [None] + labels;
      var code := StmtCode(body, inner, sc, cx).value.0;
      StmtSim(p, wm, body, inner, sc, st, m, f, cx, base, fuel);
      RoundRuns(wm, code, m, fuel);
      var r, r1 := Exec(p, body, st, fuel), RunCode(wm, code, m, fuel);
      if r.Done? && r.c == Normal {
        var st1 := r.st.(types := st.types);
        RetypedMirrors(r.st, st1, r1.m, f, cx, base);
        RoundsSim(p, wm, body, labels, sc, st1, r1.m, f, cx, base, fuel - 1);
        SameStack(ExecLoop(p, body, st1, fuel - 1), RunLoop(wm, code + [Do(Br(0))], r1.m, fuel - 1), r1.m, m, labels, f, cx, base);
      } else {
        LeaveSim(r, r1, m, None, labels, f, cx, base);
        if r.Done? && r.c.Breaks? { NoBreakToLoop(labels, r.c.l); }
      }
    }
  }

  // One round of an emitted loop: the branch at its end takes it back.
  lemma RoundRuns<W>(wm: Module<W>, code: seq<Node>, m: Machine<W>, fuel: nat)
    requires fuel > 0
    ensures RunLoop(wm, code + [Do(Br(0))], m, fuel) ==
            var r := RunCode(wm, code, m, fuel);
            if r.Ran? && (r.exit == Fall || r.exit == BrTo(0)) then RunLoop(wm, code + [Do(Br(0))], r.m, fuel - 1) else Leave(r)
  {
    RunConcat(wm, code, [Do(Br(0))], m, fuel);
    var r := RunCode(wm, code, m, fuel);
    if r.Ran? { RunOne(wm, Do(Br(0)), r.m, fuel); }
  }

  lemma NoBreakToLoop(labels: Labels, l: Id)
    requires IndexOf([None] + labels, l).Some?
    ensures IndexOf([None] + labels, l).value > 0
  {
  }

  // ----- Functions -----

  ghost predicate UniqueParams(params: seq<(Id, Ty)>) {
    forall i, j :: 0 <= i < j < |params| ==> params[i].0 != params[j].0
  }

  // Every parameter has the index of its place and its type, and nothing else is in scope.
  ghost predicate HoldsParams(params: seq<(Id, Ty)>, sc: Scope) {
    && sc.next == |params| && sc.locals == []
    && (forall i :: 0 <= i < |params| ==> params[i].0 in sc.ids && sc.ids[params[i].0] == (i, params[i].1))
    && (forall x <- sc.ids :: sc.ids[x].0 < |params| && params[sc.ids[x].0].0 == x)
  }

  lemma OneMoreParam(params: seq<(Id, Ty)>, before: Scope)
    requires UniqueParams(params) && params != [] && Good(before) && HoldsParams(params[..|params| - 1], before)
    ensures var p := params[|params| - 1];
            var sc := Scope(before.ids[p.0 := (before.next, p.1)], before.next + 1, []);
            Good(sc) && HoldsParams(params, sc)
  {
    var n := |params| - 1;
    assert forall i :: 0 <= i < n ==> params[..n][i] == params[i];
    assert params[n].0 !in before.ids;
  }

  lemma {:induction false} ParamsInScope(params: seq<(Id, Ty)>)
    requires UniqueParams(params)
    ensures Good(ParamScope(params)) && HoldsParams(params, ParamScope(params))
  {
    if params != [] {
      var n := |params| - 1;
      assert forall i :: 0 <= i < n ==> params[..n][i] == params[i];
      ParamsInScope(params[..n]);
      OneMoreParam(params, ParamScope(params[..n]));
    }
  }

  lemma {:induction false} ParamsTyped(params: seq<(Id, Ty)>)
    ensures ParamTypes(params).Keys == ParamScope(params).ids.Keys
    ensures forall x <- ParamTypes(params) :: ParamScope(params).ids[x].1 == ParamTypes(params)[x]
  {
    if params != [] { ParamsTyped(params[..|params| - 1]); }
  }

  lemma {:induction false} ParamVarsAt(params: seq<(Id, Ty)>, args: seq<int>)
    requires |params| == |args| && UniqueParams(params)
    ensures forall i :: 0 <= i < |params| ==> params[i].0 in ParamVars(params, args) && ParamVars(params, args)[params[i].0] == args[i]
    ensures forall x <- ParamVars(params, args) :: exists i :: 0 <= i < |params| && params[i].0 == x
  {
    if params != [] {
      var n := |params| - 1;
      ParamVarsAt(params[..n], args[..n]);
      assert forall i :: 0 <= i < n ==> params[..n][i] == params[i] && args[..n][i] == args[i];
    }
  }

  // What the whole body has in scope at its end.
  ghost predicate Ends(f: Function, sc: Scope) {
    UniqueParams(f.params) && Decls(f.body).Keys !! ParamTypes(f.params).Keys && Grown(ParamScope(f.params), sc, Decls(f.body))
  }

  lemma {:induction false} EntryMirrors<W>(f: Function, sc: Scope, args: seq<int>, w: W, frames: seq<seq<Slot>>, words: Words, cx: Context)
    requires |args| == |f.params| && Ends(f, sc) && WellNamed(f)
    ensures sc.next == |f.params| + |sc.locals| && Good(sc)
    ensures var m := Entry(args, |sc.locals|, w, if cx.gc then frames + [EmptyFrame(sc.next)] else frames, words);
            Mirrors(EntryVars(f, args, w), m, sc, cx, frames)
  {
    ParamsInScope(f.params);
    var m := Entry(args, |sc.locals|, w, if cx.gc then frames + [EmptyFrame(sc.next)] else frames, words);
    var st := EntryVars(f, args, w);
    forall x | x in sc.ids
      ensures sc.ids[x].0 < |m.locals| && m.locals[sc.ids[x].0] == Lookup(st, x)
    {
      LocalAtEntry(f, sc, args, x);
    }
  }

  lemma {:induction false} LocalAtEntry(f: Function, sc: Scope, args: seq<int>, x: Id)
    requires |args| == |f.params| && Ends(f, sc) && x in sc.ids
    ensures sc.ids[x].0 < sc.next == |f.params| + |sc.locals|
    ensures (args + Zeros(|sc.locals|))[sc.ids[x].0] == if x in ParamVars(f.params, args) then ParamVars(f.params, args)[x] else 0
  {
    ParamsInScope(f.params);
    ParamVarsAt(f.params, args);
  }

  // Inside its shadow frame the body does what it should.
  lemma {:induction false} BodyCorrect<W>(p: Program<W>, wm: Module<W>, f: Function, cx: Context, args: seq<int>, w: W, frames: seq<seq<Slot>>,
                                          words: Words, fuel: nat)
    requires Compiles(p, wm, cx) && WellNamed(f) && |args| == |f.params|
    requires StmtCode(f.body, [], ParamScope(f.params), cx).Some?
    ensures var (body, sc) := StmtCode(f.body, [], ParamScope(f.params), cx).value;
            var m := Entry(args, |sc.locals|, w, if cx.gc then frames + [EmptyFrame(sc.next)] else frames, words);
            && sc.next == |f.params| + |sc.locals|
            && Simulates(Exec(p, f.body, EntryVars(f, args, w), fuel), RunCode(wm, body, m, fuel), m, [], sc, cx, frames)
    decreases fuel, 2
  {
    var ps := ParamScope(f.params);
    var (body, sc) := StmtCode(f.body, [], ps, cx).value;
    ParamsInScope(f.params);
    ParamsTyped(f.params);
    ScopeGrows(f.body, [], ps, cx);
    EntryMirrors(f, sc, args, w, frames, words, cx);
    var m := Entry(args, |sc.locals|, w, if cx.gc then frames + [EmptyFrame(sc.next)] else frames, words);
    StmtSim(p, wm, f.body, [], ps, EntryVars(f, args, w), m, sc, cx, frames, fuel);
  }

  // The code of a function does what its body does, and leaves the shadow stack as it was.
  ghost predicate FunctionRuns<W>(r: Result<W>, r1: Run<W>, frames: seq<seq<Slot>>) {
    && r.Done? == r1.Ran?
    && (r.Done? ==>
        && r1.m.world == r.st.world && !r.c.Breaks?
        && (r.c == Normal ==> r1.exit == Fall && r1.m.frames == frames && r1.m.stack == [])
        && (r.c.Returns? ==> r1.exit == Ret(r.c.v) && r1.m.frames == frames)
        && (r.c == Traps ==> r1.exit == Trapped))
  }

  // In a program whose functions the translator accepts, whatever a function's arguments, the world
  // and its callers' shadow frames: the code returns what the function returns, in the same world,
  // through all the calls it makes, and leaves the shadow stack as it found it, at any return and at
  // the end of the body.
  lemma {:induction false} FunctionCorrect<W>(p: Program<W>, wm: Module<W>, f: Function, cx: Context, args: seq<int>, w: W,
                                              frames: seq<seq<Slot>>, words: Words, fuel: nat)
    requires Compiles(p, wm, cx) && WellNamed(f) && FunctionCode(f, cx).Some? && |args| == |f.params|
    ensures var (code, sc) := FunctionCode(f, cx).value;
            FunctionRuns(Exec(p, f.body, EntryVars(f, args, w), fuel), RunCode(wm, code, Entry(args, |sc.locals|, w, frames, words), fuel), frames)
    decreases fuel, 3
  {
    var (body, sc) := StmtCode(f.body, [], ParamScope(f.params), cx).value;
    BodyCorrect(p, wm, f, cx, args, w, frames, words, fuel);
    var m := Entry(args, |sc.locals|, w, if cx.gc then frames + [EmptyFrame(sc.next)] else frames, words);
    if cx.gc { FramedRuns(wm, body, sc.next, Entry(args, |sc.locals|, w, frames, words), fuel); }
    FrameLeft(wm.rt, Exec(p, f.body, EntryVars(f, args, w), fuel), RunCode(wm, body, m, fuel), m, sc, cx, frames);
  }

  // Past the end of the body the shadow frame goes.
  lemma FrameLeft<W>(rt: Runtime<W>, r: Result<W>, r1: Run<W>, m: Machine<W>, sc: Scope, cx: Context, frames: seq<seq<Slot>>)
    requires Simulates(r, r1, m, [], sc, cx, frames) && m.stack == []
    ensures FunctionRuns(r, if cx.gc && r1.Ran? && r1.exit == Fall then Step(rt, GcExitFn, r1.m) else r1, frames)
  {
  }

  lemma FramedRuns<W>(wm: Module<W>, body: seq<Node>, slots: nat, m: Machine<W>, fuel: nat)
    ensures RunCode(wm, [Do(Const(slots)), Do(GcEnterFn)] + body + [Do(GcExitFn)], m, fuel) ==
            var r := RunCode(wm, body, m.(frames := m.frames + [EmptyFrame(slots)]), fuel);
            if r.Ran? && r.exit == Fall then Step(wm.rt, GcExitFn, r.m) else r
  {
    var enter := [Do(Const(slots)), Do(GcEnterFn)];
    var m1 := m.(frames := m.frames + [EmptyFrame(slots)]);
    RunConcat(wm, enter + body, [Do(GcExitFn)], m, fuel);
    RunConcat(wm, enter, body, m, fuel);
    assert enter[1..] == [Do(GcEnterFn)];
    RunOne(wm, Do(GcEnterFn), Push(m, slots), fuel);
    assert Pop(Push(m, slots), 1).stack == m.stack;
    assert RunCode(wm, enter, m, fuel) == Ran(Fall, m1);
    var r := RunCode(wm, body, m1, fuel);
    if r.Ran? { RunOne(wm, Do(GcExitFn), r.m, fuel); }
  }

  // ----- Brackets -----

  predicate Closes(i: Instr) {
    i == End || i == Else
  }

  // Reads structured code up to a closing bracket or the end, and says what is left.
  function Parse(instrs: seq<Instr>): (r: Option<(seq<Node>, seq<Instr>)>)
    ensures r.Some? ==> |r.value.1| <= |instrs|
    decreases |instrs|
  {
    if instrs == [] || Closes(instrs[0]) then Some(([], instrs)) else
    match ParseNode(instrs)
    case None => None
    case Some((n, rest)) =>
      match Parse(rest)
      case None => None
      case Some((code, rest1)) => Some(([n] + code, rest1))
  }

  function ParseNode(instrs: seq<Instr>): (r: Option<(Node, seq<Instr>)>)
    requires instrs != [] && !Closes(instrs[0])
    ensures r.Some? ==> |r.value.1| < |instrs|
    decreases |instrs|, 0
  {
    match instrs[0]
    case Plain(b) => Some((Do(b), instrs[1..]))
    case BlockStart =>
      (match Parse(instrs[1..])
       case None => None
       case Some((body, rest)) => if rest != [] && rest[0] == End then Some((BlockOf(body), rest[1..])) else None)
    case LoopStart =>
      (match Parse(instrs[1..])
       case None => None
       case Some((body, rest)) => if rest != [] && rest[0] == End then Some((LoopOf(body), rest[1..])) else None)
    case IfStart =>
      (match Parse(instrs[1..])
       case None => None
       case Some((thn, rest)) =>
         if rest == [] || rest[0] != Else then None else
         match Parse(rest[1..])
         case None => None
         case Some((els, rest1)) => if rest1 != [] && rest1[0] == End then Some((IfOf(thn, els), rest1[1..])) else None)
  }

  // The brackets of emitted code balance: read back, it is the structured code it came from.
  lemma {:induction false} BracketsBalance(code: seq<Node>, rest: seq<Instr>)
    requires rest == [] || Closes(rest[0])
    ensures Parse(Flatten(code) + rest) == Some((code, rest))
    decreases code, 1
  {
    if code == [] {
      assert [] + rest == rest;
    } else {
      var tail := Flatten(code[1..]) + rest;
      assert Flatten(code) + rest == FlattenNode(code[0]) + tail;
      NodeParses(code[0], tail);
      BracketsBalance(code[1..], rest);
      assert [code[0]] + code[1..] == code;
    }
  }

  lemma {:induction false} NodeParses(n: Node, rest: seq<Instr>)
    ensures var instrs := FlattenNode(n) + rest;
            instrs != [] && !Closes(instrs[0]) && ParseNode(instrs) == Some((n, rest))
    decreases n, 0
  {
    var instrs := FlattenNode(n) + rest;
    match n
    case Do(b) => assert instrs[1..] == rest;
    case BlockOf(body) =>
      assert instrs[1..] == Flatten(body) + ([End] + rest);
      BracketsBalance(body, [End] + rest);
    case LoopOf(body) =>
      assert instrs[1..] == Flatten(body) + ([End] + rest);
      BracketsBalance(body, [End] + rest);
    case IfOf(thn, els) =>
      var after := Flatten(els) + ([End] + rest);
      assert instrs[1..] == Flatten(thn) + ([Else] + after);
      BracketsBalance(thn, [Else] + after);
      assert ([Else] + after)[1..] == after;
      BracketsBalance(els, [End] + rest);
      assert ([End] + rest)[1..] == rest;
  }

  // ----- Whole programs -----

  // The function of a module that its emitted instructions are read as.
  ghost predicate ReadFrom(c: Compiled, f: Function, emitted: (seq<Instr>, seq<Ty>)) {
    c.sig == SigOf(FnTypeOf(f)) && c.locals == |emitted.1| && Parse(emitted.0) == Some((c.code, [End]))
  }

  lemma EmittedIsRead(f: Function, c: Compiled, emitted: (seq<Instr>, seq<Ty>), cx: Context)
    requires FuncInstrs(f, cx) == Some(emitted) && ReadFrom(c, f, emitted) && WellNamed(f)
    ensures CompilesTo(f, c, cx)
  {
    BracketsBalance(FunctionCode(f, cx).value.0, [End]);
  }

  // Every function of the module that is read from the translator's output does what the function of
  // the program does, on every call from any state, through all the calls it makes in turn.
  lemma ProgramCorrect<W>(p: Program<W>, gc: bool, imported: set<Sig>, emitted: seq<(seq<Instr>, seq<Ty>)>, wm: Module<W>, i: nat,
                          args: seq<int>, w: W, frames: seq<seq<Slot>>, words: Words, fuel: nat)
    requires |emitted| == |p.funs| == |wm.funs| && wm.rt == p.rt && wm.imports == p.globals.imports
    requires forall j :: 0 <= j < |p.funs| ==> FuncInstrs(p.funs[j], ContextOf(gc, p.globals, p.funs, imported)) == Some(emitted[j])
    requires forall j :: 0 <= j < |p.funs| ==>
               ReadFrom(wm.funs[j], p.funs[j], emitted[j]) && WellNamed(p.funs[j])
    requires i < |p.funs| && |args| == |p.funs[i].params|
    ensures FunctionRuns(Exec(p, p.funs[i].body, EntryVars(p.funs[i], args, w), fuel),
                         RunCode(wm, wm.funs[i].code, Entry(args, wm.funs[i].locals, w, frames, words), fuel), frames)
  {
    var cx := ContextOf(gc, p.globals, p.funs, imported);
    forall j | 0 <= j < |p.funs|
      ensures CompilesTo(p.funs[j], wm.funs[j], cx)
    {
      EmittedIsRead(p.funs[j], wm.funs[j], emitted[j], cx);
    }
    FunctionCorrect(p, wm, p.funs[i], cx, args, w, frames, words, fuel);
  }
}

// The control-flow core of the JavaScript syntax tree, and what its statements mean.
//
// Everything the program itself can see (its variables, objects, output) is an arbitrary "world" W;
// variables invented by the compiler live beside it, in `temps`.

module JavaScript {
  import opened Common
  import opened Ids

  datatype Val = Undefined | Null | Bool(b: bool) | NaN | Num(n: int) | Str(s: string) | Ref(addr: nat)

  // Section 9.2 of ECMA-262 5.1.
  predicate Truthy(v: Val) {
    match v
    case Undefined => false
    case Null => false
    case Bool(b) => b
    case NaN => false
    case Num(n) => n != 0
    case Str(s) => s != ""
    case Ref(_) => true
  }

  // Section 11.9.6 of ECMA-262 5.1.
  predicate StrictEquals(a: Val, b: Val) {
    a == b && a != NaN
  }

  datatype Store<W> = Store(world: W, temps: map<Id, Val>)

  datatype EvalResult<W> = Ok(v: Val, st: Store<W>) | Thrown(v: Val, st: Store<W>)

  // An expression is what it does to the store.
  datatype Expr<!W> = Expr(run: Store<W> -> EvalResult<W>)

  function Eval<W>(e: Expr<W>, st: Store<W>): EvalResult<W> {
    e.run(st)
  }

  // The expressions that the compiler builds.

  function Lit<W>(v: Val): Expr<W> {
    Expr((st: Store<W>) => Ok(v, st))
  }

  function True<W>(): Expr<W> {
    Lit(Bool(true))
  }

  function Temp<W>(x: Id): Expr<W> {
    Expr((st: Store<W>) => Ok(if x in st.temps then st.temps[x] else Undefined, st))
  }

  function StrictEqual<W>(left: Expr<W>, right: Expr<W>): Expr<W> {
    Expr((st: Store<W>) =>
      var a := left.run(st);
      if a.Thrown? then a else
      var b := right.run(a.st);
      if b.Thrown? then b else Ok(Bool(StrictEquals(a.v, b.v)), b.st))
  }

  function LogicalOr<W>(left: Expr<W>, right: Expr<W>): Expr<W> {
    Expr((st: Store<W>) =>
      var a := left.run(st);
      if a.Thrown? || Truthy(a.v) then a else right.run(a.st))
  }

  function AssignTemp<W>(x: Id, rhs: Expr<W>): Expr<W> {
    Expr((st: Store<W>) =>
      var a := rhs.run(st);
      if a.Thrown? then a else Ok(a.v, a.st.(temps := a.st.temps[x := a.v])))
  }

  datatype Decl<!W> = Decl(name: Id, named: Expr<W>)

  datatype ForInit<!W> = InitExpr(e: Expr<W>) | InitDecl(decls: seq<Decl<W>>)

  datatype Case<!W> = Case(test: Expr<W>, body: Stmt<W>)

  datatype Stmt<!W> =
    | Empty
    | ExprStmt(e: Expr<W>)
    | VarDecl(decls: seq<Decl<W>>)
    | Block(stmts: seq<Stmt<W>>)
    | If(cond: Expr<W>, thn: Stmt<W>, els: Stmt<W>)
    | Switch(subject: Expr<W>, cases: seq<Case<W>>, default: Stmt<W>)
    | While(cond: Expr<W>, body: Stmt<W>)
    | DoWhile(body: Stmt<W>, cond: Expr<W>)
    | For(init: ForInit<W>, cond: Expr<W>, advance: Expr<W>, body: Stmt<W>)
    | Label(name: Id, body: Stmt<W>)
    | Break(target: Option<Id>)
    | Continue(target: Option<Id>)
    | Return(e: Expr<W>)
    | Throw(e: Expr<W>)

  predicate IsLoop<W>(s: Stmt<W>) {
    s.While? || s.DoWhile? || s.For?
  }

  ghost function Children<W>(s: Stmt<W>): (children: seq<Stmt<W>>)
    ensures forall c <- children :: c < s
  {
    match s
    case Block(ss) => ss
    case If(_, thn, els) => [thn, els]
    case Switch(_, cases, default) => seq(|cases|, i requires 0 <= i < |cases| => cases[i].body) + [default]
    case While(_, body) => [body]
    case DoWhile(body, _) => [body]
    case For(_, _, _, body) => [body]
    case Label(_, body) => [body]
    case _ => []
  }

  // ----- Statements -----

  datatype Completion =
    | Normal
    | Breaks(target: Option<Id>)
    | Continues(target: Option<Id>)
    | Returns(v: Val)
    | Throws(v: Val)

  datatype Result<W> = OutOfFuel | Done(c: Completion, st: Store<W>)

  function ExecDecls<W>(decls: seq<Decl<W>>, st: Store<W>): Result<W> {
    if decls == [] then Done(Normal, st) else
    match Eval(decls[0].named, st)
    case Thrown(v, st1) => Done(Throws(v), st1)
    case Ok(v, st1) => ExecDecls(decls[1..], st1.(temps := st1.temps[decls[0].name := v]))
  }

  function ExecInit<W>(init: ForInit<W>, st: Store<W>): Result<W> {
    match init
    case InitExpr(e) => ExecExpr(e, st)
    case InitDecl(ds) => ExecDecls(ds, st)
  }

  function ExecExpr<W>(e: Expr<W>, st: Store<W>): Result<W> {
    match Eval(e, st)
    case Ok(_, st1) => Done(Normal, st1)
    case Thrown(v, st1) => Done(Throws(v), st1)
  }

  // What a labelled statement does with the completion of its body (section 12.12).
  function CatchBreak<W>(l: Id, r: Result<W>): Result<W> {
    if r.Done? && r.c == Breaks(Some(l)) then Done(Normal, r.st) else r
  }

  // Does a loop with these labels go round again after this completion?
  predicate GoesOn(c: Completion, labels: set<Id>) {
    c == Normal || c == Continues(None) || (c.Continues? && c.target.Some? && c.target.value in labels)
  }

  // The case a switch jumps to (section 12.11): tests are evaluated in order up to the first match.
  datatype CaseSearch<W> = Found(index: nat, st: Store<W>) | NotFound(st: Store<W>) | TestThrows(v: Val, st: Store<W>)

  function FindCase<W>(v: Val, cases: seq<Case<W>>, st: Store<W>): (r: CaseSearch<W>)
    ensures r.Found? ==> r.index < |cases|
  {
    if cases == [] then NotFound(st) else
    match Eval(cases[0].test, st)
    case Thrown(x, st1) => TestThrows(x, st1)
    case Ok(x, st1) =>
      if StrictEquals(v, x) then Found(0, st1) else
      match FindCase(v, cases[1..], st1)
      case Found(i, st2) => Found(i + 1, st2)
      case other => other
  }

  // Big-step meaning of a statement (sections 12.1 to 12.13 of ECMA-262 5.1).
  //
  // `labels` is the current label set: the labels standing directly in front of the statement.
  // Labelled breaks are stopped by the labelled statement itself, which is where section 12.12
  // sends a break that section 12.6 already stopped at the loop, so the outcome is the same.
  //
  // Fuel is spent only when a loop goes round, so a run and its translation use the same amount.
  //
  // With `skip` set, a `continue` of a do..while loop goes round without evaluating the test.
  // That is not JavaScript; it is what the desugared program does (see DesugarLoops).
  function Exec<W>(s: Stmt<W>, labels: set<Id>, st: Store<W>, fuel: nat, skip: bool): Result<W>
    decreases fuel, s, 1
  {
    match s
    case Empty => Done(Normal, st)
    case ExprStmt(e) => ExecExpr(e, st)
    case VarDecl(ds) => ExecDecls(ds, st)
    case Block(ss) => ExecSeq(ss, st, fuel, skip)
    case If(e, thn, els) =>
      (match Eval(e, st)
       case Thrown(v, st1) => Done(Throws(v), st1)
       case Ok(v, st1) => if Truthy(v) then Exec(thn, {}, st1, fuel, skip) else Exec(els, {}, st1, fuel, skip))
    case Switch(e, _, _) =>
      (match Eval(e, st)
       case Thrown(v, st1) => Done(Throws(v), st1)
       case Ok(v, st1) => LeaveSwitch(ExecSwitch(v, s, st1, fuel, skip)))
    case While(e, body) => ExecLoop(e, body, True(), True(), labels, st, fuel, skip)
    case For(init, e, adv, body) =>
      var r := ExecInit(init, st);
      if r.Done? && r.c == Normal then ExecLoop(e, body, adv, True(), labels, r.st, fuel, skip) else r
    case DoWhile(body, e) => ExecLoop(True(), body, True(), e, labels, st, fuel, skip)
    case Label(l, body) => CatchBreak(l, Exec(body, labels + {l}, st, fuel, skip))
    case Break(l) => Done(Breaks(l), st)
    case Continue(l) => Done(Continues(l), st)
    case Return(e) =>
      (match Eval(e, st)
       case Thrown(v, st1) => Done(Throws(v), st1)
       case Ok(v, st1) => Done(Returns(v), st1))
    case Throw(e) =>
      (match Eval(e, st)
       case Thrown(v, st1) => Done(Throws(v), st1)
       case Ok(v, st1) => Done(Throws(v), st1))
  }

  function ExecSeq<W>(ss: seq<Stmt<W>>, st: Store<W>, fuel: nat, skip: bool): Result<W>
    decreases fuel, ss, 0
  {
    if ss == [] then Done(Normal, st) else
    var r := Exec(ss[0], {}, st, fuel, skip);
    if r.Done? && r.c == Normal then ExecSeq(ss[1..], r.st, fuel, skip) else r
  }

  datatype RoundEnd<W> = Stop(r: Result<W>) | Again(st: Store<W>)

  // One round of a loop.  `pre` is tested first, then the body runs, then `adv`, and `post` is
  // tested last.  A while loop has only `pre`, a do..while loop only `post`.
  function Round<W>(pre: Expr<W>, body: Stmt<W>, adv: Expr<W>, post: Expr<W>,
                    labels: set<Id>, st: Store<W>, fuel: nat, skip: bool): RoundEnd<W>
    decreases fuel, body, 2
  {
    match Eval(pre, st)
    case Thrown(v, st1) => Stop(Done(Throws(v), st1))
    case Ok(v, st1) =>
      if !Truthy(v) then Stop(Done(Normal, st1)) else EndRound(Exec(body, {}, st1, fuel, skip), adv, post, labels, skip)
  }

  // The rest of a round, once the body has completed.
  function EndRound<W>(r: Result<W>, adv: Expr<W>, post: Expr<W>, labels: set<Id>, skip: bool): RoundEnd<W> {
    if r.OutOfFuel? then Stop(r) else
    if r.c == Breaks(None) then Stop(Done(Normal, r.st)) else
    if !GoesOn(r.c, labels) then Stop(r) else
    match Eval(adv, r.st)
    case Thrown(x, st3) => Stop(Done(Throws(x), st3))
    case Ok(_, st3) =>
      if skip && r.c != Normal then Again(st3) else
      match Eval(post, st3)
      case Thrown(x, st4) => Stop(Done(Throws(x), st4))
      case Ok(x, st4) => if Truthy(x) then Again(st4) else Stop(Done(Normal, st4))
  }

  function ExecLoop<W>(pre: Expr<W>, body: Stmt<W>, adv: Expr<W>, post: Expr<W>,
                       labels: set<Id>, st: Store<W>, fuel: nat, skip: bool): Result<W>
    decreases fuel, body, 3
  {
    if fuel == 0 then OutOfFuel else
    match Round(pre, body, adv, post, labels, st, fuel, skip)
    case Stop(r) => r
    case Again(st1) => ExecLoop(pre, body, adv, post, labels, st1, fuel - 1, skip)
  }

  function LeaveSwitch<W>(r: Result<W>): Result<W> {
    if r.Done? && r.c == Breaks(None) then Done(Normal, r.st) else r
  }

  function ExecSwitch<W>(v: Val, sw: Stmt<W>, st: Store<W>, fuel: nat, skip: bool): Result<W>
    requires sw.Switch?
    decreases fuel, sw, 0, |sw.cases| + 1
  {
    match FindCase(v, sw.cases, st)
    case TestThrows(x, st1) => Done(Throws(x), st1)
    case NotFound(st1) => ExecFrom(sw, |sw.cases|, st1, fuel, skip)
    case Found(i, st1) => ExecFrom(sw, i, st1, fuel, skip)
  }

  // Fall through the cases from index i on, and then the default clause.
  function ExecFrom<W>(sw: Stmt<W>, i: nat, st: Store<W>, fuel: nat, skip: bool): Result<W>
    requires sw.Switch? && i <= |sw.cases|
    decreases fuel, sw, 0, |sw.cases| - i
  {
    if i == |sw.cases| then Exec(sw.default, {}, st, fuel, skip) else
    var r := Exec(sw.cases[i].body, {}, st, fuel, skip);
    if r.Done? && r.c == Normal then ExecFrom(sw, i + 1, r.st, fuel, skip) else r
  }
}

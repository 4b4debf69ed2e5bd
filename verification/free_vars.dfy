// Programs with nested functions, and the free variables of each function.

module FreeVariables {
  import opened Common
  import opened Ids

  // The passes look at names, assignments, declarations and functions; every other construct is an
  // Op, a row of parts walked in order.
  datatype Node =
    | Leaf(text: string)
    | Name(x: Id)
    | Assign(x: Id, e: Node)
    | Var(x: Id, any: bool, e: Node)
    | Op(kind: string, kids: seq<Node>)
    | Func(f: Function)
    | NewRef(e: Node)
    | Deref(e: Node)
    | Store(box: Node, e: Node)
    | EnvGet(i: nat)
    | Closure(f: Function, env: seq<Node>)

  // `boxed` are the variables that are captured by a child and assigned somewhere.
  datatype Function = Function(params: seq<Id>, body: Node, freeVars: set<Id>, boxed: set<Id>)

  // A declaration whose type is not Any (`any` says whether it is) and that has no value yet.
  predicate IsInit(any: bool, e: Node) {
    !any && e == Leaf("undefined")
  }

  function Elements(ids: seq<Id>): set<Id> {
    set x | x in ids
  }

  function Declared(n: Node): set<Id> {
    match n
    case Var(x, _, _) => {x}
    case Op(_, kids) => DeclaredIn(kids)
    case _ => {}
  }

  function DeclaredIn(kids: seq<Node>): set<Id> {
    if kids == [] then {} else Declared(kids[0]) + DeclaredIn(kids[1..])
  }

  function Referenced(n: Node): set<Id>
    decreases n, 0
  {
    match n
    case Name(x) => {x}
    case Assign(x, e) => {x} + Referenced(e)
    case Var(_, _, e) => Referenced(e)
    case Op(_, kids) => ReferencedIn(kids)
    case Func(f) => Referenced(f.body) - Declared(f.body) - Elements(f.params)
    case NewRef(e) => Referenced(e)
    case Deref(e) => Referenced(e)
    case Store(b, e) => Referenced(b) + Referenced(e)
    case Closure(_, env) => ReferencedIn(env)
    case _ => {}
  }

  function ReferencedIn(kids: seq<Node>): set<Id>
    decreases kids, 0
  {
    if kids == [] then {} else Referenced(kids[0]) + ReferencedIn(kids[1..])
  }

  // A function of the source, before any pass.
  predicate Source(n: Node)
    decreases n
  {
    match n
    case Assign(_, e) => Source(e)
    case Var(_, _, e) => Source(e)
    case Op(_, kids) => forall i :: 0 <= i < |kids| ==> Source(kids[i])
    case Func(f) => Source(f.body)
    case Leaf(_) => true
    case Name(_) => true
    case _ => false
  }

  // Every name used is one of `vars` or is bound by a function around the use.
  predicate Scoped(n: Node, vars: set<Id>)
    decreases n
  {
    match n
    case Name(x) => x in vars
    case Assign(x, e) => x in vars && Scoped(e, vars)
    case Var(_, _, e) => Scoped(e, vars)
    case Op(_, kids) => forall i :: 0 <= i < |kids| ==> Scoped(kids[i], vars)
    case Func(f) => Scoped(f.body, vars + Elements(f.params) + Declared(f.body))
    case NewRef(e) => Scoped(e, vars)
    case Deref(e) => Scoped(e, vars)
    case Store(b, e) => Scoped(b, vars) && Scoped(e, vars)
    case Closure(_, env) => forall i :: 0 <= i < |env| ==> Scoped(env[i], vars)
    case _ => true
  }

  // The free variables are exactly what has to be in scope.
  lemma {:induction false} FreeVarsExact(n: Node, vars: set<Id>)
    ensures Scoped(n, vars) <==> Referenced(n) <= vars
    decreases n, 0
  {
    match n
    case Assign(_, e) => FreeVarsExact(e, vars);
    case Var(_, _, e) => FreeVarsExact(e, vars);
    case Op(_, kids) => FreeVarsExactIn(kids, vars);
    case Func(f) => FreeVarsExact(f.body, vars + Elements(f.params) + Declared(f.body));
    case NewRef(e) => FreeVarsExact(e, vars);
    case Deref(e) => FreeVarsExact(e, vars);
    case Store(b, e) =>
      FreeVarsExact(b, vars);
      FreeVarsExact(e, vars);
    case Closure(_, env) => FreeVarsExactIn(env, vars);
    case _ =>
  }

  lemma {:induction false} FreeVarsExactIn(kids: seq<Node>, vars: set<Id>)
    ensures (forall i :: 0 <= i < |kids| ==> Scoped(kids[i], vars)) <==> ReferencedIn(kids) <= vars
    decreases kids, 0
  {
    if kids != [] {
      FreeVarsExact(kids[0], vars);
      FreeVarsExactIn(kids[1..], vars);
      assert forall i :: 1 <= i < |kids| ==> kids[i] == kids[1..][i - 1];
      assert (forall i :: 0 <= i < |kids[1..]| ==> Scoped(kids[1..][i], vars)) <==> (forall i :: 1 <= i < |kids| ==> Scoped(kids[i], vars));
    }
  }

  // Names assigned here or in any function inside, whatever they are bound to there.
  function Assigned(n: Node): set<Id>
    decreases n, 0
  {
    match n
    case Assign(x, e) => {x} + Assigned(e)
    case Var(_, _, e) => Assigned(e)
    case Op(_, kids) => AssignedIn(kids)
    case Func(f) => Assigned(f.body)
    case _ => {}
  }

  function AssignedIn(kids: seq<Node>): set<Id>
    decreases kids, 0
  {
    if kids == [] then {} else Assigned(kids[0]) + AssignedIn(kids[1..])
  }

  // Names that boxing invents; no program contains them before.
  predicate Invented(x: Id) {
    x.Generated? && x.baseName == "to_box"
  }

  ghost predicate NoneInvented(ids: set<Id>) {
    forall x <- ids :: !Invented(x)
  }

  // No function mentions an invented name.
  predicate Clean(n: Node)
    decreases n
  {
    match n
    case Assign(_, e) => Clean(e)
    case Var(_, _, e) => Clean(e)
    case Op(_, kids) => forall i :: 0 <= i < |kids| ==> Clean(kids[i])
    case Func(f) =>
      && (forall x <- Referenced(f.body) + Assigned(f.body) + Elements(f.params) :: !Invented(x))
      && Clean(f.body)
    case _ => true
  }

  // Writes its free variables into every function.
  function Annotate(n: Node): Node
    decreases n, 0
  {
    match n
    case Assign(x, e) => Assign(x, Annotate(e))
    case Var(x, any, e) => Var(x, any, Annotate(e))
    case Op(k, kids) => Op(k, AnnotateAll(kids))
    case Func(f) => Func(f.(body := Annotate(f.body), freeVars := Referenced(n)))
    case _ => n
  }

  function AnnotateAll(kids: seq<Node>): (r: seq<Node>)
    ensures |r| == |kids|
    decreases kids, 0
  {
    if kids == [] then [] else [Annotate(kids[0])] + AnnotateAll(kids[1..])
  }

  // Every function knows its free variables.
  predicate Annotated(n: Node)
    decreases n
  {
    match n
    case Assign(_, e) => Annotated(e)
    case Var(_, _, e) => Annotated(e)
    case Op(_, kids) => forall i :: 0 <= i < |kids| ==> Annotated(kids[i])
    case Func(f) => f.freeVars == Referenced(n) && Annotated(f.body)
    case NewRef(e) => Annotated(e)
    case Deref(e) => Annotated(e)
    case Store(b, e) => Annotated(b) && Annotated(e)
    case EnvGet(_) => false
    case Closure(_, _) => false
    case _ => true
  }

  lemma {:induction false} AnnotateAnnotates(n: Node)
    requires Source(n)
    ensures Annotated(Annotate(n)) && Source(Annotate(n))
    ensures Referenced(Annotate(n)) == Referenced(n) && Declared(Annotate(n)) == Declared(n) && Assigned(Annotate(n)) == Assigned(n)
    ensures Clean(n) ==> Clean(Annotate(n))
    decreases n, 0
  {
    match n
    case Assign(_, e) => AnnotateAnnotates(e);
    case Var(_, _, e) => AnnotateAnnotates(e);
    case Op(_, kids) => AnnotateAnnotatesAll(kids);
    case Func(f) => AnnotateAnnotates(f.body);
    case _ =>
  }

  lemma {:induction false} AnnotateAnnotatesAll(kids: seq<Node>)
    requires forall i :: 0 <= i < |kids| ==> Source(kids[i])
    ensures var r := AnnotateAll(kids);
            && (forall i :: 0 <= i < |r| ==> Annotated(r[i]) && Source(r[i]) && (Clean(kids[i]) ==> Clean(r[i])))
            && ReferencedIn(r) == ReferencedIn(kids) && DeclaredIn(r) == DeclaredIn(kids) && AssignedIn(r) == AssignedIn(kids)
    decreases kids, 0
  {
    if kids != [] {
      AnnotateAnnotates(kids[0]);
      AnnotateAnnotatesAll(kids[1..]);
      var r := AnnotateAll(kids);
      assert r[1..] == AnnotateAll(kids[1..]) && r[0] == Annotate(kids[0]);
      assert forall i :: 1 <= i < |r| ==> r[i] == r[1..][i - 1];
    }
  }
}

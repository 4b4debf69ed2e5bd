// Functions become closures: code and an environment that holds its free variables.

module Environments {
  import opened Common
  import opened Ids
  import opened FreeVariables
  import opened Boxing

  // The order in which a set of variables is laid out; any will do, as long as it is always the same.
  ghost predicate Enumerates(order: set<Id> -> seq<Id>) {
    forall s :: Elements(order(s)) == s
  }

  function IndexIn(names: seq<Id>, x: Id): (r: Option<nat>)
    ensures r.Some? ==> r.value < |names| && names[r.value] == x
    ensures r.None? ==> x !in names
  {
    if names == [] then None
    else if names[0] == x then Some(0)
    else match IndexIn(names[1..], x) case None => None case Some(i) => Some(i + 1)
  }

  // A variable where the environment holds `names`.
  function CompileId(x: Id, names: seq<Id>): Node {
    match IndexIn(names, x)
    case Some(i) => EnvGet(i)
    case None => Name(x)
  }

  function EnvOf(vars: seq<Id>, names: seq<Id>): (env: seq<Node>)
    ensures |env| == |vars| && forall i :: 0 <= i < |vars| ==> env[i] == CompileId(vars[i], names)
  {
    seq(|vars|, i requires 0 <= i < |vars| => CompileId(vars[i], names))
  }

  function Convert(n: Node, names: seq<Id>, order: set<Id> -> seq<Id>): Node
    decreases n, 0
  {
    match n
    case Name(x) => CompileId(x, names)
    case Assign(x, e) => Assign(x, Convert(e, names, order))
    case Var(x, any, e) => Var(x, any, Convert(e, names, order))
    case Op(k, kids) => Op(k, ConvertAll(kids, names, order))
    case NewRef(e) => NewRef(Convert(e, names, order))
    case Deref(e) => Deref(Convert(e, names, order))
    case Store(b, e) => Store(Convert(b, names, order), Convert(e, names, order))
    case Func(f) =>
      var inner := order(f.freeVars);
      Closure(f.(body := Convert(f.body, inner, order)), EnvOf(inner, names))
    case _ => n
  }

  function ConvertAll(kids: seq<Node>, names: seq<Id>, order: set<Id> -> seq<Id>): (r: seq<Node>)
    ensures |r| == |kids|
    decreases kids, 0
  {
    if kids == [] then [] else [Convert(kids[0], names, order)] + ConvertAll(kids[1..], names, order)
  }

  // Code that uses nothing but its function's own variables and its environment of `size` entries.
  predicate WellScoped(n: Node, locals: set<Id>, size: nat)
    decreases n
  {
    match n
    case Leaf(_) => true
    case Name(x) => x in locals
    case EnvGet(i) => i < size
    case Assign(x, e) => x in locals && WellScoped(e, locals, size)
    case Var(_, _, e) => WellScoped(e, locals, size)
    case Op(_, kids) => forall i :: 0 <= i < |kids| ==> WellScoped(kids[i], locals, size)
    case NewRef(e) => WellScoped(e, locals, size)
    case Deref(e) => WellScoped(e, locals, size)
    case Store(b, e) => WellScoped(b, locals, size) && WellScoped(e, locals, size)
    case Closure(f, env) =>
      && (forall i :: 0 <= i < |env| ==> WellScoped(env[i], locals, size))
      && WellScoped(f.body, Elements(f.params) + Declared(f.body), |env|)
    case Func(_) => false
  }

  lemma {:induction false} ConvertDeclares(n: Node, names: seq<Id>, order: set<Id> -> seq<Id>)
    ensures Declared(Convert(n, names, order)) == Declared(n)
    decreases n, 0
  {
    match n
    case Op(_, kids) => ConvertDeclaresAll(kids, names, order);
    case _ =>
  }

  lemma {:induction false} ConvertDeclaresAll(kids: seq<Node>, names: seq<Id>, order: set<Id> -> seq<Id>)
    ensures DeclaredIn(ConvertAll(kids, names, order)) == DeclaredIn(kids)
    decreases kids, 0
  {
    if kids != [] {
      ConvertDeclares(kids[0], names, order);
      ConvertDeclaresAll(kids[1..], names, order);
      assert ConvertAll(kids, names, order)[1..] == ConvertAll(kids[1..], names, order);
    }
  }

  lemma {:induction false} ConvertWellScoped(n: Node, names: seq<Id>, order: set<Id> -> seq<Id>, locals: set<Id>)
    requires Enumerates(order) && Annotated(n) && NoFreeAssign(n, Elements(names))
    requires Referenced(n) <= locals + Elements(names)
    ensures WellScoped(Convert(n, names, order), locals, |names|)
    decreases n, 0
  {
    match n
    case Assign(_, e) => ConvertWellScoped(e, names, order, locals);
    case Var(_, _, e) => ConvertWellScoped(e, names, order, locals);
    case Op(k, kids) =>
      ConvertWellScopedAll(kids, names, order, locals);
      assert Convert(n, names, order) == Op(k, ConvertAll(kids, names, order));
    case NewRef(e) => ConvertWellScoped(e, names, order, locals);
    case Deref(e) => ConvertWellScoped(e, names, order, locals);
    case Store(b, e) =>
      ConvertWellScoped(b, names, order, locals);
      ConvertWellScoped(e, names, order, locals);
    case Func(f) =>
      var inner := order(f.freeVars);
      assert Elements(inner) == f.freeVars;
      ConvertDeclares(f.body, inner, order);
      ConvertWellScoped(f.body, inner, order, Elements(f.params) + Declared(f.body));
      forall i | 0 <= i < |inner|
        ensures WellScoped(CompileId(inner[i], names), locals, |names|)
      {
        assert inner[i] in Elements(inner);
      }
    case _ =>
  }

  lemma {:induction false} ConvertWellScopedAll(kids: seq<Node>, names: seq<Id>, order: set<Id> -> seq<Id>, locals: set<Id>)
    requires Enumerates(order) && ReferencedIn(kids) <= locals + Elements(names)
    requires forall i :: 0 <= i < |kids| ==> Annotated(kids[i]) && NoFreeAssign(kids[i], Elements(names))
    ensures var r := ConvertAll(kids, names, order); forall i :: 0 <= i < |r| ==> WellScoped(r[i], locals, |names|)
    decreases kids, 0
  {
    if kids != [] {
      ConvertWellScoped(kids[0], names, order, locals);
      ConvertWellScopedAll(kids[1..], names, order, locals);
      var r := ConvertAll(kids, names, order);
      assert r[1..] == ConvertAll(kids[1..], names, order);
      assert forall i :: 1 <= i < |r| ==> r[i] == r[1..][i - 1];
    }
  }

  // Reads a converted program back: what each environment entry stands for.
  function Unconvert(n: Node, names: seq<Id>, order: set<Id> -> seq<Id>): Node
    decreases n, 0
  {
    match n
    case EnvGet(i) => if i < |names| then Name(names[i]) else n
    case Assign(x, e) => Assign(x, Unconvert(e, names, order))
    case Var(x, any, e) => Var(x, any, Unconvert(e, names, order))
    case Op(k, kids) => Op(k, UnconvertAll(kids, names, order))
    case NewRef(e) => NewRef(Unconvert(e, names, order))
    case Deref(e) => Deref(Unconvert(e, names, order))
    case Store(b, e) => Store(Unconvert(b, names, order), Unconvert(e, names, order))
    case Closure(f, _) => Func(f.(body := Unconvert(f.body, order(f.freeVars), order)))
    case _ => n
  }

  function UnconvertAll(kids: seq<Node>, names: seq<Id>, order: set<Id> -> seq<Id>): seq<Node>
    decreases kids, 0
  {
    if kids == [] then [] else [Unconvert(kids[0], names, order)] + UnconvertAll(kids[1..], names, order)
  }

  // No environments yet.
  predicate Open(n: Node)
    decreases n
  {
    match n
    case Assign(_, e) => Open(e)
    case Var(_, _, e) => Open(e)
    case Op(_, kids) => forall i :: 0 <= i < |kids| ==> Open(kids[i])
    case NewRef(e) => Open(e)
    case Deref(e) => Open(e)
    case Store(b, e) => Open(b) && Open(e)
    case Func(f) => Open(f.body)
    case EnvGet(_) => false
    case Closure(_, _) => false
    case _ => true
  }

  // Nothing is lost: reading a converted program back gives the program.
  lemma {:induction false} ConvertRoundTrip(n: Node, names: seq<Id>, order: set<Id> -> seq<Id>)
    requires Open(n)
    ensures Unconvert(Convert(n, names, order), names, order) == n
    decreases n, 0
  {
    match n
    case Assign(_, e) => ConvertRoundTrip(e, names, order);
    case Var(_, _, e) => ConvertRoundTrip(e, names, order);
    case Op(_, kids) => ConvertRoundTripAll(kids, names, order);
    case NewRef(e) => ConvertRoundTrip(e, names, order);
    case Deref(e) => ConvertRoundTrip(e, names, order);
    case Store(b, e) =>
      ConvertRoundTrip(b, names, order);
      ConvertRoundTrip(e, names, order);
    case Func(f) => ConvertRoundTrip(f.body, order(f.freeVars), order);
    case _ =>
  }

  lemma {:induction false} ConvertRoundTripAll(kids: seq<Node>, names: seq<Id>, order: set<Id> -> seq<Id>)
    requires forall i :: 0 <= i < |kids| ==> Open(kids[i])
    ensures UnconvertAll(ConvertAll(kids, names, order), names, order) == kids
    decreases kids, 0
  {
    if kids != [] {
      ConvertRoundTrip(kids[0], names, order);
      ConvertRoundTripAll(kids[1..], names, order);
      assert ConvertAll(kids, names, order)[1..] == ConvertAll(kids[1..], names, order);
    }
  }

  // At every closure, entry i of its environment denotes, where the closure is created, the variable
  // that EnvGet(i) stands for in the closure's body; `names` are the free variables of the function
  // around.
  predicate EnvsFaithful(n: Node, names: seq<Id>, order: set<Id> -> seq<Id>)
    decreases n
  {
    match n
    case Assign(_, e) => EnvsFaithful(e, names, order)
    case Var(_, _, e) => EnvsFaithful(e, names, order)
    case Op(_, kids) => forall i :: 0 <= i < |kids| ==> EnvsFaithful(kids[i], names, order)
    case NewRef(e) => EnvsFaithful(e, names, order)
    case Deref(e) => EnvsFaithful(e, names, order)
    case Store(b, e) => EnvsFaithful(b, names, order) && EnvsFaithful(e, names, order)
    case Closure(f, env) =>
      var inner := order(f.freeVars);
      && |env| == |inner| && (forall i :: 0 <= i < |env| ==> Denotes(env[i], names, inner[i]))
      && EnvsFaithful(f.body, inner, order)
    case Func(_) => false
    case _ => true
  }

  // What a function with these free variables has to write to get at x.
  predicate Denotes(n: Node, names: seq<Id>, x: Id) {
    match n
    case EnvGet(i) => i < |names| && names[i] == x
    case Name(y) => y == x && x !in names
    case _ => false
  }

  lemma {:induction false} ConvertFaithful(n: Node, names: seq<Id>, order: set<Id> -> seq<Id>)
    requires Open(n)
    ensures EnvsFaithful(Convert(n, names, order), names, order)
    decreases n, 0
  {
    match n
    case Assign(_, e) => ConvertFaithful(e, names, order);
    case Var(_, _, e) => ConvertFaithful(e, names, order);
    case Op(k, kids) =>
      ConvertFaithfulAll(kids, names, order);
      assert Convert(n, names, order) == Op(k, ConvertAll(kids, names, order));
    case NewRef(e) => ConvertFaithful(e, names, order);
    case Deref(e) => ConvertFaithful(e, names, order);
    case Store(b, e) =>
      ConvertFaithful(b, names, order);
      ConvertFaithful(e, names, order);
    case Func(f) => ConvertFaithful(f.body, order(f.freeVars), order);
    case _ =>
  }

  lemma {:induction false} ConvertFaithfulAll(kids: seq<Node>, names: seq<Id>, order: set<Id> -> seq<Id>)
    requires forall i :: 0 <= i < |kids| ==> Open(kids[i])
    ensures var r := ConvertAll(kids, names, order); forall i :: 0 <= i < |r| ==> EnvsFaithful(r[i], names, order)
    decreases kids, 0
  {
    if kids != [] {
      ConvertFaithful(kids[0], names, order);
      ConvertFaithfulAll(kids[1..], names, order);
      var r := ConvertAll(kids, names, order);
      assert r[1..] == ConvertAll(kids[1..], names, order);
      assert forall i :: 1 <= i < |r| ==> r[i] == r[1..][i - 1];
    }
  }

  lemma {:induction false} DisciplinedIsOpen(n: Node, boxed: set<Id>)
    requires Disciplined(n, boxed)
    ensures Open(n)
    decreases n
  {
    match n
    case Assign(_, e) => DisciplinedIsOpen(e, boxed);
    case Var(x, any, e) => if !IsInit(any, e) { DisciplinedIsOpen(if x in boxed then e.e else e, boxed); }
    case Op(_, kids) =>
      forall i | 0 <= i < |kids|
        ensures Open(kids[i])
      {
        DisciplinedIsOpen(kids[i], boxed);
      }
    case Store(b, e) => DisciplinedIsOpen(e, boxed);
    case Func(f) => DisciplinedIsOpen(f.body, boxed + f.boxed);
    case _ =>
  }

  // The converting visitor: for each function around, where its free variables lie.
  class ClosureConversion {
    var freeVarsStack: seq<seq<Id>>
    const order: set<Id> -> seq<Id>

    constructor (order: set<Id> -> seq<Id>)
      ensures this.order == order && freeVarsStack == [[]]
    {
      this.order := order;
      freeVarsStack := [[]];
    }

    method Walk(n: Node) returns (r: Node)
      requires freeVarsStack != []
      modifies this
      ensures r == Convert(n, old(freeVarsStack)[|old(freeVarsStack)| - 1], order) && freeVarsStack == old(freeVarsStack)
      decreases n, 0
    {
      match n {
        case Name(x) =>
          r := CompileId(x, freeVarsStack[|freeVarsStack| - 1]);
        case Assign(x, e) =>
          var e1 := Walk(e);
          r := Assign(x, e1);
        case Var(x, any, e) =>
          var e1 := Walk(e);
          r := Var(x, any, e1);
        case Op(k, kids) =>
          var kids1 := WalkAll(kids);
          r := Op(k, kids1);
        case NewRef(e) =>
          var e1 := Walk(e);
          r := NewRef(e1);
        case Deref(e) =>
          var e1 := Walk(e);
          r := Deref(e1);
        case Store(b, e) =>
          var b1 := Walk(b);
          var e1 := Walk(e);
          r := Store(b1, e1);
        case Func(f) =>
          freeVarsStack := freeVarsStack + [order(f.freeVars)];
          var body1 := Walk(f.body);
          freeVarsStack := freeVarsStack[..|freeVarsStack| - 1];
          var env := EnvOf(order(f.freeVars), freeVarsStack[|freeVarsStack| - 1]);
          r := Closure(f.(body := body1), env);
        case _ =>
          r := n;
      }
    }

    method WalkAll(kids: seq<Node>) returns (r: seq<Node>)
      requires freeVarsStack != []
      modifies this
      ensures r == ConvertAll(kids, old(freeVarsStack)[|old(freeVarsStack)| - 1], order) && freeVarsStack == old(freeVarsStack)
      decreases kids, 0
    {
      if kids == [] { return []; }
      var k := Walk(kids[0]);
      var ks := WalkAll(kids[1..]);
      r := [k] + ks;
    }
  }
}

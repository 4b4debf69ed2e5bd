// Captured variables that are assigned move into boxes.

module Boxing {
  import opened Common
  import opened Ids
  import opened FreeVariables
  import opened AssignAnalysis

  function Size(n: Node): nat
    decreases n, 0
  {
    match n
    case Assign(_, e) => 1 + Size(e)
    case Var(_, _, e) => 1 + Size(e)
    case Op(_, kids) => 1 + SizeAll(kids)
    case Func(f) => 1 + 4 * |f.params| + Size(f.body)
    case NewRef(e) => 1 + Size(e)
    case Deref(e) => 1 + Size(e)
    case Store(b, e) => 1 + Size(b) + Size(e)
    case Closure(f, env) => 1 + Size(f.body) + SizeAll(env)
    case _ => 1
  }

  function SizeAll(kids: seq<Node>): nat
    decreases kids, 0
  {
    if kids == [] then 0 else Size(kids[0]) + SizeAll(kids[1..])
  }

  // A boxed parameter is received under a fresh name, and declared anew in front of the body.
  function RenameParams(params: seq<Id>, toBox: set<Id>, body: Node, names: Names): (r: (seq<Id>, Node, Names))
    ensures |r.0| == |params| && Size(r.1) <= 3 * |params| + Size(body)
  {
    if params == [] then ([], body, names) else
    var (front, body1, names1) := RenameParams(params[..|params| - 1], toBox, body, names);
    var x := params[|params| - 1];
    if x !in toBox then (front + [x], body1, names1) else
    var y := FreshId(names1, "to_box");
    var block := [Var(x, true, Name(y)), body1];
    assert Size(block[0]) == 2 && block[1..] == [body1] && SizeAll(block) == Size(block[0]) + SizeAll(block[1..]);
    assert SizeAll([body1]) == Size(body1) + SizeAll([body1][1..]);
    (front + [y], Op("block", block), AfterFresh(names1, "to_box"))
  }

  function Box(n: Node, toBox: set<Id>, names: Names): (Node, Names)
    decreases Size(n), 0
  {
    match n
    case Name(x) => (if x in toBox then Deref(n) else n, names)
    case Assign(x, e) =>
      var (e1, n1) := Box(e, toBox, names);
      (if x in toBox then Store(Name(x), e1) else Assign(x, e1), n1)
    case Var(x, any, e) =>
      var (e1, n1) := Box(e, toBox, names);
      (if x in toBox && !IsInit(any, e1) then Var(x, any, NewRef(e1)) else Var(x, any, e1), n1)
    case Op(k, kids) =>
      var (ks, n1) := BoxAll(kids, toBox, names);
      (Op(k, ks), n1)
    case Func(f) =>
      var inside := toBox + f.boxed;
      var (params, body, n1) := RenameParams(f.params, inside, f.body, names);
      var (body1, n2) := Box(body, inside, n1);
      (Func(f.(params := params, body := body1)), n2)
    case _ => (n, names)
  }

  function BoxAll(kids: seq<Node>, toBox: set<Id>, names: Names): (r: (seq<Node>, Names))
    ensures |r.0| == |kids|
    decreases SizeAll(kids), 1, |kids|
  {
    if kids == [] then ([], names) else
    var (k, n1) := Box(kids[0], toBox, names);
    var (ks, n2) := BoxAll(kids[1..], toBox, n1);
    ([k] + ks, n2)
  }

  // All that earlier passes have established.
  predicate Prepared(n: Node) {
    Source(n) && Annotated(n) && Collected(n) && Clean(n)
  }

  // What captured variables are assigned here are boxed here.
  predicate Covered(n: Node, toBox: set<Id>) {
    FreeChildren(n) * Assigned(n) <= toBox
  }

  // Every use of a boxed variable goes through its box, every use of another does not, and whether
  // a variable is boxed is the same inside a function and around it.  The declaration makes the
  // box, except a typed one without a value.
  predicate Disciplined(n: Node, boxed: set<Id>)
    decreases n
  {
    match n
    case Leaf(_) => true
    case Name(x) => x !in boxed
    case Deref(e) => e.Name? && e.x in boxed
    case Assign(x, e) => x !in boxed && Disciplined(e, boxed)
    case Store(b, e) => b.Name? && b.x in boxed && Disciplined(e, boxed)
    case Var(x, any, e) =>
      if x !in boxed then Disciplined(e, boxed) else (!any && e == Leaf("undefined")) || (e.NewRef? && Disciplined(e.e, boxed))
    case Op(_, kids) => forall i :: 0 <= i < |kids| ==> Disciplined(kids[i], boxed)
    case Func(f) =>
      && Elements(f.params) * (boxed + f.boxed) == {}
      && f.freeVars * (boxed + f.boxed) == f.freeVars * boxed
      && Disciplined(f.body, boxed + f.boxed)
    case _ => false
  }

  // The declaration of a boxed variable makes its box, with the value in it; a declaration of type Any
  // always does.
  lemma BoxedDeclaration(x: Id, any: bool, e: Node, toBox: set<Id>, names: Names)
    requires x in toBox
    ensures var r := Box(Var(x, any, e), toBox, names).0;
            r == Var(x, any, if !any && e == Leaf("undefined") then e else NewRef(Box(e, toBox, names).0))
  {
    assert Box(e, toBox, names).0 == Leaf("undefined") <==> e == Leaf("undefined");
  }

  // No function assigns one of its free variables directly; for the code here they are `outer`.
  predicate NoFreeAssign(n: Node, outer: set<Id>)
    decreases n
  {
    match n
    case Assign(x, e) => x !in outer && NoFreeAssign(e, outer)
    case Var(_, _, e) => NoFreeAssign(e, outer)
    case Op(_, kids) => forall i :: 0 <= i < |kids| ==> NoFreeAssign(kids[i], outer)
    case Func(f) => NoFreeAssign(f.body, f.freeVars)
    case NewRef(e) => NoFreeAssign(e, outer)
    case Deref(e) => NoFreeAssign(e, outer)
    case Store(b, e) => NoFreeAssign(b, outer) && NoFreeAssign(e, outer)
    case _ => true
  }

  // Renaming boxed parameters changes neither what a function needs from outside nor what it holds.
  lemma {:induction false} RenameKeeps(params: seq<Id>, toBox: set<Id>, body: Node, names: Names)
    requires Prepared(body) && NoneInvented(toBox) && NoneInvented(Referenced(body) + Elements(params))
    ensures var (params1, body1, _) := RenameParams(params, toBox, body, names);
            && Prepared(body1) && FreeChildren(body1) == FreeChildren(body) && Assigned(body1) == Assigned(body)
            && Referenced(body1) - Declared(body1) - Elements(params1) == Referenced(body) - Declared(body) - Elements(params)
            && Elements(params1) * toBox == {}
    decreases |params|
  {
    if params != [] {
      var front, x := params[..|params| - 1], params[|params| - 1];
      assert front + [x] == params;
      ElementsSnoc(front, x);
      RenameKeeps(front, toBox, body, names);
      var (front1, body1, names1) := RenameParams(front, toBox, body, names);
      var y := FreshId(names1, "to_box");
      ElementsSnoc(front1, x);
      ElementsSnoc(front1, y);
      if x in toBox {
        RenameOne(front, front1, x, body, body1, y);
      } else {
        OneParamMore(Referenced(body1) - Declared(body1), Elements(front1), Referenced(body) - Declared(body), Elements(front), x);
      }
    }
  }

  lemma ElementsSnoc(front: seq<Id>, x: Id)
    ensures Elements(front + [x]) == Elements(front) + {x}
  {
  }

  // What the passes see in a declaration followed by one more node.
  lemma BlockOfTwo(x: Id, y: Id, n: Node)
    ensures var kids := [Var(x, true, Name(y)), n];
            && ReferencedIn(kids) == {y} + Referenced(n) && DeclaredIn(kids) == {x} + Declared(n)
            && FreeChildrenIn(kids) == FreeChildren(n) && AssignedIn(kids) == Assigned(n)
  {
    var kids := [Var(x, true, Name(y)), n];
    assert kids[1..] == [n] && [n][1..] == [];
    assert Referenced(kids[0]) == Referenced(Name(y)) == {y};
    assert FreeChildren(kids[0]) == FreeChildren(Name(y)) == {};
    assert Assigned(kids[0]) == Assigned(Name(y)) == {};
    assert ReferencedIn([n]) == Referenced(n) + ReferencedIn([]) && DeclaredIn([n]) == Declared(n) + DeclaredIn([]);
    assert FreeChildrenIn([n]) == FreeChildren(n) + FreeChildrenIn([]) && AssignedIn([n]) == Assigned(n) + AssignedIn([]);
  }

  lemma RenameOne(front: seq<Id>, front1: seq<Id>, x: Id, body: Node, body1: Node, y: Id)
    requires Prepared(body1) && NoneInvented(Referenced(body)) && Invented(y)
    requires Referenced(body1) - Declared(body1) - Elements(front1) == Referenced(body) - Declared(body) - Elements(front)
    ensures var block := Op("block", [Var(x, true, Name(y)), body1]);
            && Prepared(block) && FreeChildren(block) == FreeChildren(body1) && Assigned(block) == Assigned(body1)
            && Declared(block) == {x} + Declared(body1)
            && Referenced(block) - Declared(block) - (Elements(front1) + {y}) == Referenced(body) - Declared(body) - (Elements(front) + {x})
  {
    BlockOfTwo(x, y, body1);
    var use := Name(y);
    assert Prepared(use) && Prepared(Var(x, true, use));
    SameNeeds(Referenced(body1), Declared(body1), Elements(front1), Referenced(body), Declared(body), Elements(front), x, y);
  }

  lemma OneParamMore(r1: set<Id>, p1: set<Id>, r: set<Id>, p: set<Id>, x: Id)
    requires r1 - p1 == r - p
    ensures r1 - (p1 + {x}) == r - (p + {x})
  {
    assert r1 - (p1 + {x}) == r1 - p1 - {x} && r - (p + {x}) == r - p - {x};
  }

  lemma SameNeeds(r1: set<Id>, d1: set<Id>, p1: set<Id>, r: set<Id>, d: set<Id>, p: set<Id>, x: Id, y: Id)
    requires r1 - d1 - p1 == r - d - p && y !in r
    ensures ({y} + r1) - ({x} + d1) - (p1 + {y}) == r - d - (p + {x})
  {
    forall z
      ensures z in ({y} + r1) - ({x} + d1) - (p1 + {y}) <==> z in r - d - (p + {x})
    {
      assert z in r1 - d1 - p1 <==> z in r - d - p;
    }
  }

  // What boxing gives for a node at which boxed variables are `toBox`.
  ghost predicate BoxedWell(n: Node, r: Node, toBox: set<Id>, outer: set<Id>) {
    && Annotated(r) && Referenced(r) == Referenced(n) && Declared(r) == Declared(n)
    && Disciplined(r, toBox) && NoFreeAssign(r, outer)
  }

  lemma {:induction false} BoxCorrect(n: Node, toBox: set<Id>, names: Names, outer: set<Id>)
    requires Prepared(n) && NoneInvented(toBox) && Covered(n, toBox) && outer * Assigned(n) <= toBox
    ensures BoxedWell(n, Box(n, toBox, names).0, toBox, outer)
    decreases Size(n), 0
  {
    match n
    case Assign(_, e) => BoxCorrect(e, toBox, names, outer);
    case Var(_, _, e) => BoxCorrect(e, toBox, names, outer);
    case Op(_, kids) => BoxAllCorrect(kids, toBox, names, outer);
    case Func(f) => BoxFuncCorrect(f, toBox, names, outer);
    case _ =>
  }

  lemma {:induction false} BoxFuncCorrect(f: Function, toBox: set<Id>, names: Names, outer: set<Id>)
    requires Prepared(Func(f)) && NoneInvented(toBox) && Covered(Func(f), toBox)
    ensures BoxedWell(Func(f), Box(Func(f), toBox, names).0, toBox, outer)
    decreases Size(Func(f)), -1
  {
    var inside := toBox + f.boxed;
    var (params, body, n1) := RenameParams(f.params, inside, f.body, names);
    RenameKeeps(f.params, inside, f.body, names);
    BoxCorrect(body, inside, n1, f.freeVars);
  }

  lemma {:induction false} BoxAllCorrect(kids: seq<Node>, toBox: set<Id>, names: Names, outer: set<Id>)
    requires (forall i :: 0 <= i < |kids| ==> Prepared(kids[i])) && NoneInvented(toBox)
    requires FreeChildrenIn(kids) * AssignedIn(kids) <= toBox && outer * AssignedIn(kids) <= toBox
    ensures var r := BoxAll(kids, toBox, names).0;
            && ReferencedIn(r) == ReferencedIn(kids) && DeclaredIn(r) == DeclaredIn(kids)
            && forall i :: 0 <= i < |r| ==> Annotated(r[i]) && Disciplined(r[i], toBox) && NoFreeAssign(r[i], outer)
    decreases SizeAll(kids), 1, |kids|
  {
    if kids != [] {
      var (k, n1) := Box(kids[0], toBox, names);
      BoxCorrect(kids[0], toBox, names, outer);
      assert forall i :: 0 <= i < |kids[1..]| ==> kids[1..][i] == kids[i + 1];
      BoxAllCorrect(kids[1..], toBox, n1, outer);
      var r := BoxAll(kids, toBox, names).0;
      assert r[0] == k && r[1..] == BoxAll(kids[1..], toBox, n1).0;
      assert forall i :: 1 <= i < |r| ==> r[i] == r[1..][i - 1];
    }
  }

  // The boxing visitor: the sets of the functions around, each containing the one below it.
  class BoxVisitor {
    var toBoxStack: seq<set<Id>>
    const ng: NameGen

    constructor (globals: set<Id>)
      ensures toBoxStack == [globals] && fresh(ng) && ng.nextName == map[]
    {
      toBoxStack := [globals];
      ng := new NameGen();
    }

    // Parameters first, then the body that now declares them.
    method EnterFn(f: Function) returns (g: Function)
      requires toBoxStack != []
      modifies this, ng
      ensures toBoxStack == old(toBoxStack) + [old(Top(toBoxStack)) + f.boxed]
      ensures (g.params, g.body, ng.nextName) == RenameParams(f.params, Top(toBoxStack), f.body, old(ng.nextName))
      ensures g == f.(params := g.params, body := g.body) && Size(g.body) <= 3 * |f.params| + Size(f.body)
    {
      var toBox := toBoxStack[|toBoxStack| - 1] + f.boxed;
      toBoxStack := toBoxStack + [toBox];
      var params: seq<Id> := [];
      var body := f.body;
      var i := 0;
      while i < |f.params|
        invariant 0 <= i <= |f.params|
        invariant toBoxStack == old(toBoxStack) + [toBox]
        invariant (params, body, ng.nextName) == RenameParams(f.params[..i], toBox, f.body, old(ng.nextName))
      {
        assert f.params[..i + 1][..i] == f.params[..i];
        var x := f.params[i];
        if x in toBox {
          var y := ng.Fresh("to_box");
          params := params + [y];
          body := Op("block", [Var(x, true, Name(y)), body]);
        } else {
          params := params + [x];
        }
        i := i + 1;
      }
      assert f.params[..i] == f.params;
      g := f.(params := params, body := body);
    }

    method Walk(n: Node) returns (r: Node)
      requires toBoxStack != []
      modifies this, ng
      ensures (r, ng.nextName) == Box(n, old(Top(toBoxStack)), old(ng.nextName)) && toBoxStack == old(toBoxStack)
      ensures n.Var? && n.x in old(Top(toBoxStack)) ==> r.Var? && (r.e.NewRef? || (!n.any && n.e == Leaf("undefined")))
      decreases Size(n), 0
    {
      match n {
        case Name(x) =>
          r := if x in toBoxStack[|toBoxStack| - 1] then Deref(n) else n;
        case Assign(x, e) =>
          var e1 := Walk(e);
          r := if x in toBoxStack[|toBoxStack| - 1] then Store(Name(x), e1) else Assign(x, e1);
        case Var(x, any, e) =>
          if x in toBoxStack[|toBoxStack| - 1] { BoxedDeclaration(x, any, e, toBoxStack[|toBoxStack| - 1], ng.nextName); }
          var e1 := Walk(e);
          r := if x in toBoxStack[|toBoxStack| - 1] && !IsInit(any, e1) then Var(x, any, NewRef(e1)) else Var(x, any, e1);
        case Op(k, kids) =>
          var kids1 := WalkAll(kids);
          r := Op(k, kids1);
        case Func(f) =>
          var g := EnterFn(f);
          var body1 := Walk(g.body);
          toBoxStack := toBoxStack[..|toBoxStack| - 1];
          r := Func(g.(body := body1));
        case _ =>
          r := n;
      }
    }

    method WalkAll(kids: seq<Node>) returns (r: seq<Node>)
      requires toBoxStack != []
      modifies this, ng
      ensures (r, ng.nextName) == BoxAll(kids, old(Top(toBoxStack)), old(ng.nextName)) && toBoxStack == old(toBoxStack)
      decreases SizeAll(kids), 1, |kids|
    {
      if kids == [] { return []; }
      var k := Walk(kids[0]);
      var ks := WalkAll(kids[1..]);
      r := [k] + ks;
    }
  }
}

// Which variables need boxes: those that a nested function captures and that are assigned.

module AssignAnalysis {
  import opened Common
  import opened Ids
  import opened FreeVariables

  // Free variables of the functions created right here, not inside other functions.
  function FreeChildren(n: Node): set<Id>
    decreases n, 0
  {
    match n
    case Assign(_, e) => FreeChildren(e)
    case Var(_, _, e) => FreeChildren(e)
    case Op(_, kids) => FreeChildrenIn(kids)
    case Func(f) => f.freeVars
    case NewRef(e) => FreeChildren(e)
    case Deref(e) => FreeChildren(e)
    case Store(_, e) => FreeChildren(e)
    case _ => {}
  }

  function FreeChildrenIn(kids: seq<Node>): set<Id>
    decreases kids, 0
  {
    if kids == [] then {} else FreeChildren(kids[0]) + FreeChildrenIn(kids[1..])
  }

  // Writes into every function the names to box.
  function Collect(n: Node): Node
    decreases n, 0
  {
    match n
    case Assign(x, e) => Assign(x, Collect(e))
    case Var(x, any, e) => Var(x, any, Collect(e))
    case Op(k, kids) => Op(k, CollectAll(kids))
    case Func(f) => Func(f.(body := Collect(f.body), boxed := FreeChildren(f.body) * Assigned(f.body)))
    case _ => n
  }

  function CollectAll(kids: seq<Node>): (r: seq<Node>)
    ensures |r| == |kids|
    decreases kids, 0
  {
    if kids == [] then [] else [Collect(kids[0])] + CollectAll(kids[1..])
  }

  function GlobalsToBox(program: Node): set<Id> {
    FreeChildren(program) * Assigned(program)
  }

  // What `Collect` leaves alone, and what it writes.
  predicate Collected(n: Node)
    decreases n
  {
    match n
    case Assign(_, e) => Collected(e)
    case Var(_, _, e) => Collected(e)
    case Op(_, kids) => forall i :: 0 <= i < |kids| ==> Collected(kids[i])
    case Func(f) => f.boxed == FreeChildren(f.body) * Assigned(f.body) && Collected(f.body)
    case _ => true
  }

  lemma {:induction false} CollectCollects(n: Node)
    requires Source(n) && Annotated(n)
    ensures var r := Collect(n);
            && Collected(r) && Annotated(r) && Source(r)
            && Referenced(r) == Referenced(n) && Declared(r) == Declared(n) && FreeChildren(r) == FreeChildren(n) && Assigned(r) == Assigned(n)
            && (Clean(n) ==> Clean(r))
    decreases n, 0
  {
    match n
    case Assign(_, e) => CollectCollects(e);
    case Var(_, _, e) => CollectCollects(e);
    case Op(_, kids) => CollectCollectsAll(kids);
    case Func(f) => CollectCollects(f.body);
    case _ =>
  }

  lemma {:induction false} CollectCollectsAll(kids: seq<Node>)
    requires forall i :: 0 <= i < |kids| ==> Source(kids[i]) && Annotated(kids[i])
    ensures var r := CollectAll(kids);
            && (forall i :: 0 <= i < |r| ==> Collected(r[i]) && Annotated(r[i]) && Source(r[i]) && (Clean(kids[i]) ==> Clean(r[i])))
            && ReferencedIn(r) == ReferencedIn(kids) && DeclaredIn(r) == DeclaredIn(kids)
            && FreeChildrenIn(r) == FreeChildrenIn(kids) && AssignedIn(r) == AssignedIn(kids)
    decreases kids, 0
  {
    if kids != [] {
      CollectCollects(kids[0]);
      CollectCollectsAll(kids[1..]);
      var r := CollectAll(kids);
      assert r[1..] == CollectAll(kids[1..]) && r[0] == Collect(kids[0]);
      assert forall i :: 1 <= i < |r| ==> r[i] == r[1..][i - 1];
    }
  }

  // Does some function inside, at any depth, use this very variable?
  predicate Captured(n: Node, x: Id)
    decreases n
  {
    match n
    case Assign(_, e) => Captured(e, x)
    case Var(_, _, e) => Captured(e, x)
    case Op(_, kids) => exists i :: 0 <= i < |kids| && Captured(kids[i], x)
    case Func(f) => x !in f.params && x !in Declared(f.body) && (x in Referenced(f.body) || Captured(f.body, x))
    case _ => false
  }

  // Is this very variable assigned somewhere inside, at any depth?
  predicate AssignedTo(n: Node, x: Id)
    decreases n
  {
    match n
    case Assign(y, e) => x == y || AssignedTo(e, x)
    case Var(_, _, e) => AssignedTo(e, x)
    case Op(_, kids) => exists i :: 0 <= i < |kids| && AssignedTo(kids[i], x)
    case Func(f) => x !in f.params && x !in Declared(f.body) && AssignedTo(f.body, x)
    case _ => false
  }

  lemma {:induction false} CapturedIsFreeChild(n: Node, x: Id)
    requires Source(n) && Annotated(n) && Captured(n, x)
    ensures x in FreeChildren(n) && x in Referenced(n)
    decreases n, 0
  {
    match n
    case Assign(_, e) => CapturedIsFreeChild(e, x);
    case Var(_, _, e) => CapturedIsFreeChild(e, x);
    case Op(_, kids) => CapturedInKids(kids, x);
    case Func(f) => if Captured(f.body, x) { CapturedIsFreeChild(f.body, x); }
  }

  lemma {:induction false} CapturedInKids(kids: seq<Node>, x: Id)
    requires forall i :: 0 <= i < |kids| ==> Source(kids[i]) && Annotated(kids[i])
    requires exists i :: 0 <= i < |kids| && Captured(kids[i], x)
    ensures x in FreeChildrenIn(kids) && x in ReferencedIn(kids)
    decreases kids, 0
  {
    if Captured(kids[0], x) {
      CapturedIsFreeChild(kids[0], x);
    } else {
      var i :| 0 <= i < |kids| && Captured(kids[i], x);
      assert kids[1..][i - 1] == kids[i];
      CapturedInKids(kids[1..], x);
    }
  }

  lemma {:induction false} AssignedToIsAssigned(n: Node, x: Id)
    requires AssignedTo(n, x)
    ensures x in Assigned(n)
    decreases n, 0
  {
    match n
    case Assign(y, e) => if x != y { AssignedToIsAssigned(e, x); }
    case Var(_, _, e) => AssignedToIsAssigned(e, x);
    case Op(_, kids) => AssignedToInKids(kids, x);
    case Func(f) => AssignedToIsAssigned(f.body, x);
  }

  lemma {:induction false} AssignedToInKids(kids: seq<Node>, x: Id)
    requires exists i :: 0 <= i < |kids| && AssignedTo(kids[i], x)
    ensures x in AssignedIn(kids)
    decreases kids, 0
  {
    if AssignedTo(kids[0], x) {
      AssignedToIsAssigned(kids[0], x);
    } else {
      var i :| 0 <= i < |kids| && AssignedTo(kids[i], x);
      assert kids[1..][i - 1] == kids[i];
      AssignedToInKids(kids[1..], x);
    }
  }

  // Boxing is complete: a variable of a function, captured at any depth and assigned at any depth,
  // is in the function's set.  So a captured variable that is left unboxed is never assigned.
  lemma BoxingComplete(f: Function, x: Id)
    requires Source(f.body) && Annotated(f.body) && Collected(Func(f))
    requires Captured(f.body, x) && AssignedTo(f.body, x)
    ensures x in f.boxed
  {
    CapturedIsFreeChild(f.body, x);
    AssignedToIsAssigned(f.body, x);
  }

  // The collecting visitor: two stacks of sets, one entry a function around.
  class CollectAssigns {
    var freeChildren: seq<set<Id>>
    var assignedVars: seq<set<Id>>

    constructor ()
      ensures freeChildren == [{}] && assignedVars == [{}]
    {
      freeChildren := [{}];
      assignedVars := [{}];
    }

    // One more function of the innermost one around; what it assigns counts there as well.
    method ExitFn(f: Function) returns (r: Function)
      requires |freeChildren| > 1 && |assignedVars| > 1
      modifies this
      ensures r == f.(boxed := old(Top(freeChildren)) * old(Top(assignedVars)))
      ensures freeChildren == AddTo(old(Below(freeChildren)), f.freeVars) && assignedVars == AddTo(old(Below(assignedVars)), old(Top(assignedVars)))
    {
      var captured := freeChildren[|freeChildren| - 1];
      var written := assignedVars[|assignedVars| - 1];
      freeChildren := freeChildren[..|freeChildren| - 1];
      assignedVars := assignedVars[..|assignedVars| - 1];
      r := f.(boxed := captured * written);
      freeChildren := freeChildren[|freeChildren| - 1 := freeChildren[|freeChildren| - 1] + f.freeVars];
      assignedVars := assignedVars[|assignedVars| - 1 := assignedVars[|assignedVars| - 1] + written];
    }

    method Walk(n: Node) returns (r: Node)
      requires freeChildren != [] && assignedVars != [] && Source(n)
      modifies this
      ensures r == Collect(n)
      ensures freeChildren == AddTo(old(freeChildren), FreeChildren(n)) && assignedVars == AddTo(old(assignedVars), Assigned(n))
      decreases n, 0
    {
      match n {
        case Assign(x, e) =>
          var e1 := Walk(e);
          ghost var before := assignedVars;
          assignedVars := assignedVars[|assignedVars| - 1 := assignedVars[|assignedVars| - 1] + {x}];
          assert assignedVars == AddTo(before, {x});
          AddTwice(old(assignedVars), {x}, Assigned(e));
          r := Assign(x, e1);
        case Var(x, any, e) =>
          var e1 := Walk(e);
          r := Var(x, any, e1);
        case Op(k, kids) =>
          var kids1 := WalkAll(kids);
          r := Op(k, kids1);
        case Func(f) =>
          freeChildren := freeChildren + [{}];
          assignedVars := assignedVars + [{}];
          var body1 := Walk(f.body);
          Pushed(old(freeChildren), FreeChildren(f.body));
          Pushed(old(assignedVars), Assigned(f.body));
          var f1 := ExitFn(f.(body := body1));
          r := Func(f1);
        case _ =>
          AddNothing(freeChildren);
          AddNothing(assignedVars);
          r := n;
      }
    }

    method WalkAll(kids: seq<Node>) returns (r: seq<Node>)
      requires freeChildren != [] && assignedVars != [] && forall i :: 0 <= i < |kids| ==> Source(kids[i])
      modifies this
      ensures r == CollectAll(kids)
      ensures freeChildren == AddTo(old(freeChildren), FreeChildrenIn(kids)) && assignedVars == AddTo(old(assignedVars), AssignedIn(kids))
      decreases kids, 0
    {
      if kids == [] {
        AddNothing(freeChildren);
        AddNothing(assignedVars);
        return [];
      }
      var k := Walk(kids[0]);
      var ks := WalkAll(kids[1..]);
      AddTwice(old(freeChildren), FreeChildren(kids[0]), FreeChildrenIn(kids[1..]));
      AddTwice(old(assignedVars), Assigned(kids[0]), AssignedIn(kids[1..]));
      r := [k] + ks;
    }
  }

  function Top(stack: seq<set<Id>>): set<Id>
    requires stack != []
  {
    stack[|stack| - 1]
  }

  function Below(stack: seq<set<Id>>): seq<set<Id>>
    requires stack != []
  {
    stack[..|stack| - 1]
  }

  function AddTo(stack: seq<set<Id>>, more: set<Id>): (r: seq<set<Id>>)
    requires stack != []
    ensures |r| == |stack|
  {
    Below(stack) + [Top(stack) + more]
  }

  lemma AddNothing(stack: seq<set<Id>>)
    requires stack != []
    ensures AddTo(stack, {}) == stack
  {
    assert Top(stack) + {} == Top(stack);
  }

  lemma AddTwice(stack: seq<set<Id>>, a: set<Id>, b: set<Id>)
    requires stack != []
    ensures AddTo(AddTo(stack, a), b) == AddTo(stack, a + b) == AddTo(AddTo(stack, b), a)
  {
    assert Top(stack) + a + b == Top(stack) + (a + b) == Top(stack) + b + a;
    assert Below(AddTo(stack, a)) == Below(stack) == Below(AddTo(stack, b));
  }

  lemma Pushed(stack: seq<set<Id>>, more: set<Id>)
    ensures Below(AddTo(stack + [{}], more)) == stack && Top(AddTo(stack + [{}], more)) == more
  {
    assert {} + more == more;
  }

  method CollectAssignsIn(program: Node) returns (r: Node, globals: set<Id>)
    requires Source(program)
    ensures r == Collect(program) && globals == GlobalsToBox(program)
  {
    var v := new CollectAssigns();
    r := v.Walk(program);
    globals := v.freeChildren[0] * v.assignedVars[0];
  }
}

// Moving declarations to the front of the function or program around them.

module LiftedPrograms {
  import opened Common
  import opened Ids
  import opened FreeVariables
  import opened JankyMeaning
  import opened DeclaredInTime
  import opened Patches

  // No declaration in this code itself; functions inside begin with theirs.
  predicate NoDecls(n: Node)
    decreases n, 0
  {
    match n
    case Leaf(_) => true
    case Name(_) => true
    case Assign(_, e) => NoDecls(e)
    case Op(_, kids) => forall i :: 0 <= i < |kids| ==> NoDecls(kids[i])
    case Func(f) => Lifted(f.body)
    case _ => false
  }

  // A block of declarations without a value to compute, and then the code.
  predicate Lifted(body: Node)
    decreases body, 1
  {
    body.Op? && body.kind == "block" && LiftedIn(body.kids)
  }

  predicate LiftedIn(kids: seq<Node>)
    decreases kids, 0
  {
    || (forall i :: 0 <= i < |kids| ==> NoDecls(kids[i]))
    || (kids[0].Var? && kids[0].e.Leaf? && LiftedIn(kids[1..]))
  }

  // ----- Lifted programs declare in time -----

  lemma {:induction false} NoDeclsDeclares(n: Node)
    requires NoDecls(n)
    ensures Declared(n) == {}
    decreases n
  {
    if n.Op? { NoDeclsDeclaresIn(n.kids); }
  }

  lemma {:induction false} NoDeclsDeclaresIn(kids: seq<Node>)
    requires forall i :: 0 <= i < |kids| ==> NoDecls(kids[i])
    ensures DeclaredIn(kids) == {}
    decreases kids
  {
    if kids != [] {
      NoDeclsDeclares(kids[0]);
      NoDeclsDeclaresIn(kids[1..]);
    }
  }

  lemma {:induction false} NoDeclsInTime(n: Node, unshared: set<Id>)
    requires NoDecls(n)
    ensures InTime(n, {}, unshared) && Left(n, {}) == {}
    decreases n, 0
  {
    match n
    case Leaf(_) =>
    case Name(_) =>
    case Assign(_, e) =>
      NoDeclsDeclares(e);
      NoDeclsInTime(e, unshared);
    case Op(kind, kids) =>
      if kind == "block" {
        NoDeclsInTimeIn(kids, unshared);
      } else {
        forall i | 0 <= i < |kids|
          ensures InTime(kids[i], {}, unshared - CapturesIn(kids))
        {
          NoDeclsInTime(kids[i], unshared - CapturesIn(kids));
        }
      }
    case Func(f) => LiftedIsTimely(f);
  }

  lemma {:induction false} NoDeclsInTimeIn(kids: seq<Node>, unshared: set<Id>)
    requires forall i :: 0 <= i < |kids| ==> NoDecls(kids[i])
    ensures InTimeIn(kids, {}, unshared) && LeftIn(kids, {}) == {}
    decreases kids, 0
  {
    if kids != [] {
      NoDeclsInTime(kids[0], unshared);
      NoDeclsInTimeIn(kids[1..], unshared - Captures(kids[0]));
    }
  }

  lemma {:induction false} LiftedInTime(kids: seq<Node>, wait: set<Id>, unshared: set<Id>)
    requires LiftedIn(kids) && wait <= DeclaredIn(kids) <= unshared
    ensures InTimeIn(kids, wait, unshared)
    decreases kids, 1
  {
    if forall i :: 0 <= i < |kids| ==> NoDecls(kids[i]) {
      NoDeclsDeclaresIn(kids);
      assert wait == {};
      NoDeclsInTimeIn(kids, unshared);
    } else {
      var x := kids[0].x;
      assert Declared(kids[0]) == {x} && Captures(kids[0]) == {} && unshared - {} == unshared;
      assert InTime(kids[0].e, wait, unshared) && InTime(kids[0], wait, unshared) && Left(kids[0], wait) == wait - {x};
      LiftedInTime(kids[1..], wait - {x}, unshared);
    }
  }

  lemma {:induction false} LiftedIsTimely(f: Function)
    requires Lifted(f.body)
    ensures Timely(f)
    decreases f.body, 2
  {
    LiftedInTime(f.body.kids, Declared(f.body) - Elements(f.params), Own(f));
  }

  // ----- The pass -----

  // The code with assignments for its declarations, and the declarations for the function around it.
  function Lift(n: Node): (Node, seq<Node>)
    decreases n, 0
  {
    match n
    case Assign(x, e) => var (e1, ds) := Lift(e); (Assign(x, e1), ds)
    case Var(x, any, e) => var (e1, ds) := Lift(e); (Assign(x, e1), ds + [Var(x, any, Leaf("undefined"))])
    case Op(kind, kids) => var (r, ds) := LiftAll(kids); (Op(kind, r), ds)
    case Func(f) =>
      var (body, ds) := Lift(f.body);
      if IsBlock(f.body) then (Func(f.(body := Op("block", ds + body.kids))), []) else (Func(f.(body := body)), ds)
    case _ => (n, [])
  }

  function LiftAll(kids: seq<Node>): (r: (seq<Node>, seq<Node>))
    ensures |r.0| == |kids|
    decreases kids, 0
  {
    if kids == [] then ([], []) else
    var (k, ds) := Lift(kids[0]);
    var (ks, ds1) := LiftAll(kids[1..]);
    ([k] + ks, ds + ds1)
  }

  predicate IsBlock(n: Node) {
    n.Op? && n.kind == "block"
  }

  // None stands for the panic of a program that declares a variable and is no block.
  function LiftVars(program: Node): Option<Node> {
    var (r, ds) := Lift(program);
    if IsBlock(program) then Some(Op("block", ds + r.kids)) else if ds == [] then Some(r) else None
  }

  // As programs are parsed: function bodies are blocks, and expressions declare nothing.
  predicate Parsed(n: Node)
    decreases n
  {
    match n
    case Leaf(_) => true
    case Name(_) => true
    case Assign(_, e) => Parsed(e) && Declared(e) == {}
    case Var(_, _, e) => Parsed(e) && Declared(e) == {}
    case Op(_, kids) => forall i :: 0 <= i < |kids| ==> Parsed(kids[i])
    case Func(f) => IsBlock(f.body) && Parsed(f.body)
    case _ => false
  }

  predicate AllDecls(ds: seq<Node>) {
    forall i :: 0 <= i < |ds| ==> ds[i].Var? && ds[i].e == Leaf("undefined")
  }

  // What lifting does to the names of a piece of code.
  ghost predicate SameNames(n: Node, r: Node, ds: seq<Node>) {
    && DeclaredIn(ds) == Declared(n) && Declared(r) == {}
    && Referenced(r) == Referenced(n) + Declared(n) && FreeAssigns(r) == FreeAssigns(n) + Declared(n)
  }

  lemma {:induction false} DeclsDeclare(ds: seq<Node>, more: seq<Node>)
    requires AllDecls(ds)
    ensures DeclaredIn(ds + more) == DeclaredIn(ds) + DeclaredIn(more) && ReferencedIn(ds + more) == ReferencedIn(more)
    ensures FreeAssignsIn(ds + more) == FreeAssignsIn(more)
  {
    if ds == [] {
      assert ds + more == more;
    } else {
      DeclsDeclare(ds[1..], more);
      assert Referenced(ds[0]) == {} && FreeAssigns(ds[0]) == {};
      assert (ds + more)[0] == ds[0] && (ds + more)[1..] == ds[1..] + more;
    }
  }

  lemma {:induction false} DeclsInFront(ds: seq<Node>, kids: seq<Node>)
    requires AllDecls(ds) && forall i :: 0 <= i < |kids| ==> NoDecls(kids[i])
    ensures LiftedIn(ds + kids)
  {
    if ds == [] {
      assert ds + kids == kids;
    } else {
      DeclsInFront(ds[1..], kids);
      assert (ds + kids)[0] == ds[0] && (ds + kids)[1..] == ds[1..] + kids;
    }
  }

  lemma {:induction false} LiftLifts(n: Node)
    requires Parsed(n)
    ensures var (r, ds) := Lift(n); NoDecls(r) && AllDecls(ds) && SameNames(n, r, ds) && (IsBlock(n) ==> IsBlock(r))
    decreases n, 0
  {
    match n
    case Assign(_, e) => LiftLifts(e);
    case Var(_, _, e) => VarLifts(n);
    case Op(_, kids) => LiftAllLifts(kids);
    case Func(f) =>
      LiftLifts(f.body);
      BodyLifts(f.body);
    case _ =>
  }

  lemma {:induction false} VarLifts(n: Node)
    requires n.Var? && Parsed(n)
    ensures var (r, ds) := Lift(n); NoDecls(r) && AllDecls(ds) && SameNames(n, r, ds)
    decreases n, -1
  {
    LiftLifts(n.e);
    var (e1, ds) := Lift(n.e);
    DeclsDeclare(ds, [Var(n.x, n.any, Leaf("undefined"))]);
  }

  lemma BodyLifts(body: Node)
    requires IsBlock(body) && Parsed(body)
    requires var (r, ds) := Lift(body); NoDecls(r) && AllDecls(ds) && SameNames(body, r, ds) && IsBlock(r)
    ensures var (r, ds) := Lift(body);
            var whole := Op("block", ds + r.kids);
            Lifted(whole) && Declared(whole) == Declared(body)
            && Referenced(whole) == Referenced(body) + Declared(body) && FreeAssigns(whole) == FreeAssigns(body) + Declared(body)
  {
    var (r, ds) := Lift(body);
    DeclsDeclare(ds, r.kids);
    DeclsInFront(ds, r.kids);
  }

  lemma {:induction false} LiftAllLifts(kids: seq<Node>)
    requires forall i :: 0 <= i < |kids| ==> Parsed(kids[i])
    ensures var (r, ds) := LiftAll(kids);
            && (forall i :: 0 <= i < |r| ==> NoDecls(r[i])) && AllDecls(ds)
            && DeclaredIn(ds) == DeclaredIn(kids) && DeclaredIn(r) == {}
            && ReferencedIn(r) == ReferencedIn(kids) + DeclaredIn(kids) && FreeAssignsIn(r) == FreeAssignsIn(kids) + DeclaredIn(kids)
    decreases kids, 0
  {
    if kids != [] {
      LiftLifts(kids[0]);
      LiftAllLifts(kids[1..]);
      var (k, ds) := Lift(kids[0]);
      var (ks, ds1) := LiftAll(kids[1..]);
      DeclsDeclare(ds, ds1);
      assert ([k] + ks)[1..] == ks;
    }
  }

  // Every parsed program that is a block is lifted; it declares what it declared and needs the same
  // names from outside, so it uses no variable too early.
  lemma LiftVarsLifts(program: Node)
    requires IsBlock(program) && Parsed(program)
    ensures var r := LiftVars(program);
            && r.Some? && Lifted(r.value) && Declared(r.value) == Declared(program)
            && Referenced(r.value) - Declared(r.value) == Referenced(program) - Declared(program)
            && (FreeAssigns(program) <= Declared(program) ==> TimelyProgram(r.value))
  {
    LiftLifts(program);
    BodyLifts(program);
    LiftedIsTimely(Outermost(LiftVars(program).value).f);
  }

  // ----- What lifted declarations do -----

  function AllUndefined<W>(p: Runtime<W>, ds: seq<Node>, a: nat, cells: map<(nat, Id), Value>): map<(nat, Id), Value>
    requires AllDecls(ds)
  {
    if ds == [] then cells else AllUndefined(p, ds[1..], a, cells[(a, ds[0].x) := p.literal("undefined")])
  }

  lemma {:induction false} AllUndefinedAt<W>(p: Runtime<W>, ds: seq<Node>, a: nat, cells: map<(nat, Id), Value>, x: Id)
    requires AllDecls(ds) && (a, x) in cells
    ensures (a, x) in AllUndefined(p, ds, a, cells)
    ensures AllUndefined(p, ds, a, cells)[(a, x)] == if x in DeclaredIn(ds) then p.literal("undefined") else cells[(a, x)]
    decreases ds
  {
    if ds != [] { AllUndefinedAt(p, ds[1..], a, cells[(a, ds[0].x) := p.literal("undefined")], x); }
  }

  lemma {:induction false} DeclsRun<W>(p: Runtime<W>, ds: seq<Node>, kids: seq<Node>, fr: Frame, a: nat, s: State<W>, fuel: nat)
    requires AllDecls(ds) && (forall x <- DeclaredIn(ds) :: x in fr.scope && fr.scope[x] == a) && Unshared(a, s)
    requires kids == [] ==> ds == []
    ensures EvalBlock(p, ds + kids, fr, s, fuel) == EvalBlock(p, kids, fr, s.(cells := AllUndefined(p, ds, a, s.cells)), fuel)
    decreases ds
  {
    if ds == [] {
      assert ds + kids == kids;
    } else {
      var x, s1 := ds[0].x, s.(cells := s.cells[(a, ds[0].x) := p.literal("undefined")]);
      assert x in Declared(ds[0]) && !HandedOn(x, a, s);
      assert Eval(p, Leaf("undefined"), fr, s, fuel) == Done(Normal(p.literal("undefined")), s);
      assert Eval(p, ds[0], fr, s, fuel) == Done(Normal(p.literal("undefined")), s1);
      UnsharedLater(a, s, s1);
      DeclsRun(p, ds[1..], kids, fr, a, s1, fuel);
      assert (ds + kids)[0] == ds[0] && (ds + kids)[1..] == ds[1..] + kids;
    }
  }

  lemma {:induction false} NothingToLift(kids: seq<Node>)
    ensures kids == [] ==> LiftAll(kids) == ([], [])
  {
  }

  // A function that was lifted starts as if its variables had been set to `undefined`, parameters
  // that it declares again among them: a parameter has its argument when the code begins if and only
  // if it is not declared in the body, or the argument is `undefined`.
  lemma ParametersKeptIff<W>(p: Runtime<W>, f: Function, scope: map<Id, nat>, args: seq<Value>, s: State<W>, x: Id, fuel: nat)
    requires IsBlock(f.body) && Parsed(f.body) && Unshared(s.calls, s) && x in f.params
    ensures var (r, ds) := Lift(f.body);
            var c := Code(Lift(Func(f)).0.f, scope, []);
            var a, s0 := s.calls, Entered(p, c, args, s);
            && IsBlock(r) && AllDecls(ds) && (a, x) in s0.cells
            && var cells := AllUndefined(p, ds, a, s0.cells);
            && Eval(p, c.f.body, FrameOf(c, a), s0, fuel) == EvalBlock(p, r.kids, FrameOf(c, a), s0.(cells := cells), fuel)
            && (a, x) in cells
            && (cells[(a, x)] == s0.cells[(a, x)] <==> x !in Declared(f.body) || s0.cells[(a, x)] == p.literal("undefined"))
  {
    var (r, ds) := Lift(f.body);
    LiftLifts(f.body);
    BodyLifts(f.body);
    NothingToLift(f.body.kids);
    var c := Code(Lift(Func(f)).0.f, scope, []);
    var a, s0 := s.calls, Entered(p, c, args, s);
    Bind(p, c.f.params, args, a, s.cells);
    UnsharedLater(a, s, s0);
    AllUndefinedAt(p, ds, a, s0.cells, x);
    DeclsRun(p, ds, r.kids, FrameOf(c, a), a, s0, fuel);
  }

  // ----- The pass in place -----

  function AtStart(ds: seq<Node>): seq<Patch<Node>> {
    if ds == [] then [] else [Patch(0, ds[0])] + AtStart(ds[1..])
  }

  lemma {:induction false} AtStartJoined(a: seq<Node>, b: seq<Node>)
    ensures AtStart(a + b) == AtStart(a) + AtStart(b)
  {
    if a == [] {
      assert a + b == b;
    } else {
      AtStartJoined(a[1..], b);
      assert (a + b)[0] == a[0] && (a + b)[1..] == a[1..] + b;
      Reassociated([Patch(0, a[0])], AtStart(a[1..]), AtStart(b));
    }
  }

  lemma {:induction false} AtStartPlaces(ds: seq<Node>)
    ensures At(AtStart(ds), 0) == ds && |AtStart(ds)| == |ds| && forall k :: 0 <= k < |ds| ==> AtStart(ds)[k].index == 0
  {
    if ds != [] {
      AtStartPlaces(ds[1..]);
      AtCons(Patch(0, ds[0]), AtStart(ds[1..]), 0);
    }
  }

  lemma NothingLater(ds: seq<Node>)
    ensures SameFrom(AtStart(ds), [], 1)
  {
    AtStartPlaces(ds);
    forall i | i >= 1
      ensures At(AtStart(ds), i) == At<Node>([], i)
    {
      NothingBelow(AtStart(ds), i);
    }
  }

  lemma AllInFront(block: seq<Node>, ds: seq<Node>)
    ensures Interleaved(block, AtStart(ds), 0) == ds + block
  {
    AtStartPlaces(ds);
    if block != [] {
      NothingLater(ds);
      SameInterleaving(block, AtStart(ds), [], 1);
      NoPatches(block, 1);
      assert block == [block[0]] + block[1..];
      Reassociated(ds, [block[0]], block[1..]);
    }
  }

  // `body` collects what goes in front of the function or program around the code.
  method Walk(n: Node, body: BlockContext<Node>) returns (r: Node)
    modifies body
    ensures r == Lift(n).0 && body.patches == old(body.patches) + AtStart(Lift(n).1)
    decreases n, 0
  {
    match n {
      case Assign(x, e) =>
        var e1 := Walk(e, body);
        r := Assign(x, e1);
      case Var(x, any, e) =>
        var e1 := Walk(e, body);
        AtStartJoined(Lift(e).1, [Var(x, any, Leaf("undefined"))]);
        var ok := body.Insert(0, Var(x, any, Leaf("undefined")));
        r := Assign(x, e1);
      case Op(kind, kids) =>
        var ks := WalkAll(kids, body);
        r := Op(kind, ks);
      case Func(f) =>
        if IsBlock(f.body) {
          var b := WalkBody(f.body.kids);
          r := Func(f.(body := Op("block", b)));
        } else {
          var b := Walk(f.body, body);
          r := Func(f.(body := b));
        }
      case _ => r := n;
    }
  }

  method WalkAll(kids: seq<Node>, body: BlockContext<Node>) returns (r: seq<Node>)
    modifies body
    ensures r == LiftAll(kids).0 && body.patches == old(body.patches) + AtStart(LiftAll(kids).1)
    decreases kids, 0
  {
    if kids == [] { return []; }
    var k := Walk(kids[0], body);
    var ks := WalkAll(kids[1..], body);
    AtStartJoined(Lift(kids[0]).1, LiftAll(kids[1..]).1);
    r := [k] + ks;
  }

  // A block that is the body of a function or program: its own patches are put in at the end.
  method WalkBody(kids: seq<Node>) returns (r: seq<Node>)
    ensures r == LiftAll(kids).1 + LiftAll(kids).0
    decreases kids, 1
  {
    var body := new BlockContext<Node>(|kids|);
    var ks := WalkAll(kids, body);
    var ds := LiftAll(kids).1;
    AtStartPlaces(ds);
    assert [] + AtStart(ds) == AtStart(ds);
    AllInFront(ks, ds);
    r := body.ApplyPatches(ks);
  }

  method LiftVarsInPlace(program: Node) returns (r: Option<Node>)
    ensures r == LiftVars(program)
  {
    if IsBlock(program) {
      var b := WalkBody(program.kids);
      r := Some(Op("block", b));
    } else {
      var nowhere := new BlockContext<Node>(0);
      var n := Walk(program, nowhere);
      AtStartPlaces(Lift(program).1);
      assert [] + AtStart(Lift(program).1) == AtStart(Lift(program).1);
      r := if nowhere.patches == [] then Some(n) else None;
    }
  }
}

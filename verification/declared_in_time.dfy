// Programs that declare their variables in time use none too early.

module DeclaredInTime {
  import opened Common
  import opened Ids
  import opened FreeVariables
  import opened JankyMeaning

  // Names that the functions created in this code get hold of.
  function Captures(n: Node): set<Id>
    decreases n, 0
  {
    match n
    case Assign(_, e) => Captures(e)
    case Var(_, _, e) => Captures(e)
    case Op(_, kids) => CapturesIn(kids)
    case Func(_) => Referenced(n)
    case _ => {}
  }

  function CapturesIn(kids: seq<Node>): set<Id>
    decreases kids, 0
  {
    if kids == [] then {} else Captures(kids[0]) + CapturesIn(kids[1..])
  }

  // Names that are assigned here or inside and bound outside.
  function FreeAssigns(n: Node): set<Id>
    decreases n, 0
  {
    match n
    case Assign(x, e) => {x} + FreeAssigns(e)
    case Var(_, _, e) => FreeAssigns(e)
    case Op(_, kids) => FreeAssignsIn(kids)
    case Func(f) => FreeAssigns(f.body) - Own(f)
    case _ => {}
  }

  function FreeAssignsIn(kids: seq<Node>): set<Id>
    decreases kids, 0
  {
    if kids == [] then {} else FreeAssigns(kids[0]) + FreeAssignsIn(kids[1..])
  }

  // Of the variables that may have no declaration behind them, those that still may after this code.
  function Left(n: Node, wait: set<Id>): set<Id>
    decreases n, 0
  {
    match n
    case Assign(_, e) => Left(e, wait)
    case Var(x, _, e) => Left(e, wait) - {x}
    case Op(kind, kids) => if kind == "block" then LeftIn(kids, wait) else wait
    case _ => wait
  }

  function LeftIn(kids: seq<Node>, wait: set<Id>): set<Id>
    decreases kids, 0
  {
    if kids == [] then wait else LeftIn(kids[1..], Left(kids[0], wait))
  }

  // On no path is a variable of `wait` used or captured before its declaration, and what is declared
  // is still among the `unshared`, which no function has yet.  An operator may run its parts in any order, and again.
  predicate InTime(n: Node, wait: set<Id>, unshared: set<Id>)
    decreases n, 0
  {
    match n
    case Leaf(_) => true
    case Name(x) => x !in wait
    case Assign(x, e) => Declared(e) == {} && InTime(e, wait, unshared) && x !in Left(e, wait)
    case Var(x, _, e) => Declared(e) == {} && InTime(e, wait, unshared) && x in unshared - Captures(e)
    case Op(kind, kids) =>
      if kind == "block" then InTimeIn(kids, wait, unshared)
      else forall i :: 0 <= i < |kids| ==> InTime(kids[i], wait, unshared - CapturesIn(kids))
    case Func(f) => Referenced(n) !! wait && Timely(f)
    case _ => false
  }

  predicate InTimeIn(kids: seq<Node>, wait: set<Id>, unshared: set<Id>)
    decreases kids, 0
  {
    kids == [] || (InTime(kids[0], wait, unshared) && InTimeIn(kids[1..], Left(kids[0], wait), unshared - Captures(kids[0])))
  }

  predicate Timely(f: Function)
    decreases f.body, 1
  {
    InTime(f.body, Declared(f.body) - Elements(f.params), Own(f))
  }

  // ----- Runs -----

  // Operators run parts that they have.
  ghost predicate InRange<W(!new)>(p: Runtime<W>) {
    forall kind, n, h, w: W :: p.next(kind, n, h, w).0.Part? ==> p.next(kind, n, h, w).0.i < n
  }

  ghost predicate Full<W>(scope: map<Id, nat>, s: State<W>) {
    forall x <- scope :: (scope[x], x) in s.cells
  }

  ghost predicate CodeFull<W>(c: Code, s: State<W>) {
    Timely(c.f) && c.env == [] && Full(c.scope, s) && FreeAssigns(c.f.body) - Own(c.f) <= c.scope.Keys
  }

  ghost predicate StateFull<W>(s: State<W>) {
    && (forall l <- s.cells :: l.0 < s.calls)
    && forall i {:trigger CodeFull(s.funs[i], s)} :: 0 <= i < |s.funs| ==> CodeFull(s.funs[i], s)
  }

  // What is declared here are variables of call a, and what is assigned is in scope.
  ghost predicate Bound(n: Node, fr: Frame, a: nat) {
    fr.env == [] && (forall x <- Declared(n) :: x in fr.scope && fr.scope[x] == a) && FreeAssigns(n) <= fr.scope.Keys
  }

  ghost predicate Reached<W>(fr: Frame, s: State<W>, wait: set<Id>) {
    forall x <- fr.scope :: x in wait || (fr.scope[x], x) in s.cells
  }

  ghost predicate Ready<W>(fr: Frame, a: nat, s: State<W>, wait: set<Id>, unshared: set<Id>) {
    a < s.calls && Reached(fr, s, wait) && forall x <- unshared :: !HandedOn(x, a, s)
  }

  // Of the variables there were, functions have got hold of none but the captured ones in scope.
  ghost predicate FewShared<W>(s: State<W>, s1: State<W>, captured: set<Id>, scope: map<Id, nat>) {
    forall x, a: nat {:trigger HandedOn(x, a, s1)} ::
      a < s.calls && HandedOn(x, a, s1) && !HandedOn(x, a, s) ==> x in captured && x in scope && scope[x] == a
  }

  ghost predicate Later<W>(s: State<W>, s1: State<W>, captured: set<Id>, scope: map<Id, nat>) {
    StateFull(s1) && s.cells.Keys <= s1.cells.Keys && s.calls <= s1.calls && FewShared(s, s1, captured, scope)
  }

  ghost predicate Fine<W>(r: Result<W>, s: State<W>, captured: set<Id>, fr: Frame, left: set<Id>) {
    r != Early && (r.Done? ==> Later(s, r.s, captured, fr.scope) && (r.c.Normal? ==> Reached(fr, r.s, left)))
  }

  lemma FullLater<W>(s: State<W>, s1: State<W>)
    requires StateFull(s) && s.cells.Keys <= s1.cells.Keys && s1.funs == s.funs && forall l <- s1.cells :: l.0 < s1.calls
    ensures StateFull(s1)
  {
    forall i | 0 <= i < |s1.funs|
      ensures CodeFull(s1.funs[i], s1)
    {
      assert CodeFull(s.funs[i], s);
    }
  }

  lemma SharedAlike<W>(s: State<W>, s1: State<W>, captured: set<Id>, scope: map<Id, nat>)
    requires s1.funs == s.funs
    ensures FewShared(s, s1, captured, scope)
  {
    forall x, a: nat
      ensures HandedOn(x, a, s1) ==> HandedOn(x, a, s)
    {
    }
  }

  lemma LaterStill<W>(s: State<W>, s1: State<W>, s2: State<W>, c1: set<Id>, c2: set<Id>, c: set<Id>, scope: map<Id, nat>)
    requires Later(s, s1, c1, scope) && Later(s1, s2, c2, scope) && c1 + c2 <= c
    ensures Later(s, s2, c, scope)
  {
    forall x, a: nat | a < s.calls && HandedOn(x, a, s2) && !HandedOn(x, a, s)
      ensures x in c && x in scope && scope[x] == a
    {
      if HandedOn(x, a, s1) { assert x in c1; } else { assert x in c2; }
    }
  }

  lemma ReadyLater<W>(fr: Frame, a: nat, s: State<W>, s1: State<W>, wait: set<Id>, left: set<Id>, unshared: set<Id>, captured: set<Id>)
    requires Ready(fr, a, s, wait, unshared) && Later(s, s1, captured, fr.scope) && Reached(fr, s1, left)
    ensures Ready(fr, a, s1, left, unshared - captured)
  {
    forall x | x in unshared - captured
      ensures !HandedOn(x, a, s1)
    {
      assert !HandedOn(x, a, s);
    }
  }

  lemma ReachedLater<W>(fr: Frame, s: State<W>, s1: State<W>, wait: set<Id>)
    requires Reached(fr, s, wait) && s.cells.Keys <= s1.cells.Keys
    ensures Reached(fr, s1, wait)
  {
  }

  lemma {:induction false} PartsOf(kids: seq<Node>, i: nat)
    requires i < |kids|
    ensures Captures(kids[i]) <= CapturesIn(kids) && FreeAssigns(kids[i]) <= FreeAssignsIn(kids) && Declared(kids[i]) <= DeclaredIn(kids)
  {
    if i > 0 { PartsOf(kids[1..], i - 1); }
  }

  lemma {:induction false} AssignsAreReferences(n: Node)
    ensures FreeAssigns(n) <= Referenced(n)
    decreases n, 0
  {
    match n
    case Assign(_, e) => AssignsAreReferences(e);
    case Var(_, _, e) => AssignsAreReferences(e);
    case Op(_, kids) => AssignsAreReferencesIn(kids);
    case Func(f) => AssignsAreReferences(f.body);
    case _ =>
  }

  lemma {:induction false} AssignsAreReferencesIn(kids: seq<Node>)
    ensures FreeAssignsIn(kids) <= ReferencedIn(kids)
    decreases kids, 0
  {
    if kids != [] {
      AssignsAreReferences(kids[0]);
      AssignsAreReferencesIn(kids[1..]);
    }
  }

  lemma BoundParts(kind: string, kids: seq<Node>, fr: Frame, a: nat)
    requires Bound(Op(kind, kids), fr, a)
    ensures forall i :: 0 <= i < |kids| ==> Bound(kids[i], fr, a)
    ensures kids != [] ==> Bound(Op(kind, kids[1..]), fr, a)
  {
    if kids == [] { return; }
    assert Declared(Op(kind, kids)) == DeclaredIn(kids) && FreeAssigns(Op(kind, kids)) == FreeAssignsIn(kids);
    forall i | 0 <= i < |kids|
      ensures Bound(kids[i], fr, a)
    {
      PartsOf(kids, i);
    }
    var rest := Op(kind, kids[1..]);
    assert Declared(rest) == DeclaredIn(kids[1..]) && FreeAssigns(rest) == FreeAssignsIn(kids[1..]);
  }

  // Code that declares its variables in time runs without an early use.
  lemma {:induction false} NeverEarly<W(!new)>(p: Runtime<W>, n: Node, fr: Frame, a: nat, s: State<W>, wait: set<Id>, unshared: set<Id>,
                                               fuel: nat)
    requires InRange(p) && InTime(n, wait, unshared) && Bound(n, fr, a) && Ready(fr, a, s, wait, unshared) && StateFull(s)
    ensures Fine(Eval(p, n, fr, s, fuel), s, Captures(n), fr, Left(n, wait))
    decreases fuel, n, 1
  {
    match n
    case Leaf(_) => SharedAlike(s, s, {}, fr.scope);
    case Name(x) => SharedAlike(s, s, {}, fr.scope);
    case Assign(x, e) =>
      NeverEarly(p, e, fr, a, s, wait, unshared, fuel);
      AssignFine(p, x, e, fr, s, wait, fuel);
    case Var(x, any, e) =>
      NeverEarly(p, e, fr, a, s, wait, unshared, fuel);
      VarFine(p, x, any, e, fr, a, s, wait, unshared, fuel);
    case Op(kind, kids) =>
      if kind == "block" {
        BlockFine(p, kids, fr, a, s, wait, unshared, fuel);
      } else {
        BoundParts(kind, kids, fr, a);
        OpFine(p, kind, kids, [], fr, a, s, wait, unshared - CapturesIn(kids), fuel);
      }
    case Func(f) => FuncFine(p, f, fr, s, wait, fuel);
  }

  lemma AssignFine<W>(p: Runtime<W>, x: Id, e: Node, fr: Frame, s: State<W>, wait: set<Id>, fuel: nat)
    requires x in fr.scope && x !in Left(e, wait) && Fine(Eval(p, e, fr, s, fuel), s, Captures(e), fr, Left(e, wait))
    ensures Fine(Eval(p, Assign(x, e), fr, s, fuel), s, Captures(e), fr, Left(e, wait))
  {
    var r := Eval(p, e, fr, s, fuel);
    if r.Done? && r.c.Normal? {
      var s1 := Put(x, r.c.v, fr, r.s);
      FullLater(r.s, s1);
      SharedAlike(r.s, s1, {}, fr.scope);
      LaterStill(s, r.s, s1, Captures(e), {}, Captures(e), fr.scope);
    }
  }

  lemma VarFine<W>(p: Runtime<W>, x: Id, any: bool, e: Node, fr: Frame, a: nat, s: State<W>, wait: set<Id>, unshared: set<Id>, fuel: nat)
    requires Bound(Var(x, any, e), fr, a) && Ready(fr, a, s, wait, unshared) && x in unshared - Captures(e)
    requires Fine(Eval(p, e, fr, s, fuel), s, Captures(e), fr, Left(e, wait))
    ensures Fine(Eval(p, Var(x, any, e), fr, s, fuel), s, Captures(e), fr, Left(e, wait) - {x})
  {
    assert x in Declared(Var(x, any, e));
    var r := Eval(p, e, fr, s, fuel);
    if r.Done? && r.c.Normal? {
      assert !HandedOn(x, a, s) && !HandedOn(x, a, r.s);
      var s1 := Put(x, r.c.v, fr, r.s);
      FullLater(r.s, s1);
      SharedAlike(r.s, s1, {}, fr.scope);
      LaterStill(s, r.s, s1, Captures(e), {}, Captures(e), fr.scope);
    }
  }

  lemma FuncFine<W>(p: Runtime<W>, f: Function, fr: Frame, s: State<W>, wait: set<Id>, fuel: nat)
    requires Referenced(Func(f)) !! wait && Timely(f) && FreeAssigns(Func(f)) <= fr.scope.Keys
    requires Reached(fr, s, wait) && StateFull(s)
    ensures Fine(Eval(p, Func(f), fr, s, fuel), s, Captures(Func(f)), fr, wait)
  {
    var c := Code(f, Shared(Referenced(Func(f)), fr.scope), []);
    var s1 := s.(funs := s.funs + [c]);
    AssignsAreReferences(Func(f));
    forall i | 0 <= i < |s1.funs|
      ensures CodeFull(s1.funs[i], s1)
    {
      if i < |s.funs| { assert CodeFull(s.funs[i], s); }
    }
    forall x, a: nat | HandedOn(x, a, s1) && !HandedOn(x, a, s)
      ensures x in c.scope && c.scope[x] == a
    {
      assert forall i :: 0 <= i < |s.funs| ==> s1.funs[i] == s.funs[i];
    }
  }

  lemma {:induction false} BlockFine<W(!new)>(p: Runtime<W>, kids: seq<Node>, fr: Frame, a: nat, s: State<W>, wait: set<Id>, unshared: set<Id>,
                                              fuel: nat)
    requires InRange(p) && InTimeIn(kids, wait, unshared) && Bound(Op("block", kids), fr, a) && Ready(fr, a, s, wait, unshared) && StateFull(s)
    ensures Fine(EvalBlock(p, kids, fr, s, fuel), s, CapturesIn(kids), fr, LeftIn(kids, wait))
    decreases fuel, kids, 0
  {
    if kids == [] {
      SharedAlike(s, s, {}, fr.scope);
    } else {
      BoundParts("block", kids, fr, a);
      NeverEarly(p, kids[0], fr, a, s, wait, unshared, fuel);
      var r := Eval(p, kids[0], fr, s, fuel);
      var left := Left(kids[0], wait);
      if r.Done? && r.c.Normal? {
        ReadyLater(fr, a, s, r.s, wait, left, unshared, Captures(kids[0]));
        BlockFine(p, kids[1..], fr, a, r.s, left, unshared - Captures(kids[0]), fuel);
        BlockThen(p, kids, fr, s, wait, fuel);
      } else if r.Done? {
        LaterStill(s, r.s, r.s, Captures(kids[0]), {}, CapturesIn(kids), fr.scope);
      }
    }
  }

  lemma BlockThen<W>(p: Runtime<W>, kids: seq<Node>, fr: Frame, s: State<W>, wait: set<Id>, fuel: nat)
    requires kids != [] && Fine(Eval(p, kids[0], fr, s, fuel), s, Captures(kids[0]), fr, Left(kids[0], wait))
    requires var r := Eval(p, kids[0], fr, s, fuel);
             && r.Done? && r.c.Normal?
             && Fine(EvalBlock(p, kids[1..], fr, r.s, fuel), r.s, CapturesIn(kids[1..]), fr, LeftIn(kids[1..], Left(kids[0], wait)))
    ensures Fine(EvalBlock(p, kids, fr, s, fuel), s, CapturesIn(kids), fr, LeftIn(kids, wait))
  {
    var r := Eval(p, kids[0], fr, s, fuel);
    var r1 := EvalBlock(p, kids[1..], fr, r.s, fuel);
    if r1.Done? { LaterStill(s, r.s, r1.s, Captures(kids[0]), CapturesIn(kids[1..]), CapturesIn(kids), fr.scope); }
    if |kids| == 1 { assert kids[1..] == []; }
  }

  lemma {:induction false} OpFine<W(!new)>(p: Runtime<W>, kind: string, kids: seq<Node>, h: seq<Completion>, fr: Frame, a: nat, s: State<W>,
                                           wait: set<Id>, unshared: set<Id>, fuel: nat)
    requires InRange(p) && (forall i :: 0 <= i < |kids| ==> InTime(kids[i], wait, unshared) && Bound(kids[i], fr, a))
    requires unshared !! CapturesIn(kids) && Ready(fr, a, s, wait, unshared) && StateFull(s)
    ensures Fine(EvalOp(p, kind, kids, h, fr, s, fuel), s, CapturesIn(kids), fr, wait)
    decreases fuel, kids, 1
  {
    if fuel > 0 {
      var (action, w) := p.next(kind, |kids|, h, s.world);
      var s0 := s.(world := w);
      FullLater(s, s0);
      SharedAlike(s, s0, {}, fr.scope);
      if action.Finish? { return; }
      ActFine(p, action, kids, fr, a, s0, wait, unshared, fuel);
      var r := Act(p, action, kids, fr, s0, fuel);
      if r.Done? {
        LaterStill(s, s0, r.s, {}, CapturesIn(kids), CapturesIn(kids), fr.scope);
        ReachedLater(fr, s, r.s, wait);
        ReadyLater(fr, a, s, r.s, wait, wait, unshared, CapturesIn(kids));
        assert unshared - CapturesIn(kids) == unshared;
        OpFine(p, kind, kids, h + [r.c], fr, a, r.s, wait, unshared, fuel - 1);
        var r1 := EvalOp(p, kind, kids, h + [r.c], fr, r.s, fuel - 1);
        if r1.Done? { LaterStill(s, r.s, r1.s, CapturesIn(kids), CapturesIn(kids), CapturesIn(kids), fr.scope); }
      }
    }
  }

  lemma {:induction false} ActFine<W(!new)>(p: Runtime<W>, action: Action, kids: seq<Node>, fr: Frame, a: nat, s: State<W>,
                                            wait: set<Id>, unshared: set<Id>, fuel: nat)
    requires InRange(p) && (forall i :: 0 <= i < |kids| ==> InTime(kids[i], wait, unshared) && Bound(kids[i], fr, a))
    requires !action.Finish? && (action.Part? ==> action.i < |kids|) && fuel > 0
    requires Ready(fr, a, s, wait, unshared) && StateFull(s)
    ensures var r := Act(p, action, kids, fr, s, fuel); r != Early && (r.Done? ==> Later(s, r.s, CapturesIn(kids), fr.scope))
    decreases fuel, kids, 0
  {
    match action
    case Part(i) =>
      NeverEarly(p, kids[i], fr, a, s, wait, unshared, fuel - 1);
      PartsOf(kids, i);
    case Apply(f, args) => CallFine(p, f, args, s, fuel - 1);
  }

  // A call shares nothing of the calls there were: what it can hand on, it was handed itself.
  lemma {:induction false} CallFine<W(!new)>(p: Runtime<W>, f: Value, args: seq<Value>, s: State<W>, fuel: nat)
    requires InRange(p) && StateFull(s)
    ensures var r := Call(p, f, args, s, fuel); r != Early && (r.Done? ==> Later(s, r.s, {}, map[]))
    decreases fuel
  {
    if f.Fn? && f.at < |s.funs| && fuel > 0 {
      var c := s.funs[f.at];
      assert CodeFull(c, s);
      var s0, fr := Entered(p, c, args, s), FrameOf(c, s.calls);
      EnterFine(p, c, args, s);
      NeverEarly(p, c.f.body, fr, s.calls, s0, Declared(c.f.body) - Elements(c.f.params), Own(c.f), fuel - 1);
      var r := Call(p, f, args, s, fuel);
      if r.Done? { HandedBefore(s, s0, r.s, f.at, Captures(c.f.body)); }
    } else {
      SharedAlike(s, s, {}, map[]);
    }
  }

  lemma HandedBefore<W>(s: State<W>, s0: State<W>, s1: State<W>, at: nat, captured: set<Id>)
    requires at < |s.funs| && s0.funs == s.funs && s0.calls == s.calls + 1 && s.cells.Keys <= s0.cells.Keys
    requires Later(s0, s1, captured, FrameOf(s.funs[at], s.calls).scope)
    ensures Later(s, s1, {}, map[])
  {
    forall x, a: nat | a < s.calls && HandedOn(x, a, s1)
      ensures HandedOn(x, a, s)
    {
      if HandedOn(x, a, s0) {
      } else {
        assert s.funs[at].scope[x] == a;
      }
    }
  }

  lemma EnterFine<W>(p: Runtime<W>, c: Code, args: seq<Value>, s: State<W>)
    requires StateFull(s) && CodeFull(c, s)
    ensures var s0, fr := Entered(p, c, args, s), FrameOf(c, s.calls);
            && StateFull(s0) && s.cells.Keys <= s0.cells.Keys && Bound(c.f.body, fr, s.calls)
            && Ready(fr, s.calls, s0, Declared(c.f.body) - Elements(c.f.params), Own(c.f))
  {
    var s0, fr := Entered(p, c, args, s), FrameOf(c, s.calls);
    Bind(p, c.f.params, args, s.calls, s.cells);
    FullLater(s, s0);
    NewUnshared(s);
    UnsharedLater(s.calls, s, s0);
    forall x | x in fr.scope
      ensures x in Declared(c.f.body) - Elements(c.f.params) || (fr.scope[x], x) in s0.cells
    {
      if x !in Own(c.f) { assert (c.scope[x], x) in s.cells; }
    }
  }

  lemma NewUnshared<W>(s: State<W>)
    requires StateFull(s)
    ensures Unshared(s.calls, s)
  {
    forall i, x | 0 <= i < |s.funs| && x in s.funs[i].scope
      ensures s.funs[i].scope[x] != s.calls
    {
      assert CodeFull(s.funs[i], s);
    }
  }

  lemma {:induction false} Bind<W>(p: Runtime<W>, params: seq<Id>, args: seq<Value>, a: nat, cells: map<(nat, Id), Value>)
    ensures BindParams(p, params, args, a, cells).Keys == cells.Keys + set x | x in params :: (a, x)
  {
    if params != [] {
      var n := |params| - 1;
      Bind(p, params[..n], args, a, cells);
      assert forall x :: x in params <==> x in params[..n] || x == params[n];
    }
  }

  // A whole program; what it assigns it has declared.
  predicate TimelyProgram(n: Node) {
    Timely(Outermost(n).f) && FreeAssigns(n) <= Declared(n)
  }

  lemma ProgramNeverEarly<W(!new)>(p: Runtime<W>, n: Node, w: W, fuel: nat)
    requires InRange(p) && TimelyProgram(n)
    ensures RunProgram(p, n, w, fuel) != Early
  {
    var s, fr := State(map[], [], [], 1, w), FrameOf(Outermost(n), 0);
    assert Elements([]) == {} && Declared(n) - {} == Declared(n) == Own(Outermost(n).f);
    NeverEarly(p, n, fr, 0, s, Declared(n), Declared(n), fuel);
  }
}

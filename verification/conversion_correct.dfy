// Environments that hold copies do what shared variables do.

module ConversionCorrect {
  import opened Common
  import opened Ids
  import opened FreeVariables
  import opened AssignAnalysis
  import opened Boxing
  import opened Environments
  import opened JankyMeaning

  // Names that code assigns itself, not inside the functions it makes.
  function Assigns(n: Node): set<Id>
    decreases n, 0
  {
    match n
    case Assign(x, e) => {x} + Assigns(e)
    case Var(_, _, e) => Assigns(e)
    case Op(_, kids) => AssignsIn(kids)
    case NewRef(e) => Assigns(e)
    case Deref(e) => Assigns(e)
    case Store(_, e) => Assigns(e)
    case _ => {}
  }

  function AssignsIn(kids: seq<Node>): set<Id>
    decreases kids, 0
  {
    if kids == [] then {} else Assigns(kids[0]) + AssignsIn(kids[1..])
  }

  // What the functions here hand on to functions inside them, they do not assign.
  predicate Settled(n: Node)
    decreases n
  {
    match n
    case Assign(_, e) => Settled(e)
    case Var(_, _, e) => Settled(e)
    case Op(_, kids) => forall i :: 0 <= i < |kids| ==> Settled(kids[i])
    case NewRef(e) => Settled(e)
    case Deref(e) => Settled(e)
    case Store(b, e) => b.Name? && Settled(e)
    case Func(f) => Assigns(f.body) * FreeChildren(f.body) == {} && Settled(f.body)
    case Closure(_, _) => false
    case EnvGet(_) => false
    case _ => true
  }

  // ----- The two runs -----

  // For each call so far, the variables its function may hand on: once handed on they keep their value.
  type Handed = seq<set<Id>>

  // Where code runs: the free variables of its function in order, its own, and the number of the call.
  datatype Place = Place(names: seq<Id>, own: set<Id>, a: nat)

  ghost predicate Fixed<W>(x: Id, a: nat, s: State<W>, h: Handed) {
    a < |h| && x in h[a] && (a, x) in s.cells && HandedOn(x, a, s)
  }

  // The environment holds what the names stand for.
  ghost predicate Holds<W>(p: Runtime<W>, env: seq<Value>, names: seq<Id>, scope: map<Id, nat>, s: State<W>) {
    |env| == |names| && forall j :: 0 <= j < |names| ==> Read(p, names[j], Frame(scope, []), s) == Some(env[j])
  }

  ghost predicate CodeReady(f: Function) {
    Annotated(Func(f)) && NoFreeAssign(f.body, f.freeVars) && Settled(Func(f))
  }

  ghost predicate CodeCopied<W>(p: Runtime<W>, c: Code, d: Code, s: State<W>, h: Handed, order: set<Id> -> seq<Id>) {
    && CodeReady(c.f) && c.env == [] && c.scope.Keys <= c.f.freeVars && (forall x <- c.scope :: Fixed(x, c.scope[x], s, h))
    && d.f == c.f.(body := Convert(c.f.body, order(c.f.freeVars), order)) && d.scope == map[]
    && Holds(p, d.env, order(c.f.freeVars), c.scope, s)
  }

  ghost predicate Copied<W>(p: Runtime<W>, s: State<W>, u: State<W>, h: Handed, order: set<Id> -> seq<Id>) {
    && u == s.(funs := u.funs) && |u.funs| == |s.funs| && s.calls == |h|
    && forall i :: 0 <= i < |s.funs| ==> CodeCopied(p, s.funs[i], u.funs[i], s, h, order)
  }

  ghost predicate FrameCopied<W>(p: Runtime<W>, fr: Frame, gr: Frame, at: Place, s: State<W>, h: Handed) {
    && fr.env == [] && gr.scope == (map x | x in at.own :: at.a) && at.a < |h| && Elements(at.names) !! at.own
    && (forall x <- at.own :: x in fr.scope && fr.scope[x] == at.a)
    && (forall x <- fr.scope :: x !in at.own ==> x in at.names && Fixed(x, fr.scope[x], s, h))
    && Holds(p, gr.env, at.names, fr.scope, s)
  }

  ghost predicate NodeReady(n: Node, at: Place, h: Handed) {
    && Annotated(n) && NoFreeAssign(n, Elements(at.names)) && Settled(n)
    && at.a < |h| && Assigns(n) * h[at.a] == {} && FreeChildren(n) <= h[at.a]
  }

  ghost predicate Kept<W>(s: State<W>, s1: State<W>, h: Handed) {
    forall x, a: nat {:trigger Fixed(x, a, s, h)} :: Fixed(x, a, s, h) ==> Fixed(x, a, s1, h) && s1.cells[(a, x)] == s.cells[(a, x)]
  }

  ghost predicate Simulated<W>(p: Runtime<W>, r: Result<W>, r1: Result<W>, s: State<W>, h: Handed, h1: Handed, order: set<Id> -> seq<Id>) {
    && h <= h1
    && match r
       case NoFuel => r1 == NoFuel
       case Early => false
       case Done(c, s1) => r1.Done? && r1.c == c && Copied(p, s1, r1.s, h1, order) && Kept(s, s1, h)
  }

  // ----- What stays -----

  lemma KeptTwice<W>(s: State<W>, s1: State<W>, s2: State<W>, h: Handed, h1: Handed)
    requires Kept(s, s1, h) && Kept(s1, s2, h1) && h <= h1
    ensures Kept(s, s2, h)
  {
    forall x, a: nat {:trigger Fixed(x, a, s, h)} | Fixed(x, a, s, h)
      ensures Fixed(x, a, s2, h) && s2.cells[(a, x)] == s.cells[(a, x)]
    {
      assert Fixed(x, a, s1, h) && Fixed(x, a, s1, h1);
    }
  }

  lemma HoldsLater<W>(p: Runtime<W>, env: seq<Value>, names: seq<Id>, scope: map<Id, nat>, s: State<W>, s1: State<W>, h: Handed)
    requires Holds(p, env, names, scope, s) && Kept(s, s1, h) && forall x <- names :: x in scope ==> Fixed(x, scope[x], s, h)
    ensures Holds(p, env, names, scope, s1)
  {
    forall j | 0 <= j < |names|
      ensures Read(p, names[j], Frame(scope, []), s1) == Some(env[j])
    {
      assert names[j] in scope ==> Fixed(names[j], scope[names[j]], s, h);
      assert Read(p, names[j], Frame(scope, []), s) == Some(env[j]);
    }
  }

  lemma FrameLater<W>(p: Runtime<W>, fr: Frame, gr: Frame, at: Place, s: State<W>, s1: State<W>, h: Handed, h1: Handed)
    requires FrameCopied(p, fr, gr, at, s, h) && Kept(s, s1, h) && h <= h1
    ensures FrameCopied(p, fr, gr, at, s1, h1)
  {
    HoldsLater(p, gr.env, at.names, fr.scope, s, s1, h);
    forall x | x in fr.scope && x !in at.own
      ensures Fixed(x, fr.scope[x], s1, h1)
    {
      assert Fixed(x, fr.scope[x], s, h);
    }
  }

  lemma CodeLater<W>(p: Runtime<W>, c: Code, d: Code, s: State<W>, s1: State<W>, h: Handed, h1: Handed, order: set<Id> -> seq<Id>)
    requires CodeCopied(p, c, d, s, h, order) && Kept(s, s1, h) && h <= h1
    ensures CodeCopied(p, c, d, s1, h1, order)
  {
    HoldsLater(p, d.env, order(c.f.freeVars), c.scope, s, s1, h);
    forall x | x in c.scope
      ensures Fixed(x, c.scope[x], s1, h1)
    {
      assert Fixed(x, c.scope[x], s, h);
    }
  }

  // All but the functions may change, as long as what was handed on is kept.
  lemma CopiedLater<W>(p: Runtime<W>, s: State<W>, u: State<W>, s1: State<W>, h: Handed, h1: Handed, order: set<Id> -> seq<Id>)
    requires Copied(p, s, u, h, order) && Kept(s, s1, h) && h <= h1 && s1.funs == s.funs && s1.calls == |h1|
    ensures Copied(p, s1, s1.(funs := u.funs), h1, order)
  {
    forall i | 0 <= i < |s.funs|
      ensures CodeCopied(p, s1.funs[i], u.funs[i], s1, h1, order)
    {
      CodeLater(p, s.funs[i], u.funs[i], s, s1, h, h1, order);
    }
  }

  lemma SameCells<W>(s: State<W>, s1: State<W>, h: Handed)
    requires s1.cells == s.cells && s.funs <= s1.funs
    ensures Kept(s, s1, h)
  {
    forall x, a: nat {:trigger Fixed(x, a, s, h)} | Fixed(x, a, s, h)
      ensures Fixed(x, a, s1, h)
    {
      var i :| 0 <= i < |s.funs| && x in s.funs[i].scope && s.funs[i].scope[x] == a;
      assert s1.funs[i] == s.funs[i];
    }
  }

  // ----- One step at a time -----

  lemma ReadCopied<W>(p: Runtime<W>, x: Id, fr: Frame, gr: Frame, at: Place, s: State<W>, u: State<W>, h: Handed, order: set<Id> -> seq<Id>)
    requires Copied(p, s, u, h, order) && FrameCopied(p, fr, gr, at, s, h) && Read(p, x, fr, s).Some?
    ensures EntryValue(p, CompileId(x, at.names), gr, u) == Read(p, x, fr, s)
  {
    match IndexIn(at.names, x)
    case Some(j) => assert Read(p, at.names[j], Frame(fr.scope, []), s) == Some(gr.env[j]);
    case None => assert x !in at.names;
  }

  lemma PutCopied<W>(p: Runtime<W>, x: Id, v: Value, fr: Frame, gr: Frame, at: Place, s: State<W>, u: State<W>, h: Handed,
                     order: set<Id> -> seq<Id>)
    requires Copied(p, s, u, h, order) && FrameCopied(p, fr, gr, at, s, h) && x in at.own && !Fixed(x, at.a, s, h)
    ensures Copied(p, Put(x, v, fr, s), Put(x, v, gr, u), h, order) && Kept(s, Put(x, v, fr, s), h)
  {
    CopiedLater(p, s, u, Put(x, v, fr, s), h, h, order);
  }

  // A new function, its environment filled.
  lemma MadeCopied<W>(p: Runtime<W>, f: Function, fr: Frame, gr: Frame, at: Place, s: State<W>, u: State<W>, h: Handed,
                      order: set<Id> -> seq<Id>)
    requires Copied(p, s, u, h, order) && FrameCopied(p, fr, gr, at, s, h) && NodeReady(Func(f), at, h) && Enumerates(order)
    requires forall x <- Shared(f.freeVars, fr.scope) :: Has(x, fr, s)
    ensures EntryValues(p, EnvOf(order(f.freeVars), at.names), gr, u).Some?
    ensures var c := Code(f, Shared(f.freeVars, fr.scope), []);
            CodeCopied(p, c, Code(f.(body := Convert(f.body, order(f.freeVars), order)), map[],
                                  EntryValues(p, EnvOf(order(f.freeVars), at.names), gr, u).value), s.(funs := s.funs + [c]), h, order)
  {
    var inner, scope := order(f.freeVars), Shared(f.freeVars, fr.scope);
    var env, c := EnvOf(inner, at.names), Code(f, scope, []);
    var s1 := s.(funs := s.funs + [c]);
    forall j | 0 <= j < |inner|
      ensures EntryValue(p, env[j], gr, u) == Read(p, inner[j], Frame(scope, []), s1) && Read(p, inner[j], Frame(scope, []), s1).Some?
    {
      assert inner[j] in Elements(inner);
      ReadCopied(p, inner[j], fr, gr, at, s, u, h, order);
    }
    forall x | x in scope
      ensures Fixed(x, scope[x], s1, h)
    {
      assert Has(x, fr, s) && s1.funs[|s.funs|] == c;
      if x !in at.own { assert Fixed(x, fr.scope[x], s, h); }
    }
  }

  // What is known after a part: states s1 and u1, and what has been handed on until then.
  ghost predicate After<W>(p: Runtime<W>, fr: Frame, gr: Frame, at: Place, s: State<W>, s1: State<W>, u1: State<W>, h: Handed, h1: Handed,
                           order: set<Id> -> seq<Id>) {
    FrameCopied(p, fr, gr, at, s, h) && h <= h1 && Copied(p, s1, u1, h1, order) && Kept(s, s1, h)
  }

  lemma AssignStep<W>(p: Runtime<W>, x: Id, e: Node, v: Value, order: set<Id> -> seq<Id>, at: Place, fr: Frame, gr: Frame, s: State<W>,
                      s1: State<W>, u1: State<W>, h: Handed, h1: Handed)
    requires After(p, fr, gr, at, s, s1, u1, h, h1, order) && NodeReady(Assign(x, e), at, h) && Has(x, fr, s1)
    ensures Has(x, gr, u1) && Copied(p, Put(x, v, fr, s1), Put(x, v, gr, u1), h1, order) && Kept(s, Put(x, v, fr, s1), h)
  {
    FrameLater(p, fr, gr, at, s, s1, h, h1);
    assert x in Assigns(Assign(x, e)) && x !in Assigns(Assign(x, e)) * h[at.a] && h1[at.a] == h[at.a];
    assert x in at.own;
    PutCopied(p, x, v, fr, gr, at, s1, u1, h1, order);
    KeptTwice(s, s1, Put(x, v, fr, s1), h, h1);
  }

  lemma VarStep<W>(p: Runtime<W>, x: Id, v: Value, order: set<Id> -> seq<Id>, at: Place, fr: Frame, gr: Frame, s: State<W>,
                   s1: State<W>, u1: State<W>, h: Handed, h1: Handed)
    requires After(p, fr, gr, at, s, s1, u1, h, h1, order) && x in fr.scope && !HandedOn(x, fr.scope[x], s1)
    ensures x in gr.scope && !HandedOn(x, gr.scope[x], u1)
    ensures Copied(p, Put(x, v, fr, s1), Put(x, v, gr, u1), h1, order) && Kept(s, Put(x, v, fr, s1), h)
  {
    FrameLater(p, fr, gr, at, s, s1, h, h1);
    assert !Fixed(x, fr.scope[x], s1, h1);
    PutCopied(p, x, v, fr, gr, at, s1, u1, h1, order);
    KeptTwice(s, s1, Put(x, v, fr, s1), h, h1);
    forall i | 0 <= i < |u1.funs|
      ensures x !in u1.funs[i].scope
    {
      assert CodeCopied(p, s1.funs[i], u1.funs[i], s1, h1, order);
    }
  }

  // Boxes are the same on both sides.
  lemma BoxesStep<W>(p: Runtime<W>, boxes: seq<Value>, order: set<Id> -> seq<Id>, s: State<W>, s1: State<W>, u1: State<W>, h: Handed, h1: Handed)
    requires h <= h1 && Copied(p, s1, u1, h1, order) && Kept(s, s1, h)
    ensures Copied(p, s1.(boxes := boxes), u1.(boxes := boxes), h1, order) && Kept(s, s1.(boxes := boxes), h)
  {
    SameCells(s1, s1.(boxes := boxes), h1);
    CopiedLater(p, s1, u1, s1.(boxes := boxes), h1, h1, order);
    KeptTwice(s, s1, s1.(boxes := boxes), h, h1);
  }

  lemma WorldStep<W>(p: Runtime<W>, w: W, order: set<Id> -> seq<Id>, s: State<W>, u: State<W>, h: Handed)
    requires Copied(p, s, u, h, order)
    ensures Copied(p, s.(world := w), u.(world := w), h, order) && Kept(s, s.(world := w), h)
  {
    SameCells(s, s.(world := w), h);
    CopiedLater(p, s, u, s.(world := w), h, h, order);
  }

  lemma StoreStep<W>(p: Runtime<W>, x: Id, order: set<Id> -> seq<Id>, at: Place, fr: Frame, gr: Frame, s: State<W>,
                     s1: State<W>, u1: State<W>, h: Handed, h1: Handed)
    requires After(p, fr, gr, at, s, s1, u1, h, h1, order) && Read(p, x, fr, s1).Some?
    ensures EntryValue(p, CompileId(x, at.names), gr, u1) == Read(p, x, fr, s1)
  {
    FrameLater(p, fr, gr, at, s, s1, h, h1);
    ReadCopied(p, x, fr, gr, at, s1, u1, h1, order);
  }

  lemma FuncStep<W>(p: Runtime<W>, f: Function, order: set<Id> -> seq<Id>, at: Place, fr: Frame, gr: Frame, s: State<W>, u: State<W>, h: Handed,
                    fuel: nat)
    requires Copied(p, s, u, h, order) && FrameCopied(p, fr, gr, at, s, h) && NodeReady(Func(f), at, h) && Enumerates(order)
    requires Eval(p, Func(f), fr, s, fuel) != Early
    ensures Simulated(p, Eval(p, Func(f), fr, s, fuel), Eval(p, Convert(Func(f), at.names, order), gr, u, fuel), s, h, h, order)
  {
    MadeCopied(p, f, fr, gr, at, s, u, h, order);
    var c := Code(f, Shared(f.freeVars, fr.scope), []);
    var s1 := s.(funs := s.funs + [c]);
    SameCells(s, s1, h);
    forall i | 0 <= i < |s1.funs|
      ensures CodeCopied(p, s1.funs[i], Eval(p, Convert(Func(f), at.names, order), gr, u, fuel).s.funs[i], s1, h, order)
    {
      if i < |s.funs| { CodeLater(p, s.funs[i], u.funs[i], s, s1, h, h, order); }
    }
  }

  // ----- Whole runs -----

  // A converted run ends like the run it comes from, with the same variables, boxes and world.
  lemma {:induction false} ConvertSim<W>(p: Runtime<W>, n: Node, order: set<Id> -> seq<Id>, at: Place, fr: Frame, gr: Frame, s: State<W>,
                                         u: State<W>, h: Handed, fuel: nat) returns (h1: Handed)
    requires Enumerates(order) && Copied(p, s, u, h, order) && FrameCopied(p, fr, gr, at, s, h) && NodeReady(n, at, h)
    requires Eval(p, n, fr, s, fuel) != Early
    ensures Simulated(p, Eval(p, n, fr, s, fuel), Eval(p, Convert(n, at.names, order), gr, u, fuel), s, h, h1, order)
    decreases fuel, n, 1
  {
    h1 := h;
    match n {
      case Leaf(_) => SameCells(s, s, h);
      case Name(x) =>
        ReadCopied(p, x, fr, gr, at, s, u, h, order);
        SameCells(s, s, h);
      case Assign(x, e) =>
        h1 := ConvertSim(p, e, order, at, fr, gr, s, u, h, fuel);
        match Eval(p, e, fr, s, fuel) {
          case Done(Normal(v), s1) =>
            AssignStep(p, x, e, v, order, at, fr, gr, s, s1, Eval(p, Convert(e, at.names, order), gr, u, fuel).s, h, h1);
          case _ =>
        }
      case Var(x, _, e) =>
        h1 := ConvertSim(p, e, order, at, fr, gr, s, u, h, fuel);
        match Eval(p, e, fr, s, fuel) {
          case Done(Normal(v), s1) =>
            VarStep(p, x, v, order, at, fr, gr, s, s1, Eval(p, Convert(e, at.names, order), gr, u, fuel).s, h, h1);
          case _ =>
        }
      case Op(kind, kids) =>
        assert Convert(n, at.names, order) == Op(kind, ConvertAll(kids, at.names, order));
        KidsReady(kind, kids, at, h);
        if kind == "block" {
          h1 := BlockSim(p, kids, order, at, fr, gr, s, u, h, fuel);
        } else {
          h1 := OpSim(p, kind, kids, [], order, at, fr, gr, s, u, h, fuel);
        }
      case Func(f) => FuncStep(p, f, order, at, fr, gr, s, u, h, fuel);
      case NewRef(e) =>
        h1 := ConvertSim(p, e, order, at, fr, gr, s, u, h, fuel);
        match Eval(p, e, fr, s, fuel) {
          case Done(Normal(v), s1) =>
            BoxesStep(p, s1.boxes + [v], order, s, s1, Eval(p, Convert(e, at.names, order), gr, u, fuel).s, h, h1);
          case _ =>
        }
      case Deref(e) => h1 := ConvertSim(p, e, order, at, fr, gr, s, u, h, fuel);
      case Store(b, e) =>
        h1 := ConvertSim(p, e, order, at, fr, gr, s, u, h, fuel);
        match Eval(p, e, fr, s, fuel) {
          case Done(Normal(v), s1) =>
            var u1 := Eval(p, Convert(e, at.names, order), gr, u, fuel).s;
            StoreStep(p, b.x, order, at, fr, gr, s, s1, u1, h, h1);
            BoxesStep(p, s1.boxes[Read(p, b.x, fr, s1).value.at := v], order, s, s1, u1, h, h1);
          case _ =>
        }
    }
  }

  ghost predicate AllReady(kids: seq<Node>, at: Place, h: Handed) {
    forall i :: 0 <= i < |kids| ==> NodeReady(kids[i], at, h)
  }

  lemma {:induction false} PartsOf(kids: seq<Node>, i: nat)
    requires i < |kids|
    ensures Assigns(kids[i]) <= AssignsIn(kids) && FreeChildren(kids[i]) <= FreeChildrenIn(kids)
  {
    if i > 0 { PartsOf(kids[1..], i - 1); }
  }

  lemma KidsReady(kind: string, kids: seq<Node>, at: Place, h: Handed)
    requires NodeReady(Op(kind, kids), at, h)
    ensures AllReady(kids, at, h)
  {
    forall i | 0 <= i < |kids|
      ensures NodeReady(kids[i], at, h)
    {
      PartsOf(kids, i);
    }
  }

  lemma {:induction false} BlockSim<W>(p: Runtime<W>, kids: seq<Node>, order: set<Id> -> seq<Id>, at: Place, fr: Frame, gr: Frame, s: State<W>,
                                       u: State<W>, h: Handed, fuel: nat) returns (h1: Handed)
    requires Enumerates(order) && Copied(p, s, u, h, order) && FrameCopied(p, fr, gr, at, s, h) && AllReady(kids, at, h)
    requires EvalBlock(p, kids, fr, s, fuel) != Early
    ensures Simulated(p, EvalBlock(p, kids, fr, s, fuel), EvalBlock(p, ConvertAll(kids, at.names, order), gr, u, fuel), s, h, h1, order)
    decreases fuel, kids, 0
  {
    h1 := h;
    if kids == [] {
      SameCells(s, s, h);
    } else {
      h1 := ConvertSim(p, kids[0], order, at, fr, gr, s, u, h, fuel);
      var r, r1 := Eval(p, kids[0], fr, s, fuel), Eval(p, Convert(kids[0], at.names, order), gr, u, fuel);
      if |kids| > 1 && r.Done? && r.c.Normal? {
        FrameLater(p, fr, gr, at, s, r.s, h, h1);
        ReadyLater(kids, at, h, h1);
        var h2 := BlockSim(p, kids[1..], order, at, fr, gr, r.s, r1.s, h1, fuel);
        SimulatedAfter(p, EvalBlock(p, kids[1..], fr, r.s, fuel), EvalBlock(p, ConvertAll(kids[1..], at.names, order), gr, r1.s, fuel),
                       s, r.s, h, h1, h2, order);
        h1 := h2;
      }
      assert ConvertAll(kids, at.names, order)[1..] == ConvertAll(kids[1..], at.names, order);
    }
  }

  lemma ReadyLater(kids: seq<Node>, at: Place, h: Handed, h1: Handed)
    requires AllReady(kids, at, h) && kids != [] && h <= h1
    ensures AllReady(kids, at, h1) && AllReady(kids[1..], at, h1)
  {
    forall i | 0 <= i < |kids|
      ensures NodeReady(kids[i], at, h1)
    {
      assert NodeReady(kids[i], at, h) && h1[at.a] == h[at.a];
    }
  }

  lemma SimulatedAfter<W>(p: Runtime<W>, r: Result<W>, r1: Result<W>, s: State<W>, s1: State<W>, h: Handed, h1: Handed, h2: Handed,
                          order: set<Id> -> seq<Id>)
    requires Simulated(p, r, r1, s1, h1, h2, order) && Kept(s, s1, h) && h <= h1
    ensures Simulated(p, r, r1, s, h, h2, order)
  {
    if r.Done? { KeptTwice(s, s1, r.s, h, h1); }
  }

  lemma {:induction false} OpSim<W>(p: Runtime<W>, kind: string, kids: seq<Node>, past: seq<Completion>, order: set<Id> -> seq<Id>, at: Place,
                                    fr: Frame, gr: Frame, s: State<W>, u: State<W>, h: Handed, fuel: nat) returns (h1: Handed)
    requires Enumerates(order) && Copied(p, s, u, h, order) && FrameCopied(p, fr, gr, at, s, h) && AllReady(kids, at, h)
    requires EvalOp(p, kind, kids, past, fr, s, fuel) != Early
    ensures Simulated(p, EvalOp(p, kind, kids, past, fr, s, fuel), EvalOp(p, kind, ConvertAll(kids, at.names, order), past, gr, u, fuel),
                      s, h, h1, order)
    decreases fuel, kids, 1
  {
    h1 := h;
    if fuel > 0 {
      var (action, w) := p.next(kind, |kids|, past, s.world);
      var s0, u0 := s.(world := w), u.(world := w);
      WorldStep(p, w, order, s, u, h);
      if action.Finish? { return; }
      FrameLater(p, fr, gr, at, s, s0, h, h);
      h1 := ActSim(p, action, kids, order, at, fr, gr, s0, u0, h, fuel);
      var r, r1 := Act(p, action, kids, fr, s0, fuel), Act(p, action, ConvertAll(kids, at.names, order), gr, u0, fuel);
      if r.Done? {
        KeptTwice(s, s0, r.s, h, h);
        FrameLater(p, fr, gr, at, s, r.s, h, h1);
        if kids != [] { ReadyLater(kids, at, h, h1); }
        var h2 := OpSim(p, kind, kids, past + [r.c], order, at, fr, gr, r.s, r1.s, h1, fuel - 1);
        SimulatedAfter(p, EvalOp(p, kind, kids, past + [r.c], fr, r.s, fuel - 1),
                       EvalOp(p, kind, ConvertAll(kids, at.names, order), past + [r.c], gr, r1.s, fuel - 1), s, r.s, h, h1, h2, order);
        h1 := h2;
      }
    }
  }

  lemma {:induction false} ActSim<W>(p: Runtime<W>, action: Action, kids: seq<Node>, order: set<Id> -> seq<Id>, at: Place, fr: Frame, gr: Frame,
                                     s: State<W>, u: State<W>, h: Handed, fuel: nat) returns (h1: Handed)
    requires Enumerates(order) && Copied(p, s, u, h, order) && FrameCopied(p, fr, gr, at, s, h) && AllReady(kids, at, h)
    requires fuel > 0 && !action.Finish? && Act(p, action, kids, fr, s, fuel) != Early
    ensures Simulated(p, Act(p, action, kids, fr, s, fuel), Act(p, action, ConvertAll(kids, at.names, order), gr, u, fuel), s, h, h1, order)
    decreases fuel, kids, 0
  {
    match action
    case Part(i) =>
      assert NodeReady(kids[i], at, h);
      ConvertAt(kids, at.names, order, i);
      h1 := ConvertSim(p, kids[i], order, at, fr, gr, s, u, h, fuel - 1);
    case Apply(f, args) => h1 := CallSim(p, f, args, order, s, u, h, fuel - 1);
  }

  lemma {:induction false} ConvertAt(kids: seq<Node>, names: seq<Id>, order: set<Id> -> seq<Id>, i: nat)
    requires i < |kids|
    ensures ConvertAll(kids, names, order)[i] == Convert(kids[i], names, order)
  {
    if i > 0 { ConvertAt(kids[1..], names, order, i - 1); }
  }

  lemma {:induction false} CallSim<W>(p: Runtime<W>, f: Value, args: seq<Value>, order: set<Id> -> seq<Id>, s: State<W>, u: State<W>, h: Handed,
                                      fuel: nat) returns (h1: Handed)
    requires Enumerates(order) && Copied(p, s, u, h, order) && Call(p, f, args, s, fuel) != Early
    ensures Simulated(p, Call(p, f, args, s, fuel), Call(p, f, args, u, fuel), s, h, h1, order)
    decreases fuel
  {
    h1 := h;
    if !f.Fn? || f.at >= |s.funs| {
      SameCells(s, s, h);
    } else if fuel > 0 {
      var c, d := s.funs[f.at], u.funs[f.at];
      var s0, h0 := Entered(p, c, args, s), h + [FreeChildren(c.f.body)];
      var at := Place(order(c.f.freeVars), Own(c.f), s.calls);
      EnterCopied(p, c, d, args, order, s, u, h);
      h1 := ConvertSim(p, c.f.body, order, at, FrameOf(c, s.calls), FrameOf(d, s.calls), s0, Entered(p, d, args, u), h0, fuel - 1);
      SimulatedAfter(p, Call(p, f, args, s, fuel), Call(p, f, args, u, fuel), s, s0, h, h0, h1, order);
    }
  }

  lemma EnterCopied<W>(p: Runtime<W>, c: Code, d: Code, args: seq<Value>, order: set<Id> -> seq<Id>, s: State<W>, u: State<W>, h: Handed)
    requires Enumerates(order) && Copied(p, s, u, h, order) && CodeCopied(p, c, d, s, h, order)
    ensures var s0, u0, h0 := Entered(p, c, args, s), Entered(p, d, args, u), h + [FreeChildren(c.f.body)];
            var at := Place(order(c.f.freeVars), Own(c.f), s.calls);
            && Copied(p, s0, u0, h0, order) && Kept(s, s0, h) && FrameCopied(p, FrameOf(c, s.calls), FrameOf(d, s.calls), at, s0, h0)
            && NodeReady(c.f.body, at, h0)
  {
    var s0, h0 := Entered(p, c, args, s), h + [FreeChildren(c.f.body)];
    BindKeeps(p, c.f.params, args, s, h);
    CopiedLater(p, s, u, s0, h, h0, order);
    ConvertDeclares(c.f.body, order(c.f.freeVars), order);
    EnterFrame(p, c, d, order, s, s0, h, h0);
  }

  lemma {:induction false} BindKeeps<W>(p: Runtime<W>, params: seq<Id>, args: seq<Value>, s: State<W>, h: Handed)
    requires s.calls == |h|
    ensures var cells := BindParams(p, params, args, s.calls, s.cells);
            forall l: (nat, Id) :: l.0 < |h| ==> (l in cells <==> l in s.cells) && (l in cells ==> cells[l] == s.cells[l])
    ensures Kept(s, s.(cells := BindParams(p, params, args, s.calls, s.cells), calls := s.calls + 1), h)
  {
    if params != [] { BindKeeps(p, params[..|params| - 1], args, s, h); }
  }

  lemma EnterFrame<W>(p: Runtime<W>, c: Code, d: Code, order: set<Id> -> seq<Id>, s: State<W>, s0: State<W>, h: Handed, h0: Handed)
    requires Enumerates(order) && CodeCopied(p, c, d, s, h, order) && Kept(s, s0, h) && h0 == h + [FreeChildren(c.f.body)] && s.calls == |h|
    requires Own(d.f) == Own(c.f)
    ensures FrameCopied(p, FrameOf(c, s.calls), FrameOf(d, s.calls), Place(order(c.f.freeVars), Own(c.f), s.calls), s0, h0)
    ensures NodeReady(c.f.body, Place(order(c.f.freeVars), Own(c.f), s.calls), h0)
  {
    var names, fr := order(c.f.freeVars), FrameOf(c, s.calls);
    assert Elements(names) == c.f.freeVars;
    assert c.f.freeVars !! Own(c.f);
    HoldsLater(p, d.env, names, c.scope, s, s0, h);
    forall j | 0 <= j < |names|
      ensures Read(p, names[j], Frame(fr.scope, []), s0) == Some(d.env[j])
    {
      assert names[j] in Elements(names);
      assert Read(p, names[j], Frame(c.scope, []), s0) == Some(d.env[j]);
    }
    forall x | x in fr.scope && x !in Own(c.f)
      ensures x in names && Fixed(x, fr.scope[x], s0, h0)
    {
      assert x in c.scope && Fixed(x, c.scope[x], s, h) && x in Elements(names);
    }
  }
}

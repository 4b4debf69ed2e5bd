// What programs with nested functions do.  One meaning for all stages: variables are shared by
// reference with the functions inside, environments hold copies, boxes are shared.

module JankyMeaning {
  import opened Common
  import opened Ids
  import opened FreeVariables

  datatype Value = Plain(v: int) | Fn(at: nat) | Ref(at: nat)

  datatype Completion = Normal(v: Value) | Abrupt(kind: string, v: Value)

  datatype Action = Part(i: nat) | Apply(f: Value, args: seq<Value>) | Finish(c: Completion)

  // `next` says what an operator with so many parts does after these completions: run a part, call
  // a value, or end.  So a loop, a conditional, a call or a `try` is an operator like any other.
  datatype Runtime<!W> = Runtime(literal: string -> Value, global: Id -> Value,
                                 next: (string, nat, seq<Completion>, W) -> (Action, W))

  // A function together with the variables it shares and the values it was given.
  datatype Code = Code(f: Function, scope: map<Id, nat>, env: seq<Value>)

  // Variable x of call number a is the cell (a, x); it comes into being with its declaration.
  datatype State<W> = State(cells: map<(nat, Id), Value>, boxes: seq<Value>, funs: seq<Code>, calls: nat, world: W)

  datatype Frame = Frame(scope: map<Id, nat>, env: seq<Value>)

  // `Early`: a variable is used or captured before its declaration, or declared again after it was
  // captured, or a box or an environment entry is missing.
  datatype Result<W> = NoFuel | Early | Done(c: Completion, s: State<W>)

  predicate Has<W>(x: Id, fr: Frame, s: State<W>) {
    x in fr.scope && (fr.scope[x], x) in s.cells
  }

  // Some function shares variable x of call a.
  predicate HandedOn<W>(x: Id, a: nat, s: State<W>) {
    exists i :: 0 <= i < |s.funs| && x in s.funs[i].scope && s.funs[i].scope[x] == a
  }

  ghost predicate Unshared<W>(a: nat, s: State<W>) {
    forall x :: !HandedOn(x, a, s)
  }

  lemma UnsharedLater<W>(a: nat, s: State<W>, s1: State<W>)
    requires Unshared(a, s) && s1.funs == s.funs
    ensures Unshared(a, s1)
  {
    forall x
      ensures !HandedOn(x, a, s1)
    {
      assert !HandedOn(x, a, s);
    }
  }

  function Read<W>(p: Runtime<W>, x: Id, fr: Frame, s: State<W>): Option<Value> {
    if x !in fr.scope then Some(p.global(x))
    else if Has(x, fr, s) then Some(s.cells[(fr.scope[x], x)])
    else None
  }

  function Put<W>(x: Id, v: Value, fr: Frame, s: State<W>): State<W>
    requires x in fr.scope
  {
    s.(cells := s.cells[(fr.scope[x], x) := v])
  }

  function Shared(vars: set<Id>, scope: map<Id, nat>): map<Id, nat> {
    map x | x in scope && x in vars :: scope[x]
  }

  // What an entry of a new environment holds.
  function EntryValue<W>(p: Runtime<W>, n: Node, fr: Frame, s: State<W>): Option<Value> {
    match n
    case Name(x) => Read(p, x, fr, s)
    case EnvGet(i) => if i < |fr.env| then Some(fr.env[i]) else None
    case _ => None
  }

  function EntryValues<W>(p: Runtime<W>, env: seq<Node>, fr: Frame, s: State<W>): (r: Option<seq<Value>>)
    ensures r.Some? ==> |r.value| == |env| && forall i :: 0 <= i < |env| ==> EntryValue(p, env[i], fr, s) == Some(r.value[i])
    ensures r.None? ==> exists i :: 0 <= i < |env| && EntryValue(p, env[i], fr, s) == None
  {
    if env == [] then Some([]) else
    match (EntryValue(p, env[0], fr, s), EntryValues(p, env[1..], fr, s))
    case (Some(v), Some(vs)) => Some([v] + vs)
    case _ => None
  }

  function Answer<W>(v: Option<Value>, s: State<W>): Result<W> {
    if v.Some? then Done(Normal(v.value), s) else Early
  }

  function Made<W>(c: Code, s: State<W>): Result<W> {
    Done(Normal(Fn(|s.funs|)), s.(funs := s.funs + [c]))
  }

  function Eval<W>(p: Runtime<W>, n: Node, fr: Frame, s: State<W>, fuel: nat): Result<W>
    decreases fuel, n, 1
  {
    match n
    case Leaf(text) => Done(Normal(p.literal(text)), s)
    case Name(x) => Answer(Read(p, x, fr, s), s)
    case Assign(x, e) =>
      (match Eval(p, e, fr, s, fuel)
       case Done(Normal(v), s1) => if Has(x, fr, s1) then Done(Normal(v), Put(x, v, fr, s1)) else Early
       case r => r)
    case Var(x, _, e) =>
      (match Eval(p, e, fr, s, fuel)
       case Done(Normal(v), s1) =>
         if x in fr.scope && !HandedOn(x, fr.scope[x], s1) then Done(Normal(p.literal("undefined")), Put(x, v, fr, s1)) else Early
       case r => r)
    case Op(kind, kids) => if kind == "block" then EvalBlock(p, kids, fr, s, fuel) else EvalOp(p, kind, kids, [], fr, s, fuel)
    case Func(f) =>
      var scope := Shared(Referenced(n), fr.scope);
      if forall x <- scope :: Has(x, fr, s) then Made(Code(f, scope, []), s) else Early
    case NewRef(e) =>
      (match Eval(p, e, fr, s, fuel)
       case Done(Normal(v), s1) => Done(Normal(Ref(|s1.boxes|)), s1.(boxes := s1.boxes + [v]))
       case r => r)
    case Deref(e) =>
      (match Eval(p, e, fr, s, fuel)
       case Done(Normal(v), s1) => if v.Ref? && v.at < |s1.boxes| then Done(Normal(s1.boxes[v.at]), s1) else Early
       case r => r)
    case Store(b, e) =>
      (match Eval(p, e, fr, s, fuel)
       case Done(Normal(v), s1) =>
         (match EntryValue(p, b, fr, s1)
          case Some(Ref(k)) => if k < |s1.boxes| then Done(Normal(v), s1.(boxes := s1.boxes[k := v])) else Early
          case _ => Early)
       case r => r)
    case EnvGet(_) => Answer(EntryValue(p, n, fr, s), s)
    case Closure(f, env) =>
      match EntryValues(p, env, fr, s)
      case None => Early
      case Some(vs) => Made(Code(f, map[], vs), s)
  }

  // A block ends like its last part.
  function EvalBlock<W>(p: Runtime<W>, kids: seq<Node>, fr: Frame, s: State<W>, fuel: nat): Result<W>
    decreases fuel, kids, 0
  {
    if kids == [] then Done(Normal(p.literal("undefined")), s)
    else if |kids| == 1 then Eval(p, kids[0], fr, s, fuel)
    else
      match Eval(p, kids[0], fr, s, fuel)
      case Done(Normal(_), s1) => EvalBlock(p, kids[1..], fr, s1, fuel)
      case r => r
  }

  // Every action of an operator spends fuel.
  function EvalOp<W>(p: Runtime<W>, kind: string, kids: seq<Node>, h: seq<Completion>, fr: Frame, s: State<W>, fuel: nat): Result<W>
    decreases fuel, kids, 1
  {
    if fuel == 0 then NoFuel else
    var (action, w) := p.next(kind, |kids|, h, s.world);
    if action.Finish? then Done(action.c, s.(world := w)) else
    match Act(p, action, kids, fr, s.(world := w), fuel)
    case Done(c, s1) => EvalOp(p, kind, kids, h + [c], fr, s1, fuel - 1)
    case r => r
  }

  function Act<W>(p: Runtime<W>, action: Action, kids: seq<Node>, fr: Frame, s: State<W>, fuel: nat): Result<W>
    requires fuel > 0 && !action.Finish?
    decreases fuel, kids, 0
  {
    match action
    case Part(i) => if i < |kids| then Eval(p, kids[i], fr, s, fuel - 1) else Early
    case Apply(f, args) => Call(p, f, args, s, fuel - 1)
  }

  function Own(f: Function): set<Id> {
    Elements(f.params) + Declared(f.body)
  }

  function OwnScope(f: Function, a: nat): map<Id, nat> {
    map x | x in Own(f) :: a
  }

  function BindParams<W>(p: Runtime<W>, params: seq<Id>, args: seq<Value>, a: nat, cells: map<(nat, Id), Value>): map<(nat, Id), Value> {
    if params == [] then cells else
    var n := |params| - 1;
    BindParams(p, params[..n], args, a, cells)[(a, params[n]) := if n < |args| then args[n] else p.literal("undefined")]
  }

  function Entered<W>(p: Runtime<W>, c: Code, args: seq<Value>, s: State<W>): State<W> {
    s.(cells := BindParams(p, c.f.params, args, s.calls, s.cells), calls := s.calls + 1)
  }

  function FrameOf(c: Code, a: nat): Frame {
    Frame(c.scope + OwnScope(c.f, a), c.env)
  }

  function Call<W>(p: Runtime<W>, f: Value, args: seq<Value>, s: State<W>, fuel: nat): Result<W>
    decreases fuel
  {
    if !f.Fn? || f.at >= |s.funs| then Done(Abrupt("not a function", f), s)
    else if fuel == 0 then NoFuel
    else Eval(p, s.funs[f.at].f.body, FrameOf(s.funs[f.at], s.calls), Entered(p, s.funs[f.at], args, s), fuel - 1)
  }

  // A whole program: call number 0, with its own variables and nothing around it.
  function Outermost(n: Node): Code {
    Code(Function([], n, {}, {}), map[], [])
  }

  function RunProgram<W>(p: Runtime<W>, n: Node, w: W, fuel: nat): Result<W> {
    Eval(p, n, FrameOf(Outermost(n), 0), State(map[], [], [], 1, w), fuel)
  }
}

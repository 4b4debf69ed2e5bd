// NotWasm functions, the WebAssembly they become, and the translation between them.

module NotWasm {
  import opened Common

  type Id = string

  // ----- The source language -----

  datatype Ty = I32 | F64 | Bool | Fn(fn: FnType) | String | HT | Array | DynObject | Closure(fn: FnType) | Ref | Any | Env | Ptr

  datatype FnType = FnType(args: seq<Ty>, result: Option<Ty>)

  predicate IsGcRoot(ty: Ty) {
    !(ty.I32? || ty.F64? || ty.Bool? || ty.Fn?)
  }

  // Every operation but reading a name is a call into the runtime.
  datatype Atom = Lit(n: int) | Undefined | Get(x: Id) | Prim(op: string, args: seq<Atom>)

  datatype Expr = Simple(a: Atom) | CallFn(f: Id, args: seq<Id>) | ClosureCall(f: Id, args: seq<Id>)

  datatype Stmt =
    | Empty
    | Var(x: Id, ty: Ty, named: Expr)
    | Expression(e: Expr)
    | Assign(x: Id, e: Expr)
    | Store(x: Id, e: Expr)
    | If(cond: Atom, conseq: Stmt, alt: Stmt)
    | Loop(body: Stmt)
    | Label(l: Id, body: Stmt)
    | Break(l: Id)
    | Return(a: Atom)
    | Block(stmts: seq<Stmt>)
    | Trap

  datatype Function = Function(params: seq<(Id, Ty)>, result: Option<Ty>, body: Stmt)

  function FnTypeOf(f: Function): FnType {
    FnType(seq(|f.params|, i requires 0 <= i < |f.params| => f.params[i].1), f.result)
  }

  // ----- Values -----

  type Addr = nat

  // A number or a function's index of 32 bits, a float, a heap pointer, a closure, or a value of any kind.
  datatype Value = Number | Double | Pointer(to: Addr) | ClosureOf(env: Addr, fn: nat) | AnyOf(v: AnyValue)

  datatype AnyValue = PointerIn(to: Addr) | ClosureIn(env: Addr, fn: nat) | NoPointer

  // How the runtime reads the words that it is given.
  datatype Words = Words(pointer: int -> Addr, closure: int -> (Addr, nat), any: int -> AnyValue)

  // What a word is, held by a variable of a type.
  function ValueAs(words: Words, ty: Ty, word: int): Value {
    match ty
    case I32 => Number
    case Bool => Number
    case Fn(_) => Number
    case F64 => Double
    case Closure(_) => var (env, fn) := words.closure(word); ClosureOf(env, fn)
    case Any => AnyOf(words.any(word))
    case _ => Pointer(words.pointer(word))
  }

  // The heap address in a value: a closure has that of its environment.
  function AddressIn(v: Value): Option<Addr> {
    match v
    case Pointer(a) => Some(a)
    case ClosureOf(e, _) => Some(e)
    case AnyOf(PointerIn(a)) => Some(a)
    case AnyOf(ClosureIn(e, _)) => Some(e)
    case _ => None
  }

  // Closures and values of any kind take 64 bits.
  function WidthOf(v: Value): ValType {
    match v
    case Number => Int32
    case Pointer(_) => Int32
    case Double => Float64
    case ClosureOf(_, _) => Int64
    case AnyOf(_) => Int64
  }

  function Width(ty: Ty): ValType {
    WidthOf(ValueAs(Words(w => 0, w => (0, 0), w => NoPointer), ty, 0))
  }

  // Exactly the types with a value that holds a heap address are roots.
  lemma RootsExact(ty: Ty)
    ensures IsGcRoot(ty) <==> exists words, word :: AddressIn(ValueAs(words, ty, word)).Some?
  {
    var words := Words(w => 0, w => (0, 0), w => PointerIn(0));
    if IsGcRoot(ty) { assert AddressIn(ValueAs(words, ty, 0)).Some?; }
  }

  // A type is represented by words as wide as its values.
  lemma AsWasmExact(words: Words, ty: Ty, word: int)
    ensures AsWasm(ty) == WidthOf(ValueAs(words, ty, word)) == Width(ty)
  {
  }

  // The variables that a statement declares, with their types.
  function Decls(s: Stmt): map<Id, Ty>
    decreases s, 0
  {
    match s
    case Var(x, ty, _) => map[x := ty]
    case If(_, conseq, alt) => Decls(conseq) + Decls(alt)
    case Loop(body) => Decls(body)
    case Label(_, body) => Decls(body)
    case Block(ss) => DeclsSeq(ss)
    case _ => map[]
  }

  function DeclsSeq(ss: seq<Stmt>): map<Id, Ty>
    decreases ss, 0
  {
    if ss == [] then map[] else Decls(ss[0]) + DeclsSeq(ss[1..])
  }

  function ParamTypes(params: seq<(Id, Ty)>): map<Id, Ty> {
    if params == [] then map[] else
    var n := |params| - 1;
    ParamTypes(params[..n])[params[n].0 := params[n].1]
  }

  // What the runtime answers, in an arbitrary world: a value, or a trap.
  datatype Answer<W> = Val(v: int, w: W) | Trapping(w: W)

  // `imported` answers calls of an index that is no function of the program.
  datatype Runtime<!W> = Runtime(call: (string, seq<int>, W) -> Answer<W>, imported: (int, Option<Sig>, seq<int>, W) -> Answer<W>)

  // Function i of the program has index imports + i, after the functions of the runtime.
  datatype Globals = Globals(imports: nat, names: map<Id, nat>)

  datatype Program<!W> = Program(rt: Runtime<W>, globals: Globals, funs: seq<Function>)

  // `types` are the variables in scope here: the parameters and what is declared further up in the
  // text of the function.  `written` are the variables that a statement has given a value: the others
  // hold parameters or whatever WebAssembly put there, which is zero.
  datatype Store<W> = Vars(vars: map<Id, int>, types: map<Id, Ty>, written: set<Id>, world: W)

  function Lookup<W>(st: Store<W>, x: Id): int {
    if x in st.vars then st.vars[x] else 0
  }

  function Written<W>(st: Store<W>, x: Id, v: int): Store<W> {
    st.(vars := st.vars[x := v], written := st.written + {x})
  }

  // A name that is no variable here is a function, and its value the function's index.
  function ValueOf<W>(p: Program<W>, st: Store<W>, x: Id): int {
    if x !in st.types && x in p.globals.names then p.globals.imports + p.globals.names[x] else Lookup(st, x)
  }

  function EvalAtom<W>(p: Program<W>, a: Atom, st: Store<W>): Answer<W> {
    match a
    case Lit(n) => Val(n, st.world)
    case Undefined => p.rt.call("get_undefined", [], st.world)
    case Get(x) => Val(ValueOf(p, st, x), st.world)
    case Prim(op, args) =>
      match EvalArgs(p, args, st)
      case ArgsTrap(w) => Trapping(w)
      case Args(vs, w) => p.rt.call(op, vs, w)
  }

  datatype ArgsAnswer<W> = Args(vs: seq<int>, w: W) | ArgsTrap(w: W)

  function EvalArgs<W>(p: Program<W>, args: seq<Atom>, st: Store<W>): ArgsAnswer<W> {
    if args == [] then Args([], st.world) else
    match EvalArgs(p, args[..|args| - 1], st)
    case ArgsTrap(w) => ArgsTrap(w)
    case Args(vs, w) =>
      match EvalAtom(p, args[|args| - 1], st.(world := w))
      case Trapping(w1) => ArgsTrap(w1)
      case Val(v, w1) => Args(vs + [v], w1)
  }

  function Gets(xs: seq<Id>): seq<Atom> {
    seq(|xs|, i requires 0 <= i < |xs| => Get(xs[i]))
  }

  datatype Completion = Normal | Breaks(l: Id) | Returns(v: int) | Traps

  datatype Result<W> = OutOfFuel | Done(c: Completion, st: Store<W>)

  datatype ExprAnswer<W> = NoAnswer | Ended(a: Answer<W>)

  function EvalExpr<W>(p: Program<W>, e: Expr, st: Store<W>, fuel: nat): ExprAnswer<W>
    decreases fuel, 1, e, 0
  {
    match e
    case Simple(a) => Ended(EvalAtom(p, a, st))
    case CallFn(f, args) =>
      (match EvalArgs(p, Gets(args), st)
       case ArgsTrap(w) => Ended(Trapping(w))
       case Args(vs, w) => CallNamed(p, f, st, vs, w, fuel))
    case ClosureCall(f, args) =>
      if f !in st.types || !st.types[f].Closure? then Ended(Trapping(st.world)) else
      match p.rt.call("closure_env", [Lookup(st, f)], st.world)
      case Trapping(w) => Ended(Trapping(w))
      case Val(env, w) => CallWithEnv(p, f, args, env, st.(world := w), fuel)
  }

  // Through a name that is a variable the call is indirect, and the variable's type is checked.
  function CallNamed<W>(p: Program<W>, f: Id, st: Store<W>, vs: seq<int>, w: W, fuel: nat): ExprAnswer<W>
    decreases fuel, 0, 1
  {
    if f !in st.types then CallFunction(p, ValueOf(p, st, f), None, vs, w, fuel)
    else if st.types[f].Fn? then CallFunction(p, Lookup(st, f), Some(st.types[f].fn), vs, w, fuel)
    else Ended(Trapping(w))
  }

  function CallWithEnv<W>(p: Program<W>, f: Id, args: seq<Id>, env: int, st: Store<W>, fuel: nat): ExprAnswer<W>
    requires f in st.types && st.types[f].Closure?
    decreases fuel, 0, 2
  {
    match EvalArgs(p, Gets(args), st)
    case ArgsTrap(w) => Ended(Trapping(w))
    case Args(vs, w) => CallClosure(p, f, st, [env] + vs, w, fuel)
  }

  function CallClosure<W>(p: Program<W>, f: Id, st: Store<W>, vs: seq<int>, w: W, fuel: nat): ExprAnswer<W>
    requires f in st.types && st.types[f].Closure?
    decreases fuel, 0, 1
  {
    match p.rt.call("closure_func", [Lookup(st, f)], w)
    case Trapping(w1) => Ended(Trapping(w1))
    case Val(index, w1) => CallFunction(p, index, Some(st.types[f].fn), vs, w1, fuel)
  }

  // May f be called with n arguments for one result, through a variable of type t if there is one?
  // Then f takes and gives values as wide as the type says.
  predicate Accepts(f: Function, t: Option<FnType>, n: nat) {
    && |f.params| == n && f.result.Some?
    && (t.Some? ==>
        && |t.value.args| == n && (forall i :: 0 <= i < n ==> Width(t.value.args[i]) == Width(f.params[i].1))
        && t.value.result.Some? && Width(t.value.result.value) == Width(f.result.value))
  }

  // A call that would not validate traps, and so does one of a function that falls off its end.
  function CallFunction<W>(p: Program<W>, index: int, t: Option<FnType>, vs: seq<int>, w: W, fuel: nat): ExprAnswer<W>
    decreases fuel, 0, 0
  {
    var i := index - p.globals.imports;
    if !(0 <= i < |p.funs|) then Ended(p.rt.imported(index, Expected(t), vs, w)) else
    var f := p.funs[i];
    if !Accepts(f, t, |vs|) then Ended(Trapping(w))
    else if fuel == 0 then NoAnswer
    else AnswerOf(Exec(p, f.body, EntryVars(f, vs, w), fuel - 1))
  }

  function AnswerOf<W>(r: Result<W>): ExprAnswer<W> {
    match r
    case OutOfFuel => NoAnswer
    case Done(c, st) => Ended(if c.Returns? then Val(c.v, st.world) else Trapping(st.world))
  }

  function ParamVars(params: seq<(Id, Ty)>, args: seq<int>): map<Id, int>
    requires |params| == |args|
  {
    if params == [] then map[] else
    var n := |params| - 1;
    ParamVars(params[..n], args[..n])[params[n].0 := args[n]]
  }

  function EntryVars<W>(f: Function, args: seq<int>, w: W): Store<W>
    requires |f.params| == |args|
  {
    Vars(ParamVars(f.params, args), ParamTypes(f.params), {}, w)
  }

  function WriteVar<W>(x: Id, a: ExprAnswer<W>, st: Store<W>): Result<W> {
    match a
    case NoAnswer => OutOfFuel
    case Ended(Trapping(w)) => Done(Traps, st.(world := w))
    case Ended(Val(v, w)) => Done(Normal, Written(st.(world := w), x, v))
  }

  function StoreTo<W>(rt: Runtime<W>, x: Id, a: ExprAnswer<W>, st: Store<W>): Result<W> {
    match a
    case NoAnswer => OutOfFuel
    case Ended(Trapping(w)) => Done(Traps, st.(world := w))
    case Ended(Val(v, w)) =>
      match rt.call("store", [Lookup(st, x), v], w)
      case Trapping(w1) => Done(Traps, st.(world := w1))
      case Val(_, w1) => Done(Normal, st.(world := w1))
  }

  function Ignore<W>(a: ExprAnswer<W>, st: Store<W>): Result<W> {
    match a
    case NoAnswer => OutOfFuel
    case Ended(Trapping(w)) => Done(Traps, st.(world := w))
    case Ended(Val(_, w)) => Done(Normal, st.(world := w))
  }

  // Behind a statement what it declares is in scope, whether it has run or not.
  function After<W>(before: Store<W>, s: Stmt, st: Store<W>): Store<W> {
    st.(types := before.types + Decls(s))
  }

  // Fuel is spent by a call and when a loop goes round, here and in WebAssembly alike.
  function Exec<W>(p: Program<W>, s: Stmt, st: Store<W>, fuel: nat): Result<W>
    decreases fuel, 1, s, 1
  {
    match s
    case Empty => Done(Normal, st)
    // A typed declaration without a value leaves the variable as it was.
    case Var(x, ty, e) => if ty != Any && e == Simple(Undefined) then Done(Normal, st) else WriteVar(x, EvalExpr(p, e, st, fuel), st)
    case Expression(e) => Ignore(EvalExpr(p, e, st, fuel), st)
    case Assign(x, e) => WriteVar(x, EvalExpr(p, e, st, fuel), st)
    case Store(x, e) => StoreTo(p.rt, x, EvalExpr(p, e, st, fuel), st)
    case If(cond, conseq, alt) =>
      (match EvalAtom(p, cond, st)
       case Trapping(w) => Done(Traps, st.(world := w))
       case Val(v, w) => if v != 0 then Exec(p, conseq, st.(world := w), fuel) else Exec(p, alt, After(st, conseq, st.(world := w)), fuel))
    case Loop(body) => ExecLoop(p, body, st, fuel)
    case Label(l, body) =>
      var r := Exec(p, body, st, fuel);
      if r.Done? && r.c == Breaks(l) then Done(Normal, r.st) else r
    case Break(l) => Done(Breaks(l), st)
    case Return(a) =>
      (match EvalAtom(p, a, st)
       case Trapping(w) => Done(Traps, st.(world := w))
       case Val(v, w) => Done(Returns(v), st.(world := w)))
    case Block(ss) => ExecSeq(p, ss, st, fuel)
    case Trap => Done(Traps, st)
  }

  function ExecLoop<W>(p: Program<W>, body: Stmt, st: Store<W>, fuel: nat): Result<W>
    decreases fuel, 1, body, 2
  {
    if fuel == 0 then OutOfFuel else
    var r := Exec(p, body, st, fuel);
    if r.Done? && r.c == Normal then ExecLoop(p, body, r.st.(types := st.types), fuel - 1) else r
  }

  function ExecSeq<W>(p: Program<W>, ss: seq<Stmt>, st: Store<W>, fuel: nat): Result<W>
    decreases fuel, 1, ss, 0
  {
    if ss == [] then Done(Normal, st) else
    var r := Exec(p, ss[0], st, fuel);
    if r.Done? && r.c == Normal then ExecSeq(p, ss[1..], After(st, ss[0], r.st), fuel) else r
  }

  // ----- WebAssembly -----

  datatype ValType = Int32 | Int64 | Float64

  datatype Sig = Sig(params: seq<ValType>, result: Option<ValType>)

  function AsWasm(ty: Ty): ValType {
    match ty
    case F64 => Float64
    case Any => Int64
    case Closure(_) => Int64
    case _ => Int32
  }

  function SigOf(t: FnType): Sig {
    Sig(seq(|t.args|, i requires 0 <= i < |t.args| => AsWasm(t.args[i])), if t.result.None? then None else Some(AsWasm(t.result.value)))
  }

  function Expected(t: Option<FnType>): Option<Sig> {
    if t.Some? then Some(SigOf(t.value)) else None
  }

  // May a function of this signature be called with n arguments for one result?  An indirect call
  // expects a signature of its own.
  predicate MayCall(own: Sig, expected: Option<Sig>, n: nat) {
    |own.params| == n && own.result.Some? && (expected.Some? ==> expected.value == own)
  }

  // The three runtime functions that put a root into the current shadow frame.
  datatype SlotFn = SetAny | SetClosure | SetPointer

  function ShadowFrameFn(ty: Ty): SlotFn {
    match ty
    case Any => SetAny
    case Closure(_) => SetClosure
    case _ => SetPointer
  }

  datatype Basic =
    | Const(n: int)
    | GetLocal(i: nat)
    | SetLocal(i: nat)
    | TeeLocal(i: nat)
    | Call(op: string, arity: nat)
    | CallFun(index: int, arity: nat)
    | CallIndirect(sig: Sig, arity: nat)
    | StoreTop
    | DropTop
    | Br(depth: nat)
    | ReturnTop
    | Unreachable
    | GcEnterFn
    | GcExitFn
    | SetSlot(fn: SlotFn)

  // Instructions as they are emitted, one after another.
  datatype Instr = Plain(b: Basic) | BlockStart | LoopStart | IfStart | Else | End

  // Structured code, as section 2.4 of the WebAssembly Core Specification 1.0 has it.
  datatype Node = Do(b: Basic) | BlockOf(body: seq<Node>) | LoopOf(body: seq<Node>) | IfOf(thn: seq<Node>, els: seq<Node>)

  function FlattenNode(n: Node): seq<Instr>
    decreases n
  {
    match n
    case Do(b) => [Plain(b)]
    case BlockOf(body) => [BlockStart] + Flatten(body) + [End]
    case LoopOf(body) => [LoopStart] + Flatten(body) + [End]
    case IfOf(thn, els) => [IfStart] + Flatten(thn) + [Else] + Flatten(els) + [End]
  }

  function Flatten(code: seq<Node>): seq<Instr>
    decreases code
  {
    if code == [] then [] else FlattenNode(code[0]) + Flatten(code[1..])
  }

  // A slot of a shadow frame is empty or holds a heap address.
  type Slot = Option<Addr>

  datatype Machine<W> = Machine(locals: seq<int>, stack: seq<int>, world: W, frames: seq<seq<Slot>>, words: Words)

  // What each of the three functions puts into the slot.
  function RootOf(words: Words, fn: SlotFn, word: int): Slot {
    match fn
    case SetPointer => Some(words.pointer(word))
    case SetClosure => Some(words.closure(word).0)
    case SetAny =>
      match words.any(word)
      case PointerIn(a) => Some(a)
      case ClosureIn(e, _) => Some(e)
      case NoPointer => None
  }

  datatype Exit = Fall | BrTo(depth: nat) | Ret(v: int) | Trapped

  datatype Run<W> = NoFuel | Ran(exit: Exit, m: Machine<W>)

  function Push<W>(m: Machine<W>, v: int): Machine<W> {
    m.(stack := m.stack + [v])
  }

  function Pop<W>(m: Machine<W>, n: nat): Machine<W>
    requires n <= |m.stack|
  {
    m.(stack := m.stack[..|m.stack| - n])
  }

  function Top<W>(m: Machine<W>): int
    requires m.stack != []
  {
    m.stack[|m.stack| - 1]
  }

  datatype Compiled = Compiled(sig: Sig, locals: nat, code: seq<Node>)

  datatype Module<!W> = Module(rt: Runtime<W>, imports: nat, funs: seq<Compiled>)

  // Every instruction that calls no function.  Code that would not validate traps here.
  function Step<W>(rt: Runtime<W>, b: Basic, m: Machine<W>): Run<W>
    requires !b.CallFun? && !b.CallIndirect?
  {
    match b
    case Const(n) => Ran(Fall, Push(m, n))
    case GetLocal(i) => if i < |m.locals| then Ran(Fall, Push(m, m.locals[i])) else Ran(Trapped, m)
    case SetLocal(i) =>
      if i < |m.locals| && m.stack != [] then Ran(Fall, Pop(m, 1).(locals := m.locals[i := Top(m)])) else Ran(Trapped, m)
    case TeeLocal(i) =>
      if i < |m.locals| && m.stack != [] then Ran(Fall, m.(locals := m.locals[i := Top(m)])) else Ran(Trapped, m)
    case Call(op, n) =>
      if |m.stack| < n then Ran(Trapped, m) else
      (match rt.call(op, m.stack[|m.stack| - n..], m.world)
       case Trapping(w) => Ran(Trapped, m.(world := w))
       case Val(v, w) => Ran(Fall, Push(Pop(m, n), v).(world := w)))
    case StoreTop =>
      if |m.stack| < 2 then Ran(Trapped, m) else
      (match rt.call("store", m.stack[|m.stack| - 2..], m.world)
       case Trapping(w) => Ran(Trapped, m.(world := w))
       case Val(_, w) => Ran(Fall, Pop(m, 2).(world := w)))
    case DropTop => if m.stack == [] then Ran(Trapped, m) else Ran(Fall, Pop(m, 1))
    case Br(depth) => Ran(BrTo(depth), m)
    case ReturnTop => if m.stack == [] then Ran(Trapped, m) else Ran(Ret(Top(m)), m)
    case Unreachable => Ran(Trapped, m)
    case GcEnterFn =>
      if m.stack == [] || Top(m) < 0 then Ran(Trapped, m)
      else Ran(Fall, Pop(m, 1).(frames := m.frames + [EmptyFrame(Top(m))]))
    case GcExitFn => Ran(Fall, if m.frames == [] then m else m.(frames := m.frames[..|m.frames| - 1]))
    case SetSlot(fn) =>
      if |m.stack| < 2 || m.frames == [] then Ran(Trapped, m) else
      var slot := Top(m);
      var last := |m.frames| - 1;
      if 0 <= slot < |m.frames[last]| then
        Ran(Fall, Pop(m, 2).(frames := m.frames[last := m.frames[last][slot := RootOf(m.words, fn, m.stack[|m.stack| - 2])]]))
      else Ran(Trapped, m)
  }

  function EmptyFrame(n: nat): seq<Slot> {
    seq(n, _ => None)
  }

  // Leaving a block: a branch to it ends it, any other goes one level further out.
  function Leave<W>(r: Run<W>): Run<W> {
    if r.Ran? && r.exit.BrTo? then Ran(if r.exit.depth == 0 then Fall else BrTo(r.exit.depth - 1), r.m) else r
  }

  function Zeros(n: nat): seq<int> {
    seq(n, _ => 0)
  }

  // How a function starts: its arguments in the first locals, zero in the others.
  function Entry<W>(args: seq<int>, locals: nat, w: W, frames: seq<seq<Slot>>, words: Words): Machine<W> {
    Machine(args + Zeros(locals), [], w, frames, words)
  }

  // Section 4.4.5 of the WebAssembly Core Specification 1.0.
  function RunNode<W>(wm: Module<W>, n: Node, m: Machine<W>, fuel: nat): Run<W>
    decreases fuel, 1, n, 1
  {
    match n
    case Do(CallFun(index, k)) => RunCall(wm, index, None, k, m, fuel)
    case Do(CallIndirect(sig, k)) =>
      if m.stack == [] then Ran(Trapped, m) else RunCall(wm, Top(m), Some(sig), k, Pop(m, 1), fuel)
    case Do(b) => Step(wm.rt, b, m)
    case BlockOf(body) => Leave(RunCode(wm, body, m, fuel))
    case LoopOf(body) => RunLoop(wm, body, m, fuel)
    case IfOf(thn, els) =>
      if m.stack == [] then Ran(Trapped, m) else
      Leave(if Top(m) != 0 then RunCode(wm, thn, Pop(m, 1), fuel) else RunCode(wm, els, Pop(m, 1), fuel))
  }

  // A branch to a loop goes round again; falling off its end leaves it.
  function RunLoop<W>(wm: Module<W>, body: seq<Node>, m: Machine<W>, fuel: nat): Run<W>
    decreases fuel, 1, body, 1
  {
    if fuel == 0 then NoFuel else
    var r := RunCode(wm, body, m, fuel);
    if r.Ran? && r.exit == BrTo(0) then RunLoop(wm, body, r.m, fuel - 1) else Leave(r)
  }

  function RunCode<W>(wm: Module<W>, code: seq<Node>, m: Machine<W>, fuel: nat): Run<W>
    decreases fuel, 1, code, 0
  {
    if code == [] then Ran(Fall, m) else
    var r := RunNode(wm, code[0], m, fuel);
    if r.Ran? && r.exit == Fall then RunCode(wm, code[1..], r.m, fuel) else r
  }

  // Section 4.4.7: the callee has locals and a stack of its own, and the caller's world and frames.
  function RunCall<W>(wm: Module<W>, index: int, sig: Option<Sig>, n: nat, m: Machine<W>, fuel: nat): Run<W>
    decreases fuel, 0
  {
    if |m.stack| < n then Ran(Trapped, m) else
    var args, rest := m.stack[|m.stack| - n..], Pop(m, n);
    var i := index - wm.imports;
    if !(0 <= i < |wm.funs|) then
      (match wm.rt.imported(index, sig, args, m.world)
       case Trapping(w) => Ran(Trapped, m.(world := w))
       case Val(v, w) => Ran(Fall, Push(rest, v).(world := w)))
    else
    var f := wm.funs[i];
    if !MayCall(f.sig, sig, n) then Ran(Trapped, m)
    else if fuel == 0 then NoFuel
    else Resumed(rest, RunCode(wm, f.code, Entry(args, f.locals, m.world, m.frames, m.words), fuel - 1))
  }

  // The caller after the call: a value more on its stack, and what the callee left of world and frames.
  function Resumed<W>(rest: Machine<W>, r: Run<W>): Run<W> {
    match r
    case NoFuel => NoFuel
    case Ran(exit, m) =>
      if exit.Ret? then Ran(Fall, Push(rest, exit.v).(world := m.world, frames := m.frames)) else Ran(Trapped, rest.(world := m.world))
  }

  // ----- The translation -----

  // What the translator knows about the program: whether collection is on, where its functions
  // are, and the function types that have an index.
  datatype Context = Context(gc: bool, globals: Globals, sigs: set<Sig>)

  // Where the translator is: the identifiers it knows, the next local, and the types of the locals
  // that are not parameters.
  datatype Scope = Scope(ids: map<Id, (nat, Ty)>, next: nat, locals: seq<Ty>)

  // Labels of the enclosing blocks, innermost first; None for a block that no break can name.
  type Labels = seq<Option<Id>>

  function GetCode(x: Id, ids: map<Id, (nat, Ty)>, cx: Context): Option<Basic> {
    if x in ids then Some(GetLocal(ids[x].0))
    else if x in cx.globals.names then Some(Const(cx.globals.imports + cx.globals.names[x]))
    else None
  }

  function AtomCode(a: Atom, ids: map<Id, (nat, Ty)>, cx: Context): Option<seq<Node>> {
    match a
    case Lit(n) => Some([Do(Const(n))])
    case Undefined => Some([Do(Call("get_undefined", 0))])
    case Get(x) =>
      (match GetCode(x, ids, cx)
       case None => None
       case Some(b) => Some([Do(b)]))
    case Prim(op, args) =>
      match ArgsCode(args, ids, cx)
      case None => None
      case Some(code) => Some(code + [Do(Call(op, |args|))])
  }

  function ArgsCode(args: seq<Atom>, ids: map<Id, (nat, Ty)>, cx: Context): Option<seq<Node>> {
    if args == [] then Some([]) else
    match ArgsCode(args[..|args| - 1], ids, cx)
    case None => None
    case Some(code) =>
      match AtomCode(args[|args| - 1], ids, cx)
      case None => None
      case Some(last) => Some(code + last)
  }

  // The call itself, once the arguments are on the stack.
  function CallCode(f: Id, n: nat, ids: map<Id, (nat, Ty)>, cx: Context): Option<seq<Node>> {
    if f in ids then
      if !ids[f].1.Fn? || SigOf(ids[f].1.fn) !in cx.sigs then None
      else Some([Do(GetLocal(ids[f].0)), Do(CallIndirect(SigOf(ids[f].1.fn), n))])
    else if f in cx.globals.names then Some([Do(CallFun(cx.globals.imports + cx.globals.names[f], n))])
    else None
  }

  function ExprCode(e: Expr, ids: map<Id, (nat, Ty)>, cx: Context): Option<seq<Node>> {
    match e
    case Simple(a) => AtomCode(a, ids, cx)
    case CallFn(f, args) =>
      (match (ArgsCode(Gets(args), ids, cx), CallCode(f, |args|, ids, cx))
       case (Some(code), Some(call)) => Some(code + call)
       case _ => None)
    case ClosureCall(f, args) =>
      if f !in ids || !ids[f].1.Closure? || SigOf(ids[f].1.fn) !in cx.sigs then None else
      match ArgsCode(Gets(args), ids, cx)
      case None => None
      case Some(code) =>
        var get := Do(GetLocal(ids[f].0));
        Some([get, Do(Call("closure_env", 1))] + code + [get, Do(Call("closure_func", 1)), Do(CallIndirect(SigOf(ids[f].1.fn), |args| + 1))])
  }

  // Sets a local and, for a root, its slot in the shadow frame.
  function WriteCode(index: nat, ty: Ty, gc: bool): seq<Node> {
    if !gc || !IsGcRoot(ty) then [Do(SetLocal(index))]
    else [Do(TeeLocal(index)), Do(Const(index)), Do(SetSlot(ShadowFrameFn(ty)))]
  }

  function IndexOf(labels: Labels, l: Id): (r: Option<nat>)
    ensures r.Some? ==> r.value < |labels| && labels[r.value] == Some(l)
    ensures r.Some? ==> forall i :: 0 <= i < r.value ==> labels[i] != Some(l)
    ensures r.None? ==> Some(l) !in labels
  {
    if labels == [] then None
    else if labels[0] == Some(l) then Some(0)
    else match IndexOf(labels[1..], l) case None => None case Some(i) => Some(i + 1)
  }

  // A declaration without a value, for which nothing is emitted.
  predicate IsInit(ty: Ty, named: Expr) {
    ty != Any && named == Simple(Undefined)
  }

  function Declare(sc: Scope, x: Id, ty: Ty): Scope {
    Scope(sc.ids[x := (sc.next, ty)], sc.next + 1, sc.locals + [ty])
  }

  // `None` stands for a panic: an identifier or a label that is not bound.
  function StmtCode(s: Stmt, labels: Labels, sc: Scope, cx: Context): Option<(seq<Node>, Scope)>
    decreases s, 0
  {
    match s
    case Empty => Some(([], sc))
    case Var(x, ty, e) =>
      var sc1 := Declare(sc, x, ty);
      if IsInit(ty, e) then Some(([], sc1)) else
      (match ExprCode(e, sc.ids, cx)
       case None => None
       case Some(code) => Some((code + WriteCode(sc.next, ty, cx.gc), sc1)))
    case Expression(e) =>
      (match ExprCode(e, sc.ids, cx)
       case None => None
       case Some(code) => Some((code + [Do(DropTop)], sc)))
    case Assign(x, e) =>
      if x !in sc.ids then None else
      (match ExprCode(e, sc.ids, cx)
       case None => None
       case Some(code) => Some((code + WriteCode(sc.ids[x].0, sc.ids[x].1, cx.gc), sc)))
    case Store(x, e) =>
      if x !in sc.ids || sc.ids[x].1 != Ref then None else
      (match ExprCode(e, sc.ids, cx)
       case None => None
       case Some(code) => Some(([Do(GetLocal(sc.ids[x].0))] + code + [Do(StoreTop)], sc)))
    case If(cond, conseq, alt) =>
      (match AtomCode(cond, sc.ids, cx)
       case None => None
       case Some(code) =>
         match StmtCode(conseq, [None] + labels, sc, cx)
         case None => None
         case Some((thn, sc1)) =>
           match StmtCode(alt, [None] + labels, sc1, cx)
           case None => None
           case Some((els, sc2)) => Some((code + [IfOf(thn, els)], sc2)))
    case Loop(body) =>
      (match StmtCode(body, [None] + labels, sc, cx)
       case None => None
       case Some((code, sc1)) => Some(([LoopOf(code + [Do(Br(0))])], sc1)))
    case Label(l, body) =>
      (match StmtCode(body, [Some(l)] + labels, sc, cx)
       case None => None
       case Some((code, sc1)) => Some(([BlockOf(code)], sc1)))
    case Break(l) =>
      (match IndexOf(labels, l)
       case None => None
       case Some(i) => Some(([Do(Br(i))], sc)))
    case Return(a) =>
      (match AtomCode(a, sc.ids, cx)
       case None => None
       case Some(code) => Some(((if cx.gc then [Do(GcExitFn)] else []) + code + [Do(ReturnTop)], sc)))
    case Block(ss) => SeqCode(ss, labels, sc, cx)
    case Trap => Some(([Do(Unreachable)], sc))
  }

  function SeqCode(ss: seq<Stmt>, labels: Labels, sc: Scope, cx: Context): Option<(seq<Node>, Scope)>
    decreases ss, 0
  {
    if ss == [] then Some(([], sc)) else
    match StmtCode(ss[0], labels, sc, cx)
    case None => None
    case Some((code, sc1)) =>
      match SeqCode(ss[1..], labels, sc1, cx)
      case None => None
      case Some((rest, sc2)) => Some((code + rest, sc2))
  }

  function ParamScope(params: seq<(Id, Ty)>): Scope {
    if params == [] then Scope(map[], 0, []) else
    var n := |params| - 1;
    var sc := ParamScope(params[..n]);
    Scope(sc.ids[params[n].0 := (sc.next, params[n].1)], sc.next + 1, [])
  }

  // The body between entering the shadow frame and leaving it.
  function FunctionCode(f: Function, cx: Context): Option<(seq<Node>, Scope)> {
    match StmtCode(f.body, [], ParamScope(f.params), cx)
    case None => None
    case Some((code, sc)) =>
      if cx.gc then Some(([Do(Const(|sc.locals| + |f.params|)), Do(GcEnterFn)] + code + [Do(GcExitFn)], sc)) else Some((code, sc))
  }

  // ----- The translator itself, emitting instruction by instruction -----

  lemma {:induction false} FlattenConcat(a: seq<Node>, b: seq<Node>)
    ensures Flatten(a + b) == Flatten(a) + Flatten(b)
    decreases a
  {
    if a == [] {
      assert a + b == b;
    } else {
      assert (a + b)[0] == a[0] && (a + b)[1..] == a[1..] + b;
      FlattenConcat(a[1..], b);
    }
  }

  lemma Joined(o: seq<Instr>, a: seq<Node>, b: seq<Node>)
    ensures o + Flatten(a) + Flatten(b) == o + Flatten(a + b)
  {
    FlattenConcat(a, b);
  }

  lemma BlockJoined(o: seq<Instr>, code: seq<Node>)
    ensures o + [BlockStart] + Flatten(code) + [End] == o + Flatten([BlockOf(code)])
    ensures o + [LoopStart] + Flatten(code) + [End] == o + Flatten([LoopOf(code)])
  {
    FlattenOne(BlockOf(code));
    FlattenOne(LoopOf(code));
  }

  lemma IfJoined(o: seq<Instr>, thn: seq<Node>, els: seq<Node>)
    ensures o + [IfStart] + Flatten(thn) + [Else] + Flatten(els) + [End] == o + Flatten([IfOf(thn, els)])
  {
    FlattenOne(IfOf(thn, els));
  }

  lemma ReturnJoined(o: seq<Instr>, leave: seq<Node>, code: seq<Node>)
    ensures o + Flatten(leave) + Flatten(code) + Flatten([Do(ReturnTop)]) == o + Flatten(leave + code + [Do(ReturnTop)])
  {
    Joined(o, leave, code);
    Joined(o, leave + code, [Do(ReturnTop)]);
  }

  lemma FlattenOne(n: Node)
    ensures Flatten([n]) == FlattenNode(n)
  {
    assert Flatten([n][1..]) == [];
  }

  class Translate {
    const cx: Context
    var out: seq<Instr>
    var locals: seq<Ty>
    var nextId: nat
    var idEnv: map<Id, (nat, Ty)>

    ghost function Where(): Scope
      reads this
    {
      Scope(idEnv, nextId, locals)
    }

    constructor (cx: Context, params: seq<(Id, Ty)>)
      ensures this.cx == cx && out == [] && Where() == ParamScope(params)
    {
      this.cx := cx;
      out := [];
      locals := [];
      nextId := 0;
      idEnv := map[];
      new;
      var i := 0;
      while i < |params|
        invariant 0 <= i <= |params| && out == [] && Where() == ParamScope(params[..i])
      {
        assert params[..i + 1][..i] == params[..i];
        idEnv := idEnv[params[i].0 := (nextId, params[i].1)];
        nextId := nextId + 1;
        i := i + 1;
      }
      assert params[..i] == params;
    }

    method Emit(b: Basic)
      modifies this`out
      ensures out == old(out) + Flatten([Do(b)])
    {
      FlattenOne(Do(b));
      out := out + [Plain(b)];
    }

    method GetId(x: Id) returns (ok: bool)
      modifies this`out
      ensures match GetCode(x, idEnv, cx) case None => !ok case Some(b) => ok && out == old(out) + Flatten([Do(b)])
    {
      ok := true;
      if x in idEnv {
        Emit(GetLocal(idEnv[x].0));
      } else if x in cx.globals.names {
        Emit(Const(cx.globals.imports + cx.globals.names[x]));
      } else {
        ok := false;
      }
    }

    method TranslateAtom(a: Atom) returns (ok: bool)
      modifies this`out
      ensures match AtomCode(a, idEnv, cx) case None => !ok case Some(code) => ok && out == old(out) + Flatten(code)
      decreases a, 1
    {
      ok := true;
      match a {
        case Lit(n) => Emit(Const(n));
        case Undefined => Emit(Call("get_undefined", 0));
        case Get(x) =>
          ok := GetId(x);
        case Prim(op, args) =>
          ok := TranslateArgs(args);
          if !ok { return; }
          Emit(Call(op, |args|));
          Joined(old(out), ArgsCode(args, idEnv, cx).value, [Do(Call(op, |args|))]);
      }
    }

    method TranslateArgs(args: seq<Atom>) returns (ok: bool)
      modifies this`out
      ensures match ArgsCode(args, idEnv, cx) case None => !ok case Some(code) => ok && out == old(out) + Flatten(code)
      decreases args, 0
    {
      var i := 0;
      while i < |args|
        invariant 0 <= i <= |args|
        invariant ArgsCode(args[..i], idEnv, cx).Some? && out == old(out) + Flatten(ArgsCode(args[..i], idEnv, cx).value)
      {
        assert args[..i + 1][..i] == args[..i] && args[..i + 1][i] == args[i];
        ok := TranslateAtom(args[i]);
        if !ok {
          PrefixFails(args, i + 1, idEnv, cx);
          return;
        }
        Joined(old(out), ArgsCode(args[..i], idEnv, cx).value, AtomCode(args[i], idEnv, cx).value);
        i := i + 1;
      }
      assert args[..i] == args;
      ok := true;
    }

    method TranslateExpr(e: Expr) returns (ok: bool)
      modifies this`out
      ensures match ExprCode(e, idEnv, cx) case None => !ok case Some(code) => ok && out == old(out) + Flatten(code)
    {
      match e {
        case Simple(a) => ok := TranslateAtom(a);
        case CallFn(f, args) => ok := TranslateCall(f, args);
        case ClosureCall(f, args) => ok := TranslateClosureCall(f, args);
      }
    }

    method TranslateCall(f: Id, args: seq<Id>) returns (ok: bool)
      modifies this`out
      ensures match ExprCode(CallFn(f, args), idEnv, cx) case None => !ok case Some(code) => ok && out == old(out) + Flatten(code)
    {
      ok := TranslateArgs(Gets(args));
      if !ok { return; }
      ghost var before := out;
      if f in idEnv {
        Emit(GetLocal(idEnv[f].0));
        if !idEnv[f].1.Fn? || SigOf(idEnv[f].1.fn) !in cx.sigs { return false; }
        Emit(CallIndirect(SigOf(idEnv[f].1.fn), |args|));
        Joined(before, [Do(GetLocal(idEnv[f].0))], [Do(CallIndirect(SigOf(idEnv[f].1.fn), |args|))]);
      } else {
        if f !in cx.globals.names { return false; }
        Emit(CallFun(cx.globals.imports + cx.globals.names[f], |args|));
      }
      Joined(old(out), ArgsCode(Gets(args), idEnv, cx).value, CallCode(f, |args|, idEnv, cx).value);
    }

    method TranslateClosureCall(f: Id, args: seq<Id>) returns (ok: bool)
      modifies this`out
      ensures match ExprCode(ClosureCall(f, args), idEnv, cx) case None => !ok case Some(code) => ok && out == old(out) + Flatten(code)
    {
      ok := GetId(f);
      if !ok || f !in idEnv { return false; }
      Emit(Call("closure_env", 1));
      if !idEnv[f].1.Closure? { return false; }
      var sig := SigOf(idEnv[f].1.fn);
      if sig !in cx.sigs { return false; }
      ok := TranslateArgs(Gets(args));
      if !ok { return; }
      ghost var get := Do(GetLocal(idEnv[f].0));
      ghost var code := ArgsCode(Gets(args), idEnv, cx).value;
      Joined(old(out), [get], [Do(Call("closure_env", 1))]);
      Joined(old(out), [get] + [Do(Call("closure_env", 1))], code);
      ghost var before := out;
      ok := GetId(f);
      Emit(Call("closure_func", 1));
      Emit(CallIndirect(sig, |args| + 1));
      Joined(before, [get], [Do(Call("closure_func", 1))]);
      Joined(before, [get] + [Do(Call("closure_func", 1))], [Do(CallIndirect(sig, |args| + 1))]);
      Joined(old(out), [get] + [Do(Call("closure_env", 1))] + code,
             [get] + [Do(Call("closure_func", 1))] + [Do(CallIndirect(sig, |args| + 1))]);
      assert [get] + [Do(Call("closure_env", 1))] == [get, Do(Call("closure_env", 1))];
      assert [get] + [Do(Call("closure_func", 1))] + [Do(CallIndirect(sig, |args| + 1))]
          == [get, Do(Call("closure_func", 1)), Do(CallIndirect(sig, |args| + 1))];
    }

    // Sets a local whose value is on the stack, and its slot in the shadow frame if it is a root.
    method SetVariable(index: nat, ty: Ty)
      modifies this`out
      ensures out == old(out) + Flatten(WriteCode(index, ty, cx.gc))
    {
      ghost var code := WriteCode(index, ty, cx.gc);
      if !cx.gc || !IsGcRoot(ty) {
        Emit(SetLocal(index));
      } else {
        Emit(TeeLocal(index));
        Emit(Const(index));
        Emit(SetSlot(ShadowFrameFn(ty)));
        Joined(old(out), [code[0]], [code[1]]);
        Joined(old(out), [code[0]] + [code[1]], [code[2]]);
        assert code == [code[0]] + [code[1]] + [code[2]];
      }
    }

    method TranslateRec(labels: Labels, s: Stmt) returns (ok: bool)
      modifies this
      ensures match StmtCode(s, labels, old(Where()), cx)
              case None => !ok
              case Some((code, sc)) => ok && out == old(out) + Flatten(code) && Where() == sc
      decreases s, 1
    {
      ok := true;
      match s {
        case Empty =>
        case Var(x, ty, e) => ok := TranslateVar(x, ty, e);
        case Expression(_) => ok := TranslateEffect(s);
        case Assign(_, _) => ok := TranslateEffect(s);
        case Store(_, _) => ok := TranslateEffect(s);
        case If(_, _, _) => ok := TranslateIf(labels, s);
        case Loop(body) =>
          out := out + [LoopStart];
          ghost var start := out;
          ok := TranslateRec([None] + labels, body);
          if !ok { return; }
          ghost var code := StmtCode(body, [None] + labels, old(Where()), cx).value.0;
          Emit(Br(0));
          Joined(start, code, [Do(Br(0))]);
          out := out + [End];
          BlockJoined(old(out), code + [Do(Br(0))]);
        case Label(l, body) =>
          out := out + [BlockStart];
          ok := TranslateRec([Some(l)] + labels, body);
          if !ok { return; }
          out := out + [End];
          BlockJoined(old(out), StmtCode(body, [Some(l)] + labels, old(Where()), cx).value.0);
        case Break(l) =>
          var i := FindLabel(labels, l);
          if i.None? { return false; }
          Emit(Br(i.value));
        case Return(a) => ok := TranslateReturn(a);
        case Block(ss) => ok := TranslateBlock(labels, ss);
        case Trap => Emit(Unreachable);
      }
    }

    method TranslateEffect(s: Stmt) returns (ok: bool)
      requires s.Expression? || s.Assign? || s.Store?
      modifies this`out
      ensures match StmtCode(s, [], old(Where()), cx)
              case None => !ok
              case Some((code, sc)) => ok && out == old(out) + Flatten(code)
    {
      if !s.Expression? && s.x !in idEnv { return false; }
      ghost var get: seq<Node> := [];
      if s.Store? {
        if idEnv[s.x].1 != Ref { return false; }
        get := [Do(GetLocal(idEnv[s.x].0))];
        Emit(GetLocal(idEnv[s.x].0));
      }
      ok := TranslateExpr(s.e);
      if !ok { return; }
      ghost var code := ExprCode(s.e, idEnv, cx).value;
      Joined(old(out), get, code);
      match s {
        case Expression(_) =>
          Emit(DropTop);
          Joined(old(out), code, [Do(DropTop)]);
        case Assign(x, _) =>
          SetVariable(idEnv[x].0, idEnv[x].1);
          Joined(old(out), code, WriteCode(idEnv[x].0, idEnv[x].1, cx.gc));
        case Store(_, _) =>
          Emit(StoreTop);
          Joined(old(out), get + code, [Do(StoreTop)]);
      }
    }

    method TranslateVar(x: Id, ty: Ty, e: Expr) returns (ok: bool)
      modifies this
      ensures match StmtCode(Var(x, ty, e), [], old(Where()), cx)
              case None => !ok
              case Some((code, sc)) => ok && out == old(out) + Flatten(code) && Where() == sc
    {
      var isInit := ty != Any && e == Simple(Undefined);
      ok := true;
      if !isInit {
        ok := TranslateExpr(e);
        if !ok { return; }
      }
      var index := nextId;
      nextId := nextId + 1;
      locals := locals + [ty];
      idEnv := idEnv[x := (index, ty)];
      if !isInit {
        SetVariable(index, ty);
        Joined(old(out), ExprCode(e, old(idEnv), cx).value, WriteCode(index, ty, cx.gc));
      }
    }

    method TranslateIf(labels: Labels, s: Stmt) returns (ok: bool)
      requires s.If?
      modifies this
      ensures match StmtCode(s, labels, old(Where()), cx)
              case None => !ok
              case Some((code, sc)) => ok && out == old(out) + Flatten(code) && Where() == sc
      decreases s, 0
    {
      ok := TranslateAtom(s.cond);
      if !ok { return; }
      ghost var before := out;
      out := out + [IfStart];
      ok := TranslateRec([None] + labels, s.conseq);
      if !ok { return; }
      ghost var sc1 := Where();
      out := out + [Else];
      ok := TranslateRec([None] + labels, s.alt);
      if !ok { return; }
      out := out + [End];
      ghost var thn := StmtCode(s.conseq, [None] + labels, old(Where()), cx).value.0;
      ghost var els := StmtCode(s.alt, [None] + labels, sc1, cx).value.0;
      IfJoined(before, thn, els);
      Joined(old(out), AtomCode(s.cond, old(idEnv), cx).value, [IfOf(thn, els)]);
    }

    method TranslateReturn(a: Atom) returns (ok: bool)
      modifies this`out
      ensures match StmtCode(Return(a), [], old(Where()), cx)
              case None => !ok
              case Some((code, sc)) => ok && out == old(out) + Flatten(code)
    {
      ghost var leave: seq<Node> := if cx.gc then [Do(GcExitFn)] else [];
      if cx.gc { Emit(GcExitFn); }
      assert out == old(out) + Flatten(leave);
      ok := TranslateAtom(a);
      if !ok { return; }
      Emit(ReturnTop);
      ReturnJoined(old(out), leave, AtomCode(a, idEnv, cx).value);
    }

    method TranslateBlock(labels: Labels, ss: seq<Stmt>) returns (ok: bool)
      modifies this
      ensures match SeqCode(ss, labels, old(Where()), cx)
              case None => !ok
              case Some((code, sc)) => ok && out == old(out) + Flatten(code) && Where() == sc
      decreases ss, 0
    {
      ghost var done: seq<Node> := [];
      var i := 0;
      assert ss[0..] == ss;
      PrependNothing(SeqCode(ss, labels, Where(), cx));
      while i < |ss|
        invariant 0 <= i <= |ss| && out == old(out) + Flatten(done)
        invariant SeqCode(ss, labels, old(Where()), cx) == Prepend(done, SeqCode(ss[i..], labels, Where(), cx))
      {
        assert ss[i..][0] == ss[i] && ss[i..][1..] == ss[i + 1..];
        ghost var sc := Where();
        ok := TranslateRec(labels, ss[i]);
        if !ok { return; }
        ghost var code := StmtCode(ss[i], labels, sc, cx).value.0;
        Joined(old(out), done, code);
        PrependMore(done, code, SeqCode(ss[i + 1..], labels, Where(), cx));
        assert SeqCode(ss[i..], labels, sc, cx) == Prepend(code, SeqCode(ss[i + 1..], labels, Where(), cx));
        done := done + code;
        i := i + 1;
      }
      assert done + [] == done;
      ok := true;
    }
  }

  lemma PrependMore(done: seq<Node>, more: seq<Node>, r: Option<(seq<Node>, Scope)>)
    ensures Prepend(done, Prepend(more, r)) == Prepend(done + more, r)
  {
    if r.Some? { assert done + (more + r.value.0) == (done + more) + r.value.0; }
  }

  lemma {:induction false} PrefixFails(args: seq<Atom>, n: nat, ids: map<Id, (nat, Ty)>, cx: Context)
    requires n <= |args| && ArgsCode(args[..n], ids, cx) == None
    ensures ArgsCode(args, ids, cx) == None
    decreases |args|
  {
    if n < |args| {
      var front := args[..|args| - 1];
      assert front[..n] == args[..n];
      PrefixFails(front, n, ids, cx);
    } else {
      assert args[..n] == args;
    }
  }

  // Scans the labels from the innermost one out.
  method FindLabel(labels: Labels, l: Id) returns (r: Option<nat>)
    ensures r == IndexOf(labels, l)
  {
    var i: nat := 0;
    while i < |labels|
      invariant 0 <= i <= |labels|
      invariant forall j :: 0 <= j < i ==> labels[j] != Some(l)
    {
      if labels[i] == Some(l) {
        assert labels[i] in labels;
        return Some(i);
      }
      i := i + 1;
    }
    r := None;
  }

  // A whole function: its instructions up to the final End, and the types of its extra locals.
  method TranslateFunc(f: Function, cx: Context) returns (r: Option<(seq<Instr>, seq<Ty>)>)
    ensures r == FuncInstrs(f, cx)
  {
    var t := new Translate(cx, f.params);
    var ok := t.TranslateRec([], f.body);
    if !ok { return None; }
    ghost var body := StmtCode(f.body, [], ParamScope(f.params), cx).value.0;
    assert t.out == Flatten(body);
    var insts: seq<Instr> := [];
    if cx.gc {
      var numSlots := |t.locals| + |f.params|;
      insts := [Plain(Const(numSlots)), Plain(GcEnterFn)];
      t.Emit(GcExitFn);
      Framed(numSlots, body, t.out);
    }
    r := Some((insts + t.out + [End], t.locals));
  }

  function FuncInstrs(f: Function, cx: Context): Option<(seq<Instr>, seq<Ty>)> {
    match FunctionCode(f, cx)
    case None => None
    case Some((code, sc)) => Some((Flatten(code) + [End], sc.locals))
  }

  // What the translator knows: the signatures of the runtime's functions and of the program's own.
  ghost function ContextOf(gc: bool, globals: Globals, funs: seq<Function>, imported: set<Sig>): (cx: Context)
    ensures cx.gc == gc && cx.globals == globals
    ensures forall sig :: sig in cx.sigs <==> sig in imported || exists f <- funs :: SigOf(FnTypeOf(f)) == sig
  {
    Context(gc, globals, imported + set f <- funs :: SigOf(FnTypeOf(f)))
  }

  // All functions of a program, or None for a panic in one of them.
  method TranslateProgram(gc: bool, globals: Globals, funs: seq<Function>, imported: set<Sig>)
    returns (r: Option<seq<(seq<Instr>, seq<Ty>)>>)
    ensures r.None? <==> exists f <- funs :: FuncInstrs(f, ContextOf(gc, globals, funs, imported)) == None
    ensures r.Some? ==> |r.value| == |funs|
    ensures r.Some? ==> forall i :: 0 <= i < |funs| ==> FuncInstrs(funs[i], ContextOf(gc, globals, funs, imported)) == Some(r.value[i])
  {
    var sigs := imported;
    for i := 0 to |funs|
      invariant sigs == imported + set f <- funs[..i] :: SigOf(FnTypeOf(f))
    {
      sigs := sigs + {SigOf(FnTypeOf(funs[i]))};
    }
    assert funs[..|funs|] == funs;
    var cx := Context(gc, globals, sigs);
    var done := [];
    for i := 0 to |funs|
      invariant |done| == i && forall j :: 0 <= j < i ==> FuncInstrs(funs[j], cx) == Some(done[j])
    {
      var f := TranslateFunc(funs[i], cx);
      if f.None? { return None; }
      done := done + [f.value];
    }
    r := Some(done);
  }

  lemma Framed(slots: nat, body: seq<Node>, out: seq<Instr>)
    requires out == Flatten(body) + Flatten([Do(GcExitFn)])
    ensures [Plain(Const(slots)), Plain(GcEnterFn)] + out == Flatten([Do(Const(slots)), Do(GcEnterFn)] + body + [Do(GcExitFn)])
  {
    var enter := [Do(Const(slots)), Do(GcEnterFn)];
    assert enter[1..] == [Do(GcEnterFn)];
    FlattenOne(Do(GcEnterFn));
    assert Flatten(enter) == [Plain(Const(slots)), Plain(GcEnterFn)];
    FlattenConcat(enter, body);
    FlattenConcat(enter + body, [Do(GcExitFn)]);
  }
}

// Function bodies that may fall off their end get a `return undefined`.

module InsertReturns {
  import opened Common
  import opened Ids
  import JS = JavaScript

  // JankyScript statements; expressions are what they do to the store.
  datatype Stmt<!W> =
    | Empty
    | Var(x: Id, e: JS.Expr<W>)
    | Expr(e: JS.Expr<W>)
    | Block(stmts: seq<Stmt<W>>)
    | If(e: JS.Expr<W>, thn: Stmt<W>, els: Stmt<W>)
    | Loop(body: Stmt<W>)
    | Label(l: Id, body: Stmt<W>)
    | Break(l: Id)
    | Catch(body: Stmt<W>, x: Id, handler: Stmt<W>)
    | Finally(body: Stmt<W>, fin: Stmt<W>)
    | Throw(e: JS.Expr<W>)
    | Return(e: JS.Expr<W>)

  datatype Completion = Normal | Breaks(l: Id) | Returns(v: JS.Val) | Throws(v: JS.Val)

  datatype Result<W> = OutOfFuel | Done(c: Completion, st: JS.Store<W>)

  function Bind<W>(st: JS.Store<W>, x: Id, v: JS.Val): JS.Store<W> {
    st.(temps := st.temps[x := v])
  }

  // Sections 12 and 12.14 of ECMA-262 5.1, for these statements.
  function Exec<W>(s: Stmt<W>, st: JS.Store<W>, fuel: nat): Result<W>
    decreases fuel, s, 1
  {
    match s
    case Empty => Done(Normal, st)
    case Var(x, e) =>
      (match JS.Eval(e, st)
       case Thrown(v, st1) => Done(Throws(v), st1)
       case Ok(v, st1) => Done(Normal, Bind(st1, x, v)))
    case Expr(e) =>
      (match JS.Eval(e, st)
       case Thrown(v, st1) => Done(Throws(v), st1)
       case Ok(_, st1) => Done(Normal, st1))
    case Block(ss) => ExecSeq(ss, st, fuel)
    case If(e, thn, els) =>
      (match JS.Eval(e, st)
       case Thrown(v, st1) => Done(Throws(v), st1)
       case Ok(v, st1) => if JS.Truthy(v) then Exec(thn, st1, fuel) else Exec(els, st1, fuel))
    case Loop(body) => ExecLoop(body, st, fuel)
    case Label(l, body) =>
      var r := Exec(body, st, fuel);
      if r.Done? && r.c == Breaks(l) then Done(Normal, r.st) else r
    case Break(l) => Done(Breaks(l), st)
    case Catch(body, x, handler) =>
      var r := Exec(body, st, fuel);
      if r.Done? && r.c.Throws? then Exec(handler, Bind(r.st, x, r.c.v), fuel) else r
    case Finally(body, fin) =>
      var r := Exec(body, st, fuel);
      if r.OutOfFuel? then r else
      var r1 := Exec(fin, r.st, fuel);
      if r1.Done? && r1.c == Normal then Done(r.c, r1.st) else r1
    case Throw(e) =>
      (match JS.Eval(e, st)
       case Thrown(v, st1) => Done(Throws(v), st1)
       case Ok(v, st1) => Done(Throws(v), st1))
    case Return(e) =>
      (match JS.Eval(e, st)
       case Thrown(v, st1) => Done(Throws(v), st1)
       case Ok(v, st1) => Done(Returns(v), st1))
  }

  function ExecLoop<W>(body: Stmt<W>, st: JS.Store<W>, fuel: nat): Result<W>
    decreases fuel, body, 2
  {
    if fuel == 0 then OutOfFuel else
    var r := Exec(body, st, fuel);
    if r.Done? && r.c == Normal then ExecLoop(body, r.st, fuel - 1) else r
  }

  function ExecSeq<W>(ss: seq<Stmt<W>>, st: JS.Store<W>, fuel: nat): Result<W>
    decreases fuel, ss, 0
  {
    if ss == [] then Done(Normal, st) else
    var r := Exec(ss[0], st, fuel);
    if r.Done? && r.c == Normal then ExecSeq(ss[1..], r.st, fuel) else r
  }

  // Is the statement sure to return or throw?  `None` stands for a failed assertion: the body of a
  // finally must not be sure to.
  function SureToReturn<W>(s: Stmt<W>): Option<bool>
    decreases s, 1
  {
    match s
    case Block(ss) => AnySure(ss)
    case If(_, thn, els) =>
      var a := SureToReturn(thn);
      if a == Some(true) then SureToReturn(els) else a
    case Finally(body, fin) =>
      var a := SureToReturn(body);
      if a == Some(false) then SureToReturn(fin) else None
    case Throw(_) => Some(true)
    case Return(_) => Some(true)
    case _ => Some(false)
  }

  function AnySure<W>(ss: seq<Stmt<W>>): Option<bool>
    decreases ss, 0
  {
    if ss == [] then Some(false) else
    var a := SureToReturn(ss[0]);
    if a == Some(false) then AnySure(ss[1..]) else a
  }

  // Such a statement never completes normally, whatever the store.
  lemma {:induction false} SureNeverFallsThrough<W>(s: Stmt<W>, st: JS.Store<W>, fuel: nat)
    requires SureToReturn(s) == Some(true)
    ensures var r := Exec(s, st, fuel); r.Done? ==> r.c != Normal
    decreases fuel, s, 1
  {
    match s
    case Block(ss) => AnySureNeverFallsThrough(ss, st, fuel);
    case If(e, thn, els) =>
      var r := JS.Eval(e, st);
      SureNeverFallsThrough(thn, r.st, fuel);
      SureNeverFallsThrough(els, r.st, fuel);
    case Finally(body, fin) =>
      var r := Exec(body, st, fuel);
      if r.Done? { SureNeverFallsThrough(fin, r.st, fuel); }
    case _ =>
  }

  lemma {:induction false} AnySureNeverFallsThrough<W>(ss: seq<Stmt<W>>, st: JS.Store<W>, fuel: nat)
    requires AnySure(ss) == Some(true)
    ensures var r := ExecSeq(ss, st, fuel); r.Done? ==> r.c != Normal
    decreases fuel, ss, 0
  {
    var r := Exec(ss[0], st, fuel);
    if SureToReturn(ss[0]) == Some(true) {
      SureNeverFallsThrough(ss[0], st, fuel);
    } else if r.Done? {
      AnySureNeverFallsThrough(ss[1..], r.st, fuel);
    }
  }

  // ----- The pass -----

  function ReturnUndefined<W>(): Stmt<W> {
    Return(JS.Lit(JS.Undefined))
  }

  // `None` stands for a panic: a failed assertion, or a body that is no block.
  function ExitFn<W>(body: Stmt<W>): Option<Stmt<W>> {
    match SureToReturn(body)
    case None => None
    case Some(true) => Some(body)
    case Some(false) => if body.Block? then Some(Block(body.stmts + [ReturnUndefined()])) else None
  }

  // A second time the pass finds nothing to do.
  lemma ExitTwice<W>(body: Stmt<W>)
    requires ExitFn(body).Some?
    ensures SureToReturn(ExitFn(body).value) == Some(true) && ExitFn(ExitFn(body).value) == ExitFn(body)
  {
    if SureToReturn(body) == Some(false) { SureAtTheEnd(body.stmts); }
  }

  lemma {:induction false} SureAtTheEnd<W>(ss: seq<Stmt<W>>)
    requires AnySure(ss) == Some(false)
    ensures AnySure(ss + [ReturnUndefined()]) == Some(true)
  {
    var r := [ReturnUndefined<W>()];
    if ss == [] {
      assert ss + r == r;
    } else {
      SureAtTheEnd(ss[1..]);
      assert (ss + r)[0] == ss[0] && (ss + r)[1..] == ss[1..] + r;
    }
  }

  class Func<W> {
    var body: Stmt<W>

    constructor (body: Stmt<W>)
      ensures this.body == body
    {
      this.body := body;
    }

    method Exit() returns (ok: bool)
      modifies this
      ensures match ExitFn(old(body)) case None => !ok && body == old(body) case Some(b) => ok && body == b
    {
      match SureToReturn(body) {
        case None => ok := false;
        case Some(true) => ok := true;
        case Some(false) =>
          if !body.Block? { return false; }
          body := Block(body.stmts + [ReturnUndefined()]);
          ok := true;
      }
    }
  }

  // What a call makes of its body's completion: falling off the end returns undefined.
  function CallResult<W>(r: Result<W>): Result<W> {
    if r.Done? && r.c == Normal then Done(Returns(JS.Undefined), r.st) else r
  }

  lemma {:induction false} ExecAppended<W>(ss: seq<Stmt<W>>, last: Stmt<W>, st: JS.Store<W>, fuel: nat)
    ensures ExecSeq(ss + [last], st, fuel) ==
            var r := ExecSeq(ss, st, fuel);
            if r.Done? && r.c == Normal then Exec(last, r.st, fuel) else r
    decreases |ss|
  {
    if ss == [] {
      assert [] + [last] == [last];
      var r := Exec(last, st, fuel);
      if r.Done? { assert ExecSeq([last][1..], r.st, fuel) == Done(Normal, r.st); }
    } else {
      assert (ss + [last])[1..] == ss[1..] + [last];
      var r := Exec(ss[0], st, fuel);
      if r.Done? { ExecAppended(ss[1..], last, r.st, fuel); }
    }
  }

  // Every break names a label around it.
  predicate BreaksScoped<W>(s: Stmt<W>, labels: set<Id>) {
    match s
    case Block(ss) => forall i :: 0 <= i < |ss| ==> BreaksScoped(ss[i], labels)
    case If(_, thn, els) => BreaksScoped(thn, labels) && BreaksScoped(els, labels)
    case Loop(body) => BreaksScoped(body, labels)
    case Label(l, body) => BreaksScoped(body, labels + {l})
    case Break(l) => l in labels
    case Catch(body, _, handler) => BreaksScoped(body, labels) && BreaksScoped(handler, labels)
    case Finally(body, fin) => BreaksScoped(body, labels) && BreaksScoped(fin, labels)
    case _ => true
  }

  lemma {:induction false} BreaksStayInside<W>(s: Stmt<W>, labels: set<Id>, st: JS.Store<W>, fuel: nat)
    requires BreaksScoped(s, labels)
    ensures var r := Exec(s, st, fuel); r.Done? && r.c.Breaks? ==> r.c.l in labels
    decreases fuel, s, 1
  {
    match s
    case Block(ss) => BreaksStayInsideSeq(ss, labels, st, fuel);
    case If(e, thn, els) =>
      var r := JS.Eval(e, st);
      BreaksStayInside(thn, labels, r.st, fuel);
      BreaksStayInside(els, labels, r.st, fuel);
    case Loop(body) => BreaksStayInsideLoop(body, labels, st, fuel);
    case Label(l, body) => BreaksStayInside(body, labels + {l}, st, fuel);
    case Catch(body, x, handler) =>
      BreaksStayInside(body, labels, st, fuel);
      var r := Exec(body, st, fuel);
      if r.Done? && r.c.Throws? { BreaksStayInside(handler, labels, Bind(r.st, x, r.c.v), fuel); }
    case Finally(body, fin) =>
      BreaksStayInside(body, labels, st, fuel);
      var r := Exec(body, st, fuel);
      if r.Done? { BreaksStayInside(fin, labels, r.st, fuel); }
    case _ =>
  }

  lemma {:induction false} BreaksStayInsideSeq<W>(ss: seq<Stmt<W>>, labels: set<Id>, st: JS.Store<W>, fuel: nat)
    requires forall i :: 0 <= i < |ss| ==> BreaksScoped(ss[i], labels)
    ensures var r := ExecSeq(ss, st, fuel); r.Done? && r.c.Breaks? ==> r.c.l in labels
    decreases fuel, ss, 0
  {
    if ss != [] {
      BreaksStayInside(ss[0], labels, st, fuel);
      var r := Exec(ss[0], st, fuel);
      if r.Done? { BreaksStayInsideSeq(ss[1..], labels, r.st, fuel); }
    }
  }

  lemma {:induction false} BreaksStayInsideLoop<W>(body: Stmt<W>, labels: set<Id>, st: JS.Store<W>, fuel: nat)
    requires BreaksScoped(body, labels)
    ensures var r := ExecLoop(body, st, fuel); r.Done? && r.c.Breaks? ==> r.c.l in labels
    decreases fuel, body, 2
  {
    if fuel > 0 {
      BreaksStayInside(body, labels, st, fuel);
      var r := Exec(body, st, fuel);
      if r.Done? { BreaksStayInsideLoop(body, labels, r.st, fuel - 1); }
    }
  }

  // After the pass no function falls off its end, and every call still gives what it gave.
  lemma PassMakesReturnsExplicit<W>(body: Stmt<W>, st: JS.Store<W>, fuel: nat)
    requires ExitFn(body).Some? && BreaksScoped(body, {})
    ensures Exec(ExitFn(body).value, st, fuel) == CallResult(Exec(body, st, fuel))
    ensures var r := Exec(ExitFn(body).value, st, fuel); r.Done? ==> r.c.Returns? || r.c.Throws?
  {
    BreaksStayInside(body, {}, st, fuel);
    if SureToReturn(body) == Some(true) {
      SureNeverFallsThrough(body, st, fuel);
    } else {
      ExecAppended(body.stmts, ReturnUndefined(), st, fuel);
      var r := Exec(body, st, fuel);
      if r.Done? { assert Exec<W>(ReturnUndefined(), r.st, fuel) == Done(Returns(JS.Undefined), r.st); }
    }
  }
}

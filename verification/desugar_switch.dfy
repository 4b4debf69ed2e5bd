// A switch becomes a labelled block of fall-through tests.

// Where the visitor is: the chain of enclosing contexts, innermost first.
module Walk {
  datatype Context = InBlock | InSwitch | InLoop | InStmt | InFunctionBody

  datatype Loc = Top | Node(context: Context, rest: Loc)

  // Would an unlabelled `break` here leave a switch?
  predicate InSwitchBlock(loc: Loc) {
    match loc
    case Top => false
    case Node(InSwitch, _) => true
    case Node(InLoop, _) => false
    case Node(InFunctionBody, _) => false
    case Node(_, rest) => InSwitchBlock(rest)
  }
}

module DesugarSwitch {
  import opened Common
  import opened Ids
  import opened JavaScript
  import opened Walk

  function False<W>(): Expr<W> {
    Lit(Bool(false))
  }

  function CaseToIf<W>(test: Id, fallthrough: Id, c: Case<W>): Stmt<W> {
    If(LogicalOr(StrictEqual(Temp(test), c.test), Temp(fallthrough)),
       Block([c.body, ExprStmt(AssignTemp(fallthrough, True()))]),
       Empty)
  }

  function CasesToIfs<W>(test: Id, fallthrough: Id, cases: seq<Case<W>>): (ifs: seq<Stmt<W>>)
    ensures |ifs| == |cases|
    ensures forall i | 0 <= i < |cases| :: ifs[i] == CaseToIf(test, fallthrough, cases[i])
  {
    if cases == [] then [] else [CaseToIf(test, fallthrough, cases[0])] + CasesToIfs(test, fallthrough, cases[1..])
  }

  function SwitchToBlock<W>(name: Id, test: Id, fallthrough: Id, subject: Expr<W>, cases: seq<Case<W>>, default: seq<Stmt<W>>): Stmt<W> {
    Label(name, Block([VarDecl([Decl(fallthrough, False())]), VarDecl([Decl(test, subject)])]
                      + CasesToIfs(test, fallthrough, cases) + default))
  }

  // The statements a default clause contributes; any other clause makes the pass panic.
  function DefaultStmts<W>(default: Stmt<W>): Option<seq<Stmt<W>>> {
    match default
    case Block(ss) => Some(ss)
    case Empty => Some([])
    case _ => None
  }

  // `stack` holds the labels of the enclosing switches, innermost last; the result carries the
  // generator's table afterwards, and `None` stands for a panic.
  function SwitchToIf<W>(s: Stmt<W>, loc: Loc, stack: seq<Id>, names: Names): Option<(Stmt<W>, Names)>
    decreases s, 0
  {
    match s
    case Break(None) =>
      if !InSwitchBlock(loc) then Some((s, names)) else
      if stack == [] then None else Some((Break(Some(stack[|stack| - 1])), names))
    case Block(ss) =>
      (match SwitchToIfSeq(ss, Node(InBlock, loc), stack, names)
       case None => None
       case Some((ts, n1)) => Some((Block(ts), n1)))
    case If(e, thn, els) =>
      (match SwitchToIf(thn, Node(InStmt, loc), stack, names)
       case None => None
       case Some((thn1, n1)) =>
         match SwitchToIf(els, Node(InStmt, loc), stack, n1)
         case None => None
         case Some((els1, n2)) => Some((If(e, thn1, els1), n2)))
    case Label(l, body) =>
      (match SwitchToIf(body, Node(InStmt, loc), stack, names)
       case None => None
       case Some((body1, n1)) => Some((Label(l, body1), n1)))
    case While(e, body) =>
      (match SwitchToIf(body, Node(InLoop, loc), stack, names)
       case None => None
       case Some((body1, n1)) => Some((While(e, body1), n1)))
    case DoWhile(body, e) =>
      (match SwitchToIf(body, Node(InLoop, loc), stack, names)
       case None => None
       case Some((body1, n1)) => Some((DoWhile(body1, e), n1)))
    case For(init, e, adv, body) =>
      (match SwitchToIf(body, Node(InLoop, loc), stack, names)
       case None => None
       case Some((body1, n1)) => Some((For(init, e, adv, body1), n1)))
    case Switch(e, cases, default) =>
      var name := FreshId(names, "sw");
      (match SwitchToIfCases(cases, Node(InSwitch, loc), stack + [name], AfterFresh(names, "sw"))
       case None => None
       case Some((cases1, n1)) =>
         match SwitchToIf(default, Node(InSwitch, loc), stack + [name], n1)
         case None => None
         case Some((default1, n2)) => ExitSwitch(name, e, cases1, default1, n2))
    case _ => Some((s, names))
  }

  function ExitSwitch<W>(name: Id, e: Expr<W>, cases: seq<Case<W>>, default: Stmt<W>, names: Names): Option<(Stmt<W>, Names)> {
    match DefaultStmts(default)
    case None => None
    case Some(ss) =>
      var test := FreshId(names, "test");
      var n1 := AfterFresh(names, "test");
      var fallthrough := FreshId(n1, "fallthrough");
      Some((SwitchToBlock(name, test, fallthrough, e, cases, ss), AfterFresh(n1, "fallthrough")))
  }

  function SwitchToIfSeq<W>(ss: seq<Stmt<W>>, loc: Loc, stack: seq<Id>, names: Names): Option<(seq<Stmt<W>>, Names)>
    decreases ss, 0
  {
    if ss == [] then Some(([], names)) else
    match SwitchToIf(ss[0], loc, stack, names)
    case None => None
    case Some((t, n1)) =>
      match SwitchToIfSeq(ss[1..], loc, stack, n1)
      case None => None
      case Some((ts, n2)) => Some(([t] + ts, n2))
  }

  function SwitchToIfCases<W>(cases: seq<Case<W>>, loc: Loc, stack: seq<Id>, names: Names): (r: Option<(seq<Case<W>>, Names)>)
    ensures r.Some? ==> |r.value.0| == |cases|
    ensures r.Some? ==> forall i | 0 <= i < |cases| :: r.value.0[i].test == cases[i].test
    decreases cases, 0
  {
    if cases == [] then Some(([], names)) else
    assert cases[0].body < cases[0];
    match SwitchToIf(cases[0].body, loc, stack, names)
    case None => None
    case Some((t, n1)) =>
      match SwitchToIfCases(cases[1..], loc, stack, n1)
      case None => None
      case Some((ts, n2)) => Some(([Case(cases[0].test, t)] + ts, n2))
  }

  lemma CaseBodySmaller<W>(cases: seq<Case<W>>, i: nat)
    requires i < |cases|
    ensures cases[i].body < cases[i]
  {
  }

  lemma CasesFrom<W>(cases: seq<Case<W>>, i: nat, loc: Loc, stack: seq<Id>, names: Names)
    requires i < |cases|
    ensures SwitchToIfCases(cases[i..], loc, stack, names) ==
            match SwitchToIf(cases[i].body, loc, stack, names)
            case None => None
            case Some((t, n1)) => Prepend([Case(cases[i].test, t)], SwitchToIfCases(cases[i + 1..], loc, stack, n1))
  {
    assert cases[i..][0] == cases[i] && cases[i..][1..] == cases[i + 1..];
  }

  class SwitchVisitor {
    const ng: NameGen
    var nameStack: seq<Id>

    constructor (ng: NameGen)
      ensures this.ng == ng && nameStack == []
    {
      this.ng := ng;
      nameStack := [];
    }

    method WalkStmt<W>(s: Stmt<W>, loc: Loc) returns (r: Option<Stmt<W>>)
      modifies this, ng
      ensures match SwitchToIf(s, loc, old(nameStack), old(ng.nextName))
              case None => r == None
              case Some((t, n1)) => r == Some(t) && ng.nextName == n1 && nameStack == old(nameStack)
      decreases s, 0
    {
      match s {
        case Break(None) =>
          if !InSwitchBlock(loc) {
            r := Some(s);
          } else if nameStack == [] {
            r := None;
          } else {
            r := Some(Break(Some(nameStack[|nameStack| - 1])));
          }
        case Block(ss) =>
          var ts := WalkSeq(ss, Node(InBlock, loc));
          r := if ts.None? then None else Some(Block(ts.value));
        case If(e, thn, els) =>
          var a := WalkStmt(thn, Node(InStmt, loc));
          if a.None? { return None; }
          var b := WalkStmt(els, Node(InStmt, loc));
          r := if b.None? then None else Some(If(e, a.value, b.value));
        case Label(l, body) =>
          var b := WalkStmt(body, Node(InStmt, loc));
          r := if b.None? then None else Some(Label(l, b.value));
        case While(e, body) =>
          var b := WalkStmt(body, Node(InLoop, loc));
          r := if b.None? then None else Some(While(e, b.value));
        case DoWhile(body, e) =>
          var b := WalkStmt(body, Node(InLoop, loc));
          r := if b.None? then None else Some(DoWhile(b.value, e));
        case For(init, e, adv, body) =>
          var b := WalkStmt(body, Node(InLoop, loc));
          r := if b.None? then None else Some(For(init, e, adv, b.value));
        case Switch(_, _, _) =>
          r := WalkSwitch(s, loc);
        case _ =>
          r := Some(s);
      }
    }

    // Enter, children and exit of a switch.
    method WalkSwitch<W>(s: Stmt<W>, loc: Loc) returns (r: Option<Stmt<W>>)
      requires s.Switch?
      modifies this, ng
      ensures match SwitchToIf(s, loc, old(nameStack), old(ng.nextName))
              case None => r == None
              case Some((t, n1)) => r == Some(t) && ng.nextName == n1 && nameStack == old(nameStack)
      decreases s, -1
    {
      var swName := ng.Fresh("sw");
      nameStack := nameStack + [swName];
      var cases := WalkCases(s.cases, Node(InSwitch, loc));
      if cases.None? { return None; }
      var default := WalkStmt(s.default, Node(InSwitch, loc));
      if default.None? { return None; }
      var name := nameStack[|nameStack| - 1];
      nameStack := nameStack[..|nameStack| - 1];
      var dv := DefaultStmts(default.value);
      if dv.None? { return None; }
      var test := ng.Fresh("test");
      var fallthrough := ng.Fresh("fallthrough");
      var block := BuildBlock(name, test, fallthrough, s.subject, cases.value, dv.value);
      r := Some(block);
    }

    method BuildBlock<W>(name: Id, test: Id, fallthrough: Id, subject: Expr<W>, cases: seq<Case<W>>, default: seq<Stmt<W>>)
      returns (r: Stmt<W>)
      ensures r == SwitchToBlock(name, test, fallthrough, subject, cases, default)
    {
      var head: seq<Stmt<W>> := [VarDecl([Decl(fallthrough, False())]), VarDecl([Decl(test, subject)])];
      var v := head;
      var i := 0;
      while i < |cases|
        invariant 0 <= i <= |cases|
        invariant v == head + CasesToIfs(test, fallthrough, cases)[..i]
      {
        v := v + [CaseToIf(test, fallthrough, cases[i])];
        i := i + 1;
      }
      assert CasesToIfs(test, fallthrough, cases)[..i] == CasesToIfs(test, fallthrough, cases);
      r := Label(name, Block(v + default));
    }

    method WalkSeq<W>(ss: seq<Stmt<W>>, loc: Loc) returns (r: Option<seq<Stmt<W>>>)
      modifies this, ng
      ensures match SwitchToIfSeq(ss, loc, old(nameStack), old(ng.nextName))
              case None => r == None
              case Some((ts, n1)) => r == Some(ts) && ng.nextName == n1 && nameStack == old(nameStack)
      decreases ss, 0
    {
      var ts: seq<Stmt<W>> := [];
      var i := 0;
      assert ss[0..] == ss;
      PrependNothing(SwitchToIfSeq(ss, loc, nameStack, ng.nextName));
      while i < |ss|
        invariant 0 <= i <= |ss| && nameStack == old(nameStack)
        invariant SwitchToIfSeq(ss, loc, old(nameStack), old(ng.nextName)) ==
                  Prepend(ts, SwitchToIfSeq(ss[i..], loc, nameStack, ng.nextName))
      {
        assert ss[i..][0] == ss[i] && ss[i..][1..] == ss[i + 1..];
        var t := WalkStmt(ss[i], loc);
        if t.None? { return None; }
        PrependOne(ts, t.value, SwitchToIfSeq(ss[i + 1..], loc, nameStack, ng.nextName));
        ts := ts + [t.value];
        i := i + 1;
      }
      assert ts + [] == ts;
      r := Some(ts);
    }

    method WalkCases<W>(cases: seq<Case<W>>, loc: Loc) returns (r: Option<seq<Case<W>>>)
      modifies this, ng
      ensures match SwitchToIfCases(cases, loc, old(nameStack), old(ng.nextName))
              case None => r == None
              case Some((ts, n1)) => r == Some(ts) && ng.nextName == n1 && nameStack == old(nameStack)
      decreases cases, 0
    {
      var ts: seq<Case<W>> := [];
      var i := 0;
      assert cases[0..] == cases;
      PrependNothing(SwitchToIfCases(cases, loc, nameStack, ng.nextName));
      while i < |cases|
        invariant 0 <= i <= |cases| && nameStack == old(nameStack)
        invariant SwitchToIfCases(cases, loc, old(nameStack), old(ng.nextName)) ==
                  Prepend(ts, SwitchToIfCases(cases[i..], loc, nameStack, ng.nextName))
      {
        CasesFrom(cases, i, loc, nameStack, ng.nextName);
        CaseBodySmaller(cases, i);
        var t := WalkStmt(cases[i].body, loc);
        if t.None? { return None; }
        PrependOne(ts, Case(cases[i].test, t.value), SwitchToIfCases(cases[i + 1..], loc, nameStack, ng.nextName));
        ts := ts + [Case(cases[i].test, t.value)];
        i := i + 1;
      }
      assert ts + [] == ts;
      r := Some(ts);
    }
  }

  function Desugar<W>(program: Stmt<W>, names: Names): Option<(Stmt<W>, Names)> {
    SwitchToIf(program, Top, [], names)
  }

  method DesugarInPlace<W>(program: Stmt<W>, ng: NameGen) returns (r: Option<Stmt<W>>)
    modifies ng
    ensures match Desugar(program, old(ng.nextName))
            case None => r == None
            case Some((t, names)) => r == Some(t) && ng.nextName == names
  {
    var visitor := new SwitchVisitor(ng);
    r := visitor.WalkStmt(program, Top);
  }
}

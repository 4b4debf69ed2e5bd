// Loops become labelled `while (true)` loops: three passes over the statement tree.
//
// The passes run after the switch desugaring, so switches are left alone here and the theorems are
// about programs without them.  `None` stands for a pass that panics.

module DesugarLoops {
  import opened Common
  import opened Ids
  import opened JavaScript

  // ----- Pass 1: the loop test moves into the body as an explicit break -----

  function ExplicitBreaks<W>(s: Stmt<W>): Stmt<W>
    decreases s, 0
  {
    match s
    case Block(ss) => Block(ExplicitBreaksSeq(ss))
    case If(e, thn, els) => If(e, ExplicitBreaks(thn), ExplicitBreaks(els))
    case Label(l, body) => Label(l, ExplicitBreaks(body))
    case While(e, body) => While(True(), Block([If(e, ExplicitBreaks(body), Break(None))]))
    case For(init, e, adv, body) => For(init, True(), adv, Block([If(e, ExplicitBreaks(body), Break(None))]))
    case DoWhile(body, e) => While(True(), Block([ExplicitBreaks(body), If(e, Empty, Break(None))]))
    case _ => s
  }

  function ExplicitBreaksSeq<W>(ss: seq<Stmt<W>>): seq<Stmt<W>>
    decreases ss, 0
  {
    if ss == [] then [] else [ExplicitBreaks(ss[0])] + ExplicitBreaksSeq(ss[1..])
  }

  // ----- Pass 2: every loop and loop body gets a label, every jump an explicit target -----

  // The visitor's state: the break labels of the enclosing loops (innermost last), the label that
  // `continue` turns into for each of them, and the name generator.
  datatype Labelling = Labelling(breaks: seq<Id>, conts: map<Id, Id>, names: Names)

  function Last(breaks: seq<Id>): Id
    requires breaks != []
  {
    breaks[|breaks| - 1]
  }

  function LoopBody<W>(loop: Stmt<W>): Stmt<W>
    requires IsLoop(loop)
  {
    loop.body
  }

  function WithBody<W>(loop: Stmt<W>, body: Stmt<W>): Stmt<W>
    requires IsLoop(loop)
  {
    match loop
    case While(e, _) => While(e, body)
    case DoWhile(_, e) => DoWhile(body, e)
    case For(init, e, adv, _) => For(init, e, adv, body)
  }

  function EnterLoop(breakName: Id, st: Labelling): Labelling {
    Labelling(st.breaks + [breakName],
              st.conts[breakName := FreshId(st.names, "cont")],
              AfterFresh(st.names, "cont"))
  }

  function EnterBareLoop(st: Labelling): Labelling {
    EnterLoop(FreshId(st.names, "break"), st.(names := AfterFresh(st.names, "break")))
  }

  function LeaveLoop<W>(loop: Stmt<W>, st: Labelling): Option<(Stmt<W>, Labelling)>
    requires IsLoop(loop)
  {
    if st.breaks == [] || Last(st.breaks) !in st.conts then None else
    var b := Last(st.breaks);
    Some((Label(b, WithBody(loop, Label(st.conts[b], LoopBody(loop)))),
          Labelling(st.breaks[..|st.breaks| - 1], st.conts - {b}, st.names)))
  }

  function LabelLoops<W>(s: Stmt<W>, st: Labelling): Option<(Stmt<W>, Labelling)>
    decreases s, 0
  {
    match s
    case Block(ss) =>
      (match LabelLoopsSeq(ss, st)
       case None => None
       case Some((ts, st1)) => Some((Block(ts), st1)))
    case If(e, thn, els) =>
      (match LabelLoops(thn, st)
       case None => None
       case Some((thn1, st1)) =>
         match LabelLoops(els, st1)
         case None => None
         case Some((els1, st2)) => Some((If(e, thn1, els1), st2)))
    case Label(l, body) =>
      if IsLoop(body) then LabelLoop(body, EnterLoop(l, st)) else
      (match LabelLoops(body, st)
       case None => None
       case Some((body1, st1)) => Some((Label(l, body1), st1)))
    case While(_, _) => LabelLoop(s, EnterBareLoop(st))
    case DoWhile(_, _) => LabelLoop(s, EnterBareLoop(st))
    case For(_, _, _, _) => LabelLoop(s, EnterBareLoop(st))
    case Break(None) => if st.breaks == [] then None else Some((Break(Some(Last(st.breaks))), st))
    case Continue(None) =>
      if st.breaks == [] || Last(st.breaks) !in st.conts then None
      else Some((Break(Some(st.conts[Last(st.breaks)])), st))
    case Continue(Some(l)) => if l in st.conts then Some((Break(Some(st.conts[l])), st)) else None
    case _ => Some((s, st))
  }

  // A loop whose labels have just been entered.
  function LabelLoop<W>(loop: Stmt<W>, st: Labelling): Option<(Stmt<W>, Labelling)>
    requires IsLoop(loop)
    decreases loop.body, 1
  {
    match LabelLoops(LoopBody(loop), st)
    case None => None
    case Some((body1, st1)) => LeaveLoop(WithBody(loop, body1), st1)
  }

  function LabelLoopsSeq<W>(ss: seq<Stmt<W>>, st: Labelling): Option<(seq<Stmt<W>>, Labelling)>
    decreases ss, 0
  {
    if ss == [] then Some(([], st)) else
    match LabelLoops(ss[0], st)
    case None => None
    case Some((t, st1)) =>
      match LabelLoopsSeq(ss[1..], st1)
      case None => None
      case Some((ts, st2)) => Some(([t] + ts, st2))
  }

  // The visitor itself: enter, walk the children, exit, with its state updated in place.
  class LabelLoopsVisitor {
    const ng: NameGen
    var breaksStack: seq<Id>
    var breaksForConts: map<Id, Id>

    ghost function State(): Labelling
      reads this, ng
    {
      Labelling(breaksStack, breaksForConts, ng.nextName)
    }

    constructor (ng: NameGen)
      ensures this.ng == ng && breaksStack == [] && breaksForConts == map[]
    {
      this.ng := ng;
      breaksStack := [];
      breaksForConts := map[];
    }

    method LabelLoopState(breakName: Id)
      modifies this, ng
      ensures State() == EnterLoop(breakName, old(State()))
    {
      var contName := ng.Fresh("cont");
      breaksStack := breaksStack + [breakName];
      breaksForConts := breaksForConts[breakName := contName];
    }

    // Drops the label of a labelled loop; it is put back on the way out.
    method EnterStmt<W>(s: Stmt<W>) returns (node: Stmt<W>)
      modifies this, ng
      ensures node == if s.Label? && IsLoop(s.body) then s.body else s
      ensures State() == if s.Label? && IsLoop(s.body) then EnterLoop(s.name, old(State()))
                         else if IsLoop(s) then EnterBareLoop(old(State()))
                         else old(State())
    {
      node := s;
      if s.Label? {
        if IsLoop(s.body) {
          LabelLoopState(s.name);
          node := s.body;
        }
      } else if IsLoop(s) {
        var breakName := ng.Fresh("break");
        LabelLoopState(breakName);
      }
    }

    method ExitLoop<W>(loop: Stmt<W>) returns (r: Option<Stmt<W>>)
      requires IsLoop(loop)
      modifies this
      ensures match LeaveLoop(loop, old(State()))
              case None => r == None
              case Some((t, st)) => r == Some(t) && State() == st
    {
      if breaksStack == [] {
        return None;
      }
      var breakName := breaksStack[|breaksStack| - 1];
      breaksStack := breaksStack[..|breaksStack| - 1];
      if breakName !in breaksForConts {
        return None;
      }
      var contName := breaksForConts[breakName];
      breaksForConts := breaksForConts - {breakName};
      r := Some(Label(breakName, WithBody(loop, Label(contName, LoopBody(loop)))));
    }

    method WalkStmt<W>(s: Stmt<W>) returns (r: Option<Stmt<W>>)
      modifies this, ng
      ensures match LabelLoops(s, old(State()))
              case None => r == None
              case Some((t, st)) => r == Some(t) && State() == st
      decreases s, 0
    {
      var node := EnterStmt(s);
      if IsLoop(node) {
        assert LabelLoops(s, old(State())) == LabelLoop(node, State());
        var b := WalkStmt(LoopBody(node));
        if b.None? { return None; }
        r := ExitLoop(WithBody(node, b.value));
        return;
      }
      match node {
        case Block(ss) =>
          var ts := WalkSeq(ss);
          r := if ts.None? then None else Some(Block(ts.value));
        case If(e, thn, els) =>
          var a := WalkStmt(thn);
          if a.None? { return None; }
          var b := WalkStmt(els);
          r := if b.None? then None else Some(If(e, a.value, b.value));
        case Label(l, body) =>
          var b := WalkStmt(body);
          r := if b.None? then None else Some(Label(l, b.value));
        case Break(None) =>
          r := if breaksStack == [] then None else Some(Break(Some(breaksStack[|breaksStack| - 1])));
        case Continue(None) =>
          if breaksStack == [] { return None; }
          var b := breaksStack[|breaksStack| - 1];
          r := if b in breaksForConts then Some(Break(Some(breaksForConts[b]))) else None;
        case Continue(Some(l)) =>
          r := if l in breaksForConts then Some(Break(Some(breaksForConts[l]))) else None;
        case _ =>
          r := Some(node);
      }
    }

    method WalkSeq<W>(ss: seq<Stmt<W>>) returns (r: Option<seq<Stmt<W>>>)
      modifies this, ng
      ensures match LabelLoopsSeq(ss, old(State()))
              case None => r == None
              case Some((ts, st)) => r == Some(ts) && State() == st
      decreases ss, 0
    {
      var ts: seq<Stmt<W>> := [];
      var i := 0;
      assert ss[0..] == ss;
      PrependNothing(LabelLoopsSeq(ss, State()));
      while i < |ss|
        invariant 0 <= i <= |ss|
        invariant LabelLoopsSeq(ss, old(State())) == Prepend(ts, LabelLoopsSeq(ss[i..], State()))
      {
        assert ss[i..][0] == ss[i] && ss[i..][1..] == ss[i + 1..];
        var t := WalkStmt(ss[i]);
        if t.None? { return None; }
        PrependOne(ts, t.value, LabelLoopsSeq(ss[i + 1..], State()));
        ts := ts + [t.value];
        i := i + 1;
      }
      assert ts + [] == ts;
      r := Some(ts);
    }
  }

  // ----- Pass 3: for loops become while loops -----

  function InitStmt<W>(init: ForInit<W>): Stmt<W> {
    match init
    case InitExpr(e) => ExprStmt(e)
    case InitDecl(ds) => VarDecl(ds)
  }

  function ForToWhile<W>(s: Stmt<W>): Stmt<W>
    decreases s, 0
  {
    match s
    case Block(ss) => Block(ForToWhileSeq(ss))
    case If(e, thn, els) => If(e, ForToWhile(thn), ForToWhile(els))
    case Label(l, body) => Label(l, ForToWhile(body))
    case While(e, body) => While(e, ForToWhile(body))
    case DoWhile(body, e) => DoWhile(ForToWhile(body), e)
    case For(init, e, adv, body) =>
      Block([InitStmt(init), While(e, Block([ForToWhile(body), ExprStmt(adv)]))])
    case _ => s
  }

  function ForToWhileSeq<W>(ss: seq<Stmt<W>>): seq<Stmt<W>>
    decreases ss, 0
  {
    if ss == [] then [] else [ForToWhile(ss[0])] + ForToWhileSeq(ss[1..])
  }

  // ----- The whole transformation -----

  function Desugar<W>(s: Stmt<W>, names: Names): Option<(Stmt<W>, Names)> {
    match LabelLoops(ExplicitBreaks(s), Labelling([], map[], names))
    case None => None
    case Some((t, st)) => Some((ForToWhile(t), st.names))
  }

  method DesugarInPlace<W>(script: Stmt<W>, ng: NameGen) returns (r: Option<Stmt<W>>)
    modifies ng
    ensures match Desugar(script, old(ng.nextName))
            case None => r == None
            case Some((t, names)) => r == Some(t) && ng.nextName == names
  {
    var visitor := new LabelLoopsVisitor(ng);
    var t := visitor.WalkStmt(ExplicitBreaks(script));
    r := if t.None? then None else Some(ForToWhile(t.value));
  }
}

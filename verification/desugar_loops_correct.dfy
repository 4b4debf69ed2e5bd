// The loop desugaring keeps the meaning of every program it accepts, run for run.

module LoopCorrectness {
  import opened Common
  import opened Ids
  import opened JavaScript
  import opened DesugarLoops

  // ----- The programs -----

  ghost predicate SwitchFree<W>(s: Stmt<W>) {
    !s.Switch? && forall c <- Children(s) :: SwitchFree(c)
  }

  ghost function SeenInside<W>(s: Stmt<W>, seen: set<Id>): set<Id> {
    if s.Label? then seen + {s.name} else seen
  }

  function OwnLabel<W>(s: Stmt<W>): Option<Id> {
    match s
    case Label(l, _) => Some(l)
    case Break(l) => l
    case Continue(l) => l
    case _ => None
  }

  // Every label was written by the user or handed out by the generator before.
  ghost predicate LabelsKnown<W>(s: Stmt<W>, names: Names) {
    && (OwnLabel(s).Some? ==> Known(names, OwnLabel(s).value))
    && forall c <- Children(s) :: LabelsKnown(c, names)
  }

  // The programs that reach the loop passes: switches are gone, every label is known to the
  // generator, and no label stands inside a statement with the same label (an early error in
  // section 12.12).
  ghost predicate WellFormed<W>(s: Stmt<W>, seen: set<Id>, names: Names) {
    && !s.Switch?
    && (s.Label? ==> s.name !in seen)
    && (OwnLabel(s).Some? ==> Known(names, OwnLabel(s).value))
    && forall c <- Children(s) :: WellFormed(c, SeenInside(s, seen), names)
  }

  lemma {:induction false} WellFormedParts<W>(s: Stmt<W>, seen: set<Id>, names: Names)
    requires WellFormed(s, seen, names)
    ensures SwitchFree(s) && LabelsKnown(s, names)
    decreases s
  {
    forall c | c in Children(s)
      ensures SwitchFree(c) && LabelsKnown(c, names)
    {
      WellFormedParts(c, SeenInside(s, seen), names);
    }
  }

  // ----- What a completion can mention -----

  ghost predicate CompletionKnown(c: Completion, names: Names) {
    match c
    case Breaks(Some(l)) => Known(names, l)
    case Continues(Some(l)) => Known(names, l)
    case _ => true
  }

  lemma {:induction false} CompletionsAreKnown<W>(s: Stmt<W>, names: Names, labels: set<Id>, st: Store<W>, fuel: nat, skip: bool)
    requires LabelsKnown(s, names)
    ensures var r := Exec(s, labels, st, fuel, skip); r.Done? ==> CompletionKnown(r.c, names)
    decreases fuel, s, 1
  {
    match s
    case Block(ss) => CompletionsAreKnownSeq(ss, names, st, fuel, skip);
    case If(e, thn, els) =>
      var r := Eval(e, st);
      CompletionsAreKnown(thn, names, {}, r.st, fuel, skip);
      CompletionsAreKnown(els, names, {}, r.st, fuel, skip);
    case While(e, body) => CompletionsAreKnownLoop(e, body, True(), True(), names, labels, st, fuel, skip);
    case DoWhile(body, e) => CompletionsAreKnownLoop(True(), body, True(), e, names, labels, st, fuel, skip);
    case For(init, e, adv, body) =>
      var r := ExecInit(init, st);
      InitCompletes(init, st);
      if r.Done? { CompletionsAreKnownLoop(e, body, adv, True(), names, labels, r.st, fuel, skip); }
    case Label(l, body) => CompletionsAreKnown(body, names, labels + {l}, st, fuel, skip);
    case Switch(e, cases, default) =>
      var r := Eval(e, st);
      if r.Ok? {
        match FindCase(r.v, cases, r.st)
        case TestThrows(_, _) =>
        case NotFound(st1) => CompletionsAreKnownFrom(s, |cases|, names, st1, fuel, skip);
        case Found(i, st1) => CompletionsAreKnownFrom(s, i, names, st1, fuel, skip);
      }
    case VarDecl(ds) => DeclsComplete(ds, st);
    case _ =>
  }

  lemma DeclsComplete<W>(ds: seq<Decl<W>>, st: Store<W>)
    ensures var r := ExecDecls(ds, st); r.Done? && (r.c.Normal? || r.c.Throws?)
  {
  }

  lemma InitCompletes<W>(init: ForInit<W>, st: Store<W>)
    ensures var r := ExecInit(init, st); r.Done? && (r.c.Normal? || r.c.Throws?)
  {
    if init.InitDecl? { DeclsComplete(init.decls, st); }
  }

  lemma {:induction false} CompletionsAreKnownSeq<W>(ss: seq<Stmt<W>>, names: Names, st: Store<W>, fuel: nat, skip: bool)
    requires forall x <- ss :: LabelsKnown(x, names)
    ensures var r := ExecSeq(ss, st, fuel, skip); r.Done? ==> CompletionKnown(r.c, names)
    decreases fuel, ss, 0
  {
    if ss != [] {
      CompletionsAreKnown(ss[0], names, {}, st, fuel, skip);
      var r := Exec(ss[0], {}, st, fuel, skip);
      if r.Done? { CompletionsAreKnownSeq(ss[1..], names, r.st, fuel, skip); }
    }
  }

  lemma {:induction false} CompletionsAreKnownFrom<W>(sw: Stmt<W>, i: nat, names: Names, st: Store<W>, fuel: nat, skip: bool)
    requires sw.Switch? && i <= |sw.cases| && LabelsKnown(sw, names)
    ensures var r := ExecFrom(sw, i, st, fuel, skip); r.Done? ==> CompletionKnown(r.c, names)
    decreases fuel, sw, 0, |sw.cases| - i
  {
    if i == |sw.cases| {
      CompletionsAreKnown(sw.default, names, {}, st, fuel, skip);
    } else {
      assert Children(sw)[i] == sw.cases[i].body;
      CompletionsAreKnown(sw.cases[i].body, names, {}, st, fuel, skip);
      var r := Exec(sw.cases[i].body, {}, st, fuel, skip);
      if r.Done? { CompletionsAreKnownFrom(sw, i + 1, names, r.st, fuel, skip); }
    }
  }

  lemma {:induction false} CompletionsAreKnownLoop<W>(pre: Expr<W>, body: Stmt<W>, adv: Expr<W>, post: Expr<W>, names: Names,
                                                      labels: set<Id>, st: Store<W>, fuel: nat, skip: bool)
    requires LabelsKnown(body, names)
    ensures var r := ExecLoop(pre, body, adv, post, labels, st, fuel, skip);
            r.Done? ==> CompletionKnown(r.c, names) && r.c != Continues(None)
    decreases fuel, body, 2
  {
    if fuel != 0 {
      CompletionsAreKnown(body, names, {}, Eval(pre, st).st, fuel, skip);
      var end := Round(pre, body, adv, post, labels, st, fuel, skip);
      if end.Again? { CompletionsAreKnownLoop(pre, body, adv, post, names, labels, end.st, fuel - 1, skip); }
    }
  }

  // ----- Pass 1 -----

  // Running the output of pass 1 is running the source, except that a `continue` of a do..while
  // loop skips the test.  This holds for every switch-free program.
  lemma {:induction false} ExplicitBreaksCorrect<W>(s: Stmt<W>, labels: set<Id>, st: Store<W>, fuel: nat)
    requires SwitchFree(s)
    ensures Exec(ExplicitBreaks(s), labels, st, fuel, false) == Exec(s, labels, st, fuel, true)
    decreases fuel, s, 1
  {
    match s
    case Block(ss) => ExplicitBreaksCorrectSeq(ss, st, fuel);
    case If(e, thn, els) =>
      var r := Eval(e, st);
      ExplicitBreaksCorrect(thn, {}, r.st, fuel);
      ExplicitBreaksCorrect(els, {}, r.st, fuel);
    case Label(l, body) => ExplicitBreaksCorrect(body, labels + {l}, st, fuel);
    case While(e, body) => PreTestMoves(e, body, True(), labels, st, fuel);
    case For(init, e, adv, body) => PreTestMoves(e, body, adv, labels, ExecInitStore(init, st), fuel);
    case DoWhile(body, e) => PostTestMoves(body, e, labels, st, fuel);
    case _ =>
  }

  ghost function ExecInitStore<W>(init: ForInit<W>, st: Store<W>): Store<W> {
    var r := ExecInit(init, st);
    if r.Done? then r.st else st
  }

  lemma {:induction false} ExplicitBreaksCorrectSeq<W>(ss: seq<Stmt<W>>, st: Store<W>, fuel: nat)
    requires forall x <- ss :: SwitchFree(x)
    ensures ExecSeq(ExplicitBreaksSeq(ss), st, fuel, false) == ExecSeq(ss, st, fuel, true)
    decreases fuel, ss, 0
  {
    if ss != [] {
      ExplicitBreaksCorrect(ss[0], {}, st, fuel);
      var r := Exec(ss[0], {}, st, fuel, true);
      var ts := ExplicitBreaksSeq(ss);
      assert ts[0] == ExplicitBreaks(ss[0]) && ts[1..] == ExplicitBreaksSeq(ss[1..]);
      if r.Done? { ExplicitBreaksCorrectSeq(ss[1..], r.st, fuel); }
    }
  }

  // One statement in a block is the statement.
  lemma ExecSingleton<W>(s: Stmt<W>, st: Store<W>, fuel: nat, skip: bool)
    ensures ExecSeq([s], st, fuel, skip) == Exec(s, {}, st, fuel, skip)
  {
    var r := Exec(s, {}, st, fuel, skip);
    if r.Done? { assert ExecSeq<W>([], r.st, fuel, skip) == Done(Normal, r.st); }
  }

  lemma ExecPair<W>(s: Stmt<W>, t: Stmt<W>, st: Store<W>, fuel: nat, skip: bool)
    ensures ExecSeq([s, t], st, fuel, skip) ==
            (var r := Exec(s, {}, st, fuel, skip);
             if r.Done? && r.c == Normal then Exec(t, {}, r.st, fuel, skip) else r)
  {
    assert [s, t][1..] == [t];
    var r := Exec(s, {}, st, fuel, skip);
    if r.Done? { ExecSingleton(t, r.st, fuel, skip); }
  }

  lemma {:induction false} PreTestMoves<W>(e: Expr<W>, body: Stmt<W>, adv: Expr<W>, labels: set<Id>, st: Store<W>, fuel: nat)
    requires SwitchFree(body)
    ensures ExecLoop(True(), Block([If(e, ExplicitBreaks(body), Break(None))]), adv, True(), labels, st, fuel, false)
         == ExecLoop(e, body, adv, True(), labels, st, fuel, true)
    decreases fuel, body, 2
  {
    if fuel != 0 {
      ExplicitBreaksCorrect(body, {}, Eval(e, st).st, fuel);
      PreTestRound(e, body, ExplicitBreaks(body), adv, labels, st, fuel);
      var end := Round(e, body, adv, True(), labels, st, fuel, true);
      if end.Again? { PreTestMoves(e, body, adv, labels, end.st, fuel - 1); }
    }
  }

  lemma {:induction false} PreTestRound<W>(e: Expr<W>, body: Stmt<W>, body1: Stmt<W>, adv: Expr<W>, labels: set<Id>, st: Store<W>, fuel: nat)
    requires Exec(body1, {}, Eval(e, st).st, fuel, false) == Exec(body, {}, Eval(e, st).st, fuel, true)
    ensures Round(True(), Block([If(e, body1, Break(None))]), adv, True(), labels, st, fuel, false)
         == Round(e, body, adv, True(), labels, st, fuel, true)
  {
    ExecGuard(e, body1, st, fuel);
    var r := Exec(body1, {}, Eval(e, st).st, fuel, false);
    EndRoundUntested(r, adv, labels);
  }

  // With no test after the round, skipping it makes no difference.
  lemma EndRoundUntested<W>(r: Result<W>, adv: Expr<W>, labels: set<Id>)
    ensures EndRound(r, adv, True(), labels, false) == EndRound(r, adv, True(), labels, true)
  {
  }

  lemma {:induction false} ExecGuard<W>(e: Expr<W>, body: Stmt<W>, st: Store<W>, fuel: nat)
    ensures Exec(Block([If(e, body, Break(None))]), {}, st, fuel, false) ==
            match Eval(e, st)
            case Thrown(v, st1) => Done(Throws(v), st1)
            case Ok(v, st1) => if Truthy(v) then Exec(body, {}, st1, fuel, false) else Done(Breaks(None), st1)
  {
    ExecSingleton(If(e, body, Break(None)), st, fuel, false);
    var broken: Stmt<W> := Break(None);
    assert Exec(broken, {}, Eval(e, st).st, fuel, false) == Done(Breaks(None), Eval(e, st).st);
  }

  lemma {:induction false} PostTestMoves<W>(body: Stmt<W>, e: Expr<W>, labels: set<Id>, st: Store<W>, fuel: nat)
    requires SwitchFree(body)
    ensures ExecLoop(True(), Block([ExplicitBreaks(body), If(e, Empty, Break(None))]), True(), True(), labels, st, fuel, false)
         == ExecLoop(True(), body, True(), e, labels, st, fuel, true)
    decreases fuel, body, 2
  {
    if fuel != 0 {
      var test: Stmt<W> := If(e, Empty, Break(None));
      ExecPair(ExplicitBreaks(body), test, st, fuel, false);
      ExplicitBreaksCorrect(body, {}, st, fuel);
      var end := Round(True(), body, True(), e, labels, st, fuel, true);
      assert Round(True(), Block([ExplicitBreaks(body), test]), True(), True(), labels, st, fuel, false) == end;
      if end.Again? { PostTestMoves(body, e, labels, end.st, fuel - 1); }
    }
  }

  lemma GuardWellFormed<W>(e: Expr<W>, thn: Stmt<W>, seen: set<Id>, names: Names)
    requires WellFormed(thn, seen, names)
    ensures WellFormed(If(e, thn, Break(None)), seen, names)
    ensures WellFormed(Block([If(e, thn, Break(None))]), seen, names)
  {
    var jump: Stmt<W> := Break(None);
    assert WellFormed(jump, seen, names);
    var guard := If(e, thn, jump);
    assert SeenInside(guard, seen) == seen;
    assert WellFormed(guard, seen, names);
    assert SeenInside(Block([guard]), seen) == seen;
  }

  lemma DoBodyWellFormed<W>(body: Stmt<W>, e: Expr<W>, seen: set<Id>, names: Names)
    requires WellFormed(body, seen, names)
    ensures WellFormed(Block([body, If(e, Empty, Break(None))]), seen, names)
  {
    var nothing: Stmt<W> := Empty;
    assert WellFormed(nothing, seen, names);
    GuardWellFormed(e, nothing, seen, names);
    assert SeenInside(Block([body, If(e, nothing, Break(None))]), seen) == seen;
  }

  lemma {:induction false} ExplicitBreaksKeepsShape<W>(s: Stmt<W>, seen: set<Id>, names: Names)
    requires WellFormed(s, seen, names)
    ensures WellFormed(ExplicitBreaks(s), seen, names)
    decreases s, 0
  {
    forall c | c in Children(s)
      ensures WellFormed(ExplicitBreaks(c), SeenInside(s, seen), names)
    {
      ExplicitBreaksKeepsShape(c, SeenInside(s, seen), names);
    }
    match s
    case Block(ss) => ExplicitBreaksSeqAt(ss);
    case If(_, thn, els) => assert thn == Children(s)[0] && els == Children(s)[1];
    case Label(_, body) => assert body == Children(s)[0];
    case While(e, body) =>
      assert body == Children(s)[0];
      GuardWellFormed(e, ExplicitBreaks(body), seen, names);
    case For(_, e, _, body) =>
      assert body == Children(s)[0];
      GuardWellFormed(e, ExplicitBreaks(body), seen, names);
    case DoWhile(body, e) =>
      assert body == Children(s)[0];
      DoBodyWellFormed(ExplicitBreaks(body), e, seen, names);
    case _ =>
  }

  lemma ExplicitBreaksSeqAt<W>(ss: seq<Stmt<W>>)
    ensures |ExplicitBreaksSeq(ss)| == |ss|
    ensures forall i | 0 <= i < |ss| :: ExplicitBreaksSeq(ss)[i] == ExplicitBreaks(ss[i])
  {
  }

  // ----- Programs without `continue`: label sets stop mattering -----

  ghost predicate NoContinues<W>(s: Stmt<W>) {
    !s.Continue? && !s.Switch? && forall c <- Children(s) :: NoContinues(c)
  }

  lemma {:induction false} LabelSetsAreIdle<W>(s: Stmt<W>, l1: set<Id>, l2: set<Id>, st: Store<W>, fuel: nat)
    requires NoContinues(s)
    ensures Exec(s, l1, st, fuel, false) == Exec(s, l2, st, fuel, false)
    ensures var r := Exec(s, l1, st, fuel, false); r.Done? ==> !r.c.Continues?
    decreases fuel, s, 1
  {
    match s
    case Block(ss) => NoContinuesSeq(ss, st, fuel);
    case If(e, thn, els) =>
      var r := Eval(e, st);
      LabelSetsAreIdle(thn, {}, {}, r.st, fuel);
      LabelSetsAreIdle(els, {}, {}, r.st, fuel);
    case While(e, body) => LabelSetsAreIdleLoop(e, body, True(), True(), l1, l2, st, fuel);
    case DoWhile(body, e) => LabelSetsAreIdleLoop(True(), body, True(), e, l1, l2, st, fuel);
    case For(init, e, adv, body) =>
      InitCompletes(init, st);
      LabelSetsAreIdleLoop(e, body, adv, True(), l1, l2, ExecInit(init, st).st, fuel);
    case Label(l, body) => LabelSetsAreIdle(body, l1 + {l}, l2 + {l}, st, fuel);
    case VarDecl(ds) => DeclsComplete(ds, st);
    case _ =>
  }

  lemma {:induction false} NoContinuesSeq<W>(ss: seq<Stmt<W>>, st: Store<W>, fuel: nat)
    requires forall x <- ss :: NoContinues(x)
    ensures var r := ExecSeq(ss, st, fuel, false); r.Done? ==> !r.c.Continues?
    decreases fuel, ss, 0
  {
    if ss != [] {
      LabelSetsAreIdle(ss[0], {}, {}, st, fuel);
      var r := Exec(ss[0], {}, st, fuel, false);
      if r.Done? { NoContinuesSeq(ss[1..], r.st, fuel); }
    }
  }

  lemma {:induction false} LabelSetsAreIdleLoop<W>(pre: Expr<W>, body: Stmt<W>, adv: Expr<W>, post: Expr<W>,
                                                   l1: set<Id>, l2: set<Id>, st: Store<W>, fuel: nat)
    requires NoContinues(body)
    ensures ExecLoop(pre, body, adv, post, l1, st, fuel, false) == ExecLoop(pre, body, adv, post, l2, st, fuel, false)
    ensures var r := ExecLoop(pre, body, adv, post, l1, st, fuel, false); r.Done? ==> !r.c.Continues?
    decreases fuel, body, 2
  {
    if fuel != 0 {
      LabelSetsAreIdle(body, {}, {}, Eval(pre, st).st, fuel);
      RoundIdle(pre, body, adv, post, l1, l2, st, fuel);
      var end := Round(pre, body, adv, post, l1, st, fuel, false);
      if end.Again? { LabelSetsAreIdleLoop(pre, body, adv, post, l1, l2, end.st, fuel - 1); }
    }
  }

  lemma EndRoundIdle<W>(r: Result<W>, adv: Expr<W>, post: Expr<W>, l1: set<Id>, l2: set<Id>)
    requires r.Done? ==> !r.c.Continues?
    ensures EndRound(r, adv, post, l1, false) == EndRound(r, adv, post, l2, false)
    ensures var end := EndRound(r, adv, post, l1, false); end.Stop? && end.r.Done? ==> !end.r.c.Continues?
  {
  }

  lemma RoundIdle<W>(pre: Expr<W>, body: Stmt<W>, adv: Expr<W>, post: Expr<W>, l1: set<Id>, l2: set<Id>, st: Store<W>, fuel: nat)
    requires var r := Exec(body, {}, Eval(pre, st).st, fuel, false); r.Done? ==> !r.c.Continues?
    ensures Round(pre, body, adv, post, l1, st, fuel, false) == Round(pre, body, adv, post, l2, st, fuel, false)
    ensures var end := Round(pre, body, adv, post, l1, st, fuel, false); end.Stop? && end.r.Done? ==> !end.r.c.Continues?
  {
    EndRoundIdle(Exec(body, {}, Eval(pre, st).st, fuel, false), adv, post, l1, l2);
  }

  // ----- Pass 2 -----

  // What the visitor's state says about a program point, `names` being the generator's table when
  // the pass began and `front` the labels directly in front of the statement.
  ghost predicate Context(st: Labelling, names: Names, seen: set<Id>, front: set<Id>) {
    && Grows(names, st.names)
    && (forall b <- st.breaks :: b in st.conts && Known(st.names, b))
    && (forall k <- st.conts :: Known(st.names, k))
    && (forall k <- st.conts :: Known(st.names, st.conts[k]) && !Known(names, st.conts[k]))
    && (forall k <- st.conts :: Known(names, k) ==> k in seen)
    && front !! st.conts.Keys
  }

  lemma KnownGrows(before: Names, after: Names, x: Id)
    requires Grows(before, after) && Known(before, x)
    ensures Known(after, x)
  {
  }

  lemma EnteredContext(l: Id, st: Labelling, names: Names, seen: set<Id>, seen1: set<Id>)
    requires Context(st, names, seen, {}) && l !in st.conts && Known(st.names, l)
    requires seen <= seen1 && (Known(names, l) ==> l in seen1)
    ensures Context(EnterLoop(l, st), names, seen1, {})
    ensures var c := EnterLoop(l, st).conts[l]; c != l && !Known(st.names, c)
  {
    FreshIsNew(st.names, "cont");
    var st1 := EnterLoop(l, st);
    forall b | b in st1.breaks
      ensures b in st1.conts && Known(st1.names, b)
    {
      if b != l { KnownGrows(st.names, st1.names, b); }
    }
    forall k | k in st1.conts
      ensures Known(st1.names, k)
    {
      if k != l { KnownGrows(st.names, st1.names, k); }
    }
    forall k | k in st1.conts
      ensures Known(st1.names, st1.conts[k]) && !Known(names, st1.conts[k])
    {
      if k != l { KnownGrows(st.names, st1.names, st1.conts[k]); }
      else if Known(names, st1.conts[k]) { KnownGrows(names, st.names, st1.conts[k]); }
    }
  }

  lemma BareContext(st: Labelling, names: Names, seen: set<Id>)
    requires Context(st, names, seen, {})
    ensures var b := FreshId(st.names, "break");
            var st0 := st.(names := AfterFresh(st.names, "break"));
            b !in st.conts && !Known(names, b) && Known(st0.names, b) && Context(st0, names, seen, {}) &&
            forall k <- st.conts :: st.conts[k] != b
  {
    FreshIsNew(st.names, "break");
    var b := FreshId(st.names, "break");
    var st0 := st.(names := AfterFresh(st.names, "break"));
    if Known(names, b) { KnownGrows(names, st.names, b); }
  }

  // The pass leaves its stacks as it found them, uses up names only, and removes every continue.
  lemma {:induction false} LabelLoopsRestores<W>(s: Stmt<W>, st: Labelling, names: Names, seen: set<Id>)
    requires LabelLoops(s, st).Some?
    requires Context(st, names, seen, {}) && WellFormed(s, seen, names)
    ensures var (t, st1) := LabelLoops(s, st).value;
            st1 == st.(names := st1.names) && Context(st1, names, seen, {}) && NoContinues(t)
    decreases s, 1
  {
    if IsLoop(s) {
      BodyWellFormed(s, seen, names);
      BareLoopRestores(s, st, names, seen);
      return;
    }
    match s
    case Block(ss) =>
      BlockWellFormed(s, seen, names);
      LabelLoopsRestoresSeq(ss, st, names, seen);
    case If(e, thn, els) =>
      BranchesWellFormed(s, seen, names);
      LabelLoopsRestores(thn, st, names, seen);
      LabelLoopsRestores(els, LabelLoops(thn, st).value.1, names, seen);
    case Label(l, body) =>
      BodyWellFormed(s, seen, names);
      ContextWidens(st, names, seen, seen + {l});
      if IsLoop(body) {
        assert l !in st.conts;
        BodyWellFormed(body, seen + {l}, names);
        LabelLoopRestores(body, l, st, names, seen + {l});
        ContextNarrows(LabelLoop(body, EnterLoop(l, st)).value.1, st, names, seen, seen + {l});
      } else {
        LabelLoopsRestores(body, st, names, seen + {l});
        ContextNarrows(LabelLoops(body, st).value.1, st, names, seen, seen + {l});
      }
    case _ =>
  }

  lemma BlockWellFormed<W>(s: Stmt<W>, seen: set<Id>, names: Names)
    requires s.Block? && WellFormed(s, seen, names)
    ensures forall c <- s.stmts :: WellFormed(c, seen, names)
  {
    assert SeenInside(s, seen) == seen;
  }

  lemma BranchesWellFormed<W>(s: Stmt<W>, seen: set<Id>, names: Names)
    requires s.If? && WellFormed(s, seen, names)
    ensures WellFormed(s.thn, seen, names) && WellFormed(s.els, seen, names)
  {
    assert s.thn == Children(s)[0] && s.els == Children(s)[1];
    assert SeenInside(s, seen) == seen;
  }

  lemma BodyWellFormed<W>(s: Stmt<W>, seen: set<Id>, names: Names)
    requires (IsLoop(s) || s.Label?) && WellFormed(s, seen, names)
    ensures WellFormed(s.body, SeenInside(s, seen), names)
  {
    assert s.body == Children(s)[0];
  }

  lemma ContextWidens(st: Labelling, names: Names, seen: set<Id>, seen1: set<Id>)
    requires Context(st, names, seen, {}) && seen <= seen1
    ensures Context(st, names, seen1, {})
  {
  }

  lemma ContextNarrows(st1: Labelling, st: Labelling, names: Names, seen: set<Id>, seen1: set<Id>)
    requires Context(st, names, seen, {}) && Context(st1, names, seen1, {}) && st1.conts == st.conts
    ensures Context(st1, names, seen, {})
  {
  }

  lemma {:induction false} BareLoopRestores<W>(s: Stmt<W>, st: Labelling, names: Names, seen: set<Id>)
    requires IsLoop(s) && LabelLoop(s, EnterBareLoop(st)).Some?
    requires Context(st, names, seen, {}) && WellFormed(s.body, seen, names)
    ensures var (t, st1) := LabelLoop(s, EnterBareLoop(st)).value;
            st1 == st.(names := st1.names) && Context(st1, names, seen, {}) && NoContinues(t)
    decreases s.body, 3
  {
    BareContext(st, names, seen);
    LabelLoopRestores(s, FreshId(st.names, "break"), st.(names := AfterFresh(st.names, "break")), names, seen);
  }

  lemma {:induction false} LabelLoopRestores<W>(loop: Stmt<W>, b: Id, st: Labelling, names: Names, seen: set<Id>)
    requires IsLoop(loop) && LabelLoop(loop, EnterLoop(b, st)).Some?
    requires Context(st, names, seen, {}) && WellFormed(loop.body, seen, names)
    requires b !in st.conts && Known(st.names, b) && (Known(names, b) ==> b in seen)
    ensures var (t, st1) := LabelLoop(loop, EnterLoop(b, st)).value;
            st1 == st.(names := st1.names) && Context(st1, names, seen, {}) && NoContinues(t)
    decreases loop.body, 2
  {
    EnteredContext(b, st, names, seen, seen);
    LabelLoopsRestores(loop.body, EnterLoop(b, st), names, seen);
    var (body1, st1) := LabelLoops(loop.body, EnterLoop(b, st)).value;
    assert st1.conts - {b} == st.conts;
    assert st1.breaks[..|st1.breaks| - 1] == st.breaks;
    LoopNoContinues(loop, b, st1.conts[b], body1);
  }

  lemma LoopNoContinues<W>(loop: Stmt<W>, b: Id, c: Id, body1: Stmt<W>)
    requires IsLoop(loop) && NoContinues(body1)
    ensures NoContinues(Label(b, WithBody(loop, Label(c, body1))))
  {
    assert NoContinues(Label(c, body1));
    assert NoContinues(WithBody(loop, Label(c, body1)));
  }

  lemma {:induction false} LabelLoopsRestoresSeq<W>(ss: seq<Stmt<W>>, st: Labelling, names: Names, seen: set<Id>)
    requires LabelLoopsSeq(ss, st).Some?
    requires Context(st, names, seen, {}) && forall s <- ss :: WellFormed(s, seen, names)
    ensures var (ts, st1) := LabelLoopsSeq(ss, st).value;
            st1 == st.(names := st1.names) && Context(st1, names, seen, {}) && forall t <- ts :: NoContinues(t)
    decreases ss, 0
  {
    if ss != [] {
      LabelLoopsRestores(ss[0], st, names, seen);
      LabelLoopsRestoresSeq(ss[1..], LabelLoops(ss[0], st).value.1, names, seen);
    }
  }

  // How a jump of the source reads in the output, at a point inside the given loops.
  ghost function Redirect(c: Completion, st: Labelling): Completion {
    match c
    case Breaks(None) => if st.breaks == [] then c else Breaks(Some(Last(st.breaks)))
    case Continues(None) =>
      if st.breaks == [] || Last(st.breaks) !in st.conts then c else Breaks(Some(st.conts[Last(st.breaks)]))
    case Continues(Some(l)) => if l in st.conts then Breaks(Some(st.conts[l])) else c
    case _ => c
  }

  ghost function RedirectResult<W>(r: Result<W>, st: Labelling): Result<W> {
    if r.OutOfFuel? then r else Done(Redirect(r.c, st), r.st)
  }

  lemma CatchCommutes<W>(l: Id, r: Result<W>, st: Labelling, names: Names, seen: set<Id>)
    requires Context(st, names, seen, {}) && Known(names, l) && l !in st.conts
    ensures CatchBreak(l, RedirectResult(r, st)) == RedirectResult(CatchBreak(l, r), st)
  {
  }

  // The labels a loop answers to in the source: the labels in front of it, or none at all when
  // the break label is the compiler's own.
  ghost predicate LoopFront(front: set<Id>, b: Id, st: Labelling, names: Names) {
    if Known(names, b) then b in front && (forall x <- front :: x != b ==> x !in st.conts)
    else front == {} && forall k <- st.conts :: st.conts[k] != b
  }

  // One round seen from outside: the body has completed with r in the source.
  lemma EndRoundSim<W>(r: Result<W>, adv: Expr<W>, post: Expr<W>, b: Id, st: Labelling, names: Names, seen: set<Id>, front: set<Id>)
    requires Context(st, names, seen, {}) && b !in st.conts && Known(st.names, b)
    requires LoopFront(front, b, st, names)
    requires r.Done? ==> CompletionKnown(r.c, names) && !Redirect(r.c, EnterLoop(b, st)).Continues?
    ensures var st1 := EnterLoop(b, st);
            var end := EndRound(r, adv, post, front, false);
            var end1 := EndRound(CatchBreak(st1.conts[b], RedirectResult(r, st1)), adv, post, {b}, false);
            if end.Again? then end1 == end
            else end1.Stop? && CatchBreak(b, end1.r) == RedirectResult(CatchBreak(b, end.r), st)
  {
    FreshIsNew(st.names, "cont");
    var c := EnterLoop(b, st).conts[b];
    if r.Done? {
      match r.c
      case Breaks(Some(l)) => if Known(names, c) { KnownGrows(names, st.names, c); }
      case Continues(Some(l)) =>
      case _ =>
    }
  }

  lemma {:induction false} IterSim<W>(pre: Expr<W>, body: Stmt<W>, adv: Expr<W>, post: Expr<W>, b: Id, st: Labelling, names: Names,
                                      seen: set<Id>, front: set<Id>, mem: Store<W>, fuel: nat)
    requires LabelLoops(body, EnterLoop(b, st)).Some?
    requires Context(st, names, seen, {}) && WellFormed(body, seen, names)
    requires b !in st.conts && Known(st.names, b) && (Known(names, b) ==> b in seen)
    requires LoopFront(front, b, st, names)
    ensures var st1 := EnterLoop(b, st);
            var body1 := Label(st1.conts[b], LabelLoops(body, st1).value.0);
            CatchBreak(b, ExecLoop(pre, body1, adv, post, {b}, mem, fuel, false)) ==
            RedirectResult(CatchBreak(b, ExecLoop(pre, body, adv, post, front, mem, fuel, false)), st)
    decreases fuel, body, 3
  {
    if fuel != 0 {
      IterRoundSim(pre, body, adv, post, b, st, names, seen, front, mem, fuel);
      var end := Round(pre, body, adv, post, front, mem, fuel, false);
      if end.Again? { IterSim(pre, body, adv, post, b, st, names, seen, front, end.st, fuel - 1); }
    }
  }

  lemma {:induction false} IterRoundSim<W>(pre: Expr<W>, body: Stmt<W>, adv: Expr<W>, post: Expr<W>, b: Id, st: Labelling, names: Names,
                                           seen: set<Id>, front: set<Id>, mem: Store<W>, fuel: nat)
    requires LabelLoops(body, EnterLoop(b, st)).Some?
    requires Context(st, names, seen, {}) && WellFormed(body, seen, names)
    requires b !in st.conts && Known(st.names, b) && (Known(names, b) ==> b in seen)
    requires LoopFront(front, b, st, names)
    ensures var st1 := EnterLoop(b, st);
            var body1 := Label(st1.conts[b], LabelLoops(body, st1).value.0);
            var end := Round(pre, body, adv, post, front, mem, fuel, false);
            var end1 := Round(pre, body1, adv, post, {b}, mem, fuel, false);
            if end.Again? then end1 == end
            else end1.Stop? && CatchBreak(b, end1.r) == RedirectResult(CatchBreak(b, end.r), st)
    decreases fuel, body, 2
  {
    var mem1 := Eval(pre, mem).st;
    BodySim(body, b, st, names, seen, mem1, fuel);
    EndRoundSim(Exec(body, {}, mem1, fuel, false), adv, post, b, st, names, seen, front);
  }

  // The body of a loop, seen from inside the loop.
  lemma {:induction false} BodySim<W>(body: Stmt<W>, b: Id, st: Labelling, names: Names, seen: set<Id>, mem: Store<W>, fuel: nat)
    requires LabelLoops(body, EnterLoop(b, st)).Some?
    requires Context(st, names, seen, {}) && WellFormed(body, seen, names)
    requires b !in st.conts && Known(st.names, b) && (Known(names, b) ==> b in seen)
    ensures var st1 := EnterLoop(b, st);
            var r := Exec(body, {}, mem, fuel, false);
            && Exec(Label(st1.conts[b], LabelLoops(body, st1).value.0), {}, mem, fuel, false)
               == CatchBreak(st1.conts[b], RedirectResult(r, st1))
            && (r.Done? ==> CompletionKnown(r.c, names) && !Redirect(r.c, st1).Continues?)
    decreases fuel, body, 1
  {
    var st1 := EnterLoop(b, st);
    var c := st1.conts[b];
    var t := LabelLoops(body, st1).value.0;
    EnteredContext(b, st, names, seen, seen);
    LabelLoopsRestores(body, st1, names, seen);
    LabelLoopsSim(body, st1, names, seen, {}, mem, fuel);
    LabelSetsAreIdle(t, {}, {c}, mem, fuel);
    WellFormedParts(body, seen, names);
    CompletionsAreKnown(body, names, {}, mem, fuel, false);
    LabelledBody(c, t, mem, fuel);
  }

  lemma LabelledBody<W>(c: Id, t: Stmt<W>, st: Store<W>, fuel: nat)
    requires Exec(t, {}, st, fuel, false) == Exec(t, {c}, st, fuel, false)
    ensures Exec(Label(c, t), {}, st, fuel, false) == CatchBreak(c, Exec(t, {}, st, fuel, false))
  {
    var empty: set<Id> := {};
    assert empty + {c} == {c};
  }

  // Pass 2 keeps the meaning of every statement it accepts, jumps being redirected.
  lemma {:induction false} LabelLoopsSim<W>(s: Stmt<W>, st: Labelling, names: Names, seen: set<Id>, front: set<Id>,
                                            mem: Store<W>, fuel: nat)
    requires LabelLoops(s, st).Some?
    requires Context(st, names, seen, front) && WellFormed(s, seen, names)
    requires IsLoop(s) ==> front == {}
    ensures Exec(LabelLoops(s, st).value.0, {}, mem, fuel, false) == RedirectResult(Exec(s, front, mem, fuel, false), st)
    decreases fuel, s, 0
  {
    if IsLoop(s) {
      BareLoopSim(s, st, names, seen, mem, fuel);
      return;
    }
    match s
    case Block(ss) =>
      BlockWellFormed(s, seen, names);
      LabelLoopsSimSeq(ss, st, names, seen, mem, fuel);
    case If(_, _, _) => BranchSim(s, st, names, seen, mem, fuel);
    case Label(l, body) => LabelledSim(s, st, names, seen, front, mem, fuel);
    case VarDecl(ds) => DeclsComplete(ds, mem);
    case _ =>
  }

  lemma {:induction false} BranchSim<W>(s: Stmt<W>, st: Labelling, names: Names, seen: set<Id>, mem: Store<W>, fuel: nat)
    requires s.If? && LabelLoops(s, st).Some?
    requires Context(st, names, seen, {}) && WellFormed(s, seen, names)
    ensures Exec(LabelLoops(s, st).value.0, {}, mem, fuel, false) == RedirectResult(Exec(s, {}, mem, fuel, false), st)
    decreases fuel, s, -1
  {
    var mem1 := Eval(s.cond, mem).st;
    BranchesWellFormed(s, seen, names);
    LabelLoopsRestores(s.thn, st, names, seen);
    LabelLoopsSim(s.thn, st, names, seen, {}, mem1, fuel);
    LabelLoopsSim(s.els, LabelLoops(s.thn, st).value.1, names, seen, {}, mem1, fuel);
  }

  lemma {:induction false} BareLoopSim<W>(s: Stmt<W>, st: Labelling, names: Names, seen: set<Id>, mem: Store<W>, fuel: nat)
    requires IsLoop(s) && LabelLoop(s, EnterBareLoop(st)).Some?
    requires Context(st, names, seen, {}) && WellFormed(s, seen, names)
    ensures Exec(LabelLoop(s, EnterBareLoop(st)).value.0, {}, mem, fuel, false) == RedirectResult(Exec(s, {}, mem, fuel, false), st)
    decreases fuel, s.body, 5
  {
    BareContext(st, names, seen);
    BodyWellFormed(s, seen, names);
    var b := FreshId(st.names, "break");
    var st0 := st.(names := AfterFresh(st.names, "break"));
    LabelLoopSim(s, b, st0, names, seen, {}, mem, fuel);
    WellFormedParts(s, seen, names);
    CompletionsAreKnown(s, names, {}, mem, fuel, false);
  }

  lemma {:induction false} LabelledSim<W>(s: Stmt<W>, st: Labelling, names: Names, seen: set<Id>, front: set<Id>,
                                          mem: Store<W>, fuel: nat)
    requires s.Label? && LabelLoops(s, st).Some?
    requires Context(st, names, seen, front) && WellFormed(s, seen, names)
    ensures Exec(LabelLoops(s, st).value.0, {}, mem, fuel, false) == RedirectResult(Exec(s, front, mem, fuel, false), st)
    decreases fuel, s.body, 6
  {
    var Label(l, body) := s;
    BodyWellFormed(s, seen, names);
    ContextWidens(st, names, seen, seen + {l});
    if IsLoop(body) {
      BodyWellFormed(body, seen + {l}, names);
      LabelLoopSim(body, l, st, names, seen + {l}, front + {l}, mem, fuel);
    } else {
      LabelLoopsSim(body, st, names, seen + {l}, front + {l}, mem, fuel);
      LabelLoopsRestores(body, st, names, seen + {l});
      LabelSetsAreIdle(LabelLoops(body, st).value.0, {}, {l}, mem, fuel);
      LabelledBody(l, LabelLoops(body, st).value.0, mem, fuel);
      CatchCommutes(l, Exec(body, front + {l}, mem, fuel, false), st, names, seen);
    }
  }

  lemma {:induction false} LabelLoopSim<W>(loop: Stmt<W>, b: Id, st: Labelling, names: Names, seen: set<Id>, front: set<Id>,
                                           mem: Store<W>, fuel: nat)
    requires IsLoop(loop) && LabelLoop(loop, EnterLoop(b, st)).Some?
    requires Context(st, names, seen, {}) && WellFormed(loop.body, seen, names)
    requires b !in st.conts && Known(st.names, b) && (Known(names, b) ==> b in seen)
    requires LoopFront(front, b, st, names)
    ensures Exec(LabelLoop(loop, EnterLoop(b, st)).value.0, {}, mem, fuel, false) ==
            RedirectResult(CatchBreak(b, Exec(loop, front, mem, fuel, false)), st)
    decreases fuel, loop.body, 4
  {
    var st1 := EnterLoop(b, st);
    EnteredContext(b, st, names, seen, seen);
    LabelLoopsRestores(loop.body, st1, names, seen);
    var body1 := Label(st1.conts[b], LabelLoops(loop.body, st1).value.0);
    var loop1 := WithBody(loop, body1);
    assert LabelLoop(loop, st1).value.0 == Label(b, loop1);
    var empty: set<Id> := {};
    assert empty + {b} == {b};
    assert Exec(Label(b, loop1), {}, mem, fuel, false) == CatchBreak(b, Exec(loop1, {b}, mem, fuel, false));
    var start := Start(loop, mem);
    LoopInParts(loop, front, mem, fuel, false);
    LoopInParts(loop1, {b}, mem, fuel, false);
    IterSim(PreTest(loop), loop.body, Advance(loop), PostTest(loop), b, st, names, seen, front, start.st, fuel);
  }

  // The three loops, read as instances of ExecLoop.

  ghost function PreTest<W>(loop: Stmt<W>): Expr<W>
    requires IsLoop(loop)
  {
    if loop.DoWhile? then True() else loop.cond
  }

  ghost function Advance<W>(loop: Stmt<W>): Expr<W>
    requires IsLoop(loop)
  {
    if loop.For? then loop.advance else True()
  }

  ghost function PostTest<W>(loop: Stmt<W>): Expr<W>
    requires IsLoop(loop)
  {
    if loop.DoWhile? then loop.cond else True()
  }

  ghost function Start<W>(loop: Stmt<W>, st: Store<W>): Result<W>
    requires IsLoop(loop)
  {
    if loop.For? then ExecInit(loop.init, st) else Done(Normal, st)
  }

  lemma LoopInParts<W>(loop: Stmt<W>, labels: set<Id>, st: Store<W>, fuel: nat, skip: bool)
    requires IsLoop(loop)
    ensures var r := Start(loop, st);
            && r.Done? && (r.c.Normal? || r.c.Throws?)
            && Exec(loop, labels, st, fuel, skip) ==
               if r.c.Normal? then ExecLoop(PreTest(loop), loop.body, Advance(loop), PostTest(loop), labels, r.st, fuel, skip) else r
  {
    if loop.For? { InitCompletes(loop.init, st); }
  }

  lemma {:induction false} LabelLoopsSimSeq<W>(ss: seq<Stmt<W>>, st: Labelling, names: Names, seen: set<Id>, mem: Store<W>, fuel: nat)
    requires LabelLoopsSeq(ss, st).Some?
    requires Context(st, names, seen, {}) && forall s <- ss :: WellFormed(s, seen, names)
    ensures ExecSeq(LabelLoopsSeq(ss, st).value.0, mem, fuel, false) == RedirectResult(ExecSeq(ss, mem, fuel, false), st)
    decreases fuel, ss, 0
  {
    if ss != [] {
      LabelLoopsRestores(ss[0], st, names, seen);
      LabelLoopsSim(ss[0], st, names, seen, {}, mem, fuel);
      var st1 := LabelLoops(ss[0], st).value.1;
      var ts := LabelLoopsSeq(ss, st).value.0;
      assert ts[1..] == LabelLoopsSeq(ss[1..], st1).value.0;
      var r := Exec(ss[0], {}, mem, fuel, false);
      if r.Done? { LabelLoopsSimSeq(ss[1..], st1, names, seen, r.st, fuel); }
    }
  }

  // ----- Pass 3 -----

  lemma {:induction false} ForToWhileCorrect<W>(s: Stmt<W>, st: Store<W>, fuel: nat)
    requires NoContinues(s)
    ensures Exec(ForToWhile(s), {}, st, fuel, false) == Exec(s, {}, st, fuel, false)
    ensures NoContinues(ForToWhile(s))
    decreases fuel, s, 1
  {
    match s
    case Block(ss) => ForToWhileCorrectSeq(ss, st, fuel);
    case If(e, thn, els) =>
      assert thn == Children(s)[0] && els == Children(s)[1];
      ForToWhileCorrect(thn, Eval(e, st).st, fuel);
      ForToWhileCorrect(els, Eval(e, st).st, fuel);
    case Label(l, body) =>
      assert body == Children(s)[0];
      ForToWhileCorrect(body, st, fuel);
      LabelSetsAreIdle(body, {}, {l}, st, fuel);
      LabelSetsAreIdle(ForToWhile(body), {}, {l}, st, fuel);
      LabelledBody(l, body, st, fuel);
      LabelledBody(l, ForToWhile(body), st, fuel);
    case While(e, body) =>
      assert body == Children(s)[0];
      ForToWhileCorrect(body, st, fuel);
      BodyReplaced(e, body, True(), True(), st, fuel);
    case DoWhile(body, e) =>
      assert body == Children(s)[0];
      ForToWhileCorrect(body, st, fuel);
      BodyReplaced(True(), body, True(), e, st, fuel);
    case For(_, _, _, body) =>
      assert body == Children(s)[0];
      ForCorrect(s, st, fuel);
    case _ =>
  }

  lemma {:induction false} ForToWhileCorrectSeq<W>(ss: seq<Stmt<W>>, st: Store<W>, fuel: nat)
    requires forall x <- ss :: NoContinues(x)
    ensures ExecSeq(ForToWhileSeq(ss), st, fuel, false) == ExecSeq(ss, st, fuel, false)
    ensures forall x <- ForToWhileSeq(ss) :: NoContinues(x)
    decreases fuel, ss, 0
  {
    if ss != [] {
      ForToWhileCorrect(ss[0], st, fuel);
      var r := Exec(ss[0], {}, st, fuel, false);
      assert ForToWhileSeq(ss)[1..] == ForToWhileSeq(ss[1..]);
      ForToWhileCorrectSeq(ss[1..], if r.Done? then r.st else st, fuel);
    }
  }

  lemma {:induction false} BodyReplaced<W>(pre: Expr<W>, body: Stmt<W>, adv: Expr<W>, post: Expr<W>, st: Store<W>, fuel: nat)
    requires NoContinues(body)
    ensures ExecLoop(pre, ForToWhile(body), adv, post, {}, st, fuel, false) == ExecLoop(pre, body, adv, post, {}, st, fuel, false)
    decreases fuel, body, 2
  {
    if fuel != 0 {
      ForToWhileCorrect(body, Eval(pre, st).st, fuel);
      var end := Round(pre, body, adv, post, {}, st, fuel, false);
      if end.Again? { BodyReplaced(pre, body, adv, post, end.st, fuel - 1); }
    }
  }

  lemma {:induction false} ForCorrect<W>(s: Stmt<W>, st: Store<W>, fuel: nat)
    requires s.For? && NoContinues(s.body)
    ensures Exec(ForToWhile(s), {}, st, fuel, false) == Exec(s, {}, st, fuel, false)
    ensures NoContinues(ForToWhile(s))
    decreases fuel, s.body, 3
  {
    var For(init, e, adv, body) := s;
    var body1 := Block([ForToWhile(body), ExprStmt(adv)]);
    InitCompletes(init, st);
    ExecPair(InitStmt(init), While(e, body1), st, fuel, false);
    ForToWhileCorrect(body, st, fuel);
    assert NoContinues(ExprStmt(adv)) && NoContinues(body1) && NoContinues(While(e, body1)) && NoContinues(InitStmt(init));
    AdvanceMoves(e, body, adv, ExecInit(init, st).st, fuel);
  }

  lemma {:induction false} AdvanceMoves<W>(e: Expr<W>, body: Stmt<W>, adv: Expr<W>, st: Store<W>, fuel: nat)
    requires NoContinues(body)
    ensures ExecLoop(e, Block([ForToWhile(body), ExprStmt(adv)]), True(), True(), {}, st, fuel, false)
         == ExecLoop(e, body, adv, True(), {}, st, fuel, false)
    decreases fuel, body, 2
  {
    if fuel != 0 {
      var st1 := Eval(e, st).st;
      ForToWhileCorrect(body, st1, fuel);
      LabelSetsAreIdle(body, {}, {}, st1, fuel);
      ExecPair(ForToWhile(body), ExprStmt(adv), st1, fuel, false);
      var end := Round(e, body, adv, True(), {}, st, fuel, false);
      assert Round(e, Block([ForToWhile(body), ExprStmt(adv)]), True(), True(), {}, st, fuel, false) == end;
      if end.Again? { AdvanceMoves(e, body, adv, end.st, fuel - 1); }
    }
  }

  // ----- The three passes together -----

  // For every program, store and amount of fuel: if the passes accept the program, the result runs
  // to the same store with the same completion (or runs out of fuel in step with it), where a
  // `continue` of a do..while loop skips that loop's test.
  lemma LoopsKeepMeaning<W>(s: Stmt<W>, names: Names, st: Store<W>, fuel: nat)
    requires WellFormed(s, {}, names) && Desugar(s, names).Some?
    ensures Exec(Desugar(s, names).value.0, {}, st, fuel, false) == Exec(s, {}, st, fuel, true)
    ensures NoContinues(Desugar(s, names).value.0)
  {
    var start := Labelling([], map[], names);
    var s1 := ExplicitBreaks(s);
    WellFormedParts(s, {}, names);
    ExplicitBreaksKeepsShape(s, {}, names);
    ExplicitBreaksCorrect(s, {}, st, fuel);
    if IsLoop(s1) { BareLoopSim(s1, start, names, {}, st, fuel); } else { LabelLoopsSim(s1, start, names, {}, {}, st, fuel); }
    LabelLoopsRestores(s1, start, names, {});
    var r := Exec(s1, {}, st, fuel, false);
    assert RedirectResult(r, start) == r;
    ForToWhileCorrect(LabelLoops(s1, start).value.0, st, fuel);
  }

  // ----- do..while -----

  // Does some `continue` in s target the loop whose body s is, `labels` being that loop's labels?
  ghost predicate ContinuesTo<W>(s: Stmt<W>, labels: set<Id>, bare: bool) {
    || (s.Continue? && (if s.target.None? then bare else s.target.value in labels))
    || exists c <- Children(s) :: ContinuesTo(c, labels, BareInside(s, bare))
  }

  ghost predicate BareInside<W>(s: Stmt<W>, bare: bool) {
    bare && !IsLoop(s)
  }

  ghost function FrontInside<W>(s: Stmt<W>, front: set<Id>): set<Id> {
    if s.Label? then front + {s.name} else {}
  }

  ghost predicate TrueInPlace<W>(e: Expr<W>, st: Store<W>) {
    Eval(e, st).Ok? && Eval(e, st).st == st && Truthy(Eval(e, st).v)
  }

  ghost predicate AlwaysTrue<W(!new)>(e: Expr<W>) {
    forall st: Store<W> :: TrueInPlace(e, st)
  }

  // No `continue` targets a do..while loop, unless the test of the loop is true in every store.
  ghost predicate ContinuesHarmless<W(!new)>(s: Stmt<W>, front: set<Id>) {
    && (s.DoWhile? ==> AlwaysTrue(s.cond) || !ContinuesTo(s.body, front, true))
    && forall c <- Children(s) :: ContinuesHarmless(c, FrontInside(s, front))
  }

  ghost predicate Escapes(c: Completion, labels: set<Id>, bare: bool) {
    c.Continues? && (if c.target.None? then bare else c.target.value in labels)
  }

  lemma {:induction false} UncontinuedBody<W>(s: Stmt<W>, labels: set<Id>, bare: bool, front: set<Id>, st: Store<W>, fuel: nat, skip: bool)
    requires !ContinuesTo(s, labels, bare)
    ensures var r := Exec(s, front, st, fuel, skip); r.Done? ==> !Escapes(r.c, labels, bare)
    decreases fuel, s, 1
  {
    assert forall c <- Children(s) :: !ContinuesTo(c, labels, BareInside(s, bare));
    match s
    case Block(ss) =>
      assert BareInside(s, bare) == bare;
      UncontinuedSeq(ss, labels, bare, st, fuel, skip);
    case If(e, thn, els) =>
      assert BareInside(s, bare) == bare;
      assert thn == Children(s)[0] && els == Children(s)[1];
      UncontinuedBody(thn, labels, bare, {}, Eval(e, st).st, fuel, skip);
      UncontinuedBody(els, labels, bare, {}, Eval(e, st).st, fuel, skip);
    case Label(l, body) =>
      assert BareInside(s, bare) == bare;
      assert body == Children(s)[0];
      UncontinuedBody(body, labels, bare, front + {l}, st, fuel, skip);
    case While(e, body) =>
      assert BareInside(s, bare) == false;
      assert body == Children(s)[0];
      UncontinuedLoop(e, body, True(), True(), labels, front, st, fuel, skip);
    case DoWhile(body, e) =>
      assert BareInside(s, bare) == false;
      assert body == Children(s)[0];
      UncontinuedLoop(True(), body, True(), e, labels, front, st, fuel, skip);
    case For(init, e, adv, body) =>
      assert BareInside(s, bare) == false;
      assert body == Children(s)[0];
      InitCompletes(init, st);
      UncontinuedLoop(e, body, adv, True(), labels, front, ExecInit(init, st).st, fuel, skip);
    case Switch(e, cases, _) =>
      assert BareInside(s, bare) == bare;
      match FindCase(Eval(e, st).v, cases, Eval(e, st).st) {
        case TestThrows(_, _) =>
        case NotFound(st1) => UncontinuedFrom(s, |cases|, labels, bare, st1, fuel, skip);
        case Found(i, st1) => UncontinuedFrom(s, i, labels, bare, st1, fuel, skip);
      }
    case VarDecl(ds) => DeclsComplete(ds, st);
    case _ =>
  }

  lemma {:induction false} UncontinuedSeq<W>(ss: seq<Stmt<W>>, labels: set<Id>, bare: bool, st: Store<W>, fuel: nat, skip: bool)
    requires forall x <- ss :: !ContinuesTo(x, labels, bare)
    ensures var r := ExecSeq(ss, st, fuel, skip); r.Done? ==> !Escapes(r.c, labels, bare)
    decreases fuel, ss, 0
  {
    if ss != [] {
      UncontinuedBody(ss[0], labels, bare, {}, st, fuel, skip);
      var r := Exec(ss[0], {}, st, fuel, skip);
      if r.Done? { UncontinuedSeq(ss[1..], labels, bare, r.st, fuel, skip); }
    }
  }

  lemma {:induction false} UncontinuedFrom<W>(sw: Stmt<W>, i: nat, labels: set<Id>, bare: bool, st: Store<W>, fuel: nat, skip: bool)
    requires sw.Switch? && i <= |sw.cases| && forall c <- Children(sw) :: !ContinuesTo(c, labels, bare)
    ensures var r := ExecFrom(sw, i, st, fuel, skip); r.Done? ==> !Escapes(r.c, labels, bare)
    decreases fuel, sw, 0, |sw.cases| - i
  {
    if i == |sw.cases| {
      assert Children(sw)[i] == sw.default;
      UncontinuedBody(sw.default, labels, bare, {}, st, fuel, skip);
    } else {
      assert Children(sw)[i] == sw.cases[i].body;
      UncontinuedBody(sw.cases[i].body, labels, bare, {}, st, fuel, skip);
      var r := Exec(sw.cases[i].body, {}, st, fuel, skip);
      if r.Done? { UncontinuedFrom(sw, i + 1, labels, bare, r.st, fuel, skip); }
    }
  }

  lemma {:induction false} UncontinuedLoop<W>(pre: Expr<W>, body: Stmt<W>, adv: Expr<W>, post: Expr<W>, labels: set<Id>,
                                              front: set<Id>, st: Store<W>, fuel: nat, skip: bool)
    requires !ContinuesTo(body, labels, false)
    ensures var r := ExecLoop(pre, body, adv, post, front, st, fuel, skip); r.Done? ==> !Escapes(r.c, labels, true)
    decreases fuel, body, 2
  {
    if fuel != 0 {
      UncontinuedBody(body, labels, false, {}, Eval(pre, st).st, fuel, skip);
      var end := Round(pre, body, adv, post, front, st, fuel, skip);
      if end.Again? { UncontinuedLoop(pre, body, adv, post, labels, front, end.st, fuel - 1, skip); }
    }
  }

  lemma EndRoundAlwaysTrue<W(!new)>(r: Result<W>, adv: Expr<W>, post: Expr<W>, labels: set<Id>)
    requires AlwaysTrue(post)
    ensures EndRound(r, adv, post, labels, true) == EndRound(r, adv, post, labels, false)
  {
    if r.Done? && Eval(adv, r.st).Ok? { assert TrueInPlace(post, Eval(adv, r.st).st); }
  }

  lemma TrueIsAlwaysTrue<W(!new)>()
    ensures AlwaysTrue(True<W>())
  {
    forall st: Store<W>
      ensures TrueInPlace(True(), st)
    {
      assert Eval(True<W>(), st) == Ok(Bool(true), st);
    }
  }

  // When no `continue` skips a test that could make a difference, skipping makes none.
  lemma {:induction false} NothingSkipped<W(!new)>(s: Stmt<W>, front: set<Id>, st: Store<W>, fuel: nat)
    requires ContinuesHarmless(s, front)
    ensures Exec(s, front, st, fuel, true) == Exec(s, front, st, fuel, false)
    decreases fuel, s, 1
  {
    TrueIsAlwaysTrue<W>();
    assert forall c <- Children(s) :: ContinuesHarmless(c, FrontInside(s, front));
    assert s.Label? ==> FrontInside(s, front) == front + {s.name};
    match s
    case Block(ss) =>
      assert FrontInside(s, front) == {};
      NothingSkippedSeq(ss, st, fuel);
    case If(e, thn, els) =>
      assert FrontInside(s, front) == {};
      assert thn == Children(s)[0] && els == Children(s)[1];
      NothingSkipped(thn, {}, Eval(e, st).st, fuel);
      NothingSkipped(els, {}, Eval(e, st).st, fuel);
    case Label(l, body) =>
      assert body == Children(s)[0];
      NothingSkipped(body, front + {l}, st, fuel);
    case While(e, body) =>
      assert FrontInside(s, front) == {};
      assert body == Children(s)[0];
      NothingSkippedLoop(e, body, True(), True(), front, st, fuel);
    case DoWhile(body, e) =>
      assert FrontInside(s, front) == {};
      assert body == Children(s)[0];
      NothingSkippedLoop(True(), body, True(), e, front, st, fuel);
    case For(init, e, adv, body) =>
      assert FrontInside(s, front) == {};
      assert body == Children(s)[0];
      InitCompletes(init, st);
      NothingSkippedLoop(e, body, adv, True(), front, ExecInit(init, st).st, fuel);
    case Switch(e, cases, _) =>
      assert FrontInside(s, front) == {};
      match FindCase(Eval(e, st).v, cases, Eval(e, st).st) {
        case TestThrows(_, _) =>
        case NotFound(st1) => NothingSkippedFrom(s, |cases|, st1, fuel);
        case Found(i, st1) => NothingSkippedFrom(s, i, st1, fuel);
      }
    case _ =>
  }

  lemma {:induction false} NothingSkippedSeq<W(!new)>(ss: seq<Stmt<W>>, st: Store<W>, fuel: nat)
    requires forall x <- ss :: ContinuesHarmless(x, {})
    ensures ExecSeq(ss, st, fuel, true) == ExecSeq(ss, st, fuel, false)
    decreases fuel, ss, 0
  {
    if ss != [] {
      NothingSkipped(ss[0], {}, st, fuel);
      var r := Exec(ss[0], {}, st, fuel, true);
      if r.Done? { NothingSkippedSeq(ss[1..], r.st, fuel); }
    }
  }

  lemma {:induction false} NothingSkippedFrom<W(!new)>(sw: Stmt<W>, i: nat, st: Store<W>, fuel: nat)
    requires sw.Switch? && i <= |sw.cases| && forall c <- Children(sw) :: ContinuesHarmless(c, {})
    ensures ExecFrom(sw, i, st, fuel, true) == ExecFrom(sw, i, st, fuel, false)
    decreases fuel, sw, 0, |sw.cases| - i
  {
    if i == |sw.cases| {
      assert Children(sw)[i] == sw.default;
      NothingSkipped(sw.default, {}, st, fuel);
    } else {
      assert Children(sw)[i] == sw.cases[i].body;
      NothingSkipped(sw.cases[i].body, {}, st, fuel);
      var r := Exec(sw.cases[i].body, {}, st, fuel, true);
      if r.Done? { NothingSkippedFrom(sw, i + 1, r.st, fuel); }
    }
  }

  lemma {:induction false} NothingSkippedLoop<W(!new)>(pre: Expr<W>, body: Stmt<W>, adv: Expr<W>, post: Expr<W>, front: set<Id>,
                                                       st: Store<W>, fuel: nat)
    requires ContinuesHarmless(body, {})
    requires AlwaysTrue(post) || !ContinuesTo(body, front, true)
    ensures ExecLoop(pre, body, adv, post, front, st, fuel, true) == ExecLoop(pre, body, adv, post, front, st, fuel, false)
    decreases fuel, body, 2
  {
    if fuel != 0 {
      var st1 := Eval(pre, st).st;
      NothingSkipped(body, {}, st1, fuel);
      if AlwaysTrue(post) {
        EndRoundAlwaysTrue(Exec(body, {}, st1, fuel, true), adv, post, front);
      } else {
        UncontinuedBody(body, front, true, {}, st1, fuel, true);
      }
      var end := Round(pre, body, adv, post, front, st, fuel, true);
      assert Round(pre, body, adv, post, front, st, fuel, false) == end;
      if end.Again? { NothingSkippedLoop(pre, body, adv, post, front, end.st, fuel - 1); }
    }
  }

  // The desugared program means what JavaScript says it means.
  lemma LoopsPreserveMeaning<W(!new)>(s: Stmt<W>, names: Names, st: Store<W>, fuel: nat)
    requires WellFormed(s, {}, names) && ContinuesHarmless(s, {}) && Desugar(s, names).Some?
    ensures Exec(Desugar(s, names).value.0, {}, st, fuel, false) == Exec(s, {}, st, fuel, false)
  {
    LoopsKeepMeaning(s, names, st, fuel);
    NothingSkipped(s, {}, st, fuel);
  }

  // Where it does not.  The rest of a round is kept exactly when, after a `continue` to this loop, the
  // test would have changed nothing and would have been true.
  lemma SkippedTestIff<W(!new)>(r: Result<W>, e: Expr<W>, front: set<Id>)
    requires r.Done?
    ensures EndRound(r, True(), e, front, true) == EndRound(r, True(), e, front, false) <==>
            (r.c.Continues? && GoesOn(r.c, front) ==> TrueInPlace(e, r.st))
  {
    assert Eval(True<W>(), r.st) == Ok(Bool(true), r.st);
  }

  lemma SkippedRoundIff<W(!new)>(body: Stmt<W>, e: Expr<W>, front: set<Id>, st: Store<W>, fuel: nat)
    requires Exec(body, {}, st, fuel, true) == Exec(body, {}, st, fuel, false)
    ensures Round(True(), body, True(), e, front, st, fuel, true) == Round(True(), body, True(), e, front, st, fuel, false) <==>
            var r := Exec(body, {}, st, fuel, false);
            r.Done? && r.c.Continues? && GoesOn(r.c, front) ==> TrueInPlace(e, r.st)
  {
    var r := Exec(body, {}, st, fuel, false);
    assert Eval(True<W>(), st) == Ok(Bool(true), st);
    if r.Done? { SkippedTestIff(r, e, front); }
  }

  // Whenever a round ends by a `continue` to the loop and the test is false, JavaScript leaves the
  // loop in the store that the test gives, and the desugared loop goes round again without it.
  lemma ContinueSkipsTheTest<W>(body: Stmt<W>, e: Expr<W>, front: set<Id>, st: Store<W>, fuel: nat)
    requires fuel > 0 && Exec(body, {}, st, fuel, true) == Exec(body, {}, st, fuel, false)
    requires var r := Exec(body, {}, st, fuel, false);
             && r.Done? && r.c.Continues? && GoesOn(r.c, front)
             && Eval(e, r.st).Ok? && !Truthy(Eval(e, r.st).v)
    ensures var r := Exec(body, {}, st, fuel, false);
            && Exec(DoWhile(body, e), front, st, fuel, false) == Done(Normal, Eval(e, r.st).st)
            && Exec(DoWhile(body, e), front, st, fuel, true) == Exec(DoWhile(body, e), front, r.st, fuel - 1, true)
  {
    var r := Exec(body, {}, st, fuel, false);
    assert Eval(True<W>(), st) == Ok(Bool(true), st) && Eval(True<W>(), r.st) == Ok(Bool(true), r.st);
    assert EndRound(r, True(), e, front, false) == Stop(Done(Normal, Eval(e, r.st).st));
    assert EndRound(r, True(), e, front, true) == Again(r.st);
    assert Round(True(), body, True(), e, front, st, fuel, false) == Stop(Done(Normal, Eval(e, r.st).st));
    assert Round(True(), body, True(), e, front, st, fuel, true) == Again(r.st);
  }

  // `do { continue; } while (false)` stops after one round; its translation never stops.
  lemma {:induction false} DoContinueDiverges<W>(names: Names, st: Store<W>, fuel: nat)
    requires fuel > 0
    ensures var s: Stmt<W> := DoWhile(Continue(None), Lit(Bool(false)));
            && WellFormed(s, {}, names) && Desugar(s, names).Some?
            && Exec(s, {}, st, fuel, false) == Done(Normal, st)
            && Exec(Desugar(s, names).value.0, {}, st, fuel, false) == OutOfFuel
  {
    var s: Stmt<W> := DoWhile(Continue(None), Lit(Bool(false)));
    assert WellFormed(s, {}, names) by {
      assert Children(s) == [Continue(None)] && SeenInside(s, {}) == {};
      assert WellFormed(Stmt<W>.Continue(None), {}, names);
    }
    ScopedOne(s, Continue(None), false, {});
    assert JumpsScoped(Stmt<W>.Continue(None), true, {});
    AcceptsExactlyScoped(s, names);
    LoopsKeepMeaning(s, names, st, fuel);
    ContinueSkipsTheTest(Continue(None), Lit(Bool(false)), {}, st, fuel);
    DoContinueForever(st, fuel);
  }

  lemma {:induction false} DoContinueForever<W>(st: Store<W>, fuel: nat)
    ensures Exec(DoWhile(Continue(None), Lit(Bool(false))), {}, st, fuel, true) == OutOfFuel
  {
    if fuel > 0 {
      ContinueSkipsTheTest(Continue(None), Lit(Bool(false)), {}, st, fuel);
      DoContinueForever(st, fuel - 1);
    }
  }

  // ----- Which tests may be skipped -----

  // Every do..while loop that is continued has the test e.
  ghost predicate ContinuesOnly<W>(s: Stmt<W>, e: Expr<W>, front: set<Id>) {
    && (s.DoWhile? ==> s.cond == e || !ContinuesTo(s.body, front, true))
    && forall c <- Children(s) :: ContinuesOnly(c, e, FrontInside(s, front))
  }

  ghost predicate Kept<W(!new)>(s: Stmt<W>, names: Names)
    requires Desugar(s, names).Some?
  {
    forall st: Store<W>, fuel: nat :: Exec(Desugar(s, names).value.0, {}, st, fuel, false) == Exec(s, {}, st, fuel, false)
  }

  lemma {:induction false} AlwaysTrueHarmless<W(!new)>(s: Stmt<W>, e: Expr<W>, front: set<Id>)
    requires ContinuesOnly(s, e, front) && AlwaysTrue(e)
    ensures ContinuesHarmless(s, front)
    decreases s
  {
    forall c | c in Children(s)
      ensures ContinuesHarmless(c, FrontInside(s, front))
    {
      AlwaysTrueHarmless(c, e, FrontInside(s, front));
    }
  }

  // A loop that is continued in the store st and left in any other.
  ghost function ContinueIn<W>(st: Store<W>, e: Expr<W>): Stmt<W> {
    DoWhile(If(IsNot(st), Break(None), Continue(None)), e)
  }

  ghost function IsNot<W>(st: Store<W>): Expr<W> {
    Expr((other: Store<W>) => Ok(Bool(other != st), other))
  }

  lemma ContinueInHosts<W>(st: Store<W>, e: Expr<W>, names: Names)
    ensures var s := ContinueIn(st, e); WellFormed(s, {}, names) && ContinuesOnly(s, e, {}) && Desugar(s, names).Some?
  {
    var s := ContinueIn(st, e);
    var body := s.body;
    var b: Stmt<W>, c: Stmt<W> := Break(None), Continue(None);
    assert WellFormed(b, {}, names) && WellFormed(c, {}, names) && ContinuesOnly(b, e, {}) && ContinuesOnly(c, e, {});
    assert Children(body) == [b, c] && Children(s) == [body];
    assert WellFormed(body, {}, names) && ContinuesOnly(body, e, {});
    ScopedPair(body, b, c, true, {});
    ScopedOne(s, body, false, {});
    assert JumpsScoped(b, true, {}) && JumpsScoped(c, true, {});
    AcceptsExactlyScoped(s, names);
  }

  // JavaScript leaves the loop in the second round at the latest,
  lemma ContinueInEnds<W>(st: Store<W>, e: Expr<W>)
    requires !TrueInPlace(e, st)
    ensures Exec(ContinueIn(st, e), {}, st, 2, false).Done?
  {
    var body := ContinueIn(st, e).body;
    assert Eval(True<W>(), st) == Ok(Bool(true), st) && Eval(IsNot(st), st) == Ok(Bool(false), st);
    assert Exec(body, {}, st, 2, false) == Done(Continues(None), st);
    var end := Round(True(), body, True(), e, {}, st, 2, false);
    if end.Again? {
      var st1 := end.st;
      assert st1 != st && Eval(True<W>(), st1) == Ok(Bool(true), st1) && Eval(IsNot(st), st1) == Ok(Bool(true), st1);
      assert Exec(body, {}, st1, 1, false) == Done(Breaks(None), st1);
      assert Round(True(), body, True(), e, {}, st1, 1, false) == Stop(Done(Normal, st1));
    }
  }

  // and the translation goes round for ever.
  lemma {:induction false} ContinueInForever<W>(st: Store<W>, e: Expr<W>, fuel: nat)
    ensures Exec(ContinueIn(st, e), {}, st, fuel, true) == OutOfFuel
  {
    if fuel > 0 {
      var body := ContinueIn(st, e).body;
      assert Eval(True<W>(), st) == Ok(Bool(true), st) && Eval(IsNot(st), st) == Ok(Bool(false), st);
      assert Exec(body, {}, st, fuel, true) == Done(Continues(None), st);
      assert Round(True(), body, True(), e, {}, st, fuel, true) == Again(st);
      ContinueInForever(st, e, fuel - 1);
    }
  }

  // So a do..while loop with this test may be continued, in every program that the passes accept and
  // at every store, exactly when the test is always true.
  lemma ContinuedTestsExactly<W(!new)>(e: Expr<W>, names: Names)
    ensures AlwaysTrue(e) <==>
            forall s: Stmt<W> :: WellFormed(s, {}, names) && ContinuesOnly(s, e, {}) && Desugar(s, names).Some? ==> Kept(s, names)
  {
    if AlwaysTrue(e) {
      forall s: Stmt<W> | WellFormed(s, {}, names) && ContinuesOnly(s, e, {}) && Desugar(s, names).Some?
        ensures Kept(s, names)
      {
        AlwaysTrueHarmless(s, e, {});
        forall st: Store<W>, fuel: nat
          ensures Exec(Desugar(s, names).value.0, {}, st, fuel, false) == Exec(s, {}, st, fuel, false)
        {
          LoopsPreserveMeaning(s, names, st, fuel);
        }
      }
    } else {
      var st: Store<W> :| !TrueInPlace(e, st);
      ContinueInHosts(st, e, names);
      ContinueInEnds(st, e);
      LoopsKeepMeaning(ContinueIn(st, e), names, st, 2);
      ContinueInForever(st, e, 2);
      assert !Kept(ContinueIn(st, e), names);
    }
  }

  // ----- Which programs are accepted -----

  ghost function TargetsInside<W>(s: Stmt<W>, targets: set<Id>): set<Id> {
    if s.Label? && IsLoop(s.body) then targets + {s.name} else targets
  }

  ghost predicate LoopInside<W>(s: Stmt<W>, inLoop: bool) {
    inLoop || IsLoop(s)
  }

  // Every unlabelled jump is in a loop, and every labelled continue names a label written directly
  // on an enclosing loop.
  ghost predicate JumpsScoped<W>(s: Stmt<W>, inLoop: bool, targets: set<Id>) {
    && (s.Break? && s.target.None? ==> inLoop)
    && (s.Continue? ==> if s.target.None? then inLoop else s.target.value in targets)
    && forall c <- Children(s) :: JumpsScoped(c, LoopInside(s, inLoop), TargetsInside(s, targets))
  }

  lemma {:induction false} AcceptsExactlyScoped<W>(s: Stmt<W>, names: Names)
    requires WellFormed(s, {}, names)
    ensures Desugar(s, names).Some? <==> JumpsScoped(s, false, {})
  {
    WellFormedParts(s, {}, names);
    ExplicitBreaksKeepsShape(s, {}, names);
    ExplicitBreaksScoped(s, false, {});
    Accepts(ExplicitBreaks(s), Labelling([], map[], names), names, {}, {});
  }

  // What JumpsScoped says, child by child.
  lemma ScopedPair<W>(s: Stmt<W>, a: Stmt<W>, b: Stmt<W>, inLoop: bool, targets: set<Id>)
    requires Children(s) == [a, b]
    ensures JumpsScoped(s, inLoop, targets) <==>
            JumpsScoped(a, LoopInside(s, inLoop), TargetsInside(s, targets)) && JumpsScoped(b, LoopInside(s, inLoop), TargetsInside(s, targets))
  {
    assert [a, b][0] == a && [a, b][1] == b;
    assert !s.Break? && !s.Continue?;
  }

  lemma ScopedOne<W>(s: Stmt<W>, a: Stmt<W>, inLoop: bool, targets: set<Id>)
    requires Children(s) == [a]
    ensures JumpsScoped(s, inLoop, targets) <==> JumpsScoped(a, LoopInside(s, inLoop), TargetsInside(s, targets))
  {
    assert [a][0] == a;
    assert !s.Break? && !s.Continue?;
  }

  lemma ScopedBlock<W>(ss: seq<Stmt<W>>, inLoop: bool, targets: set<Id>)
    ensures JumpsScoped(Block(ss), inLoop, targets) <==> forall s <- ss :: JumpsScoped(s, inLoop, targets)
  {
    assert LoopInside(Block(ss), inLoop) == inLoop && TargetsInside(Block(ss), targets) == targets;
  }

  lemma GuardScoped<W>(e: Expr<W>, thn: Stmt<W>, targets: set<Id>)
    ensures JumpsScoped(Block([If(e, thn, Break(None))]), true, targets) <==> JumpsScoped(thn, true, targets)
  {
    var jump: Stmt<W> := Break(None);
    var guard := If(e, thn, jump);
    assert JumpsScoped(jump, true, targets);
    ScopedPair(guard, thn, jump, true, targets);
    ScopedOne(Block([guard]), guard, true, targets);
  }

  lemma DoBodyScoped<W>(body: Stmt<W>, e: Expr<W>, targets: set<Id>)
    ensures JumpsScoped(Block([body, If(e, Empty, Break(None))]), true, targets) <==> JumpsScoped(body, true, targets)
  {
    var nothing: Stmt<W> := Empty;
    var jump: Stmt<W> := Break(None);
    var test := If(e, nothing, jump);
    assert JumpsScoped(nothing, true, targets) && JumpsScoped(jump, true, targets);
    ScopedPair(test, nothing, jump, true, targets);
    ScopedPair(Block([body, test]), body, test, true, targets);
  }

  lemma {:induction false} ExplicitBreaksScoped<W>(s: Stmt<W>, inLoop: bool, targets: set<Id>)
    requires SwitchFree(s)
    ensures JumpsScoped(ExplicitBreaks(s), inLoop, targets) <==> JumpsScoped(s, inLoop, targets)
    decreases s
  {
    if IsLoop(s) {
      assert Children(s)[0] == s.body;
      ExplicitBreaksScoped(s.body, true, targets);
      LoopScoped(s, inLoop, targets);
      return;
    }
    match s
    case Block(ss) =>
      forall c | c in ss
        ensures JumpsScoped(ExplicitBreaks(c), inLoop, targets) <==> JumpsScoped(c, inLoop, targets)
      {
        ExplicitBreaksScoped(c, inLoop, targets);
      }
      BlockScoped(ss, inLoop, targets);
    case If(_, thn, els) =>
      assert Children(s)[0] == thn && Children(s)[1] == els;
      ExplicitBreaksScoped(thn, inLoop, targets);
      ExplicitBreaksScoped(els, inLoop, targets);
      ScopedPair(s, thn, els, inLoop, targets);
      ScopedPair(ExplicitBreaks(s), ExplicitBreaks(thn), ExplicitBreaks(els), inLoop, targets);
    case Label(_, body) =>
      assert Children(s)[0] == body;
      ExplicitBreaksScoped(body, inLoop, TargetsInside(s, targets));
      ExplicitBreaksLoops(body);
      ScopedOne(s, body, inLoop, targets);
      ScopedOne(ExplicitBreaks(s), ExplicitBreaks(body), inLoop, targets);
    case _ =>
  }

  lemma BlockScoped<W>(ss: seq<Stmt<W>>, inLoop: bool, targets: set<Id>)
    requires forall s <- ss :: JumpsScoped(ExplicitBreaks(s), inLoop, targets) <==> JumpsScoped(s, inLoop, targets)
    ensures JumpsScoped(ExplicitBreaks(Block(ss)), inLoop, targets) <==> JumpsScoped(Block(ss), inLoop, targets)
  {
    var ts := ExplicitBreaksSeq(ss);
    ExplicitBreaksSeqAt(ss);
    ScopedBlock(ss, inLoop, targets);
    ScopedBlock(ts, inLoop, targets);
    if forall t <- ts :: JumpsScoped(t, inLoop, targets) {
      forall i | 0 <= i < |ss|
        ensures JumpsScoped(ss[i], inLoop, targets)
      {
        assert ts[i] in ts;
      }
    }
  }

  lemma ExplicitBreaksLoops<W>(s: Stmt<W>)
    ensures IsLoop(ExplicitBreaks(s)) <==> IsLoop(s)
  {
  }

  lemma LoopScoped<W>(s: Stmt<W>, inLoop: bool, targets: set<Id>)
    requires IsLoop(s)
    requires JumpsScoped(ExplicitBreaks(s.body), true, targets) <==> JumpsScoped(s.body, true, targets)
    ensures JumpsScoped(ExplicitBreaks(s), inLoop, targets) <==> JumpsScoped(s, inLoop, targets)
  {
    var t := ExplicitBreaks(s);
    if s.DoWhile? { DoBodyScoped(ExplicitBreaks(s.body), s.cond, targets); } else { GuardScoped(s.cond, ExplicitBreaks(s.body), targets); }
    ScopedOne(s, s.body, inLoop, targets);
    ScopedOne(t, t.body, inLoop, targets);
  }

  // `targets` are the continue targets in scope that the source can name.
  ghost predicate SameTargets(st: Labelling, names: Names, targets: set<Id>) {
    forall l: Id :: Known(names, l) ==> (l in st.conts <==> l in targets)
  }

  lemma {:induction false} Accepts<W>(s: Stmt<W>, st: Labelling, names: Names, seen: set<Id>, targets: set<Id>)
    requires Context(st, names, seen, {}) && WellFormed(s, seen, names) && SameTargets(st, names, targets)
    ensures LabelLoops(s, st).Some? <==> JumpsScoped(s, st.breaks != [], targets)
    decreases s, 1
  {
    if IsLoop(s) {
      BareContext(st, names, seen);
      BodyWellFormed(s, seen, names);
      AcceptsLoop(s, FreshId(st.names, "break"), st.(names := AfterFresh(st.names, "break")), names, seen, targets, targets);
      ScopedOne(s, s.body, st.breaks != [], targets);
      return;
    }
    match s
    case Block(ss) =>
      BlockWellFormed(s, seen, names);
      ScopedBlock(ss, st.breaks != [], targets);
      AcceptsSeq(ss, st, names, seen, targets);
    case If(_, _, _) => AcceptsBranches(s, st, names, seen, targets);
    case Label(_, _) => AcceptsLabelled(s, st, names, seen, targets);
    case _ =>
  }

  lemma {:induction false} AcceptsBranches<W>(s: Stmt<W>, st: Labelling, names: Names, seen: set<Id>, targets: set<Id>)
    requires s.If? && Context(st, names, seen, {}) && WellFormed(s, seen, names) && SameTargets(st, names, targets)
    ensures LabelLoops(s, st).Some? <==> JumpsScoped(s, st.breaks != [], targets)
    decreases s, 0
  {
    BranchesWellFormed(s, seen, names);
    ScopedPair(s, s.thn, s.els, st.breaks != [], targets);
    Accepts(s.thn, st, names, seen, targets);
    if LabelLoops(s.thn, st).Some? {
      LabelLoopsRestores(s.thn, st, names, seen);
      Accepts(s.els, LabelLoops(s.thn, st).value.1, names, seen, targets);
    }
  }

  lemma {:induction false} AcceptsLabelled<W>(s: Stmt<W>, st: Labelling, names: Names, seen: set<Id>, targets: set<Id>)
    requires s.Label? && Context(st, names, seen, {}) && WellFormed(s, seen, names) && SameTargets(st, names, targets)
    ensures LabelLoops(s, st).Some? <==> JumpsScoped(s, st.breaks != [], targets)
    decreases s, 0
  {
    var Label(l, body) := s;
    BodyWellFormed(s, seen, names);
    ContextWidens(st, names, seen, seen + {l});
    ScopedOne(s, body, st.breaks != [], targets);
    if IsLoop(body) {
      BodyWellFormed(body, seen + {l}, names);
      AcceptsLoop(body, l, st, names, seen + {l}, targets, targets + {l});
      ScopedOne(body, body.body, st.breaks != [], targets + {l});
    } else {
      Accepts(body, st, names, seen + {l}, targets);
    }
  }

  lemma {:induction false} AcceptsLoop<W>(loop: Stmt<W>, b: Id, st: Labelling, names: Names, seen: set<Id>, targets: set<Id>, targets1: set<Id>)
    requires IsLoop(loop)
    requires Context(st, names, seen, {}) && WellFormed(loop.body, seen, names)
    requires b !in st.conts && Known(st.names, b) && (Known(names, b) ==> b in seen)
    requires SameTargets(st, names, targets) && targets1 == if Known(names, b) then targets + {b} else targets
    ensures LabelLoop(loop, EnterLoop(b, st)).Some? <==> JumpsScoped(loop.body, true, targets1)
    decreases loop.body, 2
  {
    var st1 := EnterLoop(b, st);
    EnteredContext(b, st, names, seen, seen);
    Accepts(loop.body, st1, names, seen, targets1);
    if LabelLoops(loop.body, st1).Some? { LabelLoopsRestores(loop.body, st1, names, seen); }
  }

  lemma {:induction false} AcceptsSeq<W>(ss: seq<Stmt<W>>, st: Labelling, names: Names, seen: set<Id>, targets: set<Id>)
    requires Context(st, names, seen, {}) && (forall s <- ss :: WellFormed(s, seen, names)) && SameTargets(st, names, targets)
    ensures LabelLoopsSeq(ss, st).Some? <==> forall s <- ss :: JumpsScoped(s, st.breaks != [], targets)
    decreases ss, 0
  {
    if ss != [] {
      Accepts(ss[0], st, names, seen, targets);
      if LabelLoops(ss[0], st).Some? {
        LabelLoopsRestores(ss[0], st, names, seen);
        AcceptsSeq(ss[1..], LabelLoops(ss[0], st).value.1, names, seen, targets);
      }
      assert forall s :: s in ss <==> s == ss[0] || s in ss[1..];
    }
  }
}

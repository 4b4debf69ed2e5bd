// The two control-flow desugarings in the order the compiler runs them.

module ControlDesugaring {
  import opened Common
  import opened Ids
  import opened JavaScript
  import opened Walk
  import DesugarLoops
  import DesugarSwitch
  import opened LoopCorrectness
  import opened SwitchCorrectness

  function Desugar<W>(s: Stmt<W>, names: Names): Option<(Stmt<W>, Names)> {
    match DesugarSwitch.Desugar(s, names)
    case None => None
    case Some((t, n1)) => DesugarLoops.Desugar(t, n1)
  }

  method DesugarInPlace<W>(program: Stmt<W>, ng: NameGen) returns (r: Option<Stmt<W>>)
    modifies ng
    ensures match Desugar(program, old(ng.nextName))
            case None => r == None
            case Some((t, names)) => r == Some(t) && ng.nextName == names
  {
    var t := DesugarSwitch.DesugarInPlace(program, ng);
    if t.None? { return None; }
    r := DesugarLoops.DesugarInPlace(t.value, ng);
  }

  // Every switch, every for, every do..while and every continue is gone, and what is left runs to
  // the same world with the same completion, on the same fuel.
  lemma PreservesMeaning<W(!new)>(s: Stmt<W>, names: Names, st: Store<W>, fuel: nat)
    requires Ready(s, {}, names) && ContinuesHarmless(s, {})
    requires Desugar(s, names).Some?
    ensures SameRun(Exec(s, {}, st, fuel, false), Exec(Desugar(s, names).value.0, {}, st, fuel, false), names)
    ensures NoContinues(Desugar(s, names).value.0)
  {
    var (t, n1) := DesugarSwitch.Desugar(s, names).value;
    OutputWellFormed(s, Top, [], names, names, {}, {});
    LoopsKeepMeaning(t, n1, st, fuel);
    SwitchPreservesMeaning(s, names, st, fuel, true);
    NothingSkipped(s, {}, st, fuel);
  }
}

// The four passes from nested functions to closures, one after another.

module Closures {
  import opened Common
  import opened Ids
  import opened FreeVariables
  import opened AssignAnalysis
  import opened Boxing
  import opened Environments

  // The program before boxing: free variables and sets to box written in.
  function Analysed(program: Node): Node {
    Collect(Annotate(program))
  }

  // The program after all passes.
  function Converted(program: Node, order: set<Id> -> seq<Id>): Node {
    Convert(Box(Analysed(program), GlobalsToBox(Annotate(program)), map[]).0, [], order)
  }

  lemma AnalysedIsPrepared(program: Node)
    requires Source(program) && Clean(program)
    ensures var r := Analysed(program);
            && Prepared(r) && Covered(r, GlobalsToBox(Annotate(program)))
            && Referenced(r) == Referenced(program) && Declared(r) == Declared(program) && Assigned(r) == Assigned(program)
            && GlobalsToBox(Annotate(program)) <= Assigned(program)
  {
    AnnotateAnnotates(program);
    CollectCollects(Annotate(program));
  }

  // A boxed program whose names are in scope converts to one that is well scoped, and back.
  lemma BoxedConverts(n: Node, r: Node, toBox: set<Id>, order: set<Id> -> seq<Id>, vars: set<Id>)
    requires BoxedWell(n, r, toBox, {}) && Enumerates(order) && Scoped(n, vars)
    ensures WellScoped(Convert(r, [], order), vars, 0)
    ensures Unconvert(Convert(r, [], order), [], order) == r && EnvsFaithful(Convert(r, [], order), [], order)
  {
    FreeVarsExact(n, vars);
    DisciplinedIsOpen(r, toBox);
    ConvertRoundTrip(r, [], order);
    ConvertFaithful(r, [], order);
    assert Elements([]) == {};
    ConvertWellScoped(r, [], order, vars);
  }

  // For every program whose free names are the runtime's: boxing is consistent, no function assigns
  // what it does not own, every function of the result mentions only its own variables and entries
  // that its environment has, and the environments hold the variables that were there.
  method Prepare(program: Node, order: set<Id> -> seq<Id>, runtime: set<Id>) returns (r: Node, ghost boxed: Node)
    requires Source(program) && Clean(program) && NoneInvented(Assigned(program)) && Enumerates(order)
    requires Scoped(program, runtime + Declared(program))
    ensures r == Converted(program, order) && boxed == Box(Analysed(program), GlobalsToBox(Annotate(program)), map[]).0
    ensures Disciplined(boxed, GlobalsToBox(Annotate(program))) && NoFreeAssign(boxed, {})
    ensures WellScoped(r, runtime + Declared(program), 0) && Unconvert(r, [], order) == boxed && EnvsFaithful(r, [], order)
  {
    var annotated := Annotate(program);
    ghost var globals0 := GlobalsToBox(annotated);
    AnalysedIsPrepared(program);
    BoxCorrect(Analysed(program), globals0, map[], {});
    FreeVarsExact(program, runtime + Declared(program));
    FreeVarsExact(Analysed(program), runtime + Declared(program));
    BoxedConverts(Analysed(program), Box(Analysed(program), globals0, map[]).0, globals0, order, runtime + Declared(program));
    AnnotateAnnotates(program);
    var collected, globals := CollectAssignsIn(annotated);
    var b := new BoxVisitor(globals);
    boxed := Box(Analysed(program), globals0, map[]).0;
    var boxed1 := b.Walk(collected);
    var c := new ClosureConversion(order);
    r := c.Walk(boxed1);
  }
}

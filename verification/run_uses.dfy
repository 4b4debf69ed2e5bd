// What a program may do in a run: whatever it has at hand it may store, read and allocate.

module RunUses {
  import opened Common
  import opened ClassLists
  import opened Collection
  import opened HeapValues
  import opened ManagedHeap
  import opened Mutator
  import opened ObjectInsertion
  import opened Objects
  import opened Runs

  // A block is at hand when the shadow stack leads to it, when it was made since the last collection,
  // or when it is a static string.
  ghost predicate BlockAtHand(c: Config, a: Addr) {
    a in c.s.mem && (a in Reach(c.s) || a in c.young || a !in c.s.listed)
  }

  // So is a value that names such a block, a live number, or neither.
  ghost predicate ValueAtHand(c: Config, v: AnyVal) {
    match v
    case Ptr(a) => BlockAtHand(c, a)
    case Closure(e, _) => BlockAtHand(c, e)
    case F64(p) => p.upper == c.s.floats.upper && p.slot < c.s.floats.next && p.slot < LEN - 1
    case _ => true
  }

  // A block as its allocation makes it: an array of values, a box, an environment, a string, a number.
  predicate Formed(b: Block) {
    && !b.marked
    && match b.shape
       case Str(_) => b.cells == []
       case NonPtr32(_) => b.cells == []
       case Array => forall i :: 0 <= i < |b.cells| ==> b.cells[i].Some?
       case AnyBox => |b.cells| == 1 && b.cells[0].Some?
       case PtrBox => |b.cells| == 1 && b.cells[0].Some? && b.cells[0].value.Ptr?
       case Env(_) => true
       case _ => false
  }

  ghost predicate ContentsAtHand(c: Config, b: Block) {
    && (forall i :: 0 <= i < |b.cells| && b.cells[i].Some? ==> ValueAtHand(c, b.cells[i].value))
    && (b.shape.Env? ==> BlockAtHand(c, b.shape.fnObj))
  }

  // A run may begin in any heap as it is made.
  lemma HeapAsMadeBegins(h: Heap)
    requires Valid(h.Abs()) && h.allocList == []
    ensures Begins(Config(h.Abs(), {}))
  {
  }

  // ----- Steps -----

  lemma ValueIsUsable(c: Config, v: AnyVal)
    requires ValueAtHand(c, v)
    ensures UsableValue(c, v)
    ensures c.young == {} ==> Rooted(c.s, v)
  {
  }

  lemma ContentsUsable(c: Config, b: Block)
    requires Formed(b) && ContentsAtHand(c, b)
    ensures forall x <- Tags(b, c.s.classes) :: BlockAtHand(c, x)
    ensures forall x <- b.cells :: CellLive(c.s.floats, x)
  {
    forall x | x in Tags(b, c.s.classes)
      ensures BlockAtHand(c, x)
    {
      TagsExact(b, c.s.classes, x);
      if i :| 0 <= i < |b.cells| && HoldsAddr(b.cells[i], x) { assert ValueAtHand(c, b.cells[i].value); }
    }
  }

  // A formed block of what is at hand may be made, now if it fits,
  lemma BlockMayBeMade(c: Config, at: Addr, b: Block)
    requires Ok(c) && at !in c.s.mem && Formed(b) && ContentsAtHand(c, b)
    ensures Runs.Plain(b.shape) && Storable(c.s, b)
    ensures Fits(c.s, b) ==> Step(c, NewBlock(at, b), Config(Allocated(c.s, at, b), c.young + {at}))
    ensures c.young == {} ==> Survives(c.s, b)
  {
    ContentsUsable(c, b);
    assert WellShaped(b, c.s.classes);
    assert forall x <- Tags(b, c.s.classes) :: Usable(c, x);
  }

  // stored into,
  lemma CellMayBeWritten(c: Config, a: Addr, i: nat, v: AnyVal)
    requires Ok(c) && a in c.s.listed && BlockAtHand(c, a) && ValueAtHand(c, v) && i < |c.s.mem[a].cells|
    requires c.s.mem[a].shape.Array? || c.s.mem[a].shape.AnyBox? || c.s.mem[a].shape.Env? || (c.s.mem[a].shape.PtrBox? && v.Ptr?)
    ensures Step(c, Write(a, i, v), c.(s := c.s.(mem := c.s.mem[a := c.s.mem[a].(cells := c.s.mem[a].cells[i := Some(v)])])))
  {
    ValueIsUsable(c, v);
    assert BlockGood(c.s, a);
    var cells := c.s.mem[a].cells;
    forall x | x in cells[i := Some(v)]
      ensures x in cells || x == Some(v)
    {
    }
  }

  lemma ArrayMayGrow(c: Config, a: Addr, v: AnyVal)
    requires Ok(c) && a in c.s.listed && BlockAtHand(c, a) && ValueAtHand(c, v) && c.s.mem[a].shape.Array?
    ensures Step(c, Append(a, v), c.(s := c.s.(mem := c.s.mem[a := c.s.mem[a].(cells := c.s.mem[a].cells + [Some(v)])])))
  {
    ValueIsUsable(c, v);
    assert BlockGood(c.s, a);
  }

  // and rooted.
  lemma RootMayBeSet(c: Config, frame: nat, slot: nat, r: Option<Addr>)
    requires Ok(c) && frame < |c.s.shadow| && slot < |c.s.shadow[frame]| && (r.Some? ==> BlockAtHand(c, r.value))
    ensures Step(c, SetRoot(frame, slot, r), c.(s := c.s.(shadow := c.s.shadow[frame := c.s.shadow[frame][slot := r]])))
  {
  }

  // Any name may be put into any rooted object, as long as there are class tags left.
  lemma FieldMayBePut(s: State, o: Addr, name: StringPtr, at: Addr, v: AnyVal)
    requires ObjectsGood(s) && IsObject(s, o) && o in Reach(s) && ValueAtHand(Config(s, {}), v) && EnvsComplete(s)
    requires name.ptr in s.mem && name.ptr !in s.listed && s.mem[name.ptr].shape == Str(name.text)
    requires at !in s.mem && |s.classes| < 0x1_0000
    ensures InsertReady(s, o, name, at) && Rooted(s, v)
  {
    ValueIsUsable(Config(s, {}), v);
    assert GoodObject(s, o);
  }

  // ----- Environments -----

  ghost predicate Complete(s: State, a: Addr) {
    a in s.mem && s.mem[a].shape.Env? ==> forall i :: 0 <= i < |s.mem[a].cells| ==> s.mem[a].cells[i].Some?
  }

  // Every environment that is reachable has all its entries.
  ghost predicate EnvsComplete(s: State) {
    forall a <- Reach(s) :: Complete(s, a)
  }

  lemma CompleteIsFilled(s: State)
    requires EnvsComplete(s)
    ensures EnvsFilled(s)
  {
    forall a | a in s.mem && s.mem[a].shape.Env? && a in Reach(s)
      ensures forall x <- s.mem[a].cells :: x.Some?
    {
      assert Complete(s, a);
    }
  }

  lemma EmptyReads(f: Floats, cells: seq<Option<AnyVal>>)
    requires f.Valid() && forall x <- cells :: CellLive(f, x)
    ensures |Reads(f, cells)| == |cells|
    ensures forall i :: 0 <= i < |cells| ==> (Reads(f, cells)[i] == Reading.Plain(None) <==> cells[i].None?)
  {
    forall i | 0 <= i < |cells|
      ensures Reads(f, cells)[i] == Reading.Plain(None) <==> cells[i].None?
    {
      assert Reads(f, cells)[i] == ReadCell(f, cells[i]);
    }
  }

  lemma ChangedIsSome(op: Op, a: Addr, v: Reading, was: seq<Reading>, now: seq<Reading>, i: nat)
    requires CellsChange(op, a, v, was, now) && i < |now| && (op.Write? || op.Append? ==> v != Reading.Plain(None))
    requires forall j :: 0 <= j < |was| ==> was[j] != Reading.Plain(None)
    ensures now[i] != Reading.Plain(None)
  {
  }

  lemma CellStaysSome(c: Config, op: Op, d: Config, a: Addr, i: nat)
    requires Ok(c) && Ok(d) && IsPlain(d.s, a) && BlockGood(d.s, a) && CellsOf(c, op, d, a) && !(op.NewBlock? && op.at == a)
    requires Complete(c.s, a) && d.s.mem[a].shape.Env? && i < |Reads(d.s.floats, d.s.mem[a].cells)|
    ensures Reads(d.s.floats, d.s.mem[a].cells)[i] != Reading.Plain(None)
  {
    assert BlockGood(c.s, a);
    EmptyReads(c.s.floats, c.s.mem[a].cells);
    ChangedIsSome(op, a, Stored(c, op), Reads(c.s.floats, c.s.mem[a].cells), Reads(d.s.floats, d.s.mem[a].cells), i);
  }

  // Once an environment is complete it stays so.
  lemma StaysComplete(c: Config, op: Op, d: Config, a: Addr)
    requires Ok(c) && Ok(d) && CellsFollow(c, op, d) && Complete(c.s, a) && !(op.NewBlock? && op.at == a)
    ensures Complete(d.s, a)
  {
    if a in d.s.mem && d.s.mem[a].shape.Env? {
      assert a in d.s.listed || StaticString(d.s, a);
      assert CellsOf(c, op, d, a) && BlockGood(d.s, a);
      EmptyReads(d.s.floats, d.s.mem[a].cells);
      forall i | 0 <= i < |d.s.mem[a].cells|
        ensures d.s.mem[a].cells[i].Some?
      {
        CellStaysSome(c, op, d, a, i);
      }
    }
  }

  // What is allocated as an environment is filled in later, but before there is a collection.
  ghost predicate FilledBefore(c: Config, op: Op) {
    op.Collect? ==> forall a <- c.young :: Complete(c.s, a)
  }

  ghost predicate OldComplete(c: Config) {
    forall a <- c.s.mem.Keys :: a in c.young || Complete(c.s, a)
  }

  lemma StepKeepsComplete(c: Config, op: Op, d: Config)
    requires Ok(c) && Step(c, op, d) && OldComplete(c) && FilledBefore(c, op)
    ensures Ok(d) && OldComplete(d)
  {
    StepChangesCells(c, op, d);
    forall a | a in d.s.mem && a !in d.young
      ensures Complete(d.s, a)
    {
      assert !(op.NewBlock? && op.at == a);
      StaysComplete(c, op, d, a);
    }
  }

  lemma NoEnvsYet(c: Config)
    requires Begins(c)
    ensures Ok(c) && OldComplete(c)
  {
    BeginsOk(c);
    forall a | a in c.s.mem
      ensures Complete(c.s, a)
    {
      assert StaticString(c.s, a);
    }
  }

  lemma AllFilled(c: Config)
    requires OldComplete(c) && forall a <- c.young :: Complete(c.s, a)
    ensures EnvsFilled(c.s)
  {
    CompleteIsFilled(c.s);
  }

  lemma {:induction false} OldStayComplete(cs: seq<Config>, ops: seq<Op>, n: nat)
    requires Run(cs, ops) && Begins(cs[0]) && n <= |ops| && forall i :: 0 <= i < n ==> FilledBefore(cs[i], ops[i])
    ensures Ok(cs[n]) && OldComplete(cs[n])
  {
    if n == 0 {
      NoEnvsYet(cs[0]);
    } else {
      OldStayComplete(cs, ops, n - 1);
      assert StepAt(cs, ops, n - 1);
      assert FilledBefore(cs[n - 1], ops[n - 1]);
      StepKeepsComplete(cs[n - 1], ops[n - 1], cs[n]);
    }
  }

  // Over every run that fills its environments before the next collection, no collection meets an
  // empty entry: all environments are complete but those made since the last one.
  lemma EnvsFilledInTime(cs: seq<Config>, ops: seq<Op>, n: nat)
    requires Run(cs, ops) && Begins(cs[0]) && n <= |ops| && forall i :: 0 <= i < n ==> FilledBefore(cs[i], ops[i])
    ensures OldComplete(cs[n])
    ensures (forall a <- cs[n].young :: Complete(cs[n].s, a)) ==> EnvsFilled(cs[n].s)
  {
    OldStayComplete(cs, ops, n);
    if forall a <- cs[n].young :: Complete(cs[n].s, a) { AllFilled(cs[n]); }
  }

  // ----- What was just made -----

  predicate Makes(op: Op, a: Addr) {
    || (op.NewBlock? && op.at == a) || (op.NewData? && op.at == a) || (op.NewObject? && a in {op.at, op.dataAt})
    || (op.PutNew? && op.dataAt == a)
  }

  lemma StepKeepsYoung(c: Config, op: Op, d: Config, a: Addr)
    requires Step(c, op, d) && !op.Collect? && (a in c.young || Makes(op, a))
    ensures a in d.young
  {
  }

  // What an operation makes is at hand until there is a collection, rooted or not.
  lemma {:induction false} YoungIsAtHand(cs: seq<Config>, ops: seq<Op>, made: nat, n: nat, a: Addr)
    requires Run(cs, ops) && Begins(cs[0]) && made < n <= |ops| && Makes(ops[made], a)
    requires forall i :: made <= i < n ==> !ops[i].Collect?
    ensures a in cs[n].young && BlockAtHand(cs[n], a)
    decreases n
  {
    if made < n - 1 { YoungIsAtHand(cs, ops, made, n - 1, a); }
    assert StepAt(cs, ops, n - 1);
    StepKeepsYoung(cs[n - 1], ops[n - 1], cs[n], a);
    RunStaysOk(cs, ops, n);
  }
}

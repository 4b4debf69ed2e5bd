// Whole runs of a program on the heap: nothing ever dangles, no byte is lost, and objects are maps.

module Runs {
  import opened Common
  import opened ClassLists
  import opened HeapValues
  import opened Collection
  import opened Mutator
  import opened ManagedHeap
  import opened Objects
  import opened ObjectInsertion

  // `young` are the blocks allocated since the last collection: the program still has them at hand
  // although no root leads to them yet.
  datatype Config = Config(s: State, young: set<Addr>)

  datatype Op =
    | NewBlock(at: Addr, b: Block)
    | NewObject(at: Addr, dataAt: Addr)
    | NewData(at: Addr)
    | NewFloat(x: Float)
    | Write(a: Addr, i: nat, v: AnyVal)
    | Append(a: Addr, v: AnyVal)
    | PutOld(o: Addr, text: string, v: AnyVal)
    | Grow(c: nat, name: StringPtr)
    | PutNew(o: Addr, name: StringPtr, dataAt: Addr, v: AnyVal)
    | SetRoot(frame: nat, slot: nat, r: Option<Addr>)
    | Enter(slots: nat)
    | Leave
    | Collect

  ghost predicate Usable(c: Config, a: Addr) {
    a in c.s.mem && (a in Reach(c.s) || a in c.young || a !in c.s.listed)
  }

  ghost predicate UsableValue(c: Config, v: AnyVal) {
    (CellAddr(Some(v)).Some? ==> Usable(c, CellAddr(Some(v)).value)) && CellLive(c.s.floats, Some(v))
  }

  // Strings, arrays, boxes and environments; objects are made and changed by their own operations,
  // of which a half-done one leaves data that no object has.
  predicate Plain(shape: Shape) {
    !shape.ObjectData? && !shape.ObjectPtrPtr?
  }

  ghost predicate Holds(c: Config, a: Addr, cells: seq<Option<AnyVal>>) {
    && a in c.s.listed && Usable(c, a) && Plain(c.s.mem[a].shape)
    && WellShaped(c.s.mem[a].(cells := cells), c.s.classes)
  }

  // An empty object: data of the empty class, and the pointer block.
  ghost function EmptyObject(s: State, at: Addr, dataAt: Addr): State
    requires s.classes != []
  {
    Allocated(Allocated(s, dataAt, EmptyData(s, 0)), at, Block(false, ObjectPtrPtr(dataAt), []))
  }

  ghost predicate MakesObject(c: Config, at: Addr, dataAt: Addr, d: Config) {
    && at !in c.s.mem && dataAt !in c.s.mem && at != dataAt && c.s.classes != []
    && Fits(c.s, EmptyData(c.s, 0))
    && Fits(Allocated(c.s, dataAt, EmptyData(c.s, 0)), Block(false, ObjectPtrPtr(dataAt), []))
    && d == Config(EmptyObject(c.s, at, dataAt), c.young + {at, dataAt})
  }

  ghost predicate MakesData(c: Config, at: Addr, d: Config) {
    && at !in c.s.mem && c.s.classes != [] && Fits(c.s, EmptyData(c.s, 0))
    && d == Config(Allocated(c.s, at, EmptyData(c.s, 0)), c.young + {at})
  }

  ghost predicate HasObject(c: Config, o: Addr, v: AnyVal) {
    Usable(c, o) && GoodObject(c.s, o) && ValidClasses(c.s.classes) && UsableValue(c, v)
  }

  ghost predicate Overwrites(c: Config, o: Addr, text: string, v: AnyVal, d: Config) {
    && HasObject(c, o, v) && OwnSlot(c.s, o, text).Some?
    && d == c.(s := Overwritten(c.s, DataOf(c.s, o), OwnSlot(c.s, o, text).value, v))
  }

  ghost predicate AddsClass(c: Config, k: nat, name: StringPtr, d: Config) {
    && k < |c.s.classes| && HasTag(c.s.classes, k, name.text) && Slot(c.s.classes[k], name.text) == None && NameStatic(c.s, name)
    && d == c.(s := c.s.(classes := AfterTransition(c.s.classes, k, name).0))
  }

  // The object's new data, at `at`, of the class that the transition leads to.
  ghost predicate MovesObject(c: Config, o: Addr, name: StringPtr, at: Addr, v: AnyVal, d: Config) {
    && HasObject(c, o, v) && OwnSlot(c.s, o, name.text) == None && NameStatic(c.s, name) && at !in c.s.mem
    && var next := Find(ClassOf(c.s, o).transitions, name.text);
    && next.Some? && next.value < |c.s.classes| && Fits(c.s, EmptyData(c.s, next.value))
    && d == Config(Relaid(Allocated(c.s, at, EmptyData(c.s, next.value)), o, at, v), c.young + {at})
  }

  // The program only handles what it can get at.
  ghost predicate Step(c: Config, op: Op, d: Config) {
    match op
    case NewBlock(at, b) =>
      && at !in c.s.mem && !b.marked && Plain(b.shape) && WellShaped(b, c.s.classes) && Fits(c.s, b)
      && (forall x <- Tags(b, c.s.classes) :: Usable(c, x)) && (forall x <- b.cells :: CellLive(c.s.floats, x))
      && d == Config(Allocated(c.s, at, b), c.young + {at})
    case NewObject(at, dataAt) => MakesObject(c, at, dataAt, d)
    case NewData(at) => MakesData(c, at, d)
    case NewFloat(x) => c.s.floats.Valid() && c.s.floats.next < LEN - 1 && d == c.(s := c.s.(floats := c.s.floats.AfterAlloc(x)))
    case Write(a, i, v) =>
      && a in c.s.mem && i < |c.s.mem[a].cells| && UsableValue(c, v)
      && Holds(c, a, c.s.mem[a].cells[i := Some(v)])
      && d == c.(s := WithCells(c.s, a, c.s.mem[a].cells[i := Some(v)]))
    case Append(a, v) =>
      && a in c.s.mem && c.s.mem[a].shape.Array? && UsableValue(c, v)
      && Holds(c, a, c.s.mem[a].cells + [Some(v)])
      && d == c.(s := WithCells(c.s, a, c.s.mem[a].cells + [Some(v)]))
    case PutOld(o, text, v) => Overwrites(c, o, text, v, d)
    case Grow(k, name) => AddsClass(c, k, name, d)
    case PutNew(o, name, at, v) => MovesObject(c, o, name, at, v, d)
    case SetRoot(frame, slot, r) =>
      && frame < |c.s.shadow| && slot < |c.s.shadow[frame]| && (r.Some? ==> Usable(c, r.value))
      && d == c.(s := WithRoot(c.s, frame, slot, r))
    case Enter(slots) => d == c.(s := FrameEntered(c.s, slots))
    case Leave => c.s.shadow != [] && d == c.(s := FrameLeft(c.s))
    case Collect => EnvsFilled(c.s) && Collected(c.s, d.s) && d.young == {}
  }

  // Nothing in memory is dangling, and every byte is accounted for.
  ghost predicate Safe(c: Config) {
    && (forall a <- c.s.mem.Keys :: NothingDangles(c.s, a))
    && (forall a <- c.young :: a in c.s.mem)
    && (forall a <- Roots(c.s.shadow) :: a in c.s.mem)
    && c.s.used == Bytes(c.s, c.s.listed) <= c.s.size
  }

  ghost predicate Ok(c: Config) {
    ObjectsGood(c.s) && forall a <- c.young :: a in c.s.mem
  }

  lemma OkIsSafe(c: Config)
    requires Ok(c)
    ensures Safe(c)
  {
    forall a | a in c.s.mem
      ensures NothingDangles(c.s, a)
    {
      GoodIsPresent(c.s, a);
    }
  }

  // ----- What a step does to the fields of objects -----

  predicate Puts(op: Op, p: Addr, text: string) {
    || (op.PutOld? && op.o == p && op.text == text)
    || (op.PutNew? && op.o == p && op.name.text == text)
  }

  // What the program will see where it stores the value.
  ghost function CellReading(c: Config, x: Option<AnyVal>): Reading {
    if c.s.floats.Valid() && CellLive(c.s.floats, x) then ReadCell(c.s.floats, x) else Reading.Plain(x)
  }

  ghost function PutReading(c: Config, v: AnyVal): Reading {
    CellReading(c, Some(v))
  }

  ghost predicate FieldsOf(c: Config, op: Op, d: Config, p: Addr)
    requires Ok(c) && Ok(d) && IsObject(d.s, p)
  {
    assert GoodObject(d.s, p);
    if op.NewObject? && op.at == p then forall text :: Field(d.s, p, text) == None
    else
      && IsObject(c.s, p) && GoodObject(c.s, p)
      && forall text :: Field(d.s, p, text) == if Puts(op, p, text) then Some(PutReading(c, op.v)) else Field(c.s, p, text)
  }

  // The step did what it should to every object that there is now.
  ghost predicate FieldsFollow(c: Config, op: Op, d: Config) {
    Ok(c) && Ok(d) && forall p :: IsObject(d.s, p) ==> FieldsOf(c, op, d, p)
  }

  // No object and no object's data has been touched.
  ghost predicate LeavesObjects(s: State, t: State) {
    && Valid(t) && t.classes == s.classes && FloatsGrow(s.floats, t.floats)
    && (forall p :: IsObject(t, p) ==> IsObject(s, p))
    && (forall p :: IsObject(s, p) ==> SameBlock(s, t, p) && SameBlock(s, t, DataOf(s, p)))
  }

  ghost predicate SameBlock(s: State, t: State, a: Addr) {
    a in s.mem && a in t.mem && t.mem[a] == s.mem[a] && (a in s.listed ==> a in t.listed)
  }

  lemma LeftAlone(s: State, t: State)
    requires ObjectsGood(s) && LeavesObjects(s, t)
    ensures ObjectsGood(t) && forall p :: IsObject(s, p) ==> SameFields(s, t, p)
  {
    forall p | IsObject(s, p)
      ensures SameFields(s, t, p)
    {
      assert GoodObject(s, p);
      assert SameBlock(s, t, p) && SameBlock(s, t, DataOf(s, p));
      SameCellsSameData(s, t, DataOf(s, p));
      SameDataSameFields(s, t, p);
    }
    UnsharedStays(s, t);
  }

  lemma SameCellsSameData(s: State, t: State, d: Addr)
    requires FloatsGrow(s.floats, t.floats) && d in s.mem && d in t.mem && t.mem[d] == s.mem[d]
    requires forall i :: 0 <= i < |s.mem[d].cells| ==> CellLive(s.floats, s.mem[d].cells[i])
    ensures SameData(s, t, d)
  {
  }

  // Such steps are no news for any object.
  lemma PlainFollow(c: Config, op: Op, d: Config)
    requires Ok(c) && LeavesObjects(c.s, d.s) && (forall a <- d.young :: a in d.s.mem)
    requires !op.NewObject? && !op.PutOld? && !op.PutNew?
    ensures FieldsFollow(c, op, d)
  {
    LeftAlone(c.s, d.s);
    SameFollow(c, op, d);
  }

  lemma SameFollow(c: Config, op: Op, d: Config)
    requires Ok(c) && Ok(d) && !op.NewObject? && !op.PutOld? && !op.PutNew?
    requires forall p :: IsObject(d.s, p) ==> IsObject(c.s, p) && SameFields(c.s, d.s, p)
    ensures FieldsFollow(c, op, d)
  {
  }

  // ----- Step by step -----

  lemma NewBlockFollows(c: Config, at: Addr, b: Block, d: Config)
    requires Ok(c) && Step(c, NewBlock(at, b), d)
    ensures FieldsFollow(c, NewBlock(at, b), d)
  {
    AllocIsValid(c.s, at, b);
    forall p | IsObject(c.s, p)
      ensures SameBlock(c.s, d.s, p) && SameBlock(c.s, d.s, DataOf(c.s, p))
    {
      assert GoodObject(c.s, p);
    }
    PlainFollow(c, NewBlock(at, b), d);
  }

  lemma NewFloatFollows(c: Config, x: Float, d: Config)
    requires Ok(c) && Step(c, NewFloat(x), d)
    ensures FieldsFollow(c, NewFloat(x), d)
  {
    FloatsAreValid(c.s, x);
    AllocKeepsFloats(c.s.floats, x);
    ObjectsAllocated(c.s);
    PlainFollow(c, NewFloat(x), d);
  }

  lemma ObjectsAllocated(s: State)
    requires ObjectsGood(s)
    ensures forall p :: IsObject(s, p) ==> p in s.mem && DataOf(s, p) in s.mem
  {
    forall p | IsObject(s, p)
      ensures DataOf(s, p) in s.mem
    {
      assert GoodObject(s, p);
    }
  }

  lemma WriteFollows(c: Config, op: Op, a: Addr, cells: seq<Option<AnyVal>>, v: AnyVal, d: Config)
    requires Ok(c) && Holds(c, a, cells) && UsableValue(c, v) && (op.Write? || op.Append?)
    requires forall x <- cells :: x == Some(v) || x in c.s.mem[a].cells
    requires c.s.mem[a].shape.Array? || |cells| == |c.s.mem[a].cells|
    requires d == c.(s := WithCells(c.s, a, cells))
    ensures FieldsFollow(c, op, d)
  {
    assert BlockGood(c.s, a);
    if CellAddr(Some(v)).Some? { assert Usable(c, CellAddr(Some(v)).value); }
    WrittenStorable(c.s, a, cells, v);
    WithCellsIsValid(c.s, a, cells);
    WriteLeaves(c.s, a, cells);
    PlainFollow(c, op, d);
  }

  lemma WriteLeaves(s: State, a: Addr, cells: seq<Option<AnyVal>>)
    requires ObjectsGood(s) && a in s.mem && Plain(s.mem[a].shape) && Valid(WithCells(s, a, cells))
    ensures LeavesObjects(s, WithCells(s, a, cells))
  {
    forall p | IsObject(s, p)
      ensures SameBlock(s, WithCells(s, a, cells), p) && SameBlock(s, WithCells(s, a, cells), DataOf(s, p))
    {
      assert GoodObject(s, p);
    }
  }

  lemma RootsFollow(c: Config, op: Op, d: Config)
    requires Ok(c) && Step(c, op, d) && (op.SetRoot? || op.Enter? || op.Leave?)
    ensures FieldsFollow(c, op, d)
  {
    ShadowStepValid(c, op, d);
    ObjectsAllocated(c.s);
    PlainFollow(c, op, d);
  }

  lemma ShadowStepValid(c: Config, op: Op, d: Config)
    requires Ok(c) && Step(c, op, d) && (op.SetRoot? || op.Enter? || op.Leave?)
    ensures Valid(d.s) && d == c.(s := c.s.(shadow := d.s.shadow))
  {
    match op {
      case SetRoot(frame, slot, r) => WithRootIsValid(c.s, frame, slot, r);
      case Enter(slots) => FramesAreValid(c.s, slots);
      case Leave => FramesAreValid(c.s, 0);
    }
  }

  lemma GrowFollows(c: Config, k: nat, name: StringPtr, d: Config)
    requires Ok(c) && AddsClass(c, k, name, d)
    ensures FieldsFollow(c, Grow(k, name), d)
  {
    TransitionIsNew(c.s, k, name);
    ClassesGrow(c.s, d.s.classes);
    SameFollow(c, Grow(k, name), d);
  }

  lemma CollectFollows(c: Config, d: Config)
    requires Ok(c) && Step(c, Collect, d)
    ensures FieldsFollow(c, Collect, d)
  {
    CollectedKeepsObjects(c.s, d.s);
    forall p | IsObject(d.s, p)
      ensures IsObject(c.s, p) && SameFields(c.s, d.s, p)
    {
      CollectedWasObject(c.s, d.s, p);
    }
    SameFollow(c, Collect, d);
  }

  lemma NewObjectFollows(c: Config, at: Addr, dataAt: Addr, d: Config)
    requires Ok(c) && MakesObject(c, at, dataAt, d)
    ensures FieldsFollow(c, NewObject(at, dataAt), d)
  {
    EmptyObjectGood(c.s, at, dataAt);
    forall p | IsObject(d.s, p)
      ensures FieldsOf(c, NewObject(at, dataAt), d, p)
    {
      NewOrSame(c, at, dataAt, d, p);
    }
  }

  lemma NewDataFollows(c: Config, at: Addr, d: Config)
    requires Ok(c) && MakesData(c, at, d)
    ensures FieldsFollow(c, NewData(at), d)
  {
    AllocDataKeepsObjects(c.s, at, 0);
    SameFollow(c, NewData(at), d);
  }

  lemma NewOrSame(c: Config, at: Addr, dataAt: Addr, d: Config, p: Addr)
    requires Ok(c) && Ok(d) && IsObject(d.s, p) && GoodObject(d.s, p)
    requires p == at ==> forall text :: Field(d.s, at, text) == None
    requires p != at ==> IsObject(c.s, p) && SameFields(c.s, d.s, p)
    ensures FieldsOf(c, NewObject(at, dataAt), d, p)
  {
  }

  lemma EmptyObjectGood(s: State, at: Addr, dataAt: Addr)
    requires ObjectsGood(s) && at !in s.mem && dataAt !in s.mem && at != dataAt
    requires Fits(s, EmptyData(s, 0)) && Fits(Allocated(s, dataAt, EmptyData(s, 0)), Block(false, ObjectPtrPtr(dataAt), []))
    ensures var t := EmptyObject(s, at, dataAt);
            && ObjectsGood(t) && IsObject(t, at) && GoodObject(t, at)
            && (forall text :: Field(t, at, text) == None)
            && forall p :: IsObject(t, p) && p != at ==> IsObject(s, p) && SameFields(s, t, p)
  {
    var w := Allocated(s, dataAt, EmptyData(s, 0));
    var t := EmptyObject(s, at, dataAt);
    AllocDataKeepsObjects(s, dataAt, 0);
    forall p | IsObject(t, p) && p != at
      ensures IsObject(s, p) && GoodObject(t, p) && SameFields(s, t, p)
    {
      StillObject(w, t, at, dataAt, p);
      assert SameFields(s, w, p) && SameFields(w, t, p);
    }
    NewPointer(w, t, at, dataAt);
  }

  // A pointer block for data that no object has.
  lemma NewPointer(w: State, t: State, at: Addr, dataAt: Addr)
    requires ObjectsGood(w) && at !in w.mem && at != dataAt && t == Allocated(w, at, Block(false, ObjectPtrPtr(dataAt), []))
    requires Fits(w, Block(false, ObjectPtrPtr(dataAt), []))
    requires dataAt in w.listed && dataAt in w.mem && w.mem[dataAt].shape == ObjectData(0) && w.mem[dataAt].cells == []
    requires forall p :: IsObject(w, p) ==> DataOf(w, p) != dataAt
    requires forall p :: IsObject(t, p) && p != at ==> GoodObject(t, p)
    ensures ObjectsGood(t) && IsObject(t, at) && GoodObject(t, at) && forall text :: Field(t, at, text) == None
  {
    var b := Block(false, ObjectPtrPtr(dataAt), []);
    assert Tags(b, w.classes) == [dataAt];
    AllocIsValid(w, at, b);
    NewPointerGood(w, t, at, dataAt);
    NewPointerUnshared(w, t, at, dataAt);
    NoFields(t, at);
  }

  lemma NewPointerUnshared(w: State, t: State, at: Addr, dataAt: Addr)
    requires Unshared(w) && t == Allocated(w, at, Block(false, ObjectPtrPtr(dataAt), []))
    requires forall p :: IsObject(w, p) ==> DataOf(w, p) != dataAt
    ensures Unshared(t)
  {
    assert forall p :: IsObject(t, p) && p != at ==> IsObject(w, p) && DataOf(t, p) == DataOf(w, p);
    RelaidUnshared(w, t, at, dataAt);
  }

  lemma NewPointerGood(w: State, t: State, at: Addr, dataAt: Addr)
    requires Valid(w) && at !in w.mem && at != dataAt && t == Allocated(w, at, Block(false, ObjectPtrPtr(dataAt), []))
    requires dataAt in w.listed && w.mem[dataAt].shape == ObjectData(0) && w.mem[dataAt].cells == []
    ensures GoodObject(t, at)
  {
    assert BlockGood(w, dataAt);
    assert w.classes[0].offsets == [] && w.classes[0].size == 0;
    assert t.mem[at].shape == ObjectPtrPtr(dataAt) && t.mem[dataAt] == w.mem[dataAt] && at in t.listed && dataAt in t.listed;
  }

  lemma NoFields(t: State, at: Addr)
    requires GoodObject(t, at) && ValidClasses(t.classes) && t.floats.Valid() && t.mem[DataOf(t, at)].cells == []
    ensures forall text :: Field(t, at, text) == None
  {
  }

  lemma StillObject(w: State, t: State, at: Addr, dataAt: Addr, p: Addr)
    requires ObjectsGood(w) && at !in w.mem && t == Allocated(w, at, Block(false, ObjectPtrPtr(dataAt), []))
    requires IsObject(t, p) && p != at
    ensures IsObject(w, p) && GoodObject(t, p) && DataOf(t, p) == DataOf(w, p) && SameFields(w, t, p)
  {
    assert IsObject(w, p) && GoodObject(w, p);
    SameCellsSameData(w, t, DataOf(w, p));
    SameDataSameFields(w, t, p);
  }

  lemma PutOldFollows(c: Config, o: Addr, text: string, v: AnyVal, d: Config)
    requires Ok(c) && Overwrites(c, o, text, v, d)
    ensures FieldsFollow(c, PutOld(o, text, v), d)
  {
    if CellAddr(Some(v)).Some? { assert Usable(c, CellAddr(Some(v)).value); }
    OverwriteInserts(c.s, o, text, v);
    OverwriteTargets(c.s, DataOf(c.s, o), OwnSlot(c.s, o, text).value, v);
    PutFollows(c, PutOld(o, text, v), o, text, v, d);
  }

  lemma PutFollows(c: Config, op: Op, o: Addr, text: string, v: AnyVal, d: Config)
    requires Ok(c) && Ok(d) && (op == PutOld(o, text, v) || (op.PutNew? && op.o == o && op.name.text == text && op.v == v))
    requires CellLive(c.s.floats, Some(v)) && Inserted(c.s, o, text, ReadCell(c.s.floats, Some(v)), d.s, c.s.mem.Keys)
    requires forall p :: IsObject(d.s, p) ==> IsObject(c.s, p)
    ensures FieldsFollow(c, op, d)
  {
    forall p | IsObject(d.s, p)
      ensures FieldsOf(c, op, d, p)
    {
      PutFollowsAt(c, op, o, text, v, d, p);
    }
  }

  lemma PutFollowsAt(c: Config, op: Op, o: Addr, text: string, v: AnyVal, d: Config, p: Addr)
    requires Ok(c) && Ok(d) && (op == PutOld(o, text, v) || (op.PutNew? && op.o == o && op.name.text == text && op.v == v))
    requires CellLive(c.s.floats, Some(v)) && Inserted(c.s, o, text, ReadCell(c.s.floats, Some(v)), d.s, c.s.mem.Keys)
    requires IsObject(d.s, p) && IsObject(c.s, p)
    ensures FieldsOf(c, op, d, p)
  {
    assert GoodObject(d.s, p) && GoodObject(c.s, p);
    if p != o { assert SameFields(c.s, d.s, p); }
  }

  lemma PutNewFollows(c: Config, o: Addr, name: StringPtr, at: Addr, v: AnyVal, d: Config)
    requires Ok(c) && MovesObject(c, o, name, at, v, d)
    ensures FieldsFollow(c, PutNew(o, name, at, v), d)
  {
    var s := c.s;
    var k := s.mem[DataOf(s, o)].shape.classTag;
    var tag := AfterTransition(s.classes, k, name).1;
    var w := Allocated(s, at, EmptyData(s, tag));
    if CellAddr(Some(v)).Some? { assert Usable(c, CellAddr(Some(v)).value); }
    NewBlockReady(s, s, o, name, at);
    AllocDataKeepsObjects(s, at, tag);
    RelaidInserts(w, o, name.text, at, v);
    RelaidNoNew(w, d.s, o, at, v);
    InsertedAfter(s, w, o, name.text, ReadCell(s.floats, Some(v)), d.s, s.mem.Keys);
    PutFollows(c, PutNew(o, name, at, v), o, name.text, v, d);
  }

  // ----- Runs -----

  lemma StepFollows(c: Config, op: Op, d: Config)
    requires Ok(c) && Step(c, op, d)
    ensures FieldsFollow(c, op, d)
  {
    match op
    case NewBlock(at, b) => NewBlockFollows(c, at, b, d);
    case NewObject(at, dataAt) => NewObjectFollows(c, at, dataAt, d);
    case NewData(at) => NewDataFollows(c, at, d);
    case NewFloat(x) => NewFloatFollows(c, x, d);
    case Write(a, i, v) => WriteFollows(c, op, a, c.s.mem[a].cells[i := Some(v)], v, d);
    case Append(a, v) => WriteFollows(c, op, a, c.s.mem[a].cells + [Some(v)], v, d);
    case PutOld(o, text, v) => PutOldFollows(c, o, text, v, d);
    case Grow(k, name) => GrowFollows(c, k, name, d);
    case PutNew(o, name, at, v) => PutNewFollows(c, o, name, at, v, d);
    case SetRoot(_, _, _) => RootsFollow(c, op, d);
    case Enter(_) => RootsFollow(c, op, d);
    case Leave => RootsFollow(c, op, d);
    case Collect => CollectFollows(c, d);
  }

  // A run: one more configuration than there are operations.
  ghost predicate Run(cs: seq<Config>, ops: seq<Op>) {
    |cs| == |ops| + 1 && forall i :: 0 <= i < |ops| ==> StepAt(cs, ops, i)
  }

  ghost predicate StepAt(cs: seq<Config>, ops: seq<Op>, i: nat)
    requires i < |ops| < |cs|
  {
    Step(cs[i], ops[i], cs[i + 1])
  }

  // A heap as it is made: only static strings in memory.
  ghost predicate Begins(c: Config) {
    Valid(c.s) && c.s.listed == [] && c.young == {}
  }

  lemma BeginsOk(c: Config)
    requires Begins(c)
    ensures Ok(c) && forall p :: !IsObject(c.s, p)
  {
    forall p | p in c.s.mem
      ensures !IsObject(c.s, p)
    {
      assert StaticString(c.s, p);
    }
  }

  lemma {:induction false} RunStaysOk(cs: seq<Config>, ops: seq<Op>, n: nat)
    requires Run(cs, ops) && Begins(cs[0]) && n <= |ops|
    ensures Ok(cs[n])
  {
    if n == 0 {
      BeginsOk(cs[0]);
    } else {
      RunStaysOk(cs, ops, n - 1);
      assert StepAt(cs, ops, n - 1);
      StepFollows(cs[n - 1], ops[n - 1], cs[n]);
    }
  }

  // Every configuration of every run is safe, whatever was allocated, written, put into objects,
  // rooted and collected.
  lemma RunsAreSafe(cs: seq<Config>, ops: seq<Op>, n: nat)
    requires Run(cs, ops) && Begins(cs[0]) && n <= |ops|
    ensures Safe(cs[n]) && ObjectsGood(cs[n].s)
  {
    RunStaysOk(cs, ops, n);
    OkIsSafe(cs[n]);
  }

  // What was put last at this name of the object at p, among the first n operations, since there was
  // made an object at p.
  ghost function LastPut(cs: seq<Config>, ops: seq<Op>, n: nat, p: Addr, text: string): Option<Reading>
    requires n <= |ops| < |cs|
  {
    if n == 0 || (ops[n - 1].NewObject? && ops[n - 1].at == p) then None
    else if Puts(ops[n - 1], p, text) then Some(PutReading(cs[n - 1], ops[n - 1].v))
    else LastPut(cs, ops, n - 1, p, text)
  }

  // What a field reads after a step.
  ghost predicate FieldIs(c: Config, op: Op, d: Config, p: Addr, text: string) {
    && GoodObject(d.s, p) && ValidClasses(d.s.classes) && d.s.floats.Valid()
    && if op.NewObject? && op.at == p then Field(d.s, p, text) == None
       else
         && IsObject(c.s, p) && GoodObject(c.s, p) && ValidClasses(c.s.classes) && c.s.floats.Valid()
         && Field(d.s, p, text) == if Puts(op, p, text) then Some(PutReading(c, op.v)) else Field(c.s, p, text)
  }

  lemma FieldAfter(c: Config, op: Op, d: Config, p: Addr, text: string)
    requires FieldsFollow(c, op, d) && IsObject(d.s, p)
    ensures FieldIs(c, op, d, p, text)
  {
    assert FieldsOf(c, op, d, p);
  }

  lemma {:induction false} FieldInRun(cs: seq<Config>, ops: seq<Op>, n: nat, p: Addr, text: string)
    requires Run(cs, ops) && Begins(cs[0]) && n < |ops| && IsObject(cs[n + 1].s, p)
    ensures FieldIs(cs[n], ops[n], cs[n + 1], p, text)
  {
    RunStaysOk(cs, ops, n);
    assert StepAt(cs, ops, n);
    StepFollows(cs[n], ops[n], cs[n + 1]);
    FieldAfter(cs[n], ops[n], cs[n + 1], p, text);
  }

  // Objects are maps: in every run, at every point of it, every field of every object reads as the
  // value put there last, through whatever pointer it was put and whatever was collected since.
  lemma {:induction false} ObjectsAreMaps(cs: seq<Config>, ops: seq<Op>, n: nat, p: Addr, text: string)
    requires Run(cs, ops) && Begins(cs[0]) && n <= |ops| && IsObject(cs[n].s, p)
    ensures GoodObject(cs[n].s, p) && ValidClasses(cs[n].s.classes) && cs[n].s.floats.Valid()
    ensures Field(cs[n].s, p, text) == LastPut(cs, ops, n, p, text)
    decreases n
  {
    if n == 0 {
      BeginsOk(cs[0]);
    } else {
      FieldInRun(cs, ops, n - 1, p, text);
      if !(ops[n - 1].NewObject? && ops[n - 1].at == p) { ObjectsAreMaps(cs, ops, n - 1, p, text); }
    }
  }

  // ----- Arrays, boxes and environments -----

  // A string, array, box or environment that is there and can be read.
  ghost predicate IsPlain(s: State, p: Addr) {
    p in s.listed && p in s.mem && Plain(s.mem[p].shape)
  }

  // What the program reads from cells.
  ghost function Reads(f: Floats, cells: seq<Option<AnyVal>>): seq<Reading>
    requires f.Valid() && forall x <- cells :: CellLive(f, x)
  {
    seq(|cells|, i requires 0 <= i < |cells| => ReadCell(f, cells[i]))
  }

  lemma ReadsUpdated(f: Floats, cells: seq<Option<AnyVal>>, i: nat, v: AnyVal)
    requires f.Valid() && (forall x <- cells :: CellLive(f, x)) && CellLive(f, Some(v)) && i < |cells|
    ensures (forall x <- cells[i := Some(v)] :: CellLive(f, x))
    ensures Reads(f, cells[i := Some(v)]) == Reads(f, cells)[i := ReadCell(f, Some(v))]
  {
  }

  lemma ReadsAppended(f: Floats, cells: seq<Option<AnyVal>>, v: AnyVal)
    requires f.Valid() && (forall x <- cells :: CellLive(f, x)) && CellLive(f, Some(v))
    ensures (forall x <- cells + [Some(v)] :: CellLive(f, x))
    ensures Reads(f, cells + [Some(v)]) == Reads(f, cells) + [ReadCell(f, Some(v))]
  {
  }

  lemma ReadsLater(f: Floats, g: Floats, cells: seq<Option<AnyVal>>)
    requires FloatsGrow(f, g) && (forall x <- cells :: CellLive(f, x)) && forall x <- cells :: CellLive(g, x)
    ensures Reads(g, cells) == Reads(f, cells)
  {
    forall i | 0 <= i < |cells|
      ensures ReadCell(g, cells[i]) == ReadCell(f, cells[i])
    {
      assert CellLive(f, cells[i]);
    }
  }

  lemma ReadsMoved(f: Floats, g: Floats, cs: seq<Option<AnyVal>>, ds: seq<Option<AnyVal>>)
    requires f.Valid() && g.Valid() && CellsMoved(f, g, cs, ds)
    requires (forall x <- cs :: CellLive(f, x)) && forall x <- ds :: CellLive(g, x)
    ensures Reads(g, ds) == Reads(f, cs)
  {
    forall i | 0 <= i < |cs|
      ensures ReadCell(g, ds[i]) == ReadCell(f, cs[i])
    {
      assert CellMoved(f, g, cs[i], ds[i]);
    }
  }

  // After an operation, in terms of the cells `was` and what they read: what is written is read back,
  // at its index, and nothing else has changed.
  ghost predicate CellsChange(op: Op, p: Addr, v: Reading, was: seq<Reading>, now: seq<Reading>) {
    if op.Write? && op.a == p then op.i < |was| && now == was[op.i := v]
    else if op.Append? && op.a == p then now == was + [v]
    else now == was
  }

  ghost function Stored(c: Config, op: Op): Reading {
    if op.Write? || op.Append? then PutReading(c, op.v) else Reading.Plain(None)
  }

  ghost predicate CellsOf(c: Config, op: Op, d: Config, p: Addr)
    requires Ok(c) && Ok(d) && IsPlain(d.s, p)
  {
    assert BlockGood(d.s, p);
    var now := Reads(d.s.floats, d.s.mem[p].cells);
    if op.NewBlock? && op.at == p then
      d.s.mem[p].shape == op.b.shape && (forall x <- op.b.cells :: CellLive(c.s.floats, x)) && now == Reads(c.s.floats, op.b.cells)
    else
      && IsPlain(c.s, p) && BlockGood(c.s, p) && d.s.mem[p].shape == c.s.mem[p].shape
      && CellsChange(op, p, Stored(c, op), Reads(c.s.floats, c.s.mem[p].cells), now)
  }

  ghost predicate CellsFollow(c: Config, op: Op, d: Config) {
    Ok(c) && Ok(d) && forall p :: IsPlain(d.s, p) ==> CellsOf(c, op, d, p)
  }

  // The block is the block it was, and its numbers are where they were.
  lemma SameReads(c: Config, op: Op, d: Config, p: Addr)
    requires Ok(c) && Ok(d) && IsPlain(c.s, p) && IsPlain(d.s, p) && d.s.mem[p] == c.s.mem[p] && FloatsGrow(c.s.floats, d.s.floats)
    requires !(op.NewBlock? && op.at == p) && !(op.Write? && op.a == p) && !(op.Append? && op.a == p)
    ensures CellsOf(c, op, d, p)
  {
    assert BlockGood(c.s, p) && BlockGood(d.s, p);
    ReadsLater(c.s.floats, d.s.floats, c.s.mem[p].cells);
  }

  lemma WrittenReads(c: Config, op: Op, d: Config)
    requires Ok(c) && Ok(d) && Step(c, op, d) && (op.Write? || op.Append?)
    ensures IsPlain(d.s, op.a) && CellsOf(c, op, d, op.a)
  {
    assert BlockGood(c.s, op.a) && BlockGood(d.s, op.a);
    if op.Write? { ReadsUpdated(c.s.floats, c.s.mem[op.a].cells, op.i, op.v); }
    else { ReadsAppended(c.s.floats, c.s.mem[op.a].cells, op.v); }
  }

  lemma CollectedReads(c: Config, d: Config, p: Addr)
    requires Ok(c) && Ok(d) && Step(c, Collect, d) && IsPlain(d.s, p)
    ensures CellsOf(c, Collect, d, p)
  {
    assert BlockMoved(c.s, d.s, p, p in Reach(c.s)) && p in c.s.listed && p in Reach(c.s);
    assert BlockGood(c.s, p) && BlockGood(d.s, p);
    ReadsMoved(c.s.floats, d.s.floats, c.s.mem[p].cells, d.s.mem[p].cells);
  }

  // No other operation touches a block that is no object's.
  predicate Touches(op: Op, p: Addr) {
    (op.NewBlock? && op.at == p) || (op.Write? && op.a == p) || (op.Append? && op.a == p)
  }

  ghost predicate SamePlain(s: State, t: State, p: Addr) {
    IsPlain(s, p) && IsPlain(t, p) && t.mem[p] == s.mem[p] && FloatsGrow(s.floats, t.floats)
  }

  lemma UntouchedByPut(c: Config, o: Addr, text: string, v: AnyVal, d: Config, p: Addr)
    requires Overwrites(c, o, text, v, d) && c.s.floats.Valid() && IsPlain(d.s, p)
    ensures SamePlain(c.s, d.s, p)
  {
    assert c.s.mem[DataOf(c.s, o)].shape.ObjectData?;
  }

  lemma UntouchedByMove(c: Config, o: Addr, name: StringPtr, at: Addr, v: AnyVal, d: Config, p: Addr)
    requires MovesObject(c, o, name, at, v, d) && c.s.floats.Valid() && IsPlain(d.s, p)
    ensures SamePlain(c.s, d.s, p)
  {
    assert c.s.mem[o].shape.ObjectPtrPtr?;
  }

  lemma UntouchedByWrite(c: Config, a: Addr, cells: seq<Option<AnyVal>>, d: Config, p: Addr)
    requires c.s.floats.Valid() && a in c.s.mem && d == c.(s := WithCells(c.s, a, cells)) && p != a && IsPlain(d.s, p)
    ensures SamePlain(c.s, d.s, p)
  {
  }

  lemma UntouchedByNew(c: Config, at: Addr, dataAt: Addr, d: Config, p: Addr)
    requires MakesObject(c, at, dataAt, d) && c.s.floats.Valid() && IsPlain(d.s, p)
    ensures SamePlain(c.s, d.s, p)
  {
  }

  lemma Untouched(c: Config, op: Op, d: Config, p: Addr)
    requires Step(c, op, d) && c.s.floats.Valid() && !op.Collect? && !Touches(op, p) && IsPlain(d.s, p)
    ensures SamePlain(c.s, d.s, p)
  {
    match op
    case NewFloat(x) => AllocKeepsFloats(c.s.floats, x);
    case PutOld(o, text, v) => UntouchedByPut(c, o, text, v, d, p);
    case PutNew(o, name, at, v) => UntouchedByMove(c, o, name, at, v, d, p);
    case NewObject(at, dataAt) => UntouchedByNew(c, at, dataAt, d, p);
    case Write(a, i, v) => UntouchedByWrite(c, a, c.s.mem[a].cells[i := Some(v)], d, p);
    case Append(a, v) => UntouchedByWrite(c, a, c.s.mem[a].cells + [Some(v)], d, p);
    case _ =>
  }

  lemma StepChangesCells(c: Config, op: Op, d: Config)
    requires Ok(c) && Step(c, op, d)
    ensures CellsFollow(c, op, d)
  {
    StepFollows(c, op, d);
    forall p | IsPlain(d.s, p)
      ensures CellsOf(c, op, d, p)
    {
      StepChangesCellsAt(c, op, d, p);
    }
  }

  lemma StepChangesCellsAt(c: Config, op: Op, d: Config, p: Addr)
    requires Ok(c) && Ok(d) && Step(c, op, d) && IsPlain(d.s, p)
    ensures CellsOf(c, op, d, p)
  {
    if op.Collect? {
      CollectedReads(c, d, p);
    } else if !Touches(op, p) {
      Untouched(c, op, d, p);
      SameReads(c, op, d, p);
    } else if op.NewBlock? {
      NewReads(c, op.at, op.b, d);
    } else {
      WrittenReads(c, op, d);
    }
  }

  lemma NewReads(c: Config, at: Addr, b: Block, d: Config)
    requires Ok(c) && Ok(d) && Step(c, NewBlock(at, b), d) && IsPlain(d.s, at)
    ensures CellsOf(c, NewBlock(at, b), d, at)
  {
    assert BlockGood(d.s, at);
  }

  // What the cells of the block at p were made with, and written and appended since, in the first n
  // operations.
  ghost function LastCells(cs: seq<Config>, ops: seq<Op>, n: nat, p: Addr): seq<Reading>
    requires n <= |ops| < |cs|
  {
    if n == 0 then [] else
    var c, op := cs[n - 1], ops[n - 1];
    if op.NewBlock? && op.at == p then seq(|op.b.cells|, i requires 0 <= i < |op.b.cells| => CellReading(c, op.b.cells[i]))
    else
      var was := LastCells(cs, ops, n - 1, p);
      if op.Write? && op.a == p && op.i < |was| then was[op.i := PutReading(c, op.v)]
      else if op.Append? && op.a == p then was + [PutReading(c, op.v)]
      else was
  }

  lemma MadeReads(c: Config, cells: seq<Option<AnyVal>>)
    requires c.s.floats.Valid() && forall x <- cells :: CellLive(c.s.floats, x)
    ensures Reads(c.s.floats, cells) == seq(|cells|, i requires 0 <= i < |cells| => CellReading(c, cells[i]))
  {
  }

  // Arrays, boxes and environments hold what was written last: in every run, at every point of it,
  // every cell of such a block reads as the value it was made with, or written or appended since.
  lemma {:induction false} CellsAreKept(cs: seq<Config>, ops: seq<Op>, n: nat, p: Addr)
    requires Run(cs, ops) && Begins(cs[0]) && n <= |ops|
    requires p in cs[n].s.listed && p in cs[n].s.mem && !cs[n].s.mem[p].shape.ObjectData? && !cs[n].s.mem[p].shape.ObjectPtrPtr?
    ensures BlockGood(cs[n].s, p) && cs[n].s.floats.Valid()
    ensures Reads(cs[n].s.floats, cs[n].s.mem[p].cells) == LastCells(cs, ops, n, p)
    decreases n
  {
    if n > 0 {
      CellsInRun(cs, ops, n - 1, p);
      if !(ops[n - 1].NewBlock? && ops[n - 1].at == p) { CellsAreKept(cs, ops, n - 1, p); }
    }
  }

  // What the cells of a block read after a step.
  ghost predicate CellsAre(c: Config, op: Op, d: Config, p: Addr) {
    && d.s.floats.Valid() && BlockGood(d.s, p)
    && var now := Reads(d.s.floats, d.s.mem[p].cells);
    if op.NewBlock? && op.at == p then now == seq(|op.b.cells|, i requires 0 <= i < |op.b.cells| => CellReading(c, op.b.cells[i]))
    else
      && IsPlain(c.s, p) && c.s.floats.Valid() && BlockGood(c.s, p)
      && CellsChange(op, p, Stored(c, op), Reads(c.s.floats, c.s.mem[p].cells), now)
  }

  lemma CellsInRun(cs: seq<Config>, ops: seq<Op>, n: nat, p: Addr)
    requires Run(cs, ops) && Begins(cs[0]) && n < |ops| && IsPlain(cs[n + 1].s, p)
    ensures CellsAre(cs[n], ops[n], cs[n + 1], p)
  {
    RunStaysOk(cs, ops, n);
    assert StepAt(cs, ops, n);
    StepChangesCells(cs[n], ops[n], cs[n + 1]);
    CellsAfter(cs[n], ops[n], cs[n + 1], p);
  }

  lemma CellsAfter(c: Config, op: Op, d: Config, p: Addr)
    requires CellsFollow(c, op, d) && IsPlain(d.s, p)
    ensures CellsAre(c, op, d, p)
  {
    assert CellsOf(c, op, d, p) && BlockGood(d.s, p);
    if op.NewBlock? && op.at == p { MadeReads(c, op.b.cells); }
  }

  // ----- The methods make such runs -----

  lemma OneStep(c: Config, op: Op, d: Config) returns (cs: seq<Config>, ops: seq<Op>)
    requires Step(c, op, d)
    ensures Run(cs, ops) && cs[0] == c && cs[|ops|] == d && ops == [op]
  {
    cs, ops := [c, d], [op];
  }

  lemma StepFirst(c: Config, op: Op, cs: seq<Config>, ops: seq<Op>) returns (cs1: seq<Config>, ops1: seq<Op>)
    requires Run(cs, ops) && Step(c, op, cs[0])
    ensures Run(cs1, ops1) && cs1[0] == c && cs1[|ops1|] == cs[|ops|] && ops1 == [op] + ops
  {
    cs1, ops1 := [c] + cs, [op] + ops;
    forall i | 0 <= i < |ops1|
      ensures StepAt(cs1, ops1, i)
    {
      if i > 0 { assert StepAt(cs, ops, i - 1); }
    }
  }

  // What `Insert` does is a run of one to three steps, unless it stores a float that a collection
  // has just left behind.
  lemma InsertIsRun(c: Config, mid: State, w: State, t: State, o: Addr, name: StringPtr, v: AnyVal, at: Addr)
    returns (cs: seq<Config>, ops: seq<Op>)
    requires Ok(c) && InsertReady(c.s, o, name, at) && Rooted(c.s, v) && InsertRan(c.s, mid, w, t, o, name, v, at)
    requires OwnSlot(c.s, o, name.text) == None && NewBlockAnswer(c.s, o, name).1 ==> !v.F64?
    ensures Run(cs, ops) && cs[0] == c && cs[|ops|].s == t
  {
    if OwnSlot(c.s, o, name.text).Some? {
      var d := c.(s := t);
      assert Overwrites(c, o, name.text, v, d);
      cs, ops := OneStep(c, PutOld(o, name.text, v), d);
    } else {
      var k := c.s.mem[DataOf(c.s, o)].shape.classTag;
      var (classes, tag) := AfterTransition(c.s.classes, k, name);
      var c1 := c.(s := c.s.(classes := classes));
      GrowStep(c, k, tag, o, name, at, v, c1);
      cs, ops := MoveIsRun(c1, mid, w, t, k, tag, o, name, v, at);
      cs, ops := StepFirst(c, Grow(k, name), cs, ops);
    }
  }

  // The object and the value are at hand, and the object's class has a transition by the name.
  ghost predicate AtHand(c: Config, k: nat, tag: nat, o: Addr, name: StringPtr, at: Addr, v: AnyVal) {
    && Ok(c) && IsObject(c.s, o) && GoodObject(c.s, o) && o in Reach(c.s) && Rooted(c.s, v)
    && c.s.mem[DataOf(c.s, o)].shape == ObjectData(k) && Slot(c.s.classes[k], name.text) == None
    && Find(c.s.classes[k].transitions, name.text) == Some(tag) && tag < |c.s.classes|
    && NameStatic(c.s, name) && at !in c.s.mem
  }

  lemma GrowStep(c: Config, k: nat, tag: nat, o: Addr, name: StringPtr, at: Addr, v: AnyVal, c1: Config)
    requires Ok(c) && InsertReady(c.s, o, name, at) && Rooted(c.s, v) && OwnSlot(c.s, o, name.text) == None
    requires k == c.s.mem[DataOf(c.s, o)].shape.classTag && tag == AfterTransition(c.s.classes, k, name).1
    requires c1 == c.(s := c.s.(classes := AfterTransition(c.s.classes, k, name).0))
    ensures Step(c, Grow(k, name), c1) && AtHand(c1, k, tag, o, name, at, v) && EnvsFilled(c1.s)
  {
    ReadyToAlloc(c.s, o, name, at);
    TransitionIsNew(c.s, k, name);
    TransitionKept(c.s.classes, k, name);
    ClassesGrow(c.s, c1.s.classes);
    assert SameFields(c.s, c1.s, o);
    assert c1.s.classes[k].offsets == c.s.classes[k].offsets;
  }

  lemma MoveIsRun(c: Config, mid: State, w: State, t: State, k: nat, tag: nat, o: Addr, name: StringPtr, v: AnyVal, at: Addr)
    returns (cs: seq<Config>, ops: seq<Op>)
    requires AtHand(c, k, tag, o, name, at, v) && EnvsFilled(c.s) && MadeRoom(c.s, mid, EmptyData(c.s, tag))
    requires w == Allocated(mid, at, EmptyData(c.s, tag)) && GoodObject(w, o) && t == Relaid(w, o, at, v)
    requires Fits(c.s, EmptyData(c.s, tag)) || !v.F64?
    ensures Run(cs, ops) && cs[0] == c && cs[|ops|].s == t
  {
    if Fits(c.s, EmptyData(c.s, tag)) {
      cs, ops := MoveAtOnce(c, w, t, k, tag, o, name, v, at);
    } else {
      var c2 := Config(mid, {});
      CollectStep(c, c2, k, tag, o, name, at, v);
      assert EmptyData(mid, tag) == EmptyData(c.s, tag);
      cs, ops := MoveAtOnce(c2, w, t, k, tag, o, name, v, at);
      cs, ops := StepFirst(c, Collect, cs, ops);
    }
  }

  lemma MoveAtOnce(c: Config, w: State, t: State, k: nat, tag: nat, o: Addr, name: StringPtr, v: AnyVal, at: Addr)
    returns (cs: seq<Config>, ops: seq<Op>)
    requires AtHand(c, k, tag, o, name, at, v) && Fits(c.s, EmptyData(c.s, tag))
    requires w == Allocated(c.s, at, EmptyData(c.s, tag)) && GoodObject(w, o) && t == Relaid(w, o, at, v)
    ensures Run(cs, ops) && cs[0] == c && cs[|ops|].s == t
  {
    var d := Config(t, c.young + {at});
    MoveStep(c, k, tag, o, name, at, v, w, d);
    cs, ops := OneStep(c, PutNew(o, name, at, v), d);
  }

  lemma CollectStep(c: Config, d: Config, k: nat, tag: nat, o: Addr, name: StringPtr, at: Addr, v: AnyVal)
    requires AtHand(c, k, tag, o, name, at, v) && EnvsFilled(c.s) && Collected(c.s, d.s) && d.young == {} && !v.F64?
    ensures Step(c, Collect, d) && AtHand(d, k, tag, o, name, at, v)
  {
    CollectedKeepsObjects(c.s, d.s);
    CollectedObject(c.s, d.s, o);
    CollectedDataShape(c.s, d.s, o);
    SameReach(c.s, d.s);
    assert BlockMoved(c.s, d.s, name.ptr, name.ptr in Reach(c.s));
  }

  lemma MoveStep(c: Config, k: nat, tag: nat, o: Addr, name: StringPtr, at: Addr, v: AnyVal, w: State, d: Config)
    requires AtHand(c, k, tag, o, name, at, v) && Fits(c.s, EmptyData(c.s, tag))
    requires w == Allocated(c.s, at, EmptyData(c.s, tag)) && GoodObject(w, o) && d == Config(Relaid(w, o, at, v), c.young + {at})
    ensures Step(c, PutNew(o, name, at, v), d)
  {
    assert HasObject(c, o, v);
  }

  // What every allocation with a retry does is a run of one or two steps, unless it puts a float into
  // its block that a collection has just left behind.
  lemma BlockIsRun(c: Config, mid: State, t: State, at: Addr, b: Block, r: Outcome) returns (cs: seq<Config>, ops: seq<Op>)
    requires Ok(c) && EnvsFilled(c.s) && at !in c.s.mem && Plain(b.shape) && Storable(c.s, b) && Survives(c.s, b)
    requires TriedTwice(c.s, mid, t, at, b, r) && r != OutOfFloats && (Fits(c.s, b) || FloatFree(b.cells))
    ensures Run(cs, ops) && cs[0] == c && cs[|ops|].s == t
    ensures r == Allocd ==> ops != [] && ops[|ops| - 1] == NewBlock(at, b)
  {
    if Fits(c.s, b) {
      cs, ops := OneStep(c, NewBlock(at, b), Config(t, c.young + {at}));
    } else {
      var c1 := Config(mid, {});
      if r == Allocd {
        BlockStep(c.s, c1, at, b, Config(t, {at}));
        cs, ops := OneStep(c1, NewBlock(at, b), Config(t, {at}));
      } else {
        cs, ops := [c1], [];
      }
      cs, ops := StepFirst(c, Collect, cs, ops);
    }
  }

  lemma BlockStep(s: State, c: Config, at: Addr, b: Block, d: Config)
    requires Valid(s) && Collected(s, c.s) && at !in s.mem && Plain(b.shape) && Storable(s, b) && Survives(s, b) && FloatFree(b.cells)
    requires Fits(c.s, b) && c.young == {} && d == Config(Allocated(c.s, at, b), {at})
    ensures Step(c, NewBlock(at, b), d)
  {
    BlockUsable(s, c, at, b);
    assert c.young + {at} == {at};
  }

  lemma BlockUsable(s: State, c: Config, at: Addr, b: Block)
    requires Valid(s) && Collected(s, c.s) && at !in s.mem && Storable(s, b) && Survives(s, b) && FloatFree(b.cells)
    ensures at !in c.s.mem && WellShaped(b, c.s.classes)
    ensures (forall x <- Tags(b, c.s.classes) :: Usable(c, x)) && (forall x <- b.cells :: CellLive(c.s.floats, x))
  {
    SameReach(s, c.s);
    forall x | x in Tags(b, c.s.classes)
      ensures Usable(c, x)
    {
      assert x in s.mem && (x in s.listed ==> x in Reach(s));
    }
  }

  // A collection does not look at how much of the old space was used.
  lemma SpentCollected(s: State, t: State, mid: State)
    requires Valid(s) && t == s.(floats := s.floats.(next := LEN)) && Collected(t, mid)
    ensures Collected(s, mid)
  {
    SpentFloats(s, t);
    assert FloatSlots(s, s.listed, Reach(s)) == FloatSlots(t, t.listed, Reach(t));
    BytesSame(s, t, mid.listed);
    forall a | a in mid.mem.Keys
      ensures BlockMoved(s, mid, a, a in Reach(s))
    {
      assert BlockMoved(t, mid, a, a in Reach(t));
    }
  }

  // Allocating a number is a run of one or two steps.
  lemma FloatIsRun(c: Config, mid: State, t: State, x: Float) returns (cs: seq<Config>, ops: seq<Op>)
    requires Ok(c) && EnvsFilled(c.s) && FloatTriedTwice(c.s, mid, t, x)
    ensures Run(cs, ops) && cs[0] == c && cs[|ops|].s == t
  {
    if mid == c.s {
      cs, ops := OneStep(c, NewFloat(x), c.(s := t));
    } else {
      var c1 := Config(mid, {});
      SpentCollected(c.s, c.s.(floats := c.s.floats.(next := LEN)), mid);
      cs, ops := OneStep(c1, NewFloat(x), c1.(s := t));
      cs, ops := StepFirst(c, Collect, cs, ops);
    }
  }

  // So is allocating an object, of one to three: a first try that only makes the data, a collection
  // and a second try.  The run ends where the allocator leaves the heap, out of memory or not.
  lemma ObjectIsRun(c: Config, mid: State, t: State, at: Addr, dataAt: Addr, at1: Addr, dataAt1: Addr, r: Outcome, obj: Addr)
    returns (cs: seq<Config>, ops: seq<Op>)
    requires Ok(c) && EnvsFilled(c.s) && r != OutOfFloats && FreshTwice(c.s, at, dataAt, at1, dataAt1)
    requires ObjectTriedTwice(c.s, mid, t, 0, at, dataAt, at1, dataAt1, r, obj)
    ensures Run(cs, ops) && cs[0] == c && cs[|ops|].s == t && (r == Allocd ==> Made(ops, obj))
  {
    ObjectTries(c.s, mid, t, at, dataAt, at1, dataAt1, r, obj);
    cs, ops := TriesAreRun(c, mid, t, at, dataAt, at1, dataAt1, r, obj);
  }

  ghost predicate FreshTwice(s: State, at: Addr, dataAt: Addr, at1: Addr, dataAt1: Addr) {
    && s.classes != [] && at !in s.mem && dataAt !in s.mem && at != dataAt
    && at1 !in s.mem && dataAt1 !in s.mem && at1 != dataAt1 && dataAt != at1 && dataAt != dataAt1
  }

  // The last thing that was done was to make this object.
  predicate Made(ops: seq<Op>, obj: Addr) {
    ops != [] && ops[|ops| - 1].NewObject? && ops[|ops| - 1].at == obj
  }

  ghost predicate Retries(u: State, mid: State, t: State, at: Addr, dataAt: Addr, r: Outcome, obj: Addr) {
    && EnvsFilled(u) && Collected(u, mid) && mid.classes != [] && at !in mid.mem && dataAt !in mid.mem && at != dataAt
    && t == TryObject(mid, 0, at, dataAt).0 && (r == Allocd ==> TryObject(mid, 0, at, dataAt).1.Some? && obj == at)
  }

  ghost predicate Tries(s: State, mid: State, t: State, at: Addr, dataAt: Addr, at1: Addr, dataAt1: Addr, r: Outcome, obj: Addr)
    requires s.classes != []
  {
    var (u, first) := TryObject(s, 0, at, dataAt);
    if first.Some? then t == u && obj == at else Retries(u, mid, t, at1, dataAt1, r, obj)
  }

  lemma ObjectTries(s: State, mid: State, t: State, at: Addr, dataAt: Addr, at1: Addr, dataAt1: Addr, r: Outcome, obj: Addr)
    requires Valid(s) && EnvsFilled(s) && r != OutOfFloats && FreshTwice(s, at, dataAt, at1, dataAt1)
    requires ObjectTriedTwice(s, mid, t, 0, at, dataAt, at1, dataAt1, r, obj)
    ensures Tries(s, mid, t, at, dataAt, at1, dataAt1, r, obj)
  {
    var (u, first) := TryObject(s, 0, at, dataAt);
    if first.None? { FirstTryCollectable(s, u, 0, at, dataAt); }
  }

  lemma TriesAreRun(c: Config, mid: State, t: State, at: Addr, dataAt: Addr, at1: Addr, dataAt1: Addr, r: Outcome, obj: Addr)
    returns (cs: seq<Config>, ops: seq<Op>)
    requires FreshTwice(c.s, at, dataAt, at1, dataAt1) && Tries(c.s, mid, t, at, dataAt, at1, dataAt1, r, obj)
    ensures Run(cs, ops) && cs[0] == c && cs[|ops|].s == t && (r == Allocd ==> Made(ops, obj))
  {
    cs, ops := TryIsRun(c, at, dataAt);
    if TryObject(c.s, 0, at, dataAt).1.None? {
      var cs1, ops1 := RetryIsRun(cs[|ops|], mid, t, at1, dataAt1, r, obj);
      cs, ops := Joined(cs, ops, cs1, ops1);
    }
  }

  lemma RetryIsRun(d: Config, mid: State, t: State, at: Addr, dataAt: Addr, r: Outcome, obj: Addr) returns (cs: seq<Config>, ops: seq<Op>)
    requires Retries(d.s, mid, t, at, dataAt, r, obj)
    ensures Run(cs, ops) && cs[0] == d && cs[|ops|].s == t && ops != [] && (r == Allocd ==> Made(ops, obj))
  {
    cs, ops := TryIsRun(Config(mid, {}), at, dataAt);
    cs, ops := StepFirst(d, Collect, cs, ops);
  }

  lemma TryIsRun(c: Config, at: Addr, dataAt: Addr) returns (cs: seq<Config>, ops: seq<Op>)
    requires at !in c.s.mem && dataAt !in c.s.mem && at != dataAt && c.s.classes != []
    ensures Run(cs, ops) && cs[0] == c && cs[|ops|].s == TryObject(c.s, 0, at, dataAt).0
    ensures TryObject(c.s, 0, at, dataAt).1.Some? ==> ops == [NewObject(at, dataAt)]
  {
    var w := Allocated(c.s, dataAt, EmptyData(c.s, 0));
    if !Fits(c.s, EmptyData(c.s, 0)) {
      cs, ops := [c], [];
    } else if !Fits(w, Block(false, ObjectPtrPtr(dataAt), [])) {
      cs, ops := OneStep(c, NewData(dataAt), Config(w, c.young + {dataAt}));
    } else {
      cs, ops := OneStep(c, NewObject(at, dataAt), Config(EmptyObject(c.s, at, dataAt), c.young + {at, dataAt}));
    }
  }

  lemma Joined(cs: seq<Config>, ops: seq<Op>, cs1: seq<Config>, ops1: seq<Op>) returns (all: seq<Config>, allOps: seq<Op>)
    requires Run(cs, ops) && Run(cs1, ops1) && cs1[0] == cs[|ops|] && ops1 != []
    ensures Run(all, allOps) && all[0] == cs[0] && all[|allOps|] == cs1[|ops1|] && allOps == ops + ops1
  {
    all, allOps := cs[..|ops|] + cs1, ops + ops1;
    forall i | 0 <= i < |allOps|
      ensures StepAt(all, allOps, i)
    {
      if i < |ops| { assert StepAt(cs, ops, i); } else { assert StepAt(cs1, ops1, i - |ops|); }
    }
  }
}

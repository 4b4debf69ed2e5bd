// Setting a field of an object: in place, or by moving the object's data to a larger block.

module ObjectInsertion {
  import opened Common
  import opened ClassLists
  import opened HeapValues
  import opened Collection
  import opened Mutator
  import opened ManagedHeap
  import opened Objects

  // ----- A new field: then the data moves to a larger block -----

  // `at` is a fresh data block; it takes over o's cells and the new value.
  ghost function Relaid(s: State, o: Addr, at: Addr, v: AnyVal): State
    requires GoodObject(s, o) && at in s.mem
  {
    s.(mem := s.mem[at := s.mem[at].(cells := s.mem[DataOf(s, o)].cells + [Some(v)])][o := s.mem[o].(shape := ObjectPtrPtr(at))])
  }

  // The block `at` is as `transition` and the allocator leave it for o and a new name.
  ghost predicate ReadyFor(s: State, o: Addr, text: string, at: Addr) {
    && GoodObject(s, o) && at in s.listed && at in s.mem && s.mem[at].shape.ObjectData? && s.mem[at].shape.classTag < |s.classes|
    && (forall p :: IsObject(s, p) ==> DataOf(s, p) != at)
    && ValidClasses(s.classes) && OwnSlot(s, o, text) == None
    && var c := s.classes[s.mem[at].shape.classTag];
    && c.size == ClassOf(s, o).size + 1 && Slot(c, text) == Some(ClassOf(s, o).size)
    && forall other :: other != text ==> Slot(c, other) == Slot(ClassOf(s, o), other)
  }

  lemma FilledIsValid(s: State, o: Addr, text: string, at: Addr, v: AnyVal)
    requires Valid(s) && ReadyFor(s, o, text, at)
    requires CellLive(s.floats, Some(v)) && (CellAddr(Some(v)).Some? ==> CellAddr(Some(v)).value in s.mem)
    ensures Valid(WithCells(s, at, s.mem[DataOf(s, o)].cells + [Some(v)]))
  {
    var d := DataOf(s, o);
    var cells := s.mem[d].cells + [Some(v)];
    var b := s.mem[at].(cells := cells);
    assert BlockGood(s, d) && BlockGood(s, at);
    forall x | x in Tags(b, s.classes)
      ensures x in s.mem
    {
      if x in CellTags(cells) { WrittenTag(s.mem[d].cells, cells, v, x); }
      assert x in TagsAt(s, d) || x in TagsAt(s, at) || CellAddr(Some(v)) == Some(x);
    }
    WithCellsIsValid(s, at, cells);
  }

  function Redirected(s: State, o: Addr, at: Addr): State
    requires o in s.mem
  {
    s.(mem := s.mem[o := s.mem[o].(shape := ObjectPtrPtr(at))])
  }

  lemma RedirectIsValid(s: State, o: Addr, at: Addr)
    requires Valid(s) && IsObject(s, o) && o in s.listed && at in s.mem
    ensures Valid(Redirected(s, o, at))
  {
    var t := Redirected(s, o, at);
    forall x | x in t.listed
      ensures BlockGood(t, x)
    {
      assert BlockGood(s, x);
      if x != o { assert TagsAt(t, x) == TagsAt(s, x); } else { assert CellTags(t.mem[o].cells) == []; }
    }
    BytesSame(s, t, s.listed);
    forall x | x in t.mem.Keys && x !in t.listed
      ensures StaticString(t, x)
    {
      assert StaticString(s, x);
    }
  }

  lemma RelaidOther(s: State, t: State, o: Addr, at: Addr, v: AnyVal, p: Addr)
    requires ObjectsGood(s) && GoodObject(s, o) && at in s.mem && s.mem[at].shape.ObjectData? && t == Relaid(s, o, at, v)
    requires IsObject(s, p) && p != o && DataOf(s, p) != at
    ensures IsObject(t, p) && DataOf(t, p) == DataOf(s, p) && SameFields(s, t, p)
  {
    assert GoodObject(s, p) && p != at && DataOf(s, p) != o;
    assert t.mem[p] == s.mem[p] && t.mem[DataOf(s, p)] == s.mem[DataOf(s, p)];
    SameDataSameFields(s, t, p);
  }

  lemma RelaidSelf(s: State, o: Addr, text: string, at: Addr, v: AnyVal)
    requires ReadyFor(s, o, text, at) && s.floats.Valid() && CellLive(s.floats, Some(v))
    ensures var t := Relaid(s, o, at, v);
            && GoodObject(t, o) && DataOf(t, o) == at
            && Field(t, o, text) == Some(ReadCell(s.floats, Some(v)))
            && forall other :: other != text ==> Field(t, o, other) == Field(s, o, other)
  {
    var t := Relaid(s, o, at, v);
    var d := DataOf(s, o);
    assert o != at && o != d && d != at;
    assert t.mem[at].cells == s.mem[d].cells + [Some(v)];
    assert GoodObject(t, o);
    forall other | other != text
      ensures Field(t, o, other) == Field(s, o, other)
    {
      assert OwnSlot(t, o, other) == OwnSlot(s, o, other);
    }
  }

  lemma RelaidIsValid(s: State, o: Addr, text: string, at: Addr, v: AnyVal)
    requires Valid(s) && ReadyFor(s, o, text, at)
    requires CellLive(s.floats, Some(v)) && (CellAddr(Some(v)).Some? ==> CellAddr(Some(v)).value in s.mem)
    ensures Valid(Relaid(s, o, at, v))
  {
    FilledIsValid(s, o, text, at, v);
    RelaidInTwo(s, o, text, at, v);
    RedirectIsValid(WithCells(s, at, s.mem[DataOf(s, o)].cells + [Some(v)]), o, at);
  }

  lemma RelaidInTwo(s: State, o: Addr, text: string, at: Addr, v: AnyVal)
    requires ReadyFor(s, o, text, at)
    ensures var t := WithCells(s, at, s.mem[DataOf(s, o)].cells + [Some(v)]);
            IsObject(t, o) && o in t.listed && at in t.mem && Relaid(s, o, at, v) == Redirected(t, o, at)
  {
    assert o != at;
  }

  lemma RelaidOthers(s: State, t: State, o: Addr, at: Addr, v: AnyVal)
    requires ObjectsGood(s) && GoodObject(s, o) && at in s.mem && s.mem[at].shape.ObjectData? && t == Relaid(s, o, at, v)
    requires forall p :: IsObject(s, p) ==> DataOf(s, p) != at
    ensures forall p :: IsObject(s, p) && p != o ==> IsObject(t, p) && DataOf(t, p) == DataOf(s, p) && SameFields(s, t, p)
  {
    forall p | IsObject(s, p) && p != o
      ensures IsObject(t, p) && DataOf(t, p) == DataOf(s, p) && SameFields(s, t, p)
    {
      RelaidOther(s, t, o, at, v, p);
    }
  }

  lemma RelaidNoNew(s: State, t: State, o: Addr, at: Addr, v: AnyVal)
    requires GoodObject(s, o) && at in s.mem && s.mem[at].shape.ObjectData? && t == Relaid(s, o, at, v)
    ensures forall p :: IsObject(t, p) ==> IsObject(s, p)
  {
  }

  lemma RelaidInserts(s: State, o: Addr, text: string, at: Addr, v: AnyVal)
    requires ObjectsGood(s) && ReadyFor(s, o, text, at)
    requires CellLive(s.floats, Some(v)) && (CellAddr(Some(v)).Some? ==> CellAddr(Some(v)).value in s.mem)
    ensures Inserted(s, o, text, ReadCell(s.floats, Some(v)), Relaid(s, o, at, v), s.mem.Keys)
  {
    var t := Relaid(s, o, at, v);
    RelaidIsValid(s, o, text, at, v);
    RelaidSelf(s, o, text, at, v);
    RelaidNoNew(s, t, o, at, v);
    RelaidOthers(s, t, o, at, v);
    RelaidUnshared(s, t, o, at);
  }

  lemma RelaidUnshared(s: State, t: State, o: Addr, at: Addr)
    requires Unshared(s) && IsObject(t, o) && DataOf(t, o) == at
    requires forall p :: IsObject(t, p) && p != o ==> IsObject(s, p) && DataOf(t, p) == DataOf(s, p) && DataOf(s, p) != at
    ensures Unshared(t)
  {
  }

  // What came before the insert proper left the objects in `kept` as they were.
  lemma InsertedAfter(s: State, u: State, o: Addr, text: string, r: Reading, t: State, kept: set<Addr>)
    requires ObjectsGood(s) && o in kept && IsObject(s, o)
    requires forall p <- kept :: IsObject(s, p) ==> SameFields(s, u, p)
    requires Inserted(u, o, text, r, t, u.mem.Keys)
    ensures Inserted(s, o, text, r, t, kept)
  {
    assert GoodObject(s, o) && SameFields(s, u, o);
    forall p | p in kept && IsObject(s, p) && p != o
      ensures SameFields(s, t, p)
    {
      assert SameFields(s, u, p) && SameFields(u, t, p);
    }
  }

  // A fresh data block belongs to no object.
  lemma AllocDataKeepsObjects(s: State, at: Addr, classTag: nat)
    requires ObjectsGood(s) && at !in s.mem && classTag < |s.classes| && Fits(s, EmptyData(s, classTag))
    ensures var t := Allocated(s, at, EmptyData(s, classTag));
            && ObjectsGood(t) && (forall p :: IsObject(s, p) ==> SameFields(s, t, p))
            && (forall p :: IsObject(t, p) ==> DataOf(t, p) != at && IsObject(s, p) && DataOf(t, p) == DataOf(s, p))
  {
    var t := Allocated(s, at, EmptyData(s, classTag));
    EmptyDataStorable(s, classTag);
    AllocIsValid(s, at, EmptyData(s, classTag));
    forall p | IsObject(s, p)
      ensures GoodObject(t, p) && SameFields(s, t, p) && DataOf(s, p) != at && p != at
    {
      assert GoodObject(s, p);
      SameDataSameFields(s, t, p);
    }
    UnsharedStays(s, t);
  }

  ghost predicate NameStatic(s: State, name: StringPtr) {
    name.ptr in s.mem && name.ptr !in s.listed && s.mem[name.ptr].shape == Str(name.text)
  }

  ghost predicate RoomToGrow(s: State, o: Addr, text: string)
    requires GoodObject(s, o)
  {
    HasTag(s.classes, s.mem[DataOf(s, o)].shape.classTag, text)
  }

  lemma TransitionIsNew(s: State, c: nat, name: StringPtr)
    requires Valid(s) && c < |s.classes| && HasTag(s.classes, c, name.text) && Slot(s.classes[c], name.text) == None && NameStatic(s, name)
    ensures NewClasses(s, AfterTransition(s.classes, c, name).0)
  {
    TransitionAddsField(s.classes, c, name);
    var cs := AfterTransition(s.classes, c, name).0;
    forall k <- cs, e <- k.offsets
      ensures e.0.ptr in s.mem && e.0.ptr !in s.listed && s.mem[e.0.ptr].shape == Str(e.0.text)
    {
      var i :| 0 <= i < |cs| && cs[i] == k;
      if i < |s.classes| { assert e in s.classes[i].offsets; } else { assert e in s.classes[c].offsets || e.0 == name; }
    }
  }

  // The state in which the new block is to be filled, before and after a possible collection.
  lemma NewBlockReady(s: State, u: State, o: Addr, name: StringPtr, at: Addr)
    requires ObjectsGood(s) && IsObject(s, o) && GoodObject(s, o) && OwnSlot(s, o, name.text) == None && RoomToGrow(s, o, name.text)
    requires var (cs, newTag) := AfterTransition(s.classes, s.mem[DataOf(s, o)].shape.classTag, name);
             && ObjectsGood(u) && u.classes == cs && newTag < |cs| && at !in u.mem
             && IsObject(u, o) && GoodObject(u, o) && DataOf(u, o) in s.mem && u.mem[DataOf(u, o)].shape == s.mem[DataOf(s, o)].shape
             && Fits(u, EmptyData(u, newTag))
    ensures var newTag := AfterTransition(s.classes, s.mem[DataOf(s, o)].shape.classTag, name).1;
            var w := Allocated(u, at, EmptyData(u, newTag));
            ObjectsGood(w) && ReadyFor(w, o, name.text, at) && forall p :: IsObject(u, p) ==> SameFields(u, w, p)
  {
    var c := s.mem[DataOf(s, o)].shape.classTag;
    var newTag := AfterTransition(s.classes, c, name).1;
    TransitionAddsField(s.classes, c, name);
    AllocDataKeepsObjects(u, at, newTag);
    var w := Allocated(u, at, EmptyData(u, newTag));
    assert SameFields(u, w, o);
    assert ClassOf(w, o) == u.classes[c] && u.classes[c].offsets == s.classes[c].offsets && u.classes[c].size == s.classes[c].size;
  }

  // The state in which the insert is finished: what the allocator answered, and the objects since.
  ghost predicate Prepared(s: State, w: State, o: Addr, name: StringPtr, at: Addr, collected: bool) {
    && ObjectsGood(s) && ObjectsGood(w) && ReadyFor(w, o, name.text, at)
    && (forall p <- Reach(s) :: IsObject(s, p) ==> SameFields(s, w, p))
    && (!collected ==> w.floats == s.floats && forall a <- s.mem.Keys :: a in w.mem)
    && (collected ==> w.floats.upper != s.floats.upper && forall a <- s.mem.Keys :: (a in s.listed ==> a in Reach(s)) ==> a in w.mem)
  }

  // Whether or not there was a collection, the value is as good as it was, unless it is a float.
  lemma PreparedInserts(s: State, w: State, o: Addr, name: StringPtr, at: Addr, v: AnyVal, collected: bool)
    requires Prepared(s, w, o, name, at, collected) && IsObject(s, o) && o in Reach(s) && Rooted(s, v)
    ensures var t := Relaid(w, o, at, v);
            if collected && v.F64? then !Valid(t)
            else Inserted(s, o, name.text, ReadCell(s.floats, Some(v)), t, Reach(s))
  {
    if collected && v.F64? {
      StaleInsert(w, o, at, v);
    } else {
      RelaidInserts(w, o, name.text, at, v);
      InsertedAfter(s, w, o, name.text, ReadCell(s.floats, Some(v)), Relaid(w, o, at, v), Reach(s));
    }
  }

  lemma StaleInsert(w: State, o: Addr, at: Addr, v: AnyVal)
    requires GoodObject(w, o) && at in w.listed && at in w.mem && w.mem[at].shape.ObjectData? && !CellLive(w.floats, Some(v))
    ensures !Valid(Relaid(w, o, at, v))
  {
    var t := Relaid(w, o, at, v);
    var cells := w.mem[DataOf(w, o)].cells + [Some(v)];
    assert t.mem[at].cells == cells && cells[|cells| - 1] == Some(v);
    assert !BlockGood(t, at);
  }

  lemma PreparedDirectly(s: State, o: Addr, name: StringPtr, at: Addr)
    requires ObjectsGood(s) && IsObject(s, o) && GoodObject(s, o) && RoomToGrow(s, o, name.text)
    requires OwnSlot(s, o, name.text) == None && NameStatic(s, name) && at !in s.mem
    requires var (cs, newTag) := AfterTransition(s.classes, s.mem[DataOf(s, o)].shape.classTag, name);
             newTag < |cs| && Fits(s.(classes := cs), EmptyData(s.(classes := cs), newTag))
    ensures var (cs, newTag) := AfterTransition(s.classes, s.mem[DataOf(s, o)].shape.classTag, name);
            Prepared(s, Allocated(s.(classes := cs), at, EmptyData(s.(classes := cs), newTag)), o, name, at, false)
  {
    var (cs, newTag) := AfterTransition(s.classes, s.mem[DataOf(s, o)].shape.classTag, name);
    var u := s.(classes := cs);
    TransitionIsNew(s, s.mem[DataOf(s, o)].shape.classTag, name);
    ClassesGrow(s, cs);
    assert GoodObject(u, o);
    NewBlockReady(s, u, o, name, at);
    var w := Allocated(u, at, EmptyData(u, newTag));
    forall p | IsObject(s, p)
      ensures SameFields(s, w, p)
    {
      assert SameFields(s, u, p) && SameFields(u, w, p);
    }
  }

  lemma PreparedByCollecting(s: State, mid: State, o: Addr, name: StringPtr, at: Addr)
    requires ObjectsGood(s) && IsObject(s, o) && GoodObject(s, o) && o in Reach(s) && RoomToGrow(s, o, name.text)
    requires OwnSlot(s, o, name.text) == None && NameStatic(s, name) && at !in s.mem
    requires var (cs, newTag) := AfterTransition(s.classes, s.mem[DataOf(s, o)].shape.classTag, name);
             newTag < |cs| && Collected(s.(classes := cs), mid) && Fits(mid, EmptyData(s.(classes := cs), newTag))
    ensures var (cs, newTag) := AfterTransition(s.classes, s.mem[DataOf(s, o)].shape.classTag, name);
            Prepared(s, Allocated(mid, at, EmptyData(s.(classes := cs), newTag)), o, name, at, true)
  {
    var (cs, newTag) := AfterTransition(s.classes, s.mem[DataOf(s, o)].shape.classTag, name);
    var u := s.(classes := cs);
    TransitionIsNew(s, s.mem[DataOf(s, o)].shape.classTag, name);
    ClassesGrow(s, cs);
    CollectedKeepsObjects(u, mid);
    CollectedObject(u, mid, o);
    assert GoodObject(mid, o) && EmptyData(mid, newTag) == EmptyData(u, newTag);
    CollectedDataShape(u, mid, o);
    NewBlockReady(s, mid, o, name, at);
    var w := Allocated(mid, at, EmptyData(u, newTag));
    forall p | p in Reach(s) && IsObject(s, p)
      ensures SameFields(s, w, p)
    {
      assert SameFields(s, u, p) && SameFields(u, mid, p) && SameFields(mid, w, p);
    }
  }

  lemma CollectedDataShape(s: State, t: State, o: Addr)
    requires ObjectsGood(s) && Collected(s, t) && IsObject(s, o) && o in Reach(s)
    ensures DataOf(s, o) in t.mem && t.mem[DataOf(s, o)].shape == s.mem[DataOf(s, o)].shape
  {
    DataReached(s, o);
    assert BlockMoved(s, t, DataOf(s, o), true);
  }

  // ----- The methods -----

  method WriteAt(h: Heap, d: Addr, index: nat, v: AnyVal)
    requires d in h.mem && index < |h.mem[d].cells|
    modifies h`mem
    ensures h.mem == old(h.mem)[d := old(h.mem)[d].(cells := old(h.mem)[d].cells[index := Some(v)])]
  {
    h.mem := h.mem[d := h.mem[d].(cells := h.mem[d].cells[index := Some(v)])];
  }

  // Copies the slots of the old data, adds the value, and points the object to the new data.
  method RelayOut(h: Heap, o: Addr, at: Addr, v: AnyVal)
    requires GoodObject(h.Abs(), o) && at in h.mem && at != DataOf(h.Abs(), o) && at != o
    requires h.mem[at].cells == Blank(|h.mem[DataOf(h.Abs(), o)].cells| + 1)
    modifies h`mem
    ensures h.Abs() == Relaid(old(h.Abs()), o, at, v)
  {
    ghost var mem := h.mem;
    var d := h.mem[o].shape.data;
    var size := |h.mem[d].cells|;
    ghost var was := h.mem[d].cells;
    var i := 0;
    while i < size
      invariant 0 <= i <= size && at in h.mem && h.mem == mem[at := mem[at].(cells := h.mem[at].cells)]
      invariant |h.mem[at].cells| == size + 1 && h.mem[at].cells[..i] == was[..i]
    {
      var val := h.mem[d].cells[i];
      if val.Some? {
        WriteAt(h, at, i, val.value);
      }
      assert was[..i + 1] == was[..i] + [was[i]];
      assert h.mem[at].cells[..i + 1] == h.mem[at].cells[..i] + [was[i]];
      i := i + 1;
    }
    WriteAt(h, at, size, v);
    assert h.mem[at].cells == was + [Some(v)];
    h.mem := h.mem[o := h.mem[o].(shape := ObjectPtrPtr(at))];
    assert h.mem == mem[at := mem[at].(cells := was + [Some(v)])][o := mem[o].(shape := ObjectPtrPtr(at))];
  }

  // What an insert finds: an object that the program can reach, and a name in static memory; a new
  // field needs a tag for its class.
  ghost predicate InsertReady(s: State, o: Addr, name: StringPtr, at: Addr) {
    && ObjectsGood(s) && GoodObject(s, o) && o in Reach(s) && EnvsFilled(s)
    && NameStatic(s, name) && at !in s.mem && (OwnSlot(s, o, name.text) == None ==> RoomToGrow(s, o, name.text))
  }

  // Whether there is room for the object's new data, and whether memory has to be collected first.
  ghost function NewBlockAnswer(s: State, o: Addr, name: StringPtr): (Outcome, bool)
    requires GoodObject(s, o) && ValidClasses(s.classes) && OwnSlot(s, o, name.text) == None && RoomToGrow(s, o, name.text)
  {
    var c := s.mem[DataOf(s, o)].shape.classTag;
    TransitionAddsField(s.classes, c, name);
    var (cs, newTag) := AfterTransition(s.classes, c, name);
    var u := s.(classes := cs);
    (Answer(u, EmptyData(u, newTag)), !Fits(u, EmptyData(u, newTag)))
  }

  // From u to `mid` memory was collected, if there was no room for the block.
  ghost predicate MadeRoom(u: State, mid: State, b: Block) {
    if Fits(u, b) then mid == u else Collected(u, mid) && Fits(mid, b)
  }

  // The block for the object's new data has been allocated, in `mid`.
  ghost predicate BlockMade(s: State, mid: State, w: State, o: Addr, name: StringPtr, at: Addr)
    requires GoodObject(s, o)
  {
    var (cs, newTag) := AfterTransition(s.classes, s.mem[DataOf(s, o)].shape.classTag, name);
    var u := s.(classes := cs);
    newTag < |cs| && MadeRoom(u, mid, EmptyData(u, newTag)) && w == Allocated(mid, at, EmptyData(u, newTag))
  }

  // All that an insert does to the heap, with `w` in front of the last step.
  ghost predicate InsertRan(s: State, mid: State, w: State, t: State, o: Addr, name: StringPtr, v: AnyVal, at: Addr)
    requires GoodObject(s, o) && ValidClasses(s.classes)
  {
    match OwnSlot(s, o, name.text)
    case Some(i) => t == Overwritten(s, DataOf(s, o), i, v)
    case None => BlockMade(s, mid, w, o, name, at) && GoodObject(w, o) && at in w.mem && t == Relaid(w, o, at, v)
  }

  ghost predicate InsertDone(s: State, o: Addr, text: string, v: AnyVal, t: State, collected: bool) {
    s.floats.Valid() && CellLive(s.floats, Some(v)) &&
    if collected && v.F64? then !Valid(t) else Inserted(s, o, text, ReadCell(s.floats, Some(v)), t, Reach(s))
  }

  // Sets a field.  For every object that the program can reach, in whichever order fields were
  // added and whether or not memory ran out on the way, the object then maps the name to the value
  // and every other name to what it had, and no other object changes.  The one exception is a float
  // inserted just when room has to be made: it is not moved, and the object is left pointing at it.
  method Insert(h: Heap, o: Addr, name: StringPtr, v: AnyVal, cache: int, at: Addr)
    returns (r: Outcome, cache1: int, ghost collected: bool, ghost mid: State, ghost w: State)
    requires h.Built() && InsertReady(h.Abs(), o, name, at) && Rooted(h.Abs(), v)
    requires CacheFits(ClassOf(h.Abs(), o), name.text, cache)
    modifies h`mem, h`allocList, h`usedMem, h.f64Allocator, h.f64Allocator.lowerSpace, h.f64Allocator.upperSpace, h.classes
    ensures h.Built() && cache1 == old(CacheAfter(ClassOf(h.Abs(), o), name.text, cache))
    ensures r == Allocd ==> InsertDone(old(h.Abs()), o, name.text, v, h.Abs(), collected)
    ensures r == Allocd ==> InsertRan(old(h.Abs()), mid, w, h.Abs(), o, name, v, at)
    ensures old(OwnSlot(h.Abs(), o, name.text)).Some? ==> r == Allocd && !collected
    ensures old(OwnSlot(h.Abs(), o, name.text)).None? ==> (r, collected) == old(NewBlockAnswer(h.Abs(), o, name))
  {
    ghost var s := h.Abs();
    CacheRightIffFits(ClassOf(s, o), name.text, cache);
    SlotInRange(ClassOf(s, o), name.text);
    var d := h.mem[o].shape.data;
    var found: Option<int>;
    found, cache1 := h.classes.LookupCached(h.mem[d].shape.classTag, name, cache);
    match found {
      case Some(offset) =>
        InsertInPlace(h, o, offset, name, v);
        r, collected, mid, w := Allocd, false, s, s;
      case None =>
        r, collected, mid, w := InsertNew(h, o, name, v, at);
    }
  }

  method InsertInPlace(h: Heap, o: Addr, offset: nat, name: StringPtr, v: AnyVal)
    requires h.Built() && ObjectsGood(h.Abs()) && GoodObject(h.Abs(), o) && o in Reach(h.Abs()) && Rooted(h.Abs(), v)
    requires OwnSlot(h.Abs(), o, name.text) == Some(offset)
    modifies h`mem
    ensures InsertDone(old(h.Abs()), o, name.text, v, h.Abs(), false)
    ensures h.Abs() == Overwritten(old(h.Abs()), DataOf(old(h.Abs()), o), offset, v)
  {
    ghost var s := h.Abs();
    ghost var t := Overwritten(s, DataOf(s, o), offset, v);
    OverwriteDone(s, o, offset, name.text, v);
    WriteAt(h, h.mem[o].shape.data, offset, v);
    assert h.Abs() == t;
  }

  lemma OverwriteDone(s: State, o: Addr, offset: nat, text: string, v: AnyVal)
    requires ObjectsGood(s) && GoodObject(s, o) && OwnSlot(s, o, text) == Some(offset) && Rooted(s, v)
    ensures InsertDone(s, o, text, v, Overwritten(s, DataOf(s, o), offset, v), false)
  {
    OverwriteInserts(s, o, text, v);
  }

  method InsertNew(h: Heap, o: Addr, name: StringPtr, v: AnyVal, at: Addr)
    returns (r: Outcome, ghost collected: bool, ghost mid: State, ghost w: State)
    requires h.Built() && InsertReady(h.Abs(), o, name, at) && Rooted(h.Abs(), v)
    requires OwnSlot(h.Abs(), o, name.text) == None
    modifies h`mem, h`allocList, h`usedMem, h.f64Allocator, h.f64Allocator.lowerSpace, h.f64Allocator.upperSpace, h.classes
    ensures h.Built() && (r, collected) == old(NewBlockAnswer(h.Abs(), o, name))
    ensures r == Allocd ==> InsertDone(old(h.Abs()), o, name.text, v, h.Abs(), collected)
    ensures r == Allocd ==> InsertRan(old(h.Abs()), mid, w, h.Abs(), o, name, v, at)
  {
    ghost var s := h.Abs();
    r, collected, mid := PrepareBlock(h, o, name, at);
    w := h.Abs();
    if r == Allocd {
      assert GoodObject(w, o);
      RelayOut(h, o, at, v);
      PreparedInserts(s, w, o, name, at, v, collected);
    }
  }

  // Finds or makes the class with the new field, and a block for it.
  method PrepareBlock(h: Heap, o: Addr, name: StringPtr, at: Addr) returns (r: Outcome, ghost collected: bool, ghost mid: State)
    requires h.Built() && InsertReady(h.Abs(), o, name, at) && OwnSlot(h.Abs(), o, name.text) == None
    modifies h`mem, h`allocList, h`usedMem, h.f64Allocator, h.f64Allocator.lowerSpace, h.f64Allocator.upperSpace, h.classes
    ensures h.Built() && (r, collected) == old(NewBlockAnswer(h.Abs(), o, name))
    ensures r == Allocd ==> Prepared(old(h.Abs()), h.Abs(), o, name, at, collected) && FreshSlots(h.Abs(), o, at)
    ensures r == Allocd ==> BlockMade(old(h.Abs()), mid, h.Abs(), o, name, at)
  {
    ghost var s := h.Abs();
    var c := h.mem[h.mem[o].shape.data].shape.classTag;
    ReadyToAlloc(s, o, name, at);
    var newTag := h.classes.Transition(c, name);
    var n := h.classes.classes[newTag].size;
    ghost var u := h.Abs();
    assert u == s.(classes := AfterTransition(s.classes, c, name).0) && newTag == AfterTransition(s.classes, c, name).1;
    r, mid := h.AllocOrGc(ObjectData(newTag), Blank(n), ANY_SIZE * n, at);
    collected := !Fits(u, EmptyData(u, newTag));
    AnswerIs(s, o, name, at);
    if r == Allocd { AllocPrepares(s, mid, h.Abs(), o, name, at); }
  }

  ghost predicate FreshSlots(w: State, o: Addr, at: Addr) {
    GoodObject(w, o) && at in w.mem && w.mem[at].cells == Blank(|w.mem[DataOf(w, o)].cells| + 1)
  }

  lemma ReadyToAlloc(s: State, o: Addr, name: StringPtr, at: Addr)
    requires InsertReady(s, o, name, at) && OwnSlot(s, o, name.text) == None
    ensures var (cs, newTag) := AfterTransition(s.classes, s.mem[DataOf(s, o)].shape.classTag, name);
            var u := s.(classes := cs);
            newTag < |cs| && Valid(u) && EnvsFilled(u) && Storable(u, EmptyData(u, newTag)) && Survives(u, EmptyData(u, newTag))
  {
    var c := s.mem[DataOf(s, o)].shape.classTag;
    var (cs, newTag) := AfterTransition(s.classes, c, name);
    TransitionAddsField(s.classes, c, name);
    TransitionIsNew(s, c, name);
    ClassesGrow(s, cs);
    EmptyDataStorable(s.(classes := cs), newTag);
    EmptyDataSurvives(s.(classes := cs), newTag);
  }

  lemma AnswerIs(s: State, o: Addr, name: StringPtr, at: Addr)
    requires InsertReady(s, o, name, at)
    requires OwnSlot(s, o, name.text) == None
    ensures var (cs, newTag) := AfterTransition(s.classes, s.mem[DataOf(s, o)].shape.classTag, name);
            var u := s.(classes := cs);
            newTag < |cs| && NewBlockAnswer(s, o, name) == (Answer(u, EmptyData(u, newTag)), !Fits(u, EmptyData(u, newTag)))
  {
    TransitionAddsField(s.classes, s.mem[DataOf(s, o)].shape.classTag, name);
  }

  lemma AllocPrepares(s: State, mid: State, w: State, o: Addr, name: StringPtr, at: Addr)
    requires InsertReady(s, o, name, at) && OwnSlot(s, o, name.text) == None
    requires var (cs, newTag) := AfterTransition(s.classes, s.mem[DataOf(s, o)].shape.classTag, name);
             var u := s.(classes := cs);
             newTag < |cs| && TriedTwice(u, mid, w, at, EmptyData(u, newTag), Allocd)
    ensures var (cs, newTag) := AfterTransition(s.classes, s.mem[DataOf(s, o)].shape.classTag, name);
            var u := s.(classes := cs);
            Prepared(s, w, o, name, at, !Fits(u, EmptyData(u, newTag))) && FreshSlots(w, o, at)
    ensures BlockMade(s, mid, w, o, name, at)
  {
    var (cs, newTag) := AfterTransition(s.classes, s.mem[DataOf(s, o)].shape.classTag, name);
    var u := s.(classes := cs);
    if Fits(u, EmptyData(u, newTag)) { PreparedDirectly(s, o, name, at); } else { PreparedByCollecting(s, mid, o, name, at); }
    ReadyIsFresh(w, o, name.text, at, u, newTag);
  }

  lemma ReadyIsFresh(w: State, o: Addr, text: string, at: Addr, u: State, newTag: nat)
    requires ReadyFor(w, o, text, at) && newTag < |u.classes| && w.classes == u.classes && w.mem[at] == EmptyData(u, newTag)
    ensures FreshSlots(w, o, at)
  {
  }

  lemma EmptyDataSurvives(s: State, classTag: nat)
    requires Valid(s) && classTag < |s.classes|
    ensures Survives(s, EmptyData(s, classTag))
  {
    var b := EmptyData(s, classTag);
    forall x | x in CellTags(b.cells)
      ensures false
    {
      CellTagsExact(b.cells, x);
    }
    forall x | x in Links(b.shape, s.classes)
      ensures x !in s.listed
    {
      var i :| 0 <= i < |s.classes[classTag].offsets| && s.classes[classTag].offsets[i].0.ptr == x;
      assert s.classes[classTag].offsets[i] in s.classes[classTag].offsets;
    }
  }
}

// Objects on the managed heap as maps from names to values, and what leaves them as they are.

module Objects {
  import opened Common
  import opened ClassLists
  import opened HeapValues
  import opened Collection
  import opened Mutator
  import opened ManagedHeap

  // ----- Objects as maps -----

  ghost predicate IsObject(s: State, o: Addr) {
    o in s.mem && s.mem[o].shape.ObjectPtrPtr?
  }

  ghost function DataOf(s: State, o: Addr): Addr
    requires IsObject(s, o)
  {
    s.mem[o].shape.data
  }

  // The pointer block leads to data of some class, every slot of it filled.
  ghost predicate GoodObject(s: State, o: Addr) {
    && IsObject(s, o) && o in s.listed
    && var d := DataOf(s, o);
    && d in s.listed && d in s.mem && s.mem[d].shape.ObjectData?
    && s.mem[d].shape.classTag < |s.classes| && |s.mem[d].cells| == s.classes[s.mem[d].shape.classTag].size
    && forall i :: 0 <= i < |s.mem[d].cells| ==> s.mem[d].cells[i].Some? && CellLive(s.floats, s.mem[d].cells[i])
  }

  // No two objects share their data.
  ghost predicate Unshared(s: State) {
    forall o, p :: IsObject(s, o) && IsObject(s, p) && o != p ==> DataOf(s, o) != DataOf(s, p)
  }

  ghost predicate ObjectsGood(s: State) {
    Valid(s) && Unshared(s) && forall o :: IsObject(s, o) ==> GoodObject(s, o)
  }

  ghost function ClassOf(s: State, o: Addr): Class
    requires GoodObject(s, o)
  {
    s.classes[s.mem[DataOf(s, o)].shape.classTag]
  }

  ghost function OwnSlot(s: State, o: Addr, text: string): (r: Option<nat>)
    requires GoodObject(s, o) && ValidClasses(s.classes)
    ensures r.Some? ==> r.value < |s.mem[DataOf(s, o)].cells|
  {
    SlotInRange(ClassOf(s, o), text);
    Slot(ClassOf(s, o), text)
  }

  ghost function OwnValue(s: State, o: Addr, text: string): Option<AnyVal>
    requires GoodObject(s, o) && ValidClasses(s.classes)
  {
    match OwnSlot(s, o, text)
    case None => None
    case Some(i) => s.mem[DataOf(s, o)].cells[i]
  }

  // The object read as a map from names to what the program sees there.
  ghost function Field(s: State, o: Addr, text: string): Option<Reading>
    requires GoodObject(s, o) && ValidClasses(s.classes) && s.floats.Valid()
  {
    match OwnSlot(s, o, text)
    case None => None
    case Some(i) => Some(ReadCell(s.floats, s.mem[DataOf(s, o)].cells[i]))
  }

  ghost predicate SameFields(s: State, t: State, o: Addr) {
    && GoodObject(s, o) && ValidClasses(s.classes) && s.floats.Valid()
    && GoodObject(t, o) && ValidClasses(t.classes) && t.floats.Valid()
    && forall text :: Field(t, o, text) == Field(s, o, text)
  }

  // ----- What leaves objects as they are -----

  lemma DataReached(s: State, o: Addr)
    requires ObjectsGood(s) && IsObject(s, o) && o in Reach(s)
    ensures DataOf(s, o) in Reach(s)
  {
    assert GoodObject(s, o);
    assert CellTags(s.mem[o].cells) + [DataOf(s, o)] == TagsAt(s, o);
    assert (CellTags(s.mem[o].cells) + [DataOf(s, o)])[|CellTags(s.mem[o].cells)|] == DataOf(s, o);
    EdgeReached(s, o, DataOf(s, o));
  }

  // Two states in which the object's data reads the same.
  ghost predicate SameData(s: State, t: State, d: Addr) {
    && s.floats.Valid() && t.floats.Valid()
    && d in s.mem && d in t.mem && t.mem[d].shape == s.mem[d].shape && |t.mem[d].cells| == |s.mem[d].cells|
    && forall i :: 0 <= i < |s.mem[d].cells| ==>
         && CellLive(s.floats, s.mem[d].cells[i]) && CellLive(t.floats, t.mem[d].cells[i])
         && (s.mem[d].cells[i].Some? ==> t.mem[d].cells[i].Some?)
         && ReadCell(t.floats, t.mem[d].cells[i]) == ReadCell(s.floats, s.mem[d].cells[i])
  }

  lemma SameDataSameFields(s: State, t: State, o: Addr)
    requires ValidClasses(s.classes) && ValidClasses(t.classes) && Extends(s.classes, t.classes)
    requires GoodObject(s, o) && IsObject(t, o) && o in t.listed && DataOf(t, o) == DataOf(s, o) && DataOf(s, o) in t.listed
    requires SameData(s, t, DataOf(s, o))
    ensures SameFields(s, t, o)
  {
    var c := s.mem[DataOf(s, o)].shape.classTag;
    assert t.classes[c].offsets == s.classes[c].offsets;
  }

  lemma CollectedData(s: State, t: State, d: Addr)
    requires Collectable(s) && Collected(s, t) && d in Reach(s)
    ensures SameData(s, t, d)
  {
    assert BlockMoved(s, t, d, true);
    CellsAreLive(s, d);
    forall i | 0 <= i < |s.mem[d].cells|
      ensures CellLive(s.floats, s.mem[d].cells[i]) && CellLive(t.floats, t.mem[d].cells[i])
      ensures s.mem[d].cells[i].Some? ==> t.mem[d].cells[i].Some?
      ensures ReadCell(t.floats, t.mem[d].cells[i]) == ReadCell(s.floats, s.mem[d].cells[i])
    {
      CollectionIsInvisible(s, t, d, i);
      assert CellMoved(s.floats, t.floats, s.mem[d].cells[i], t.mem[d].cells[i]);
    }
  }

  lemma CollectedObject(s: State, t: State, o: Addr)
    requires ObjectsGood(s) && Collected(s, t) && Valid(t) && IsObject(s, o) && o in Reach(s)
    ensures IsObject(t, o) && DataOf(t, o) == DataOf(s, o) && SameFields(s, t, o)
  {
    assert GoodObject(s, o);
    DataReached(s, o);
    assert BlockMoved(s, t, o, true);
    CollectedData(s, t, DataOf(s, o));
    SameDataSameFields(s, t, o);
  }

  lemma CollectedWasObject(s: State, t: State, o: Addr)
    requires ObjectsGood(s) && Collected(s, t) && IsObject(t, o)
    ensures IsObject(s, o) && o in Reach(s)
  {
    assert BlockMoved(s, t, o, o in Reach(s));
    assert GoodObject(s, o);
  }

  // A collection keeps the fields of every object that it keeps.
  lemma CollectedKeepsObjects(s: State, t: State)
    requires ObjectsGood(s) && Collected(s, t)
    ensures ObjectsGood(t)
    ensures forall o :: IsObject(s, o) && o in Reach(s) ==> SameFields(s, t, o)
  {
    CollectedIsValid(s, t);
    forall o | IsObject(t, o)
      ensures GoodObject(t, o) && IsObject(s, o) && DataOf(t, o) == DataOf(s, o)
    {
      CollectedWasObject(s, t, o);
      CollectedObject(s, t, o);
    }
    forall o | IsObject(s, o) && o in Reach(s)
      ensures SameFields(s, t, o)
    {
      CollectedObject(s, t, o);
    }
  }

  // ----- Inserting -----

  // From s to t the object o got the reading r at `text`; nothing else changed in it, nor in any
  // other object of a given set.
  ghost predicate Inserted(s: State, o: Addr, text: string, r: Reading, t: State, kept: set<Addr>) {
    && ObjectsGood(s) && ObjectsGood(t) && IsObject(s, o) && IsObject(t, o)
    && Field(t, o, text) == Some(r)
    && (forall other :: other != text ==> Field(t, o, other) == Field(s, o, other))
    && (forall p <- kept :: IsObject(s, p) && p != o ==> SameFields(s, t, p))
  }

  // The program may store the value: it is current, and what it points to is kept alive elsewhere.
  ghost predicate Rooted(s: State, v: AnyVal) {
    && CellLive(s.floats, Some(v))
    && (CellAddr(Some(v)).Some? ==> var a := CellAddr(Some(v)).value; a in s.mem && (a in s.listed ==> a in Reach(s)))
  }

  ghost function Overwritten(s: State, d: Addr, i: nat, v: AnyVal): State
    requires d in s.mem && i < |s.mem[d].cells|
  {
    WithCells(s, d, s.mem[d].cells[i := Some(v)])
  }

  lemma OverwriteIsValid(s: State, d: Addr, i: nat, v: AnyVal)
    requires Valid(s) && d in s.listed && d in s.mem && s.mem[d].shape.ObjectData? && i < |s.mem[d].cells|
    requires CellLive(s.floats, Some(v)) && (CellAddr(Some(v)).Some? ==> CellAddr(Some(v)).value in s.mem)
    ensures Valid(Overwritten(s, d, i, v))
  {
    var cells := s.mem[d].cells[i := Some(v)];
    var b := s.mem[d].(cells := cells);
    assert BlockGood(s, d);
    forall x | x in Tags(b, s.classes)
      ensures x in s.mem
    {
      if x in CellTags(cells) { WrittenTag(s.mem[d].cells, cells, v, x); }
      assert x in TagsAt(s, d) || CellAddr(Some(v)) == Some(x);
    }
    WithCellsIsValid(s, d, cells);
  }

  // Objects with other data are not touched by a change to the block d.
  lemma OthersKept(s: State, t: State, d: Addr, p: Addr)
    requires Valid(s) && Valid(t) && t.classes == s.classes && t.floats == s.floats && t.listed == s.listed
    requires GoodObject(s, p) && DataOf(s, p) != d && p != d
    requires t.mem.Keys == s.mem.Keys && forall a <- s.mem.Keys :: a != d ==> t.mem[a] == s.mem[a]
    ensures GoodObject(t, p) && SameFields(s, t, p)
  {
    assert t.mem[p] == s.mem[p] && t.mem[DataOf(s, p)] == s.mem[DataOf(s, p)];
    SameDataSameFields(s, t, p);
  }

  lemma UnsharedStays(s: State, t: State)
    requires Unshared(s) && forall p :: IsObject(t, p) ==> IsObject(s, p) && DataOf(t, p) == DataOf(s, p)
    ensures Unshared(t)
  {
  }

  lemma OverwriteGood(s: State, o: Addr, i: nat, v: AnyVal)
    requires GoodObject(s, o) && o != DataOf(s, o) && i < |s.mem[DataOf(s, o)].cells| && CellLive(s.floats, Some(v))
    ensures GoodObject(Overwritten(s, DataOf(s, o), i, v), o)
  {
  }

  lemma OverwriteOther(s: State, t: State, o: Addr, p: Addr)
    requires ObjectsGood(s) && IsObject(s, o) && GoodObject(s, o) && Valid(t) && IsObject(s, p) && p != o
    requires t == s.(mem := t.mem) && t.mem.Keys == s.mem.Keys && forall a <- s.mem.Keys :: a != DataOf(s, o) ==> t.mem[a] == s.mem[a]
    ensures GoodObject(t, p) && SameFields(s, t, p)
  {
    assert GoodObject(s, p);
    OthersKept(s, t, DataOf(s, o), p);
  }

  lemma OverwriteOthers(s: State, t: State, o: Addr)
    requires ObjectsGood(s) && IsObject(s, o) && GoodObject(s, o) && Valid(t)
    requires t == s.(mem := t.mem) && t.mem.Keys == s.mem.Keys && forall a <- s.mem.Keys :: a != DataOf(s, o) ==> t.mem[a] == s.mem[a]
    ensures forall p :: IsObject(s, p) && p != o ==> SameFields(s, t, p)
  {
    forall p | IsObject(s, p) && p != o
      ensures SameFields(s, t, p)
    {
      OverwriteOther(s, t, o, p);
    }
  }

  lemma OverwriteTargets(s: State, d: Addr, i: nat, v: AnyVal)
    requires d in s.mem && i < |s.mem[d].cells|
    ensures var t := Overwritten(s, d, i, v); forall p :: IsObject(t, p) ==> IsObject(s, p) && DataOf(t, p) == DataOf(s, p)
  {
  }

  lemma OverwriteKeepsObjects(s: State, o: Addr, i: nat, v: AnyVal)
    requires ObjectsGood(s) && IsObject(s, o) && GoodObject(s, o) && i < |s.mem[DataOf(s, o)].cells|
    requires CellLive(s.floats, Some(v)) && (CellAddr(Some(v)).Some? ==> CellAddr(Some(v)).value in s.mem)
    ensures var t := Overwritten(s, DataOf(s, o), i, v);
            ObjectsGood(t) && IsObject(t, o) && GoodObject(t, o) && forall p :: IsObject(s, p) && p != o ==> SameFields(s, t, p)
  {
    OverwriteIsValid(s, DataOf(s, o), i, v);
    OverwriteGood(s, o, i, v);
    OverwriteTargets(s, DataOf(s, o), i, v);
    OverwriteOthers(s, Overwritten(s, DataOf(s, o), i, v), o);
    UnsharedStays(s, Overwritten(s, DataOf(s, o), i, v));
  }

  lemma OverwriteFields(s: State, o: Addr, text: string, v: AnyVal, t: State)
    requires ValidClasses(s.classes) && s.floats.Valid() && GoodObject(s, o) && GoodObject(t, o) && OwnSlot(s, o, text).Some?
    requires t == Overwritten(s, DataOf(s, o), OwnSlot(s, o, text).value, v)
    requires CellLive(s.floats, Some(v)) && o != DataOf(s, o)
    ensures Field(t, o, text) == Some(ReadCell(s.floats, Some(v)))
    ensures forall other :: other != text ==> Field(t, o, other) == Field(s, o, other)
  {
    forall other | other != text
      ensures Field(t, o, other) == Field(s, o, other)
    {
      SlotInRange(ClassOf(s, o), text);
      SlotInRange(ClassOf(s, o), other);
    }
  }

  lemma OverwriteInserts(s: State, o: Addr, text: string, v: AnyVal)
    requires ObjectsGood(s) && IsObject(s, o) && GoodObject(s, o) && OwnSlot(s, o, text).Some?
    requires CellLive(s.floats, Some(v)) && (CellAddr(Some(v)).Some? ==> CellAddr(Some(v)).value in s.mem)
    ensures Inserted(s, o, text, ReadCell(s.floats, Some(v)), Overwritten(s, DataOf(s, o), OwnSlot(s, o, text).value, v), s.mem.Keys)
  {
    var i := OwnSlot(s, o, text).value;
    OverwriteKeepsObjects(s, o, i, v);
    OverwriteFields(s, o, text, v, Overwritten(s, DataOf(s, o), i, v));
  }

  // ----- A new field: the class changes first -----

  ghost predicate NewClasses(s: State, cs: seq<Class>) {
    ValidClasses(cs) && Extends(s.classes, cs) && KeysStatic(s.(classes := cs))
  }

  // The new table says the same about every block.
  ghost predicate SameBlocks(s: State, t: State) {
    t.mem == s.mem && forall a <- s.mem.Keys :: BlockGood(s, a) || StaticString(s, a) ==>
      TagsAt(t, a) == TagsAt(s, a) && BlockBytes(t, a) == BlockBytes(s, a) && (BlockGood(s, a) ==> BlockGood(t, a))
  }

  lemma ClassesSameBlocks(s: State, cs: seq<Class>)
    requires Extends(s.classes, cs)
    ensures SameBlocks(s, s.(classes := cs))
  {
    var t := s.(classes := cs);
    forall a | a in s.mem.Keys && (BlockGood(s, a) || StaticString(s, a))
      ensures TagsAt(t, a) == TagsAt(s, a) && BlockBytes(t, a) == BlockBytes(s, a) && (BlockGood(s, a) ==> BlockGood(t, a))
    {
      if s.mem[a].shape.ObjectData? {
        var c := s.mem[a].shape.classTag;
        assert cs[c].offsets == s.classes[c].offsets;
        assert Keys(cs[c]) == Keys(s.classes[c]);
      }
    }
  }

  lemma ClassesKeepValid(s: State, cs: seq<Class>)
    requires Valid(s) && NewClasses(s, cs)
    ensures Valid(s.(classes := cs)) && Reach(s.(classes := cs)) == Reach(s)
  {
    var t := s.(classes := cs);
    ClassesSameBlocks(s, cs);
    forall a | a in s.mem.Keys
      ensures BlockGood(s, a) || StaticString(s, a)
    {
    }
    assert forall a <- t.listed :: BlockGood(t, a) by { assert forall a <- t.listed :: BlockGood(s, a); }
    assert forall a <- t.mem.Keys :: a in t.listed || StaticString(t, a) by {
      assert forall a <- s.mem.Keys :: a in s.listed || StaticString(s, a);
    }
    BytesSame(s, t, s.listed);
    SameTagsSameReach(s, t);
  }

  lemma SameTagsSameReach(s: State, t: State)
    requires t.mem == s.mem && t.shadow == s.shadow && forall a <- s.mem.Keys :: TagsAt(t, a) == TagsAt(s, a)
    ensures Reach(s) == Reach(t)
  {
    ReachAlong(s, t, s.mem.Keys);
    ReachAlong(t, s, s.mem.Keys);
  }

  // A longer class table changes no object.
  lemma ClassesGrow(s: State, cs: seq<Class>)
    requires ObjectsGood(s) && NewClasses(s, cs)
    ensures ObjectsGood(s.(classes := cs)) && Reach(s.(classes := cs)) == Reach(s)
    ensures forall p :: IsObject(s, p) ==> SameFields(s, s.(classes := cs), p)
  {
    var t := s.(classes := cs);
    ClassesKeepValid(s, cs);
    forall p | IsObject(s, p)
      ensures GoodObject(t, p) && SameFields(s, t, p)
    {
      assert GoodObject(s, p);
      SameDataSameFields(s, t, p);
    }
    UnsharedStays(s, t);
  }
}

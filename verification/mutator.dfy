// What a running program does to the heap between collections, one operation at a time.

module Mutator {
  import opened Common
  import opened ClassLists
  import opened HeapValues
  import opened Collection

  // ----- Single operations -----

  function Allocated(s: State, a: Addr, b: Block): State {
    s.(mem := s.mem[a := b], listed := [a] + s.listed, used := s.used + TAG_SIZE + DataSize(b, s.classes))
  }

  predicate Fits(s: State, b: Block) {
    s.used + TAG_SIZE + DataSize(b, s.classes) <= s.size
  }

  // One attempt: either it fits, or nothing happens.
  function TryAlloc(s: State, a: Addr, b: Block): (State, Option<Addr>) {
    if Fits(s, b) then (Allocated(s, a, b), Some(a)) else (s, None)
  }

  function WithCells(s: State, a: Addr, cells: seq<Option<AnyVal>>): State
    requires a in s.mem
  {
    s.(mem := s.mem[a := s.mem[a].(cells := cells)])
  }

  function WithRoot(s: State, frame: nat, slot: nat, r: Option<Addr>): State
    requires frame < |s.shadow| && slot < |s.shadow[frame]|
  {
    s.(shadow := s.shadow[frame := s.shadow[frame][slot := r]])
  }

  function FrameEntered(s: State, slots: nat): State {
    s.(shadow := s.shadow + [seq(slots, _ => None)])
  }

  function FrameLeft(s: State): State
    requires s.shadow != []
  {
    s.(shadow := s.shadow[..|s.shadow| - 1])
  }

  // The block is as its tag says, and all it refers to exists.
  ghost predicate Storable(s: State, b: Block) {
    && !b.marked && WellShaped(b, s.classes)
    && (forall x <- Tags(b, s.classes) :: x in s.mem)
    && (forall c <- b.cells :: CellLive(s.floats, c))
  }

  // ----- Each operation keeps the heap valid -----

  lemma {:induction false} BytesExtend(s: State, t: State, list: seq<Addr>)
    requires s.classes == t.classes && forall a <- list :: a in s.mem && a in t.mem && t.mem[a] == s.mem[a]
    ensures Bytes(t, list) == Bytes(s, list)
  {
    BytesSame(s, t, list);
  }

  lemma AllocBlockGood(s: State, a: Addr, b: Block, x: Addr)
    requires Valid(s) && a !in s.mem && Storable(s, b) && x in Allocated(s, a, b).listed
    ensures BlockGood(Allocated(s, a, b), x)
  {
    var t := Allocated(s, a, b);
    if x == a { assert TagsAt(t, a) == Tags(b, s.classes); } else { assert BlockGood(s, x) && TagsAt(t, x) == TagsAt(s, x); }
  }

  lemma AllocCharged(s: State, a: Addr, b: Block)
    requires Valid(s) && a !in s.mem
    ensures NoDuplicates(Allocated(s, a, b).listed)
    ensures Bytes(Allocated(s, a, b), Allocated(s, a, b).listed) == Allocated(s, a, b).used
  {
    var t := Allocated(s, a, b);
    assert forall x <- s.listed :: BlockGood(s, x);
    assert t.listed[1..] == s.listed && forall i :: 0 < i < |t.listed| ==> t.listed[i] == s.listed[i - 1];
    BytesExtend(s, t, s.listed);
  }

  lemma AllocIsValid(s: State, a: Addr, b: Block)
    requires Valid(s) && a !in s.mem && Storable(s, b) && Fits(s, b)
    ensures Valid(Allocated(s, a, b))
  {
    var t := Allocated(s, a, b);
    forall x | x in t.listed
      ensures BlockGood(t, x)
    {
      AllocBlockGood(s, a, b, x);
    }
    AllocCharged(s, a, b);
    forall x | x in t.mem.Keys && x !in t.listed
      ensures StaticString(t, x)
    {
      assert StaticString(s, x);
    }
  }

  lemma WithCellsIsValid(s: State, a: Addr, cells: seq<Option<AnyVal>>)
    requires Valid(s) && a in s.listed && a in s.mem
    requires DataSize(s.mem[a].(cells := cells), s.classes) == DataSize(s.mem[a], s.classes)
    requires Storable(s, s.mem[a].(cells := cells))
    ensures Valid(WithCells(s, a, cells))
  {
    var t := WithCells(s, a, cells);
    forall x | x in t.listed
      ensures BlockGood(t, x)
    {
      assert BlockGood(s, x);
      if x != a { assert TagsAt(t, x) == TagsAt(s, x); } else { assert TagsAt(t, a) == Tags(s.mem[a].(cells := cells), s.classes); }
    }
    BytesSame(s, t, s.listed);
    forall x | x in t.mem.Keys && x !in t.listed
      ensures StaticString(t, x)
    {
      assert StaticString(s, x);
    }
  }

  lemma ShadowIsValid(s: State, shadow: seq<seq<Option<Addr>>>)
    requires Valid(s) && forall a <- Roots(shadow) :: a in s.mem
    ensures Valid(s.(shadow := shadow))
  {
    var t := s.(shadow := shadow);
    forall x | x in t.listed
      ensures BlockGood(t, x)
    {
      assert BlockGood(s, x) && TagsAt(t, x) == TagsAt(s, x);
    }
    BytesExtend(s, t, s.listed);
    forall x | x in t.mem.Keys && x !in t.listed
      ensures StaticString(t, x)
    {
      assert StaticString(s, x);
    }
  }

  lemma RootsAfterSet(s: State, frame: nat, slot: nat, r: Option<Addr>, a: Addr)
    requires frame < |s.shadow| && slot < |s.shadow[frame]|
    requires a in Roots(WithRoot(s, frame, slot, r).shadow)
    ensures a in Roots(s.shadow) || r == Some(a)
  {
    var t := WithRoot(s, frame, slot, r);
    var f :| f in t.shadow && Some(a) in f;
    var i :| 0 <= i < |t.shadow| && t.shadow[i] == f;
    assert s.shadow[i] in s.shadow;
    if i == frame {
      var j :| 0 <= j < |f| && f[j] == Some(a);
      if j == slot { assert r == Some(a); } else { assert s.shadow[frame][j] == Some(a); }
    } else {
      assert s.shadow[i] == f;
    }
  }

  lemma WithRootIsValid(s: State, frame: nat, slot: nat, r: Option<Addr>)
    requires Valid(s) && frame < |s.shadow| && slot < |s.shadow[frame]| && (r.Some? ==> r.value in s.mem)
    ensures Valid(WithRoot(s, frame, slot, r))
  {
    var t := WithRoot(s, frame, slot, r);
    forall a | a in Roots(t.shadow)
      ensures a in s.mem
    {
      RootsAfterSet(s, frame, slot, r, a);
    }
    ShadowIsValid(s, t.shadow);
  }

  // What is in a slot of the shadow stack is reachable.
  lemma SlotReached(s: State, frame: nat, slot: nat)
    requires frame < |s.shadow| && slot < |s.shadow[frame]| && s.shadow[frame][slot].Some? && s.shadow[frame][slot].value in s.mem
    ensures s.shadow[frame][slot].value in Reach(s)
  {
    assert s.shadow[frame] in s.shadow && s.shadow[frame][slot] in s.shadow[frame];
    RootReached(s, s.shadow[frame][slot].value);
  }

  // Entering a frame and leaving it changes nothing.
  lemma FrameComesAndGoes(s: State, slots: nat)
    ensures FrameEntered(s, slots).shadow == s.shadow + [seq(slots, _ => None)]
    ensures FrameLeft(FrameEntered(s, slots)) == s
    ensures Roots(FrameEntered(s, slots).shadow) == Roots(s.shadow)
  {
    var frame: seq<Option<Addr>> := seq(slots, _ => None);
    assert (s.shadow + [frame])[..|s.shadow|] == s.shadow;
    NoRoots(s.shadow, frame);
  }

  lemma {:induction false} NoRoots(shadow: seq<seq<Option<Addr>>>, frame: seq<Option<Addr>>)
    requires forall i :: 0 <= i < |frame| ==> frame[i] == None
    ensures Roots(shadow + [frame]) == Roots(shadow)
  {
    if shadow == [] {
      NoFrameRoots(frame);
      assert [frame][1..] == [] && [] + [frame] == [frame];
    } else {
      NoRoots(shadow[1..], frame);
      assert (shadow + [frame])[1..] == shadow[1..] + [frame];
    }
  }

  lemma {:induction false} NoFrameRoots(frame: seq<Option<Addr>>)
    requires forall i :: 0 <= i < |frame| ==> frame[i] == None
    ensures FrameRoots(frame) == []
  {
    if frame != [] { NoFrameRoots(frame[1..]); }
  }

  lemma FramesAreValid(s: State, slots: nat)
    requires Valid(s)
    ensures Valid(FrameEntered(s, slots))
    ensures s.shadow != [] ==> Valid(FrameLeft(s))
  {
    ShadowIsValid(s, FrameEntered(s, slots).shadow);
    if s.shadow != [] {
      assert forall f <- FrameLeft(s).shadow :: f in s.shadow;
      ShadowIsValid(s, FrameLeft(s).shadow);
    }
  }

  lemma FloatsAreValid(s: State, x: Float)
    requires Valid(s) && s.floats.next < LEN - 1
    ensures Valid(s.(floats := s.floats.AfterAlloc(x)))
  {
    var t := s.(floats := s.floats.AfterAlloc(x));
    forall a | a in t.listed
      ensures BlockGood(t, a)
    {
      assert BlockGood(s, a) && TagsAt(t, a) == TagsAt(s, a);
    }
    BytesExtend(s, t, s.listed);
    forall a | a in t.mem.Keys && a !in t.listed
      ensures StaticString(t, a)
    {
      assert StaticString(s, a);
    }
  }

  // ----- Allocating when a collection has to come first -----

  // An environment has to be filled before a collection can look at it.
  ghost predicate EnvsFilled(s: State) {
    forall a <- s.mem.Keys :: s.mem[a].shape.Env? && a in Reach(s) ==> forall c <- s.mem[a].cells :: c.Some?
  }

  ghost predicate FloatFree(cells: seq<Option<AnyVal>>) {
    forall c <- cells :: !IsFloat(c)
  }

  // What the new block refers to outlives a collection.
  ghost predicate Survives(s: State, b: Block) {
    forall x <- Tags(b, s.classes) :: x in s.listed ==> x in Reach(s)
  }

  // A block made after the collection is good exactly when it holds no float: the collector cannot
  // see the values that are still on their way into it, so their floats stay behind.
  lemma StaleFloats(s0: State, s: State, a: Addr, b: Block)
    requires Collectable(s0) && Collected(s0, s) && Storable(s0, b) && Survives(s0, b) && a !in s.mem && Fits(s, b)
    ensures Valid(Allocated(s, a, b)) <==> FloatFree(b.cells)
  {
    CollectedIsValid(s0, s);
    if FloatFree(b.cells) {
      AllocIsValid(s, a, b);
    } else {
      var c :| c in b.cells && IsFloat(c);
      var t := Allocated(s, a, b);
      assert CellLive(s0.floats, c) && !CellLive(t.floats, c);
      assert t.listed[0] == a && t.mem[a].cells == b.cells;
      assert !BlockGood(t, a);
    }
  }

  // ----- What the program can read -----

  datatype Reading = Number(x: Float) | Plain(c: Option<AnyVal>)

  ghost function ReadCell(f: Floats, c: Option<AnyVal>): Reading
    requires f.Valid() && CellLive(f, c)
  {
    if IsFloat(c) then Number(ReadFloat(f, c.value.at)) else Plain(c)
  }

  // A collection changes nothing that the program can see: every block it can reach has its shape
  // and its cells, and every number in them is the number it was.
  lemma CollectionIsInvisible(s0: State, s: State, a: Addr, i: nat)
    requires Collectable(s0) && Collected(s0, s) && a in Reach(s0) && i < |s0.mem[a].cells|
    ensures a in s.mem && s.mem[a].shape == s0.mem[a].shape && |s.mem[a].cells| == |s0.mem[a].cells|
    ensures CellLive(s0.floats, s0.mem[a].cells[i]) && CellLive(s.floats, s.mem[a].cells[i])
    ensures ReadCell(s.floats, s.mem[a].cells[i]) == ReadCell(s0.floats, s0.mem[a].cells[i])
  {
    assert BlockMoved(s0, s, a, true);
    CellsAreLive(s0, a);
    assert CellMoved(s0.floats, s.floats, s0.mem[a].cells[i], s.mem[a].cells[i]);
  }

  // ----- Writes -----

  lemma WrittenTag(was: seq<Option<AnyVal>>, cells: seq<Option<AnyVal>>, v: AnyVal, x: Addr)
    requires forall c <- cells :: c == Some(v) || c in was
    requires x in CellTags(cells)
    ensures CellAddr(Some(v)) == Some(x) || x in CellTags(was)
  {
    CellTagsExact(cells, x);
    var i :| 0 <= i < |cells| && HoldsAddr(cells[i], x);
    if cells[i] != Some(v) {
      assert cells[i] in cells;
      var j :| 0 <= j < |was| && was[j] == cells[i];
      CellTagsExact(was, x);
    }
  }

  lemma WrittenStorable(s: State, a: Addr, cells: seq<Option<AnyVal>>, v: AnyVal)
    requires BlockGood(s, a) && WellShaped(s.mem[a].(cells := cells), s.classes)
    requires CellLive(s.floats, Some(v)) && (CellAddr(Some(v)).Some? ==> CellAddr(Some(v)).value in s.mem)
    requires forall x <- cells :: x == Some(v) || x in s.mem[a].cells
    ensures Storable(s, s.mem[a].(cells := cells))
  {
    forall x | x in Tags(s.mem[a].(cells := cells), s.classes)
      ensures x in s.mem
    {
      if x in CellTags(cells) { WrittenTag(s.mem[a].cells, cells, v, x); }
      assert x in TagsAt(s, a) || CellAddr(Some(v)) == Some(x);
    }
  }
}

// What a collection has to do: mark what is reachable, move its floats, drop the rest.

module Collection {
  import opened Common
  import opened ClassLists
  import opened HeapValues

  // ----- States between operations -----

  ghost predicate BlockGood(s: State, a: Addr) {
    && a in s.mem && !s.mem[a].marked && WellShaped(s.mem[a], s.classes)
    && (forall b <- TagsAt(s, a) :: b in s.mem)
    && (forall c <- s.mem[a].cells :: CellLive(s.floats, c))
  }

  // Memory outside the allocation list holds interned strings only; their marks mean nothing.
  ghost predicate StaticString(s: State, a: Addr) {
    a in s.mem && s.mem[a].shape.Str? && s.mem[a].cells == []
  }

  // Field names are interned strings.
  ghost predicate KeysStatic(s: State) {
    forall c <- s.classes, e <- c.offsets :: e.0.ptr in s.mem && e.0.ptr !in s.listed && s.mem[e.0.ptr].shape == Str(e.0.text)
  }

  ghost predicate Collectable(s: State) {
    && NoDuplicates(s.listed)
    && ValidClasses(s.classes) && KeysStatic(s) && s.floats.Valid()
    && (forall a <- s.listed :: BlockGood(s, a))
    && (forall a <- s.mem.Keys :: a in s.listed || StaticString(s, a))
    && (forall a <- Roots(s.shadow) :: a in s.mem)
    && s.used == Bytes(s, s.listed) <= s.size
  }

  // What a cell holds is there: a block, an environment, a number in use.
  ghost predicate Present(s: State, c: Option<AnyVal>) {
    match c
    case Some(Ptr(b)) => b in s.mem
    case Some(Closure(e, _)) => e in s.mem
    case Some(F64(p)) => p.upper == s.floats.upper && p.slot < s.floats.next && p.slot < LEN - 1
    case _ => true
  }

  ghost predicate NothingDangles(s: State, a: Addr)
    requires a in s.mem
  {
    && (forall i :: 0 <= i < |s.mem[a].cells| ==> Present(s, s.mem[a].cells[i]))
    && (s.mem[a].shape.ObjectPtrPtr? ==> s.mem[a].shape.data in s.mem)
    && (s.mem[a].shape.Env? ==> s.mem[a].shape.fnObj in s.mem)
  }

  lemma GoodIsPresent(s: State, a: Addr)
    requires Collectable(s) && a in s.mem
    ensures NothingDangles(s, a)
  {
    if a in s.listed {
      assert BlockGood(s, a);
      forall i | 0 <= i < |s.mem[a].cells|
        ensures Present(s, s.mem[a].cells[i])
      {
        CellPresent(s, a, i);
      }
      if s.mem[a].shape.ObjectPtrPtr? { TagsExact(s.mem[a], s.classes, s.mem[a].shape.data); }
      if s.mem[a].shape.Env? { TagsExact(s.mem[a], s.classes, s.mem[a].shape.fnObj); }
    } else {
      assert StaticString(s, a);
    }
  }

  lemma CellPresent(s: State, a: Addr, i: nat)
    requires BlockGood(s, a) && i < |s.mem[a].cells|
    ensures Present(s, s.mem[a].cells[i])
  {
    var c := s.mem[a].cells[i];
    match c
    case Some(Ptr(b)) =>
      assert HoldsAddr(c, b);
      TagsExact(s.mem[a], s.classes, b);
    case Some(Closure(e, fn)) =>
      assert HoldsAddr(c, e);
      TagsExact(s.mem[a], s.classes, e);
    case Some(F64(p)) => assert CellLive(s.floats, c);
    case _ =>
  }

  // What a reachable block holds is reachable.
  lemma HeldIsReached(s: State, a: Addr, i: nat, b: Addr)
    requires Collectable(s) && a in Reach(s) && i < |s.mem[a].cells| && HoldsAddr(s.mem[a].cells[i], b)
    ensures b in Reach(s)
  {
    TagsExact(s.mem[a], s.classes, b);
    GoodIsPresent(s, a);
    EdgeReached(s, a, b);
  }

  // Between operations the float space also has room for one more attempt.
  ghost predicate Valid(s: State) {
    Collectable(s) && s.floats.next < LEN
  }

  // ----- Moving floats -----

  // c has become d: a float was copied to the other space, anything else is as before.
  ghost predicate CellMoved(f: Floats, g: Floats, c: Option<AnyVal>, d: Option<AnyVal>)
    requires f.Valid() && g.Valid()
  {
    if IsFloat(c) then IsFloat(d) && c.value.at.slot < LEN && g.Live(d.value.at) && ReadFloat(g, d.value.at) == ReadFloat(f, c.value.at)
    else d == c
  }

  ghost predicate CellsMoved(f: Floats, g: Floats, cs: seq<Option<AnyVal>>, ds: seq<Option<AnyVal>>)
    requires f.Valid() && g.Valid()
  {
    |cs| == |ds| && forall i :: 0 <= i < |cs| ==> CellMoved(f, g, cs[i], ds[i])
  }

  lemma MovedStays(f: Floats, g: Floats, h: Floats, cs: seq<Option<AnyVal>>, ds: seq<Option<AnyVal>>)
    requires f.Valid() && g.Valid() && CellsMoved(f, g, cs, ds) && FloatsGrow(g, h)
    ensures CellsMoved(f, h, cs, ds)
  {
    forall i | 0 <= i < |cs|
      ensures CellMoved(f, h, cs[i], ds[i])
    {
      assert CellMoved(f, g, cs[i], ds[i]);
    }
  }

  lemma MovedSameTags(f: Floats, g: Floats, cs: seq<Option<AnyVal>>, ds: seq<Option<AnyVal>>)
    requires f.Valid() && g.Valid() && CellsMoved(f, g, cs, ds)
    ensures CellTags(cs) == CellTags(ds)
    ensures FloatCells(cs) == FloatCells(ds)
  {
    forall i | 0 <= i < |cs|
      ensures CellAddr(cs[i]) == CellAddr(ds[i]) && IsFloat(cs[i]) == IsFloat(ds[i])
    {
      assert CellMoved(f, g, cs[i], ds[i]);
    }
    SameAddrsSameTags(cs, ds);
    SameFloatCells(cs, ds);
  }

  lemma {:induction false} SameFloatCells(cs: seq<Option<AnyVal>>, ds: seq<Option<AnyVal>>)
    requires |cs| == |ds| && forall i :: 0 <= i < |cs| ==> IsFloat(cs[i]) == IsFloat(ds[i])
    ensures FloatCells(cs) == FloatCells(ds)
  {
    if cs != [] { SameFloatCells(cs[..|cs| - 1], ds[..|ds| - 1]); }
  }

  // The floats of a block lie in consecutive float cells from `start` on.
  ghost predicate InOrder(cells: seq<Option<AnyVal>>, start: nat) {
    forall j :: 0 <= j < |FloatCells(cells)| ==> cells[FloatCells(cells)[j]].value.at.slot == start + j
  }

  lemma InOrderSlots(cells: seq<Option<AnyVal>>, start: nat)
    requires InOrder(cells, start)
    ensures forall i :: 0 <= i < |cells| && IsFloat(cells[i]) ==> start <= cells[i].value.at.slot
    ensures forall i, j :: 0 <= i < |cells| && 0 <= j < |cells| && IsFloat(cells[i]) && IsFloat(cells[j]) && i != j ==>
              cells[i].value.at.slot != cells[j].value.at.slot
  {
    FloatCellsExact(cells);
  }

  ghost predicate FloatAt(s: State, a: Addr, i: nat, p: FloatPtr) {
    a in s.mem && i < |s.mem[a].cells| && s.mem[a].cells[i] == Some(F64(p))
  }

  // No two slots of these blocks share a float cell.
  ghost predicate OneCellEach(s: State, blocks: set<Addr>) {
    forall a <- blocks, b <- blocks, i: nat, j: nat, p :: FloatAt(s, a, i, p) && FloatAt(s, b, j, p) ==> a == b && i == j
  }

  // ----- Marking -----

  ghost predicate SameFrame(s0: State, s: State) {
    && s.mem.Keys == s0.mem.Keys && s.listed == s0.listed && s.used == s0.used && s.size == s0.size
    && s.shadow == s0.shadow && s.classes == s0.classes
  }

  ghost predicate FloatsMoving(s0: State, s: State, seen: set<Addr>) {
    && s0.floats.Valid() && s.floats.Valid() && s.floats.upper != s0.floats.upper
    && s.floats.Space(s0.floats.upper) == s0.floats.Space(s0.floats.upper)
    && s.floats.next == FloatSlots(s0, s0.listed, seen) < LEN
  }

  // A block that has been visited is the old block, its floats moved; any other is untouched.
  ghost predicate BlockMoved(s0: State, s: State, a: Addr, visited: bool)
    requires s0.floats.Valid() && s.floats.Valid()
  {
    && a in s0.mem && a in s.mem && s.mem[a].shape == s0.mem[a].shape
    && if visited then CellsMoved(s0.floats, s.floats, s0.mem[a].cells, s.mem[a].cells) else s.mem[a].cells == s0.mem[a].cells
  }

  // `seen` has been visited and `pending` is still to be: between them they hold the roots and
  // whatever a visited block points to.
  ghost predicate Frontier(s0: State, live: set<Addr>, seen: set<Addr>, pending: seq<Addr>) {
    && Inherited(s0, live) && live <= s0.mem.Keys && seen <= live
    && (forall a <- pending :: a in live)
    && (forall a <- Roots(s0.shadow) :: a in seen || a in pending)
    && (forall b <- seen, a :: Leads(s0, b, a) ==> a in seen || a in pending)
  }

  ghost predicate Colours(s0: State, s: State, seen: set<Addr>) {
    && (forall a <- seen :: a in s.mem && s.mem[a].marked)
    && (forall a <- s0.listed :: a in s.mem && (s.mem[a].marked ==> a in seen))
  }

  ghost predicate Contents(s0: State, s: State, seen: set<Addr>)
    requires s0.floats.Valid() && s.floats.Valid()
  {
    forall a <- s0.mem.Keys :: BlockMoved(s0, s, a, a in seen)
  }

  ghost predicate Marking(s0: State, s: State, live: set<Addr>, seen: set<Addr>, pending: seq<Addr>) {
    && SameFrame(s0, s) && FloatsMoving(s0, s, seen)
    && Colours(s0, s, seen) && Contents(s0, s, seen) && OneCellEach(s, seen)
    && Frontier(s0, live, seen, pending)
  }

  lemma ReachInherited(s: State)
    ensures Inherited(s, Reach(s))
  {
    forall a | a in Roots(s.shadow) && a in s.mem
      ensures a in Reach(s)
    {
      RootReached(s, a);
    }
    forall b, a | b in Reach(s) && Leads(s, b, a) && a in s.mem
      ensures a in Reach(s)
    {
      EdgeReached(s, b, a);
    }
  }

  lemma MarkingStarts(s0: State, s: State)
    requires Collectable(s0) && s == s0.(floats := s0.floats.Swapped())
    ensures Marking(s0, s, Reach(s0), {}, Roots(s0.shadow))
  {
    NoFloatsSeen(s0, s0.listed);
    ReachInherited(s0);
  }

  lemma {:induction false} NoFloatsSeen(s: State, list: seq<Addr>)
    ensures FloatSlots(s, list, {}) == 0
  {
    if list != [] { NoFloatsSeen(s, list[1..]); }
  }

  // Visiting a block that is already marked only takes it off the worklist.
  lemma SkipKeepsMarking(s0: State, s: State, live: set<Addr>, seen: set<Addr>, root: Addr, rest: seq<Addr>)
    requires Collectable(s0) && Marking(s0, s, live, seen, [root] + rest)
    requires root in s.mem && s.mem[root].marked
    ensures Marking(s0, s, live, seen + {root}, rest)
  {
    assert root in [root] + rest;
    if root in seen {
      assert seen + {root} == seen;
      FrontierDrops(s0, live, seen, root, rest);
    } else {
      SkipString(s0, s, live, seen, root, rest);
    }
  }

  // Outside the list marks survive, so a string may be found marked before it is reached.
  lemma SkipString(s0: State, s: State, live: set<Addr>, seen: set<Addr>, root: Addr, rest: seq<Addr>)
    requires Collectable(s0) && Marking(s0, s, live, seen, [root] + rest)
    requires root in s0.mem && root in s.mem && s.mem[root].marked && root !in seen
    ensures Marking(s0, s, live, seen + {root}, rest)
  {
    StaticHasNothing(s0, s, seen, root);
    SkipMoves(s0, s, seen, root);
    SkipApart(s, seen, root);
    VisitReports(s0, live, seen, root, rest);
    assert rest + [] == rest;
  }

  lemma FrontierDrops(s0: State, live: set<Addr>, seen: set<Addr>, root: Addr, rest: seq<Addr>)
    requires Frontier(s0, live, seen, [root] + rest) && root in seen
    ensures Frontier(s0, live, seen, rest)
  {
    assert forall a :: a in [root] + rest <==> a == root || a in rest;
  }

  lemma SkipMoves(s0: State, s: State, seen: set<Addr>, root: Addr)
    requires s0.floats.Valid() && s.floats.Valid() && Contents(s0, s, seen)
    requires root in s0.mem && s0.mem[root].cells == []
    ensures Contents(s0, s, seen + {root}) && s.mem[root].cells == []
  {
    forall a | a in s0.mem.Keys
      ensures BlockMoved(s0, s, a, a in seen + {root})
    {
      assert BlockMoved(s0, s, a, a in seen);
    }
  }

  lemma SkipApart(s: State, seen: set<Addr>, root: Addr)
    requires OneCellEach(s, seen) && root in s.mem && s.mem[root].cells == []
    ensures OneCellEach(s, seen + {root})
  {
  }

  lemma StaticHasNothing(s0: State, s: State, seen: set<Addr>, root: Addr)
    requires Collectable(s0) && SameFrame(s0, s) && root in s0.mem && root !in s0.listed && root !in seen
    ensures TagsAt(s0, root) == [] && s0.mem[root].cells == []
    ensures FloatSlots(s0, s0.listed, seen + {root}) == FloatSlots(s0, s0.listed, seen)
  {
    assert StaticString(s0, root);
    FloatSlotsAdd(s0, s0.listed, seen, root);
  }

  lemma FrontierAdvances(s0: State, live: set<Addr>, seen: set<Addr>, root: Addr, rest: seq<Addr>, tags: seq<Addr>)
    requires Frontier(s0, live, seen, [root] + rest)
    requires root in s0.mem && tags == TagsAt(s0, root) && forall b <- tags :: b in s0.mem
    ensures Frontier(s0, live, seen + {root}, rest + tags)
  {
    var was := [root] + rest;
    assert root in was;
    assert forall a :: a in was <==> a == root || a in rest;
    assert forall a <- tags :: Leads(s0, root, a);
  }

  // Visiting an unmarked block: mark it, note its pointers, move its floats.
  lemma VisitKeepsMarking(s0: State, s: State, s1: State, live: set<Addr>, seen: set<Addr>, root: Addr, rest: seq<Addr>)
    requires Collectable(s0) && Marking(s0, s, live, seen, [root] + rest)
    requires root in s.mem && !s.mem[root].marked
    requires s.floats.Valid() && s1.floats.Valid() && FloatsGrow(s.floats, s1.floats)
    requires s1 == s.(mem := s1.mem, floats := s1.floats) && root in s1.mem
    requires s1.mem == s.mem[root := s.mem[root].(marked := true, cells := s1.mem[root].cells)]
    requires CellsMoved(s.floats, s1.floats, s.mem[root].cells, s1.mem[root].cells)
    requires s1.floats.next == s.floats.next + |FloatCells(s.mem[root].cells)| < LEN
    requires InOrder(s1.mem[root].cells, s.floats.next)
    ensures Marking(s0, s1, live, seen + {root}, rest + TagsAt(s0, root))
  {
    RootUnseen(s0, s, live, seen, root, rest);
    VisitCounts(s0, s, s1, seen, root);
    VisitMoves(s0, s, s1, seen, root);
    VisitApart(s0, s, s1, seen, root);
    VisitColours(s0, s, s1, seen, root);
    VisitReports(s0, live, seen, root, rest);
  }

  lemma RootUnseen(s0: State, s: State, live: set<Addr>, seen: set<Addr>, root: Addr, rest: seq<Addr>)
    requires Collectable(s0) && Marking(s0, s, live, seen, [root] + rest) && root in s.mem && !s.mem[root].marked
    ensures root in s0.mem && root !in seen && s.mem[root].cells == s0.mem[root].cells
    ensures root !in s0.listed ==> s0.mem[root].cells == []
  {
    assert root in [root] + rest;
    assert BlockMoved(s0, s, root, root in seen);
    if root !in s0.listed { StaticHasNothing(s0, s, seen, root); }
  }

  lemma VisitColours(s0: State, s: State, s1: State, seen: set<Addr>, root: Addr)
    requires Colours(s0, s, seen) && root in s1.mem && s1.mem[root].marked
    requires s1.mem.Keys == s.mem.Keys + {root} && forall a <- s.mem.Keys :: a != root ==> s1.mem[a] == s.mem[a]
    ensures Colours(s0, s1, seen + {root})
  {
  }

  lemma VisitReports(s0: State, live: set<Addr>, seen: set<Addr>, root: Addr, rest: seq<Addr>)
    requires Collectable(s0) && Frontier(s0, live, seen, [root] + rest) && root in s0.mem
    ensures Frontier(s0, live, seen + {root}, rest + TagsAt(s0, root))
  {
    if root in s0.listed { assert BlockGood(s0, root); } else { assert StaticString(s0, root); }
    FrontierAdvances(s0, live, seen, root, rest, TagsAt(s0, root));
  }

  lemma VisitCounts(s0: State, s: State, s1: State, seen: set<Addr>, root: Addr)
    requires FloatsMoving(s0, s, seen) && FloatsGrow(s.floats, s1.floats)
    requires NoDuplicates(s0.listed) && root in s0.mem && root !in seen
    requires s1.floats.next == s.floats.next + |FloatCells(s0.mem[root].cells)| < LEN
    requires root !in s0.listed ==> s0.mem[root].cells == []
    ensures FloatsMoving(s0, s1, seen + {root})
  {
    FloatSlotsAdd(s0, s0.listed, seen, root);
  }

  lemma VisitMoves(s0: State, s: State, s1: State, seen: set<Addr>, root: Addr)
    requires Collectable(s0) && FloatsMoving(s0, s, seen) && Contents(s0, s, seen)
    requires FloatsGrow(s.floats, s1.floats)
    requires root in s.mem && root in s0.mem && root in s1.mem && root !in seen
    requires s1.mem == s.mem[root := s.mem[root].(marked := true, cells := s1.mem[root].cells)]
    requires CellsMoved(s.floats, s1.floats, s.mem[root].cells, s1.mem[root].cells)
    ensures Contents(s0, s1, seen + {root})
  {
    forall a | a in s0.mem.Keys
      ensures BlockMoved(s0, s1, a, a in seen + {root})
    {
      assert BlockMoved(s0, s, a, a in seen);
      if a == root {
        CellsAreLive(s0, root);
        OldSpaceReads(s0.floats, s.floats, s1.floats, s.mem[root].cells, s1.mem[root].cells);
      } else if a in seen {
        MovedStays(s0.floats, s.floats, s1.floats, s0.mem[a].cells, s.mem[a].cells);
      }
    }
  }

  lemma VisitApart(s0: State, s: State, s1: State, seen: set<Addr>, root: Addr)
    requires s0.floats.Valid() && s.floats.Valid() && Contents(s0, s, seen) && seen <= s0.mem.Keys
    requires OneCellEach(s, seen) && root in s1.mem && root !in seen && InOrder(s1.mem[root].cells, s.floats.next)
    requires forall a <- seen :: a in s1.mem && a in s.mem && s1.mem[a] == s.mem[a]
    ensures OneCellEach(s1, seen + {root})
  {
    InOrderSlots(s1.mem[root].cells, s.floats.next);
    forall a, i: nat, p | a in seen && FloatAt(s1, a, i, p)
      ensures FloatAt(s, a, i, p) && p.slot < s.floats.next
    {
      assert BlockMoved(s0, s, a, true) && CellMoved(s0.floats, s.floats, s0.mem[a].cells[i], s.mem[a].cells[i]);
    }
  }

  lemma CellsAreLive(s: State, a: Addr)
    requires Collectable(s) && a in s.mem
    ensures forall c <- s.mem[a].cells :: CellLive(s.floats, c)
  {
    if a in s.listed { assert BlockGood(s, a); } else { assert StaticString(s, a); }
  }

  // Moving reads from the old space, which is as it was when the collection began.
  lemma OldSpaceReads(f0: Floats, f: Floats, g: Floats, cs: seq<Option<AnyVal>>, ds: seq<Option<AnyVal>>)
    requires f0.Valid() && f.Valid() && g.Valid() && f.upper != f0.upper && f.Space(f0.upper) == f0.Space(f0.upper)
    requires CellsMoved(f, g, cs, ds) && forall c <- cs :: CellLive(f0, c)
    ensures CellsMoved(f0, g, cs, ds)
  {
    forall i | 0 <= i < |cs|
      ensures CellMoved(f0, g, cs[i], ds[i])
    {
      assert CellMoved(f, g, cs[i], ds[i]) && CellLive(f0, cs[i]);
    }
  }

  // When the worklist is empty, exactly what is reachable has been marked.
  lemma MarkingEnds(s0: State, s: State, seen: set<Addr>)
    requires Collectable(s0) && Marking(s0, s, Reach(s0), seen, [])
    ensures seen == Reach(s0)
    ensures forall a <- s0.listed :: a in s.mem && (s.mem[a].marked <==> a in Reach(s0))
  {
    ReachInside(s0, seen);
  }

  // The float space is full although a reachable float is still to be moved.
  lemma TooManyFloats(s0: State, s: State, live: set<Addr>, seen: set<Addr>, root: Addr, rest: seq<Addr>)
    requires Collectable(s0) && Marking(s0, s, live, seen, [root] + rest) && root in s.mem && !s.mem[root].marked
    requires s.floats.next + |FloatCells(s.mem[root].cells)| >= LEN
    ensures FloatSlots(s0, s0.listed, live) >= LEN
  {
    assert root in [root] + rest;
    assert BlockMoved(s0, s, root, false);
    if root in s0.listed { FloatSlotsAdd(s0, s0.listed, seen, root); } else { StaticHasNothing(s0, s, seen, root); }
    FloatSlotsMonotone(s0, s0.listed, seen + {root}, live);
  }

  // ----- Collecting -----

  // What a collection leaves behind.
  ghost predicate Collected(s0: State, s: State) {
    CollectedInto(s0, s, Reach(s0))
  }

  ghost predicate CollectedInto(s0: State, s: State, live: set<Addr>) {
    && s.size == s0.size && s.shadow == s0.shadow && s.classes == s0.classes
    && s0.floats.Valid() && s.floats.Valid() && s.floats.upper != s0.floats.upper
    && s.floats.next == FloatSlots(s0, s0.listed, live) < LEN
    && s.listed == Keep(s0.listed, live) && s.used == Bytes(s0, s.listed)
    && BlocksKept(s0, s, live) && OneCellEach(s, live)
  }

  ghost predicate BlocksKept(s0: State, s: State, live: set<Addr>)
    requires s0.floats.Valid() && s.floats.Valid()
  {
    && (forall a :: a in s.mem <==> a in s0.mem && (a in s0.listed ==> a in live))
    && (forall a <- s.mem.Keys :: BlockMoved(s0, s, a, a in live) && (a in s.listed ==> !s.mem[a].marked))
  }

  // ----- Sweeping -----

  // Memory once the blocks in `done` have been swept.
  ghost predicate SweptMem(s: State, mem: map<Addr, Block>, done: seq<Addr>) {
    && (forall a :: a in mem <==> a in s.mem && (a in done ==> s.mem[a].marked))
    && (forall a <- mem.Keys :: mem[a] == if a in done then s.mem[a].(marked := false) else s.mem[a])
  }

  ghost function Marked(s: State): set<Addr> {
    set a | a in s.mem && s.mem[a].marked
  }

  // The sweep has passed the first n blocks of the list as it was.
  ghost predicate Sweeping(s: State, n: nat, mem: map<Addr, Block>, list: seq<Addr>, used: int, cursor: nat) {
    && n <= |s.listed| && cursor <= |list|
    && list[..cursor] == Keep(s.listed[..n], Marked(s)) && list[cursor..] == s.listed[n..]
    && SweptMem(s, mem, s.listed[..n])
    && used - s.used == Bytes(s, list) - Bytes(s, s.listed)
  }

  lemma KeepCons(a: Addr, list: seq<Addr>, r: set<Addr>)
    ensures Keep([a] + list, r) == (if a in r then [a] else []) + Keep(list, r)
  {
    assert ([a] + list)[1..] == list;
  }

  lemma Regrouped(a: seq<Addr>, b: seq<Addr>, c: seq<Addr>)
    ensures a + b + c == a + (b + c)
  {
  }

  lemma {:induction false} KeepSnoc(list: seq<Addr>, a: Addr, r: set<Addr>)
    ensures Keep(list + [a], r) == Keep(list, r) + (if a in r then [a] else [])
  {
    if list == [] {
      assert [] + [a] == [a];
    } else {
      KeepSnoc(list[1..], a, r);
      KeepCons(list[0], list[1..] + [a], r);
      Regrouped(if list[0] in r then [list[0]] else [], Keep(list[1..], r), if a in r then [a] else []);
      assert [list[0]] + (list[1..] + [a]) == list + [a];
    }
  }

  lemma {:induction false} BytesWithout(s: State, front: seq<Addr>, a: Addr, back: seq<Addr>)
    ensures Bytes(s, front + [a] + back) == Bytes(s, front + back) + BlockBytes(s, a)
  {
    if front == [] {
      assert ([] + [a] + back)[1..] == back && [] + back == back;
    } else {
      assert (front + [a] + back)[1..] == front[1..] + [a] + back && (front + back)[1..] == front[1..] + back;
      BytesWithout(s, front[1..], a, back);
    }
  }

  lemma SweepBegins(s: State)
    requires NoDuplicates(s.listed)
    ensures Sweeping(s, 0, s.mem, s.listed, s.used, 0)
  {
    assert s.listed[..0] == [];
  }

  lemma SweepEnds(s: State, n: nat, mem: map<Addr, Block>, list: seq<Addr>, used: int, cursor: nat)
    requires Sweeping(s, n, mem, list, used, cursor) && cursor == |list|
    ensures n == |s.listed|
  {
    assert |s.listed[n..]| == |s.listed| - n;
  }

  // The block under the cursor, and the list split there.
  lemma UnderCursor(s: State, n: nat, mem: map<Addr, Block>, list: seq<Addr>, used: int, cursor: nat)
    requires NoDuplicates(s.listed) && (forall a <- s.listed :: a in s.mem)
    requires Sweeping(s, n, mem, list, used, cursor) && cursor < |list|
    ensures n < |s.listed| && list[cursor] == s.listed[n] && list[cursor] in mem && mem[list[cursor]] == s.mem[list[cursor]]
    ensures list[cursor] !in s.listed[..n]
    ensures s.listed[..n + 1] == s.listed[..n] + [list[cursor]] && list[cursor + 1..] == s.listed[n + 1..]
  {
    assert list[cursor..][0] == s.listed[n..][0] && list[cursor..][1..] == s.listed[n..][1..];
    assert s.listed[n] !in s.listed[..n];
  }

  lemma SweepKeeps(s: State, n: nat, mem: map<Addr, Block>, list: seq<Addr>, used: int, cursor: nat)
    requires NoDuplicates(s.listed) && (forall a <- s.listed :: a in s.mem)
    requires Sweeping(s, n, mem, list, used, cursor) && cursor < |list|
    requires list[cursor] in mem && mem[list[cursor]].marked
    ensures var a := list[cursor]; Sweeping(s, n + 1, mem[a := mem[a].(marked := false)], list, used, cursor + 1)
  {
    UnderCursor(s, n, mem, list, used, cursor);
    var a := list[cursor];
    KeepSnoc(s.listed[..n], a, Marked(s));
    assert list[..cursor + 1] == list[..cursor] + [a];
    SweptOneMore(s, mem, s.listed[..n], a);
  }

  lemma SweptOneMore(s: State, mem: map<Addr, Block>, done: seq<Addr>, a: Addr)
    requires SweptMem(s, mem, done) && a !in done && a in mem
    ensures mem[a].marked ==> SweptMem(s, mem[a := mem[a].(marked := false)], done + [a])
    ensures !mem[a].marked ==> SweptMem(s, mem - {a}, done + [a])
  {
  }

  lemma SweepFrees(s: State, n: nat, mem: map<Addr, Block>, list: seq<Addr>, used: int, cursor: nat)
    requires NoDuplicates(s.listed) && (forall a <- s.listed :: a in s.mem)
    requires Sweeping(s, n, mem, list, used, cursor) && cursor < |list|
    requires list[cursor] in mem && !mem[list[cursor]].marked
    ensures var a := list[cursor];
            Sweeping(s, n + 1, mem - {a}, list[..cursor] + list[cursor + 1..], used - BlockBytes(s, a), cursor)
  {
    UnderCursor(s, n, mem, list, used, cursor);
    var a := list[cursor];
    KeepSnoc(s.listed[..n], a, Marked(s));
    BytesWithout(s, list[..cursor], a, list[cursor + 1..]);
    assert list == list[..cursor] + [a] + list[cursor + 1..];
    var rest := list[..cursor] + list[cursor + 1..];
    assert rest[..cursor] == list[..cursor] && rest[cursor..] == list[cursor + 1..];
    SweptOneMore(s, mem, s.listed[..n], a);
  }

  lemma {:induction false} KeepSame(list: seq<Addr>, r: set<Addr>, t: set<Addr>)
    requires forall a <- list :: a in r <==> a in t
    ensures Keep(list, r) == Keep(list, t)
  {
    if list != [] { KeepSame(list[1..], r, t); }
  }

  // Marking what is reachable and then sweeping is collecting.
  lemma SweptIsCollected(s0: State, s1: State, s: State, live: set<Addr>, cursor: nat)
    requires Collectable(s0) && Marking(s0, s1, live, live, [])
    requires Sweeping(s1, |s1.listed|, s.mem, s.listed, s.used, cursor) && cursor == |s.listed|
    requires s == s1.(mem := s.mem, listed := s.listed, used := s.used)
    ensures CollectedInto(s0, s, live)
  {
    assert s1.listed[..|s1.listed|] == s1.listed && s.listed[..cursor] == s.listed;
    MarksAreLive(s0, s1, live);
    SweptBytes(s0, s1, s, live);
    SweptBlocks(s0, s1, s, live);
    SweptApart(s1, s, live);
  }

  lemma SweptApart(s1: State, s: State, live: set<Addr>)
    requires OneCellEach(s1, live) && forall a <- s.mem.Keys :: a in s1.mem && s.mem[a].cells == s1.mem[a].cells
    ensures OneCellEach(s, live)
  {
    forall a, i: nat, p | FloatAt(s, a, i, p)
      ensures FloatAt(s1, a, i, p)
    {
    }
  }

  lemma MarksAreLive(s0: State, s1: State, live: set<Addr>)
    requires Colours(s0, s1, live)
    ensures forall a <- s0.listed :: a in Marked(s1) <==> a in live
    ensures Keep(s0.listed, Marked(s1)) == Keep(s0.listed, live)
  {
    KeepSame(s0.listed, Marked(s1), live);
  }

  lemma SweptBytes(s0: State, s1: State, s: State, live: set<Addr>)
    requires s0.floats.Valid() && s1.floats.Valid() && SameFrame(s0, s1) && Contents(s0, s1, live)
    requires s0.used == Bytes(s0, s0.listed)
    requires s.used - s1.used == Bytes(s1, s.listed) - Bytes(s1, s1.listed)
    ensures s.used == Bytes(s0, s.listed)
  {
    forall a | a in s0.mem
      ensures BlockBytes(s1, a) == BlockBytes(s0, a)
    {
      assert BlockMoved(s0, s1, a, a in live);
      MovedSameBlock(s0, s1, a, a in live);
    }
    BytesSame(s0, s1, s0.listed);
    BytesSame(s0, s1, s.listed);
  }

  lemma SweptBlocks(s0: State, s1: State, s: State, live: set<Addr>)
    requires s0.floats.Valid() && s1.floats.Valid() && s.floats == s1.floats
    requires SameFrame(s0, s1) && Contents(s0, s1, live) && SweptMem(s1, s.mem, s0.listed)
    requires forall a <- s0.listed :: a in Marked(s1) <==> a in live
    requires forall a <- s.listed :: a in s0.listed
    ensures BlocksKept(s0, s, live)
  {
    forall a | a in s.mem.Keys
      ensures BlockMoved(s0, s, a, a in live) && (a in s.listed ==> !s.mem[a].marked)
    {
      assert BlockMoved(s0, s1, a, a in live);
    }
    assert forall a :: a in s1.mem <==> a in s0.mem;
  }

  lemma {:induction false} KeepNoDuplicates(list: seq<Addr>, r: set<Addr>)
    requires NoDuplicates(list)
    ensures NoDuplicates(Keep(list, r))
  {
    if list != [] {
      assert forall i, j :: 0 <= i < j < |list| - 1 ==> list[1..][i] == list[i + 1] && list[1..][j] == list[j + 1];
      KeepNoDuplicates(list[1..], r);
      assert list[0] !in list[1..] by { assert forall i :: 0 <= i < |list| - 1 ==> list[1..][i] == list[i + 1] != list[0]; }
    }
  }

  lemma {:induction false} BytesKeptLess(s: State, list: seq<Addr>, r: set<Addr>)
    ensures Bytes(s, Keep(list, r)) <= Bytes(s, list)
  {
    if list != [] {
      BytesKeptLess(s, list[1..], r);
      var kept := Keep(list[1..], r);
      assert ([list[0]] + kept)[1..] == kept && [] + kept == kept;
    }
  }

  lemma MovedSameBlock(s0: State, s: State, a: Addr, visited: bool)
    requires s0.floats.Valid() && s.floats.Valid() && s.classes == s0.classes && BlockMoved(s0, s, a, visited)
    ensures TagsAt(s, a) == TagsAt(s0, a) && BlockBytes(s, a) == BlockBytes(s0, a)
    ensures WellShaped(s0.mem[a], s0.classes) ==> WellShaped(s.mem[a], s.classes)
  {
    if visited {
      MovedSameTags(s0.floats, s.floats, s0.mem[a].cells, s.mem[a].cells);
      assert forall i :: 0 <= i < |s0.mem[a].cells| ==> CellMoved(s0.floats, s.floats, s0.mem[a].cells[i], s.mem[a].cells[i]);
    }
  }

  lemma SurvivorsGood(s0: State, s: State, live: set<Addr>, a: Addr)
    requires Collectable(s0) && CollectedInto(s0, s, live) && Inherited(s0, live) && a in s.listed
    ensures BlockGood(s, a)
  {
    assert a in live && a in s0.listed && a in s.mem.Keys;
    assert BlockGood(s0, a) && BlockMoved(s0, s, a, true);
    MovedSameBlock(s0, s, a, true);
    assert forall b <- TagsAt(s, a) :: Leads(s0, a, b);
    forall i | 0 <= i < |s.mem[a].cells|
      ensures CellLive(s.floats, s.mem[a].cells[i])
    {
      assert CellMoved(s0.floats, s.floats, s0.mem[a].cells[i], s.mem[a].cells[i]);
    }
  }

  // A collection leaves a heap on which everything that held before holds again, its bytes
  // accounted for and every pointer in it good.
  lemma CollectedIsValid(s0: State, s: State)
    requires Collectable(s0) && Collected(s0, s)
    ensures Valid(s)
  {
    ReachInherited(s0);
    CollectedIntoIsValid(s0, s, Reach(s0));
  }

  lemma CollectedIntoIsValid(s0: State, s: State, live: set<Addr>)
    requires Collectable(s0) && CollectedInto(s0, s, live) && Inherited(s0, live)
    ensures Valid(s)
  {
    KeepNoDuplicates(s0.listed, live);
    BytesKeptLess(s0, s0.listed, live);
    forall a | a in s.listed
      ensures BlockGood(s, a) && BlockBytes(s, a) == BlockBytes(s0, a)
    {
      SurvivorsGood(s0, s, live, a);
      MovedSameBlock(s0, s, a, true);
    }
    BytesSame(s0, s, s.listed);
    forall a | a in s.mem.Keys && a !in s.listed
      ensures StaticString(s, a)
    {
      assert BlockMoved(s0, s, a, a in live) && StaticString(s0, a);
    }
    assert forall a <- Roots(s.shadow) :: a in live;
    forall c <- s.classes, e <- c.offsets
      ensures e.0.ptr in s.mem && e.0.ptr !in s.listed && s.mem[e.0.ptr].shape == Str(e.0.text)
    {
      assert BlockMoved(s0, s, e.0.ptr, e.0.ptr in live);
    }
  }

  // Every reachable float slot reads the same number afterwards, from a used cell of the other
  // space that no other slot has.
  lemma FloatsSurvive(s0: State, s: State, a: Addr, i: nat) returns (p: FloatPtr)
    requires Collectable(s0) && Collected(s0, s)
    requires a in Reach(s0) && i < |s0.mem[a].cells| && IsFloat(s0.mem[a].cells[i])
    ensures FloatAt(s, a, i, p) && s.floats.Live(p) && p.upper != s0.floats.upper
    ensures s0.mem[a].cells[i].value.at.slot < LEN
    ensures ReadFloat(s.floats, p) == ReadFloat(s0.floats, s0.mem[a].cells[i].value.at)
    ensures Alone(s, Reach(s0), a, i, p)
  {
    p := FloatMoved(s0, s, Reach(s0), a, i);
  }

  ghost predicate Alone(s: State, blocks: set<Addr>, a: Addr, i: nat, p: FloatPtr) {
    forall b <- blocks, j: nat :: FloatAt(s, b, j, p) ==> b == a && j == i
  }

  lemma FloatMoved(s0: State, s: State, live: set<Addr>, a: Addr, i: nat) returns (p: FloatPtr)
    requires CollectedInto(s0, s, live) && a in live && a in s0.mem && i < |s0.mem[a].cells| && IsFloat(s0.mem[a].cells[i])
    requires a in s.mem
    ensures FloatAt(s, a, i, p) && s.floats.Live(p) && p.upper != s0.floats.upper
    ensures s0.mem[a].cells[i].value.at.slot < LEN
    ensures ReadFloat(s.floats, p) == ReadFloat(s0.floats, s0.mem[a].cells[i].value.at)
    ensures Alone(s, live, a, i, p)
  {
    assert BlockMoved(s0, s, a, true);
    assert CellMoved(s0.floats, s.floats, s0.mem[a].cells[i], s.mem[a].cells[i]);
    p := s.mem[a].cells[i].value.at;
    assert FloatAt(s, a, i, p);
  }

  // The blocks in a set point where they pointed before.
  ghost predicate SameEdges(s0: State, s: State, inside: set<Addr>) {
    && s.shadow == s0.shadow
    && forall a <- inside :: a in s0.mem && a in s.mem && TagsAt(s, a) == TagsAt(s0, a)
  }

  lemma ReachAlong(s: State, t: State, inside: set<Addr>)
    requires SameEdges(s, t, inside) && Inherited(s, inside)
    ensures Reach(s) <= Reach(t)
  {
    var both := inside * Reach(t);
    forall a | a in Roots(s.shadow) && a in s.mem
      ensures a in both
    {
      RootReached(t, a);
    }
    forall b, a | b in both && Leads(s, b, a) && a in s.mem
      ensures a in both
    {
      EdgeReached(t, b, a);
    }
    ReachInside(s, both);
  }

  // Collecting neither loses nor gains anything reachable.
  lemma SameReach(s0: State, s: State)
    requires Collectable(s0) && Collected(s0, s)
    ensures Reach(s) == Reach(s0)
  {
    forall a | a in s.mem
      ensures TagsAt(s, a) == TagsAt(s0, a)
    {
      assert BlockMoved(s0, s, a, a in Reach(s0));
      MovedSameBlock(s0, s, a, a in Reach(s0));
    }
    ReachInherited(s0);
    ReachAlong(s0, s, Reach(s0));
    assert Inherited(s, s.mem.Keys);
    ReachAlong(s, s0, s.mem.Keys);
  }

  lemma {:induction false} KeepAll(list: seq<Addr>, r: set<Addr>)
    requires forall a <- list :: a in r
    ensures Keep(list, r) == list
  {
    if list != [] {
      KeepAll(list[1..], r);
      assert [list[0]] + list[1..] == list;
    }
  }

  // A second collection right after the first frees nothing.
  lemma CollectingTwice(s0: State, s1: State, s2: State)
    requires Collectable(s0) && Collected(s0, s1) && Collected(s1, s2)
    ensures s2.listed == s1.listed && s2.mem.Keys == s1.mem.Keys && s2.used == s1.used
  {
    CollectedIsValid(s0, s1);
    SameReach(s0, s1);
    KeepAll(s1.listed, Reach(s1));
    BytesSame(s1, s1, s1.listed);
  }
}

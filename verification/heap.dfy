// The managed heap: allocation, the shadow stack of roots, and the mark-and-sweep collector.

module ManagedHeap {
  import opened Common
  import opened ClassLists
  import opened HeapValues
  import opened Collection
  import opened Mutator

  class Heap {
    const size: int
    const f64Allocator: F64Allocator
    const classes: ClassList
    var usedMem: int
    // The linked list of allocated blocks, newest first.
    var allocList: seq<Addr>
    var mem: map<Addr, Block>
    var shadowStack: seq<seq<Option<Addr>>>

    ghost predicate Built()
      reads f64Allocator
    {
      f64Allocator.Valid()
    }

    ghost function Repr(): set<object>
    {
      {this, f64Allocator, f64Allocator.lowerSpace, f64Allocator.upperSpace, classes}
    }

    ghost function Abs(): State
      reads this, f64Allocator, f64Allocator.lowerSpace, f64Allocator.upperSpace, classes
    {
      State(mem, allocList, usedMem, size, shadowStack, classes.classes, f64Allocator.Abs())
    }

    // `statics` are the interned strings that the runtime finds in memory.
    constructor (size: nat, statics: map<Addr, Block>)
      requires forall a <- statics.Keys :: statics[a].shape.Str? && statics[a].cells == []
      ensures Built() && fresh(Repr() - {this})
      ensures Valid(Abs())
      ensures this.size == size && mem == statics && allocList == [] && usedMem == 0 && shadowStack == []
      ensures classes.classes == [EMPTY_CLASS] && f64Allocator.nextSlot == 0
    {
      this.size := size;
      f64Allocator := new F64Allocator();
      classes := new ClassList();
      usedMem := 0;
      allocList := [];
      mem := statics;
      shadowStack := [];
    }

    // ----- Marking -----

    method GetGcPtrs(a: Addr) returns (tags: seq<Addr>, f64s: seq<nat>)
      requires a in mem
      ensures tags == TagsAt(Abs(), a) && f64s == FloatCells(mem[a].cells)
      ensures forall x :: x in tags <==> PointsTo(mem[a], classes.classes, x)
    {
      tags, f64s := IterToPtrs(mem[a].cells);
      tags := tags + Links(mem[a].shape, classes.classes);
      forall x
        ensures x in tags <==> PointsTo(mem[a], classes.classes, x)
      {
        TagsExact(mem[a], classes.classes, x);
      }
    }

    method MoveFloat(a: Addr, i: nat) returns (ok: bool)
      requires Built() && a in mem && i < |mem[a].cells| && IsFloat(mem[a].cells[i])
      requires mem[a].cells[i].value.at.upper != f64Allocator.upper && mem[a].cells[i].value.at.slot < LEN && f64Allocator.nextSlot < LEN
      modifies this`mem, f64Allocator`nextSlot, f64Allocator.lowerSpace, f64Allocator.upperSpace
      ensures Built() && (ok <==> old(f64Allocator.nextSlot) < LEN - 1)
      ensures ok ==>
        && f64Allocator.nextSlot == old(f64Allocator.nextSlot) + 1 && FloatsGrow(old(f64Allocator.Abs()), f64Allocator.Abs())
        && a in mem && |mem[a].cells| == |old(mem)[a].cells|
        && mem == old(mem)[a := old(mem)[a].(cells := old(mem)[a].cells[i := mem[a].cells[i]])]
        && CellMoved(old(f64Allocator.Abs()), f64Allocator.Abs(), old(mem)[a].cells[i], mem[a].cells[i])
        && mem[a].cells[i].value.at.slot == old(f64Allocator.nextSlot)
    {
      ghost var f := f64Allocator.Abs();
      var x := f64Allocator.Read(mem[a].cells[i].value.at);
      var p := f64Allocator.Alloc(x);
      if p.None? { return false; }
      AllocKeepsFloats(f, x);
      mem := mem[a := mem[a].(cells := mem[a].cells[i := Some(F64(p.value))])];
      ok := true;
    }

    // The first k of the block's floats have moved: memory was m, the float spaces f.
    ghost predicate Evacuating(m: map<Addr, Block>, f: Floats, start: nat, a: Addr, f64s: seq<nat>, k: nat)
      requires Built()
      reads this, f64Allocator, f64Allocator.lowerSpace, f64Allocator.upperSpace
    {
      && a in m && a in mem && mem == m[a := m[a].(cells := mem[a].cells)]
      && f64Allocator.nextSlot == start + k < LEN && Placed(mem[a].cells, f64s, start, k)
      && f.Valid() && FloatsGrow(f, f64Allocator.Abs()) && PartMoved(f, f64Allocator.Abs(), m[a].cells, mem[a].cells, f64s, k)
    }

    method EvacuateNext(a: Addr, f64s: seq<nat>, k: nat, ghost m: map<Addr, Block>, ghost f: Floats, ghost start: nat) returns (ok: bool)
      requires Built() && Evacuating(m, f, start, a, f64s, k) && f64s == FloatCells(m[a].cells) && k < |f64s|
      requires FloatsIn(m[a].cells, !f64Allocator.upper)
      modifies this`mem, f64Allocator`nextSlot, f64Allocator.lowerSpace, f64Allocator.upperSpace
      ensures Built() && (ok <==> start + k + 1 < LEN)
      ensures ok ==> Evacuating(m, f, start, a, f64s, k + 1)
    {
      ghost var g := f64Allocator.Abs();
      ghost var was := mem[a].cells;
      NextFloat(f, g, m[a].cells, was, f64s, k);
      FloatCellsExact(m[a].cells);
      ok := MoveFloat(a, f64s[k]);
      if !ok { return; }
      WithCellsTwice(m, a, was, mem[a].cells);
      OneMoved(f, g, f64Allocator.Abs(), m[a].cells, was, mem[a].cells, f64s, k);
      OnePlaced(was, mem[a].cells, f64s, start, k);
    }

    // Copies a block's floats to the current space; false when the space is full.
    method EvacuateFloats(a: Addr, f64s: seq<nat>) returns (ok: bool)
      requires Built() && a in mem && f64s == FloatCells(mem[a].cells)
      requires f64Allocator.nextSlot < LEN
      requires FloatsIn(mem[a].cells, !f64Allocator.upper)
      modifies this`mem, f64Allocator`nextSlot, f64Allocator.lowerSpace, f64Allocator.upperSpace
      ensures Built()
      ensures ok <==> old(f64Allocator.nextSlot) + |f64s| < LEN
      ensures ok ==>
        && a in mem && mem == old(mem)[a := old(mem)[a].(cells := mem[a].cells)]
        && FloatsGrow(old(f64Allocator.Abs()), f64Allocator.Abs())
        && CellsMoved(old(f64Allocator.Abs()), f64Allocator.Abs(), old(mem)[a].cells, mem[a].cells)
        && InOrder(mem[a].cells, old(f64Allocator.nextSlot))
        && f64Allocator.nextSlot == old(f64Allocator.nextSlot) + |f64s|
    {
      ghost var m, f, start := mem, f64Allocator.Abs(), f64Allocator.nextSlot;
      NothingMoved(f, mem[a].cells);
      SameCells(mem, a);
      var k := 0;
      while k < |f64s|
        invariant 0 <= k <= |f64s| && Built() && Evacuating(m, f, start, a, f64s, k)
      {
        ok := EvacuateNext(a, f64s, k, m, f, start);
        if !ok { return; }
        k := k + 1;
      }
      AllMoved(f, f64Allocator.Abs(), m[a].cells, mem[a].cells, f64s, start);
      ok := true;
    }

    // Marks one block, unless that was done before, and appends what it points to.
    method Visit(root: Addr, newRoots: seq<Addr>) returns (ok: bool, moreRoots: seq<Addr>)
      requires Built() && root in mem && f64Allocator.nextSlot < LEN
      requires FloatsIn(mem[root].cells, !f64Allocator.upper)
      requires !mem[root].marked
      modifies this`mem, f64Allocator`nextSlot, f64Allocator.lowerSpace, f64Allocator.upperSpace
      ensures Built() && moreRoots == newRoots + old(TagsAt(Abs(), root))
      ensures ok <==> old(f64Allocator.nextSlot) + |FloatCells(old(mem)[root].cells)| < LEN
      ensures ok ==>
        && root in mem && mem == old(mem)[root := old(mem)[root].(marked := true, cells := mem[root].cells)]
        && FloatsGrow(old(f64Allocator.Abs()), f64Allocator.Abs())
        && CellsMoved(old(f64Allocator.Abs()), f64Allocator.Abs(), old(mem)[root].cells, mem[root].cells)
        && InOrder(mem[root].cells, old(f64Allocator.nextSlot))
        && f64Allocator.nextSlot == old(f64Allocator.nextSlot) + |FloatCells(old(mem)[root].cells)|
    {
      mem := mem[root := mem[root].(marked := true)];
      var tags, f64s := GetGcPtrs(root);
      moreRoots := newRoots + tags;
      ok := EvacuateFloats(root, f64s);
    }

    // False stands for the panic when the other float space is too small.
    method MarkPhase(roots: seq<Addr>) returns (ok: bool)
      requires Built() && Collectable(Abs()) && roots == Roots(shadowStack)
      modifies this`mem, f64Allocator, f64Allocator.lowerSpace, f64Allocator.upperSpace
      ensures Built()
      ensures ok <==> FloatSlots(old(Abs()), old(allocList), Reach(old(Abs()))) < LEN
      ensures ok ==> Marking(old(Abs()), Abs(), Reach(old(Abs())), Reach(old(Abs())), [])
    {
      ghost var s0 := Abs();
      f64Allocator.SemispaceSwap();
      MarkingStarts(s0, Abs());
      ghost var seen: set<Addr>;
      ok, seen := Drain(roots, s0, Reach(s0));
      if ok { MarkingEnds(s0, Abs(), seen); }
    }

    // Works through two lists in turn until both are empty.
    method Drain(roots: seq<Addr>, ghost s0: State, ghost live: set<Addr>) returns (ok: bool, ghost seen: set<Addr>)
      requires Built() && Collectable(s0) && Marking(s0, Abs(), live, {}, roots)
      modifies this`mem, f64Allocator`nextSlot, f64Allocator.lowerSpace, f64Allocator.upperSpace
      ensures Built()
      ensures if ok then Marking(s0, Abs(), live, seen, []) else FloatSlots(s0, s0.listed, live) >= LEN
    {
      var currentRoots := roots;
      var newRoots: seq<Addr> := [];
      seen := {};
      while currentRoots != []
        invariant Built() && newRoots == [] && Marking(s0, Abs(), live, seen, currentRoots)
        decreases Unmarked(mem), |currentRoots|
      {
        ghost var before := Unmarked(mem);
        var i := 0;
        while i < |currentRoots|
          invariant 0 <= i <= |currentRoots| && Built()
          invariant Marking(s0, Abs(), live, seen, currentRoots[i..] + newRoots)
          invariant Unmarked(mem) < before || (Unmarked(mem) == before && newRoots == [])
        {
          var root := currentRoots[i];
          ghost var rest := currentRoots[i + 1..] + newRoots;
          PopRoot(currentRoots, i, newRoots);
          ghost var tags: seq<Addr>;
          ghost var others := newRoots;
          ok, newRoots, tags := MarkRoot(root, newRoots, s0, live, seen, rest);
          if !ok { return; }
          i := i + 1;
          PushRoots(currentRoots, i, others, tags);
          seen := seen + {root};
        }
        AllPopped(currentRoots, newRoots);
        currentRoots, newRoots := newRoots, [];
      }
      ok := true;
    }

    // One turn of the inner loop: marks a block that is not marked yet.
    method MarkRoot(root: Addr, newRoots: seq<Addr>, ghost s0: State, ghost live: set<Addr>, ghost seen: set<Addr>, ghost rest: seq<Addr>)
      returns (ok: bool, moreRoots: seq<Addr>, ghost tags: seq<Addr>)
      requires Built() && Collectable(s0) && Marking(s0, Abs(), live, seen, [root] + rest)
      modifies this`mem, f64Allocator`nextSlot, f64Allocator.lowerSpace, f64Allocator.upperSpace
      ensures Built() && moreRoots == newRoots + tags
      ensures ok ==> Marking(s0, Abs(), live, seen + {root}, rest + tags)
      ensures ok ==> Unmarked(mem) < old(Unmarked(mem)) || (Unmarked(mem) == old(Unmarked(mem)) && tags == [])
      ensures !ok ==> FloatSlots(s0, s0.listed, live) >= LEN
    {
      ghost var s := Abs();
      assert root in [root] + rest;
      if mem[root].marked {
        SkipKeepsMarking(s0, s, live, seen, root, rest);
        NothingMore(rest);
        NothingMore(newRoots);
        return true, newRoots, [];
      }
      ok, moreRoots, tags := MarkNew(root, newRoots, s0, live, seen, rest);
    }

    method MarkNew(root: Addr, newRoots: seq<Addr>, ghost s0: State, ghost live: set<Addr>, ghost seen: set<Addr>, ghost rest: seq<Addr>)
      returns (ok: bool, moreRoots: seq<Addr>, ghost tags: seq<Addr>)
      requires Built() && Collectable(s0) && Marking(s0, Abs(), live, seen, [root] + rest) && root in mem && !mem[root].marked
      modifies this`mem, f64Allocator`nextSlot, f64Allocator.lowerSpace, f64Allocator.upperSpace
      ensures Built() && moreRoots == newRoots + tags
      ensures ok ==> Marking(s0, Abs(), live, seen + {root}, rest + tags) && Unmarked(mem) < old(Unmarked(mem))
      ensures !ok ==> FloatSlots(s0, s0.listed, live) >= LEN
    {
      ghost var s := Abs();
      ReadyToVisit(s0, s, live, seen, root, rest);
      tags := TagsAt(s, root);
      ok, moreRoots := Visit(root, newRoots);
      if ok {
        VisitKeepsMarking(s0, s, Abs(), live, seen, root, rest);
        MarkedOneMore(s.mem, mem, root);
      } else {
        TooManyFloats(s0, s, live, seen, root, rest);
      }
    }

    // ----- Sweeping -----

    // Unlinks every unmarked block from the list and takes its size off the account.
    method SweepPhase()
      requires NoDuplicates(allocList) && forall a <- allocList :: a in mem
      modifies this`mem, this`allocList, this`usedMem
      ensures Sweeping(old(Abs()), |old(allocList)|, mem, allocList, usedMem, |allocList|)
    {
      ghost var s := Abs();
      ghost var n: nat := 0;
      var to: nat := 0;
      SweepBegins(s);
      while to < |allocList|
        invariant Sweeping(s, n, mem, allocList, usedMem, to)
        decreases |s.listed| - n
      {
        to := SweepOne(to, s, n);
        n := n + 1;
      }
      SweepEnds(s, n, mem, allocList, usedMem, to);
    }

    method SweepOne(to: nat, ghost s: State, ghost n: nat) returns (next: nat)
      requires NoDuplicates(s.listed) && (forall a <- s.listed :: a in s.mem) && classes.classes == s.classes
      requires Sweeping(s, n, mem, allocList, usedMem, to) && to < |allocList|
      modifies this`mem, this`allocList, this`usedMem
      ensures n < |s.listed| && Sweeping(s, n + 1, mem, allocList, usedMem, next)
    {
      UnderCursor(s, n, mem, allocList, usedMem, to);
      var ptr := allocList[to];
      if mem[ptr].marked {
        SweepKeeps(s, n, mem, allocList, usedMem, to);
        mem := mem[ptr := mem[ptr].(marked := false)];
        next := to + 1;
      } else {
        SweepFrees(s, n, mem, allocList, usedMem, to);
        assert BlockBytes(s, ptr) == TAG_SIZE + DataSize(mem[ptr], classes.classes);
        Free(ptr, to);
        next := to;
      }
    }

    // Takes a block off the account, out of memory and out of the list.
    method Free(ptr: Addr, to: nat)
      requires to < |allocList| && ptr in mem
      modifies this`mem, this`allocList, this`usedMem
      ensures usedMem == old(usedMem) - (TAG_SIZE + DataSize(old(mem)[ptr], classes.classes))
      ensures mem == old(mem) - {ptr} && allocList == old(allocList)[..to] + old(allocList)[to + 1..]
    {
      usedMem := usedMem - (TAG_SIZE + DataSize(mem[ptr], classes.classes));
      mem := mem - {ptr};
      allocList := allocList[..to] + allocList[to + 1..];
    }

    // A collection succeeds exactly when the floats that are reachable fit into one space, and then
    // it leaves exactly what is reachable, in its old order.
    method Gc() returns (ok: bool)
      requires Built() && Collectable(Abs()) && EnvsFilled(Abs())
      modifies this`mem, this`allocList, this`usedMem, f64Allocator, f64Allocator.lowerSpace, f64Allocator.upperSpace
      ensures Built()
      ensures ok <==> FloatSlots(old(Abs()), old(allocList), Reach(old(Abs()))) < LEN
      ensures ok ==> Collected(old(Abs()), Abs()) && Valid(Abs())
      ensures ok ==> forall a <- Reach(old(Abs())) :: a in mem && NothingDangles(Abs(), a)
    {
      ghost var s0 := Abs();
      ok := MarkPhase(Roots(shadowStack));
      if ok {
        ghost var s1 := Abs();
        SweepPhase();
        FinishGc(s0, s1, Abs());
        NothingLost(s0, Abs());
      }
    }

    // ----- Allocation -----

    // `at` is the address that the system allocator would answer with.
    method AllocRaw(bytes: int, at: Addr) returns (r: Option<Addr>)
      requires bytes > 0
      modifies this`usedMem, this`allocList
      ensures r == if size - old(usedMem) < bytes then None else Some(at)
      ensures r.None? ==> usedMem == old(usedMem) && allocList == old(allocList)
      ensures r.Some? ==> usedMem == old(usedMem) + bytes && allocList == [at] + old(allocList)
    {
      if size - usedMem < bytes {
        return None;
      }
      usedMem := usedMem + bytes;
      allocList := [at] + allocList;
      r := Some(at);
    }

    // Strings, environments, object data and single values all pass through here; `bytes` is what
    // the caller says the data will take.
    method AllocBlock(shape: Shape, cells: seq<Option<AnyVal>>, bytes: nat, at: Addr) returns (r: Option<Addr>)
      requires bytes == DataSize(Block(false, shape, cells), classes.classes)
      modifies this`usedMem, this`allocList, this`mem
      ensures (Abs(), r) == TryAlloc(old(Abs()), at, Block(false, shape, cells))
      ensures r == if old(usedMem) + TAG_SIZE + bytes <= size then Some(at) else None
      ensures r.Some? ==>
        && usedMem == old(usedMem) + TAG_SIZE + bytes && allocList == [at] + old(allocList)
        && mem == old(mem)[at := Block(false, shape, cells)]
    {
      r := AllocRaw(TAG_SIZE + bytes, at);
      if r.Some? {
        mem := mem[at := Block(false, shape, cells)];
      }
    }

    // One attempt, on a heap that is in order.
    method AllocSlice(shape: Shape, cells: seq<Option<AnyVal>>, bytes: nat, at: Addr) returns (r: Option<Addr>)
      requires Built() && Valid(Abs()) && at !in mem
      requires bytes == DataSize(Block(false, shape, cells), classes.classes) && Storable(Abs(), Block(false, shape, cells))
      modifies this`usedMem, this`allocList, this`mem
      ensures Valid(Abs())
      ensures (Abs(), r) == TryAlloc(old(Abs()), at, Block(false, shape, cells))
      ensures r == if old(usedMem) + TAG_SIZE + bytes <= size then Some(at) else None
      ensures r.Some? ==>
        && usedMem == old(usedMem) + TAG_SIZE + bytes && allocList == [at] + old(allocList)
        && mem == old(mem)[at := Block(false, shape, cells)]
    {
      ghost var s := Abs();
      r := AllocBlock(shape, cells, bytes, at);
      if r.Some? { AllocIsValid(s, at, Block(false, shape, cells)); }
    }

    // The text behind its four length bytes.
    method AllocStr(text: string, at: Addr) returns (r: Option<Addr>)
      requires Built() && Valid(Abs()) && at !in mem
      modifies this`usedMem, this`allocList, this`mem
      ensures Valid(Abs())
      ensures r == if old(usedMem) + 4 + (|text| + 4) <= size then Some(at) else None
      ensures r.None? ==> Abs() == old(Abs())
      ensures r.Some? ==>
        && usedMem == old(usedMem) + 4 + (|text| + 4) && allocList == [at] + old(allocList)
        && mem == old(mem)[at := Block(false, Str(text), [])]
    {
      r := AllocSlice(Str(text), [], |text| + 4, at);
    }

    // Room for the values behind the length and the function object; the values come later.
    method AllocEnv(length: nat, fnObj: Addr, at: Addr) returns (r: Option<Addr>)
      requires Built() && Valid(Abs()) && at !in mem && fnObj in mem
      modifies this`usedMem, this`allocList, this`mem
      ensures Valid(Abs())
      ensures r == if old(usedMem) + 4 + (8 * length + 4 + 4) <= size then Some(at) else None
      ensures r.None? ==> Abs() == old(Abs())
      ensures r.Some? ==>
        && usedMem == old(usedMem) + 4 + (8 * length + 4 + 4) && allocList == [at] + old(allocList)
        && at in mem && mem == old(mem)[at := mem[at]]
        && mem[at].shape == Env(fnObj) && |mem[at].cells| == length && forall c <- mem[at].cells :: c == None
    {
      var values := Blank(length);
      TagsOfBlank(Env(fnObj), length, classes.classes);
      r := AllocSlice(Env(fnObj), values, 8 * length + 4 + 4, at);
    }

    // The pattern of every `alloc_..._or_gc`: try, collect, try once more.
    method AllocOrGc(shape: Shape, cells: seq<Option<AnyVal>>, bytes: nat, at: Addr) returns (r: Outcome, ghost mid: State)
      requires Built() && Valid(Abs()) && at !in mem
      requires bytes == DataSize(Block(false, shape, cells), classes.classes) && EnvsFilled(Abs())
      requires Storable(Abs(), Block(false, shape, cells)) && Survives(Abs(), Block(false, shape, cells))
      modifies this`usedMem, this`allocList, this`mem, f64Allocator, f64Allocator.lowerSpace, f64Allocator.upperSpace
      ensures Built()
      ensures TriedTwice(old(Abs()), mid, Abs(), at, Block(false, shape, cells), r)
      ensures r == Answer(old(Abs()), Block(false, shape, cells))
      ensures r == Allocd ==> at in mem && mem[at] == Block(false, shape, cells)
    {
      ghost var s := Abs();
      mid := s;
      var first := AllocSlice(shape, cells, bytes, at);
      if first.Some? { return Allocd, mid; }
      var ok := Gc();
      if !ok { return OutOfFloats, mid; }
      mid := Abs();
      r := AllocAgain(shape, cells, bytes, at, s);
      RoomIsKnown(s, mid, Block(false, shape, cells));
    }

    method AllocAgain(shape: Shape, cells: seq<Option<AnyVal>>, bytes: nat, at: Addr, ghost s: State) returns (r: Outcome)
      requires Built() && Collectable(s) && Collected(s, Abs()) && Valid(Abs()) && at !in mem
      requires bytes == DataSize(Block(false, shape, cells), classes.classes)
      requires Storable(s, Block(false, shape, cells)) && Survives(s, Block(false, shape, cells))
      modifies this`usedMem, this`allocList, this`mem
      ensures SecondTry(old(Abs()), Abs(), at, Block(false, shape, cells), r)
      ensures r == Allocd ==> at in mem && mem[at] == Block(false, shape, cells)
    {
      ghost var mid := Abs();
      var second := AllocBlock(shape, cells, bytes, at);
      if second.None? { return OutOfMemory; }
      StaleFloats(s, mid, at, Block(false, shape, cells));
      r := Allocd;
    }

    // False when even a collection does not make room for one more float.
    method AllocF64OrGc(x: Float) returns (p: Option<FloatPtr>, ghost mid: State)
      requires Built() && Valid(Abs()) && EnvsFilled(Abs())
      modifies this`usedMem, this`allocList, this`mem, f64Allocator, f64Allocator.lowerSpace, f64Allocator.upperSpace
      ensures Built()
      ensures p.None? <==> old(f64Allocator.nextSlot) == LEN - 1 && FloatSlots(old(Abs()), old(allocList), Reach(old(Abs()))) >= LEN - 1
      ensures p.Some? ==> FloatTriedTwice(old(Abs()), mid, Abs(), x)
      ensures p.Some? ==> f64Allocator.Abs().Live(p.value) && ReadFloat(f64Allocator.Abs(), p.value) == x
    {
      ghost var s := Abs();
      mid := s;
      p := f64Allocator.Alloc(x);
      if p.Some? {
        FloatsAreValid(s, x);
        return;
      }
      SpentFloats(s, Abs());
      var ok := Gc();
      if !ok { return None, mid; }
      mid := Abs();
      p := f64Allocator.Alloc(x);
      if p.Some? { FloatsAreValid(mid, x); }
    }

    method AllocObjectData(classTag: nat, at: Addr) returns (r: Option<Addr>)
      requires Built() && Valid(Abs()) && at !in mem && classTag < |classes.classes|
      modifies this`usedMem, this`allocList, this`mem
      ensures Valid(Abs())
      ensures (Abs(), r) == TryAlloc(old(Abs()), at, EmptyData(old(Abs()), classTag))
      ensures r.Some? ==>
        && r.value == at && at in mem && mem[at].shape == ObjectData(classTag) && !mem[at].marked
        && |mem[at].cells| == classes.classes[classTag].size && forall c <- mem[at].cells :: c == None
    {
      var n := classes.classes[classTag].size;
      EmptyDataStorable(Abs(), classTag);
      r := AllocSlice(ObjectData(classTag), Blank(n), ANY_SIZE * n, at);
    }

    // Two blocks: the data, and the pointer block that stands for the object.  When only the first
    // fits, it stays behind as garbage.
    method AllocObject(classTag: nat, at: Addr, dataAt: Addr) returns (r: Option<Addr>)
      requires Built() && Valid(Abs()) && at !in mem && dataAt !in mem && at != dataAt && classTag < |classes.classes|
      modifies this`usedMem, this`allocList, this`mem
      ensures Valid(Abs())
      ensures (Abs(), r) == TryObject(old(Abs()), classTag, at, dataAt)
      ensures r.Some? ==>
        && r.value == at && at in mem && mem[at] == Block(false, ObjectPtrPtr(dataAt), [])
        && dataAt in mem && mem[dataAt].shape == ObjectData(classTag) && forall c <- mem[dataAt].cells :: c == None
    {
      var data := AllocObjectData(classTag, dataAt);
      if data.None? { return None; }
      r := AllocSlice(ObjectPtrPtr(dataAt), [], PTR_SIZE, at);
    }

    // The two tries get two addresses each.
    method AllocObjectOrGc(classTag: nat, at: Addr, dataAt: Addr, at1: Addr, dataAt1: Addr) returns (r: Outcome, obj: Addr, ghost mid: State)
      requires Built() && Valid(Abs()) && EnvsFilled(Abs()) && classTag < |classes.classes|
      requires at !in mem && dataAt !in mem && at != dataAt
      requires at1 !in mem && dataAt1 !in mem && at1 != dataAt1 && dataAt != at1 && dataAt != dataAt1
      modifies this`mem, this`allocList, this`usedMem, f64Allocator, f64Allocator.lowerSpace, f64Allocator.upperSpace
      ensures Built()
      ensures ObjectTriedTwice(old(Abs()), mid, Abs(), classTag, at, dataAt, at1, dataAt1, r, obj)
    {
      ghost var s := Abs();
      obj := at;
      mid := s;
      var first := AllocObject(classTag, at, dataAt);
      if first.Some? { return Allocd, first.value, mid; }
      FirstTryCollectable(s, Abs(), classTag, at, dataAt);
      var ok := Gc();
      if !ok { return OutOfFloats, obj, mid; }
      mid := Abs();
      var second := AllocObject(classTag, at1, dataAt1);
      if second.None? { return OutOfMemory, obj, mid; }
      r, obj := Allocd, second.value;
    }

    // ----- The shadow stack -----

    method PushShadowFrame(slots: nat)
      requires Built() && Valid(Abs())
      modifies this`shadowStack
      ensures Valid(Abs()) && Abs() == FrameEntered(old(Abs()), slots)
      ensures shadowStack == old(shadowStack) + [seq(slots, _ => None)]
    {
      FramesAreValid(Abs(), slots);
      shadowStack := shadowStack + [seq(slots, _ => None)];
    }

    method PopShadowFrame()
      requires Built() && Valid(Abs())
      modifies this`shadowStack
      ensures Valid(Abs())
      ensures Abs() == if old(shadowStack) == [] then old(Abs()) else FrameLeft(old(Abs()))
      ensures old(shadowStack) != [] ==> shadowStack == old(shadowStack)[..|old(shadowStack)| - 1]
    {
      FramesAreValid(Abs(), 0);
      if shadowStack != [] {
        shadowStack := shadowStack[..|shadowStack| - 1];
      }
    }

    method SetInShadowFrameSlot(frame: nat, slot: nat, r: Option<Addr>)
      requires Built() && Valid(Abs()) && frame < |shadowStack| && slot < |shadowStack[frame]| && (r.Some? ==> r.value in mem)
      modifies this`shadowStack
      ensures Valid(Abs()) && Abs() == WithRoot(old(Abs()), frame, slot, r)
      ensures shadowStack == old(shadowStack)[frame := old(shadowStack)[frame][slot := r]]
      ensures r.Some? ==> r.value in Reach(Abs())
    {
      WithRootIsValid(Abs(), frame, slot, r);
      shadowStack := shadowStack[frame := shadowStack[frame][slot := r]];
      if r.Some? { SlotReached(Abs(), frame, slot); }
    }

    method SetInCurrentShadowFrameSlot(slot: nat, r: Option<Addr>)
      requires Built() && Valid(Abs()) && shadowStack != [] && slot < |shadowStack[|shadowStack| - 1]| && (r.Some? ==> r.value in mem)
      modifies this`shadowStack
      ensures Valid(Abs()) && Abs() == WithRoot(old(Abs()), |old(shadowStack)| - 1, slot, r)
      ensures var n := |old(shadowStack)| - 1; shadowStack == old(shadowStack)[..n] + [old(shadowStack)[n][slot := r]]
      ensures r.Some? ==> r.value in Reach(Abs())
    {
      SetInShadowFrameSlot(|shadowStack| - 1, slot, r);
    }
  }

  datatype Outcome = Allocd | OutOfMemory | OutOfFloats

  // From s, `mid` being the heap after the collection if there was one, to t.
  ghost predicate TriedTwice(s: State, mid: State, t: State, at: Addr, b: Block, r: Outcome) {
    if Fits(s, b) then
      r == Allocd && mid == s && t == Allocated(s, at, b) && Valid(t)
    else if FloatSlots(s, s.listed, Reach(s)) >= LEN then
      r == OutOfFloats
    else
      Collected(s, mid) && SecondTry(mid, t, at, b, r)
  }

  // A number is stored at once, or after a collection that the attempt has left the space spent for.
  ghost predicate FloatTriedTwice(s: State, mid: State, t: State, x: Float) {
    && Valid(mid) && Valid(t) && t == mid.(floats := mid.floats.AfterAlloc(x))
    && if s.floats.next < LEN - 1 then mid == s else Collected(s.(floats := s.floats.(next := LEN)), mid)
  }

  // Bytes that are charged after a collection.
  ghost function LiveBytes(s: State): nat {
    Bytes(s, Keep(s.listed, Reach(s)))
  }

  // What becomes of an allocation is known beforehand.
  ghost function Answer(s: State, b: Block): Outcome {
    if Fits(s, b) then Allocd
    else if FloatSlots(s, s.listed, Reach(s)) >= LEN then OutOfFloats
    else if LiveBytes(s) + TAG_SIZE + DataSize(b, s.classes) <= s.size then Allocd
    else OutOfMemory
  }

  lemma RoomIsKnown(s: State, mid: State, b: Block)
    requires Collected(s, mid)
    ensures Fits(mid, b) <==> LiveBytes(s) + TAG_SIZE + DataSize(b, s.classes) <= s.size
  {
  }

  ghost predicate SecondTry(mid: State, t: State, at: Addr, b: Block, r: Outcome) {
    if Fits(mid, b) then
      r == Allocd && t == Allocated(mid, at, b) && (Valid(t) <==> FloatFree(b.cells))
    else
      r == OutOfMemory && t == mid
  }

  // Both blocks of an object; the state is what one attempt leaves.
  ghost function TryObject(s: State, classTag: nat, at: Addr, dataAt: Addr): (State, Option<Addr>)
    requires classTag < |s.classes|
  {
    var (t, data) := TryAlloc(s, dataAt, EmptyData(s, classTag));
    if data.None? then (s, None) else TryAlloc(t, at, Block(false, ObjectPtrPtr(dataAt), []))
  }

  // The collection in between also takes what a half-done first attempt has left behind.
  ghost predicate ObjectTriedTwice(s: State, mid: State, t: State, classTag: nat, at: Addr, dataAt: Addr, at1: Addr, dataAt1: Addr,
                                   r: Outcome, obj: Addr)
    requires classTag < |s.classes|
  {
    var (u, first) := TryObject(s, classTag, at, dataAt);
    if first.Some? then r == Allocd && obj == at && t == u && Valid(t)
    else if FloatSlots(u, u.listed, Reach(u)) >= LEN then r == OutOfFloats
    else
      && Collected(u, mid) && mid.classes == s.classes && Valid(t)
      && var (w, second) := TryObject(mid, classTag, at1, dataAt1);
      t == w && if second.Some? then r == Allocd && obj == at1 else r == OutOfMemory
  }

  lemma FirstTryCollectable(s: State, t: State, classTag: nat, at: Addr, dataAt: Addr)
    requires Valid(s) && EnvsFilled(s) && dataAt !in s.mem && classTag < |s.classes|
    requires TryObject(s, classTag, at, dataAt) == (t, None)
    ensures EnvsFilled(t) && t.classes == s.classes
  {
    if t != s { GarbageUnreached(s, t, dataAt); }
  }

  // A fresh block that nothing points to is not reached, and nothing else is that was not before.
  lemma GarbageUnreached(s: State, t: State, a: Addr)
    requires Valid(s) && a !in s.mem && t.shadow == s.shadow && t.classes == s.classes
    requires t.mem.Keys == s.mem.Keys + {a} && forall b <- s.mem.Keys :: t.mem[b] == s.mem[b]
    ensures Reach(t) <= Reach(s)
  {
    var live := Reach(s);
    ReachInherited(s);
    forall b, x | b in live && Leads(t, b, x)
      ensures x in live
    {
      assert Leads(s, b, x);
      assert b in s.listed ==> BlockGood(s, b);
      assert b !in s.listed ==> StaticString(s, b);
    }
    ReachInside(t, live);
  }

  ghost function EmptyData(s: State, classTag: nat): Block
    requires classTag < |s.classes|
  {
    Block(false, ObjectData(classTag), Blank(s.classes[classTag].size))
  }

  lemma TagsOfBlank(shape: Shape, n: nat, classes: seq<Class>)
    ensures Tags(Block(false, shape, Blank(n)), classes) == Links(shape, classes)
  {
    NoTags(n);
  }

  lemma {:induction false} NoTags(n: nat)
    ensures CellTags(Blank(n)) == []
  {
    if n > 0 {
      NoTags(n - 1);
      assert Blank(n)[..n - 1] == Blank(n - 1);
    }
  }

  lemma EmptyDataStorable(s: State, classTag: nat)
    requires Valid(s) && classTag < |s.classes|
    ensures Storable(s, EmptyData(s, classTag))
  {
    var b := EmptyData(s, classTag);
    forall x | x in CellTags(b.cells)
      ensures false
    {
      CellTagsExact(b.cells, x);
    }
    forall x | x in Links(b.shape, s.classes)
      ensures x in s.mem
    {
      var i :| 0 <= i < |s.classes[classTag].offsets| && s.classes[classTag].offsets[i].0.ptr == x;
      assert s.classes[classTag].offsets[i] in s.classes[classTag].offsets;
    }
  }

  // A failed float allocation leaves a heap that can be collected.
  lemma SpentFloats(s: State, t: State)
    requires Valid(s) && t == s.(floats := s.floats.(next := LEN))
    ensures Collectable(t) && Reach(t) == Reach(s) && FloatSlots(t, t.listed, Reach(t)) == FloatSlots(s, s.listed, Reach(s))
  {
    forall a | a in t.listed
      ensures BlockGood(t, a)
    {
      assert BlockGood(s, a) && TagsAt(t, a) == TagsAt(s, a);
    }
    forall a | a in t.mem.Keys && a !in t.listed
      ensures StaticString(t, a)
    {
      assert StaticString(s, a);
    }
    BytesSame(s, t, s.listed);
    ReachAlong(s, t, s.mem.Keys);
    ReachAlong(t, s, s.mem.Keys);
    FloatSlotsSame(s, t, s.listed, Reach(s));
  }

  lemma {:induction false} FloatSlotsSame(s: State, t: State, list: seq<Addr>, r: set<Addr>)
    requires s.mem == t.mem
    ensures FloatSlots(s, list, r) == FloatSlots(t, list, r)
  {
    if list != [] { FloatSlotsSame(s, t, list[1..], r); }
  }

  lemma NothingLost(s0: State, s: State)
    requires Collectable(s0) && Collected(s0, s) && Valid(s)
    ensures forall a <- Reach(s0) :: a in s.mem && NothingDangles(s, a)
  {
    forall a | a in Reach(s0)
      ensures a in s.mem && NothingDangles(s, a)
    {
      GoodIsPresent(s, a);
    }
  }

  lemma FinishGc(s0: State, s1: State, s: State)
    requires Collectable(s0) && Marking(s0, s1, Reach(s0), Reach(s0), [])
    requires Sweeping(s1, |s1.listed|, s.mem, s.listed, s.used, |s.listed|)
    requires s == s1.(mem := s.mem, listed := s.listed, used := s.used)
    ensures Collected(s0, s) && Valid(s)
  {
    SweptIsCollected(s0, s1, s, Reach(s0), |s.listed|);
    CollectedIsValid(s0, s);
  }

  lemma PopRoot(current: seq<Addr>, i: nat, more: seq<Addr>)
    requires i < |current|
    ensures current[i..] + more == [current[i]] + (current[i + 1..] + more)
  {
  }

  lemma PushRoots(current: seq<Addr>, i: nat, more: seq<Addr>, tags: seq<Addr>)
    requires i <= |current|
    ensures current[i..] + (more + tags) == (current[i..] + more) + tags
  {
  }

  lemma AllPopped(current: seq<Addr>, more: seq<Addr>)
    ensures current[|current|..] + more == more
  {
  }

  lemma WithCellsTwice(mem: map<Addr, Block>, a: Addr, cs: seq<Option<AnyVal>>, ds: seq<Option<AnyVal>>)
    requires a in mem
    ensures mem[a := mem[a].(cells := cs)][a := mem[a].(cells := cs).(cells := ds)] == mem[a := mem[a].(cells := ds)]
  {
  }

  lemma SameCells(mem: map<Addr, Block>, a: Addr)
    requires a in mem
    ensures mem[a := mem[a].(cells := mem[a].cells)] == mem
  {
  }

  // Every float among the cells lies in the given space.
  ghost predicate FloatsIn(cells: seq<Option<AnyVal>>, upper: bool) {
    forall i :: 0 <= i < |cells| && IsFloat(cells[i]) ==> cells[i].value.at.upper == upper && cells[i].value.at.slot < LEN
  }

  // The first k float cells have been copied, the other cells are as they were.
  ghost predicate PartMoved(f: Floats, g: Floats, cells: seq<Option<AnyVal>>, now: seq<Option<AnyVal>>, f64s: seq<nat>, k: nat)
    requires f.Valid() && g.Valid()
  {
    && |now| == |cells|
    && forall i :: 0 <= i < |cells| ==> if k < |f64s| && f64s[k] <= i then now[i] == cells[i] else CellMoved(f, g, cells[i], now[i])
  }

  lemma NothingMoved(f: Floats, cells: seq<Option<AnyVal>>)
    requires f.Valid()
    ensures PartMoved(f, f, cells, cells, FloatCells(cells), 0)
  {
    FloatCellsExact(cells);
    forall i | 0 <= i < |cells|
      ensures FloatCells(cells) == [] || i < FloatCells(cells)[0] ==> CellMoved(f, f, cells[i], cells[i])
    {
      if FloatCells(cells) == [] || i < FloatCells(cells)[0] {
        BeforeAll(FloatCells(cells), i);
        StaysPut(f, cells[i]);
      }
    }
  }

  lemma BeforeAll(r: seq<nat>, i: nat)
    requires Ascending(r) && (r == [] || i < r[0])
    ensures i !in r
  {
  }

  lemma StaysPut(f: Floats, c: Option<AnyVal>)
    requires f.Valid() && !IsFloat(c)
    ensures CellMoved(f, f, c, c)
  {
  }

  lemma NextFloat(f: Floats, g: Floats, cells: seq<Option<AnyVal>>, now: seq<Option<AnyVal>>, f64s: seq<nat>, k: nat)
    requires f.Valid() && g.Valid() && PartMoved(f, g, cells, now, f64s, k) && f64s == FloatCells(cells) && k < |f64s|
    ensures f64s[k] < |now| == |cells| && now[f64s[k]] == cells[f64s[k]] && IsFloat(now[f64s[k]])
  {
  }

  lemma AllMoved(f: Floats, g: Floats, cells: seq<Option<AnyVal>>, now: seq<Option<AnyVal>>, f64s: seq<nat>, start: nat)
    requires f.Valid() && g.Valid() && PartMoved(f, g, cells, now, f64s, |f64s|)
    requires f64s == FloatCells(cells) && Placed(now, f64s, start, |f64s|)
    ensures CellsMoved(f, g, cells, now) && InOrder(now, start)
  {
    MovedSameTags(f, g, cells, now);
  }

  // The first k floats of a block lie in consecutive cells from `start` on.
  ghost predicate Placed(now: seq<Option<AnyVal>>, f64s: seq<nat>, start: nat, k: nat) {
    k <= |f64s| && forall j :: 0 <= j < k ==> f64s[j] < |now| && IsFloat(now[f64s[j]]) && now[f64s[j]].value.at.slot == start + j
  }

  lemma OnePlaced(was: seq<Option<AnyVal>>, now: seq<Option<AnyVal>>, f64s: seq<nat>, start: nat, k: nat)
    requires Placed(was, f64s, start, k) && Ascending(f64s) && k < |f64s| && f64s[k] < |was| == |now|
    requires now == was[f64s[k] := now[f64s[k]]] && IsFloat(now[f64s[k]]) && now[f64s[k]].value.at.slot == start + k
    ensures Placed(now, f64s, start, k + 1)
  {
  }

  lemma OneMoved(f: Floats, g: Floats, h: Floats, cells: seq<Option<AnyVal>>, was: seq<Option<AnyVal>>, now: seq<Option<AnyVal>>,
                 f64s: seq<nat>, k: nat)
    requires k < |f64s| && f64s == FloatCells(cells)
    requires FloatsGrow(f, g) && FloatsGrow(g, h) && PartMoved(f, g, cells, was, f64s, k)
    requires |now| == |was| && now == was[f64s[k] := now[f64s[k]]]
    requires CellMoved(f, h, cells[f64s[k]], now[f64s[k]])
    ensures FloatsGrow(f, h)
    ensures PartMoved(f, h, cells, now, f64s, k + 1)
  {
    FloatCellsExact(cells);
    forall i | 0 <= i < |cells|
      ensures if k + 1 < |f64s| && f64s[k + 1] <= i then now[i] == cells[i] else CellMoved(f, h, cells[i], now[i])
    {
      if f64s[k] < i && (k + 1 < |f64s| ==> i < f64s[k + 1]) {
        AscendingGap(f64s, k, i);
      }
    }
  }

  lemma AscendingGap(r: seq<nat>, k: nat, i: nat)
    requires Ascending(r) && k < |r| && r[k] < i && (k + 1 < |r| ==> i < r[k + 1])
    ensures i !in r
  {
    forall j | 0 <= j < |r|
      ensures r[j] != i
    {
      assert j < k ==> r[j] < r[k];
      assert k + 1 < j ==> r[k + 1] < r[j];
    }
  }

  ghost function UnmarkedSet(mem: map<Addr, Block>): set<Addr> {
    set a | a in mem && !mem[a].marked
  }

  ghost function Unmarked(mem: map<Addr, Block>): nat {
    |UnmarkedSet(mem)|
  }

  lemma NothingMore(roots: seq<Addr>)
    ensures roots + [] == roots
  {
  }

  lemma MarkedOneMore(was: map<Addr, Block>, now: map<Addr, Block>, a: Addr)
    requires a in was && !was[a].marked && a in now && now == was[a := now[a]] && now[a].marked
    ensures Unmarked(now) < Unmarked(was)
  {
    assert a in UnmarkedSet(was);
    assert UnmarkedSet(now) == UnmarkedSet(was) - {a};
  }

  // A block that is still to be visited has its floats in the old space.
  lemma ReadyToVisit(s0: State, s: State, live: set<Addr>, seen: set<Addr>, root: Addr, rest: seq<Addr>)
    requires Collectable(s0) && Marking(s0, s, live, seen, [root] + rest) && root in s.mem && !s.mem[root].marked
    ensures FloatsIn(s.mem[root].cells, !s.floats.upper)
    ensures TagsAt(s, root) == TagsAt(s0, root)
  {
    assert root !in seen && BlockMoved(s0, s, root, false);
    CellsAreLive(s0, root);
    forall i | 0 <= i < |s.mem[root].cells| && IsFloat(s.mem[root].cells[i])
      ensures var p := s.mem[root].cells[i].value.at; p.upper != s.floats.upper && p.slot < LEN
    {
      assert CellLive(s0.floats, s0.mem[root].cells[i]);
    }
  }
}

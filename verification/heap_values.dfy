// Values on the managed heap: a tag followed by data, at an abstract address.

module HeapValues {
  import opened Common
  import opened ClassLists

  type Addr = nat

  // A number is its bit pattern.
  type Float = bv64

  // A float lives in one of two spaces; a pointer to it names the space and the cell.
  datatype FloatPtr = FloatPtr(upper: bool, slot: nat)

  // What a variable or a field can hold.
  datatype AnyVal =
    | I32(n: int)
    | F64(at: FloatPtr)
    | Bool(b: bool)
    | Ptr(to: Addr)
    | Closure(env: Addr, fn: nat)
    | Undefined
    | Null

  // A type tag and what the view behind it holds besides cells.
  datatype Shape =
    | Str(text: string)
    | Array
    | AnyBox
    | ObjectData(classTag: nat)
    | ObjectPtrPtr(data: Addr)
    | Env(fnObj: Addr)
    | NonPtr32(n: int)
    | PtrBox

  // `cells` are the values of an array, a box, an object or an environment; a cell that was never
  // written is None.
  datatype Block = Block(marked: bool, shape: Shape, cells: seq<Option<AnyVal>>)

  // Cells of which none has been written.
  function Blank(n: nat): seq<Option<AnyVal>> {
    seq(n, _ => None)
  }

  // ----- Edges -----

  function CellAddr(c: Option<AnyVal>): Option<Addr> {
    match c
    case Some(Ptr(a)) => Some(a)
    case Some(Closure(e, _)) => Some(e)
    case _ => None
  }

  predicate IsFloat(c: Option<AnyVal>) {
    c.Some? && c.value.F64?
  }

  function CellTags(cells: seq<Option<AnyVal>>): seq<Addr> {
    if cells == [] then [] else
    var (front, last) := (cells[..|cells| - 1], cells[|cells| - 1]);
    CellTags(front) + (if CellAddr(last).Some? then [CellAddr(last).value] else [])
  }

  // The indices of the floats among the cells, in ascending order (see FloatCellsExact).
  function FloatCells(cells: seq<Option<AnyVal>>): (r: seq<nat>)
    ensures forall j :: 0 <= j < |r| ==> r[j] < |cells| && IsFloat(cells[r[j]])
  {
    if cells == [] then [] else
    var (front, last) := (cells[..|cells| - 1], cells[|cells| - 1]);
    FloatCells(front) + (if IsFloat(last) then [|front|] else [])
  }

  ghost predicate Ascending(r: seq<nat>) {
    forall j, k :: 0 <= j < k < |r| ==> r[j] < r[k]
  }

  lemma {:induction false} FloatCellsExact(cells: seq<Option<AnyVal>>)
    ensures forall i :: 0 <= i < |cells| && cells[i].Some? && cells[i].value.F64? ==> i in FloatCells(cells)
    ensures forall i <- FloatCells(cells) :: i < |cells| && cells[i].Some? && cells[i].value.F64?
    ensures Ascending(FloatCells(cells))
  {
    if cells != [] {
      var n := |cells| - 1;
      var r := FloatCells(cells[..n]);
      FloatCellsExact(cells[..n]);
      forall i | 0 <= i < |cells| && cells[i].Some? && cells[i].value.F64?
        ensures i in FloatCells(cells)
      {
        if i < n { assert cells[..n][i] == cells[i]; } else { assert FloatCells(cells)[|r|] == n; }
      }
    }
  }

  function Keys(c: Class): seq<Addr> {
    seq(|c.offsets|, i requires 0 <= i < |c.offsets| => c.offsets[i].0.ptr)
  }

  function Links(shape: Shape, classes: seq<Class>): seq<Addr> {
    match shape
    case ObjectData(c) => if c < |classes| then Keys(classes[c]) else []
    case ObjectPtrPtr(d) => [d]
    case Env(f) => [f]
    case _ => []
  }

  // The tags that `get_gc_ptrs` reports for a block.
  function Tags(b: Block, classes: seq<Class>): seq<Addr> {
    CellTags(b.cells) + Links(b.shape, classes)
  }

  // A pointer holds its target, a closure its environment.
  ghost predicate HoldsAddr(c: Option<AnyVal>, a: Addr) {
    c == Some(Ptr(a)) || exists fn :: c == Some(Closure(a, fn))
  }

  lemma {:induction false} CellTagsExact(cells: seq<Option<AnyVal>>, a: Addr)
    ensures a in CellTags(cells) <==> exists i :: 0 <= i < |cells| && HoldsAddr(cells[i], a)
  {
    if cells != [] {
      var n := |cells| - 1;
      CellTagsExact(cells[..n], a);
      if i :| 0 <= i < |cells| && HoldsAddr(cells[i], a) {
        assert i == n || cells[..n][i] == cells[i];
      }
    }
  }

  // Does the block hold this address, in a cell or in its shape?
  ghost predicate PointsTo(b: Block, classes: seq<Class>, a: Addr) {
    || b.shape == ObjectPtrPtr(a) || b.shape == Env(a)
    || (exists i :: 0 <= i < |b.cells| && HoldsAddr(b.cells[i], a))
    || (b.shape.ObjectData? && b.shape.classTag < |classes| && exists e <- classes[b.shape.classTag].offsets :: e.0.ptr == a)
  }

  // The collector follows every address that a block holds, and no other.
  lemma TagsExact(b: Block, classes: seq<Class>, a: Addr)
    ensures a in Tags(b, classes) <==> PointsTo(b, classes, a)
  {
    CellTagsExact(b.cells, a);
    if b.shape.ObjectData? && b.shape.classTag < |classes| { KeysExact(classes[b.shape.classTag], a); }
  }

  lemma KeysExact(c: Class, a: Addr)
    ensures a in Keys(c) <==> exists e <- c.offsets :: e.0.ptr == a
  {
    if e :| e in c.offsets && e.0.ptr == a {
      var i :| 0 <= i < |c.offsets| && c.offsets[i] == e;
      assert Keys(c)[i] == a;
    }
  }

  lemma {:induction false} SameAddrsSameTags(a: seq<Option<AnyVal>>, b: seq<Option<AnyVal>>)
    requires |a| == |b| && forall i :: 0 <= i < |a| ==> CellAddr(a[i]) == CellAddr(b[i])
    ensures CellTags(a) == CellTags(b)
  {
    if a != [] { SameAddrsSameTags(a[..|a| - 1], b[..|b| - 1]); }
  }

  // The tags and the float cells of a list of values, collected in one loop.
  method IterToPtrs(cells: seq<Option<AnyVal>>) returns (tags: seq<Addr>, f64s: seq<nat>)
    ensures tags == CellTags(cells) && f64s == FloatCells(cells)
    ensures forall a :: a in tags <==> exists i :: 0 <= i < |cells| && HoldsAddr(cells[i], a)
  {
    tags, f64s := [], [];
    var i := 0;
    while i < |cells|
      invariant 0 <= i <= |cells|
      invariant tags == CellTags(cells[..i]) && f64s == FloatCells(cells[..i])
    {
      assert cells[..i + 1][..i] == cells[..i];
      match cells[i] {
        case Some(Ptr(a)) => tags := tags + [a];
        case Some(Closure(e, _)) => tags := tags + [e];
        case Some(F64(_)) => f64s := f64s + [i];
        case _ =>
      }
      i := i + 1;
    }
    assert cells[..i] == cells;
    forall a
      ensures a in tags <==> exists i :: 0 <= i < |cells| && HoldsAddr(cells[i], a)
    {
      CellTagsExact(cells, a);
    }
  }

  // ----- Sizes in bytes, on wasm32 -----

  const TAG_SIZE := 4
  const ANY_SIZE := 8
  const PTR_SIZE := 4
  const VEC_SIZE := 12

  function DataSize(b: Block, classes: seq<Class>): nat {
    match b.shape
    case Str(text) => |text| + 4
    case Array => VEC_SIZE
    case AnyBox => ANY_SIZE
    case ObjectData(c) => if c < |classes| then ANY_SIZE * classes[c].size else 0
    case ObjectPtrPtr(_) => PTR_SIZE
    case Env(_) => ANY_SIZE * |b.cells| + 4 + PTR_SIZE
    case NonPtr32(_) => 4
    case PtrBox => PTR_SIZE
  }

  // In bytes, on a machine of 32 bits.
  lemma BytesOfData(b: Block, classes: seq<Class>)
    ensures b.shape.Str? ==> DataSize(b, classes) == |b.shape.text| + 4
    ensures b.shape.Env? ==> DataSize(b, classes) == 8 * |b.cells| + 8
    ensures b.shape.Array? ==> DataSize(b, classes) == 12
    ensures b.shape.AnyBox? ==> DataSize(b, classes) == 8
    ensures b.shape.NonPtr32? || b.shape.PtrBox? || b.shape.ObjectPtrPtr? ==> DataSize(b, classes) == 4
    ensures b.shape.ObjectData? && b.shape.classTag < |classes| ==> DataSize(b, classes) == 8 * classes[b.shape.classTag].size
  {
  }

  // The data has the layout that its tag promises.
  ghost predicate WellShaped(b: Block, classes: seq<Class>) {
    match b.shape
    case Array => forall c <- b.cells :: c.Some?
    case AnyBox => |b.cells| == 1 && b.cells[0].Some?
    case PtrBox => |b.cells| == 1 && b.cells[0].Some? && b.cells[0].value.Ptr?
    case ObjectData(c) => c < |classes| && |b.cells| == classes[c].size
    case Env(_) => true
    case _ => b.cells == []
  }

  // ----- The float spaces -----

  // Cells in each space.
  const LEN := 1000

  datatype Floats = Floats(upper: bool, lowerSpace: seq<Float>, upperSpace: seq<Float>, next: nat) {
    ghost predicate Valid() {
      |lowerSpace| == LEN == |upperSpace| && next <= LEN
    }

    function Space(up: bool): seq<Float> {
      if up then upperSpace else lowerSpace
    }

    function Swapped(): Floats {
      this.(upper := !upper, next := 0)
    }

    function WithCell(i: nat, x: Float): Floats
      requires i < |Space(upper)|
    {
      if upper then this.(upperSpace := upperSpace[i := x]) else this.(lowerSpace := lowerSpace[i := x])
    }

    // The last cell is never handed out.
    function AfterAlloc(x: Float): Floats
      requires |lowerSpace| == LEN == |upperSpace| && next < LEN
    {
      if next + 1 == LEN then this.(next := LEN) else WithCell(next, x).(next := next + 1)
    }

    // A float that was handed out from the current space since the last swap.
    ghost predicate Live(p: FloatPtr) {
      p.upper == upper && p.slot < next && p.slot < LEN - 1
    }
  }

  ghost function ReadFloat(f: Floats, p: FloatPtr): Float
    requires f.Valid() && p.slot < LEN
  {
    f.Space(p.upper)[p.slot]
  }

  ghost predicate CellLive(f: Floats, c: Option<AnyVal>) {
    IsFloat(c) ==> f.Live(c.value.at)
  }

  // Later in the same half of the float heap: what was handed out still reads the same.
  ghost predicate FloatsGrow(f: Floats, g: Floats) {
    && f.Valid() && g.Valid()
    && g.upper == f.upper && f.next <= g.next
    && g.Space(!f.upper) == f.Space(!f.upper)
    && forall i :: 0 <= i < f.next && i < LEN - 1 ==> g.Space(f.upper)[i] == f.Space(f.upper)[i]
  }

  // The semispace allocator.
  class F64Allocator {
    const lowerSpace: array<Float>
    const upperSpace: array<Float>
    // Which of the two boxes is the current space.
    var upper: bool
    var nextSlot: nat

    ghost predicate Valid()
      reads this
    {
      lowerSpace != upperSpace && lowerSpace.Length == LEN == upperSpace.Length && nextSlot <= LEN
    }

    ghost function Abs(): Floats
      reads this, lowerSpace, upperSpace
    {
      Floats(upper, lowerSpace[..], upperSpace[..], nextSlot)
    }

    constructor ()
      ensures Valid() && nextSlot == 0 && fresh(lowerSpace) && fresh(upperSpace)
      ensures lowerSpace.Length == 1000 == upperSpace.Length
    {
      lowerSpace := new Float[LEN](_ => 0);
      upperSpace := new Float[LEN](_ => 0);
      upper := false;
      nextSlot := 0;
    }

    // After an answer of None the spaces have to be swapped before the next call.
    method Alloc(x: Float) returns (r: Option<FloatPtr>)
      requires Valid() && nextSlot < LEN
      modifies this`nextSlot, lowerSpace, upperSpace
      ensures Valid() && Abs() == old(Abs()).AfterAlloc(x)
      ensures r == if old(nextSlot) == LEN - 1 then None else Some(FloatPtr(upper, old(nextSlot)))
    {
      var index := nextSlot;
      nextSlot := nextSlot + 1;
      if nextSlot == LEN {
        return None;
      }
      if upper { upperSpace[index] := x; } else { lowerSpace[index] := x; }
      r := Some(FloatPtr(upper, index));
    }

    method SemispaceSwap()
      requires Valid()
      modifies this
      ensures Valid() && Abs() == old(Abs()).Swapped()
    {
      upper := !upper;
      nextSlot := 0;
    }

    method Read(p: FloatPtr) returns (x: Float)
      requires Valid() && p.slot < LEN
      ensures x == ReadFloat(Abs(), p)
    {
      x := if p.upper then upperSpace[p.slot] else lowerSpace[p.slot];
    }
  }

  // A float just handed out reads back, and none handed out before changes.
  lemma AllocKeepsFloats(f: Floats, x: Float)
    requires f.Valid() && f.next < LEN - 1
    ensures FloatsGrow(f, f.AfterAlloc(x))
    ensures var p := FloatPtr(f.upper, f.next); f.AfterAlloc(x).Live(p) && ReadFloat(f.AfterAlloc(x), p) == x
  {
  }

  // ----- The heap as a whole -----

  datatype State = State(
    mem: map<Addr, Block>,
    listed: seq<Addr>,
    used: int,
    size: int,
    shadow: seq<seq<Option<Addr>>>,
    classes: seq<Class>,
    floats: Floats
  )

  function FrameRoots(frame: seq<Option<Addr>>): (r: seq<Addr>)
    ensures forall a :: a in r <==> Some(a) in frame
  {
    if frame == [] then [] else (if frame[0].Some? then [frame[0].value] else []) + FrameRoots(frame[1..])
  }

  // Every address on the shadow stack.
  function Roots(shadow: seq<seq<Option<Addr>>>): (r: seq<Addr>)
    ensures forall a :: a in r <==> exists f <- shadow :: Some(a) in f
  {
    if shadow == [] then [] else FrameRoots(shadow[0]) + Roots(shadow[1..])
  }

  function TagsAt(s: State, a: Addr): seq<Addr>
    requires a in s.mem
  {
    Tags(s.mem[a], s.classes)
  }

  ghost predicate Leads(s: State, b: Addr, a: Addr) {
    b in s.mem && a in TagsAt(s, b)
  }

  // Reached from a root in n steps along the pointers that the collector follows.
  ghost predicate ReachedIn(s: State, n: nat, a: Addr) {
    a in s.mem && if n == 0 then a in Roots(s.shadow) else exists b :: Leads(s, b, a) && ReachedIn(s, n - 1, b)
  }

  ghost predicate Reachable(s: State, a: Addr) {
    exists n: nat :: ReachedIn(s, n, a)
  }

  ghost function Reach(s: State): set<Addr> {
    set a | a in s.mem && Reachable(s, a)
  }

  lemma RootReached(s: State, a: Addr)
    requires a in Roots(s.shadow) && a in s.mem
    ensures a in Reach(s)
  {
    assert ReachedIn(s, 0, a);
  }

  lemma EdgeReached(s: State, b: Addr, a: Addr)
    requires b in Reach(s) && a in s.mem && a in TagsAt(s, b)
    ensures a in Reach(s)
  {
    var n: nat :| ReachedIn(s, n, b);
    assert Leads(s, b, a) && ReachedIn(s, n + 1, a);
  }

  // Whatever holds of the roots and is handed on along every pointer.
  ghost predicate Inherited(s: State, inside: set<Addr>) {
    && (forall a <- Roots(s.shadow) :: a in s.mem ==> a in inside)
    && (forall b <- inside, a {:trigger Leads(s, b, a)} :: Leads(s, b, a) && a in s.mem ==> a in inside)
  }

  lemma LastStep(s: State, n: nat, a: Addr) returns (b: Addr)
    requires n > 0 && ReachedIn(s, n, a)
    ensures Leads(s, b, a) && ReachedIn(s, n - 1, b) && a in s.mem
  {
    b :| Leads(s, b, a) && ReachedIn(s, n - 1, b);
  }

  lemma HandedOn(s: State, inside: set<Addr>, b: Addr, a: Addr)
    requires Inherited(s, inside) && b in inside && Leads(s, b, a) && a in s.mem
    ensures a in inside
  {
  }

  lemma {:induction false} ReachedInside(s: State, n: nat, a: Addr, inside: set<Addr>)
    requires Inherited(s, inside) && ReachedIn(s, n, a)
    ensures a in inside
  {
    if n > 0 {
      var b := LastStep(s, n, a);
      ReachedInside(s, n - 1, b, inside);
      HandedOn(s, inside, b, a);
    }
  }

  lemma ReachInside(s: State, inside: set<Addr>)
    requires Inherited(s, inside)
    ensures Reach(s) <= inside
  {
    forall a | a in Reach(s)
      ensures a in inside
    {
      var n: nat :| ReachedIn(s, n, a);
      ReachedInside(s, n, a, inside);
    }
  }

  // ----- Accounting -----

  function BlockBytes(s: State, a: Addr): nat {
    if a in s.mem then TAG_SIZE + DataSize(s.mem[a], s.classes) else 0
  }

  // Bytes charged for a list of blocks.
  function Bytes(s: State, list: seq<Addr>): nat {
    if list == [] then 0 else BlockBytes(s, list[0]) + Bytes(s, list[1..])
  }

  lemma {:induction false} BytesSame(s: State, t: State, list: seq<Addr>)
    requires forall a <- list :: BlockBytes(s, a) == BlockBytes(t, a)
    ensures Bytes(s, list) == Bytes(t, list)
  {
    if list != [] { BytesSame(s, t, list[1..]); }
  }

  // The part of the list that lies in a set, in its old order.
  function Keep(list: seq<Addr>, r: set<Addr>): (kept: seq<Addr>)
    ensures forall a :: a in kept <==> a in list && a in r
  {
    if list == [] then [] else (if list[0] in r then [list[0]] else []) + Keep(list[1..], r)
  }

  ghost predicate NoDuplicates(list: seq<Addr>) {
    forall i, j :: 0 <= i < j < |list| ==> list[i] != list[j]
  }

  // How many floats the listed blocks in a set hold.
  ghost function FloatSlots(s: State, list: seq<Addr>, r: set<Addr>): nat {
    if list == [] then 0 else
    (if list[0] in r && list[0] in s.mem then |FloatCells(s.mem[list[0]].cells)| else 0) + FloatSlots(s, list[1..], r)
  }

  lemma {:induction false} FloatSlotsMonotone(s: State, list: seq<Addr>, r: set<Addr>, t: set<Addr>)
    requires r <= t
    ensures FloatSlots(s, list, r) <= FloatSlots(s, list, t)
  {
    if list != [] { FloatSlotsMonotone(s, list[1..], r, t); }
  }

  lemma {:induction false} FloatSlotsAdd(s: State, list: seq<Addr>, r: set<Addr>, a: Addr)
    requires NoDuplicates(list) && a !in r && a in s.mem
    ensures FloatSlots(s, list, r + {a}) == FloatSlots(s, list, r) + if a in list then |FloatCells(s.mem[a].cells)| else 0
  {
    if list != [] {
      assert forall i, j :: 0 <= i < j < |list| - 1 ==> list[1..][i] == list[i + 1] && list[1..][j] == list[j + 1];
      if list[0] == a {
        assert a !in list[1..] by {
          assert forall i :: 0 <= i < |list| - 1 ==> list[1..][i] == list[i + 1] != list[0];
        }
      }
      FloatSlotsAdd(s, list[1..], r, a);
    }
  }
}

// The data segment: interned strings, and after them the cells of the inline caches.

module Interning {
  import opened Common
  import ClassLists

  type Byte = b: int | 0 <= b < 256

  // A string, by its UTF-8 bytes.
  datatype Text = Text(utf8: seq<Byte>)

  const WORD := 0x1_0000_0000

  const STRING_TAG: seq<Byte> := [0, 1, 0, 0]
  const CACHE_CELL: seq<Byte> := [255, 255, 255, 255]

  // Four bytes, the lowest first.
  function LittleEndian(n: nat): (b: seq<Byte>)
    ensures |b| == 4
  {
    Digits(n, FOUR)
  }

  const FOUR := [(), (), (), ()]

  function Digits(n: nat, places: seq<()>): (b: seq<Byte>)
    ensures |b| == |places|
  {
    if places == [] then [] else [n % 256] + Digits(n / 256, places[1..])
  }

  function FromDigits(b: seq<Byte>): nat {
    if b == [] then 0 else b[0] + 256 * FromDigits(b[1..])
  }

  function Power(k: nat): nat {
    if k == 0 then 1 else 256 * Power(k - 1)
  }

  lemma {:induction false} DigitsDecode(n: nat, places: seq<()>)
    requires n < Power(|places|)
    ensures FromDigits(Digits(n, places)) == n
    decreases |places|
  {
    if places != [] {
      DigitsDecode(n / 256, places[1..]);
      var b := Digits(n, places);
      assert b[1..] == Digits(n / 256, places[1..]);
    }
  }

  lemma LittleEndianDecodes(n: nat)
    requires n < WORD
    ensures FromDigits(LittleEndian(n)) == n
  {
    assert Power(1) == 256 && Power(2) == 0x1_0000 && Power(3) == 0x100_0000 && Power(4) == WORD;
    DigitsDecode(n, FOUR);
  }

  function Weighed(b0: int, b1: int, b2: int, b3: int): int {
    b0 + 0x100 * b1 + 0x1_0000 * b2 + 0x100_0000 * b3
  }

  lemma FourDigits(b0: Byte, b1: Byte, b2: Byte, b3: Byte)
    ensures FromDigits([b0, b1, b2, b3]) == Weighed(b0, b1, b2, b3)
  {
    var b := [b0, b1, b2, b3];
    assert b[1..] == [b1, b2, b3] && [b1, b2, b3][1..] == [b2, b3] && [b2, b3][1..] == [b3] && [b3][1..] == [];
    assert FromDigits([b3]) == b3;
    assert FromDigits([b2, b3]) == Weighed(b2, b3, 0, 0);
    assert FromDigits([b1, b2, b3]) == Weighed(b1, b2, b3, 0);
  }

  // The lowest byte weighs one, each further byte 256 times as much.
  lemma LittleEndianWeighs(n: nat)
    requires n < WORD
    ensures var b := LittleEndian(n); Weighed(b[0], b[1], b[2], b[3]) == n
  {
    var b := LittleEndian(n);
    LittleEndianDecodes(n);
    FourDigits(b[0], b[1], b[2], b[3]);
    assert b == [b[0], b[1], b[2], b[3]];
  }

  // The same four bytes read as a signed number, in two's complement.
  function Signed(b: seq<Byte>): int
    requires |b| == 4
  {
    if b[3] >= 128 then FromDigits(b) - WORD else FromDigits(b)
  }

  lemma AllOnes(b: seq<Byte>)
    requires b == CACHE_CELL
    ensures |b| == 4 && Signed(b) == -1
  {
    FourDigits(255, 255, 255, 255);
  }

  // Bytes that bring an entry to a multiple of four.
  function Padding(n: nat): (p: nat)
    ensures p < 4
  {
    if n >= 4 then Padding(n - 4) else if n == 0 then 0 else 4 - n
  }

  lemma {:induction false} PaddingFormula(n: nat)
    ensures Padding(n) == 3 - (n + 8 + 3) % 4
  {
    if n >= 4 {
      PaddingFormula(n - 4);
      FourMore(n + 7);
    } else {
      assert n == 0 || n == 1 || n == 2 || n == 3;
    }
  }

  lemma FourMore(m: nat)
    ensures (m + 4) % 4 == m % 4
  {
  }

  function Entry(s: Text): seq<Byte> {
    Packed(LittleEndian(|s.utf8|), s.utf8, Padding(|s.utf8|))
  }

  function Packed(length: seq<Byte>, bytes: seq<Byte>, padding: nat): seq<Byte> {
    STRING_TAG + length + bytes + Zeros(padding)
  }

  function Zeros(n: nat): seq<Byte> {
    seq(n, _ => 0)
  }

  lemma EntryAligned(s: Text)
    ensures Entry(s) != [] && |Entry(s)| == 8 + |s.utf8| + Padding(|s.utf8|) && |Entry(s)| % 4 == 0
  {
    Aligned(|s.utf8|);
  }

  lemma {:induction false} Aligned(n: nat)
    ensures (8 + n + Padding(n)) % 4 == 0
  {
    PaddingFormula(n);
  }

  // The runtime's type tags that can stand in front of a value, by their numbers.
  datatype TypeTag = ArrayTag | StringTag | TableTag | ObjectTag | OtherTag

  function TypeTagOf(n: Byte): TypeTag {
    if n == 0 then ArrayTag else if n == 1 then StringTag else if n == 2 then TableTag else if n == 3 then ObjectTag else OtherTag
  }

  // A tag is the mark of the collector, a type and a class.
  datatype Tag = Tag(marked: bool, typeTag: TypeTag, classTag: int)

  function TagOf(b: seq<Byte>): Tag
    requires |b| == 4
  {
    Tag(b[0] != 0, TypeTagOf(b[1]), Weighed(b[2], b[3], 0, 0))
  }

  lemma TagOfString()
    ensures IsStringTag(STRING_TAG)
  {
    assert STRING_TAG[0] == 0 && STRING_TAG[1] == 1 && STRING_TAG[2] == 0 && STRING_TAG[3] == 0;
  }

  predicate IsStringTag(b: seq<Byte>)
    requires |b| == 4
  {
    TagOf(b) == Tag(false, StringTag, 0)
  }

  // What the runtime finds at an address: the tag of a string, a length, and that many bytes.
  function DecodeAt(data: seq<Byte>, at: nat): Option<Text> {
    if at + 8 > |data| || !IsStringTag(data[at..at + 4]) then None else
    var n := FromDigits(data[at + 4..at + 8]);
    if at + 8 + n > |data| then None else Some(Text(data[at + 8..at + 8 + n]))
  }

  // ----- Rows of bytes, one after another -----

  function Flat(rows: seq<seq<Byte>>): seq<Byte> {
    if rows == [] then [] else Flat(rows[..|rows| - 1]) + rows[|rows| - 1]
  }

  // Where row k starts.
  function Start(rows: seq<seq<Byte>>, k: nat): nat
    requires k <= |rows|
  {
    |Flat(rows[..k])|
  }

  lemma {:induction false} RowAt(rows: seq<seq<Byte>>, k: nat)
    requires k < |rows|
    ensures Start(rows, k + 1) == Start(rows, k) + |rows[k]| <= |Flat(rows)|
    ensures Flat(rows)[Start(rows, k)..Start(rows, k + 1)] == rows[k]
    decreases |rows|
  {
    var n := |rows| - 1;
    assert rows[..k + 1][..k] == rows[..k] && rows[..k + 1][k] == rows[k];
    if k == n {
      assert rows[..n + 1] == rows;
    } else {
      RowAt(rows[..n], k);
      assert rows[..n][..k] == rows[..k] && rows[..n][..k + 1] == rows[..k + 1];
    }
  }

  // Every row starts on a multiple of four.
  ghost predicate Laid(rows: seq<seq<Byte>>) {
    forall k :: 0 <= k < |rows| ==> rows[k] != [] && |rows[k]| % 4 == 0
  }

  lemma {:induction false} StartsAligned(rows: seq<seq<Byte>>, k: nat)
    requires k <= |rows| && Laid(rows)
    ensures Start(rows, k) % 4 == 0
    decreases k
  {
    if k > 0 {
      StartsAligned(rows, k - 1);
      RowAt(rows, k - 1);
    }
  }

  predicate Apart(a: nat, n: nat, b: nat, m: nat) {
    a + n <= b || b + m <= a
  }

  lemma {:induction false} RowsApart(rows: seq<seq<Byte>>, j: nat, k: nat)
    requires j < k < |rows|
    ensures Start(rows, j) + |rows[j]| <= Start(rows, k)
    decreases k
  {
    RowAt(rows, j);
    if j + 1 < k {
      RowsApart(rows, j, k - 1);
      RowAt(rows, k - 1);
    }
  }

  lemma PairApart(rows: seq<seq<Byte>>, j: nat, k: nat)
    requires j < |rows| && k < |rows| && j != k && Laid(rows)
    ensures Apart(Start(rows, j), |rows[j]|, Start(rows, k), |rows[k]|) && Start(rows, j) != Start(rows, k)
  {
    if j < k { RowsApart(rows, j, k); } else { RowsApart(rows, k, j); }
  }

  lemma Appended(rows: seq<seq<Byte>>, r: seq<Byte>)
    ensures Flat(rows + [r]) == Flat(rows) + r
    ensures Start(rows + [r], |rows|) == |Flat(rows)|
    ensures forall k :: 0 <= k <= |rows| ==> Start(rows + [r], k) == Start(rows, k)
  {
    assert (rows + [r])[..|rows|] == rows == rows[..|rows|];
    assert forall k :: 0 <= k <= |rows| ==> (rows + [r])[..k] == rows[..k];
  }

  // ----- Strings in the segment -----

  lemma EntryDecodes(data: seq<Byte>, at: nat, s: Text)
    requires |s.utf8| < WORD && at + |Entry(s)| <= |data| && data[at..at + |Entry(s)|] == Entry(s)
    ensures DecodeAt(data, at) == Some(s)
  {
    EntryFound(data, at, s);
    LittleEndianDecodes(|s.utf8|);
    PartsDecode(data, at, LittleEndian(|s.utf8|), s.utf8);
  }

  lemma EntryFound(data: seq<Byte>, at: nat, s: Text)
    requires |s.utf8| < WORD && at + |Entry(s)| <= |data| && data[at..at + |Entry(s)|] == Entry(s)
    ensures at + 8 + |s.utf8| <= |data| && IsStringTag(data[at..at + 4]) && data[at + 4..at + 8] == LittleEndian(|s.utf8|)
    ensures data[at + 8..at + 8 + |s.utf8|] == s.utf8
  {
    PackedFound(data, at, LittleEndian(|s.utf8|), s.utf8, Padding(|s.utf8|));
  }

  lemma SameTag(b: seq<Byte>)
    requires b == STRING_TAG
    ensures |b| == 4 && IsStringTag(b)
  {
    TagOfString();
  }

  lemma PackedFound(data: seq<Byte>, at: nat, length: seq<Byte>, bytes: seq<Byte>, padding: nat)
    requires |length| == 4 && at + |Packed(length, bytes, padding)| <= |data|
    requires data[at..at + |Packed(length, bytes, padding)|] == Packed(length, bytes, padding)
    ensures at + 8 + |bytes| <= |data| && IsStringTag(data[at..at + 4]) && data[at + 4..at + 8] == length
    ensures data[at + 8..at + 8 + |bytes|] == bytes
  {
    RowParts(data, at, STRING_TAG, length, bytes, Zeros(padding));
    assert data[at..at + 4] == STRING_TAG;
    SameTag(data[at..at + 4]);
  }

  lemma FourParts(tag: seq<Byte>, length: seq<Byte>, bytes: seq<Byte>, padding: seq<Byte>)
    requires |tag| == 4 == |length|
    ensures var e := tag + length + bytes + padding;
            e[0..4] == tag && e[4..8] == length && e[8..8 + |bytes|] == bytes
  {
  }

  lemma RowParts(data: seq<Byte>, at: nat, tag: seq<Byte>, length: seq<Byte>, bytes: seq<Byte>, padding: seq<Byte>)
    requires |tag| == 4 == |length| && at + 8 + |bytes| + |padding| <= |data|
    requires data[at..at + 8 + |bytes| + |padding|] == tag + length + bytes + padding
    ensures data[at..at + 4] == tag && data[at + 4..at + 8] == length && data[at + 8..at + 8 + |bytes|] == bytes
  {
    var n := 8 + |bytes| + |padding|;
    FourParts(tag, length, bytes, padding);
    SliceOfSlice(data, at, n, 0, 4);
    SliceOfSlice(data, at, n, 4, 8);
    SliceOfSlice(data, at, n, 8, 8 + |bytes|);
  }

  lemma PartsDecode(data: seq<Byte>, at: nat, length: seq<Byte>, bytes: seq<Byte>)
    requires at + 8 + |bytes| <= |data| && IsStringTag(data[at..at + 4]) && data[at + 4..at + 8] == length
    requires data[at + 8..at + 8 + |bytes|] == bytes && FromDigits(length) == |bytes|
    ensures DecodeAt(data, at) == Some(Text(bytes))
  {
  }

  lemma SliceOfSlice(data: seq<Byte>, at: nat, n: nat, i: nat, j: nat)
    requires i <= j <= n && at + n <= |data|
    ensures data[at..at + n][i..j] == data[at + i..at + j]
  {
    var whole, part := data[at + i..at + j], data[at..at + n];
    assert forall k :: 0 <= k < |whole| ==> whole[k] == part[i + k];
  }

  lemma RowDecodes(rows: seq<seq<Byte>>, k: nat, s: Text)
    requires k < |rows| && rows[k] == Entry(s) && |s.utf8| < WORD
    ensures DecodeAt(Flat(rows), Start(rows, k)) == Some(s)
  {
    RowAt(rows, k);
    EntryDecodes(Flat(rows), Start(rows, k), s);
  }

  // ----- The segment as it grows -----

  datatype Segment = Segment(data: seq<Byte>, known: map<Text, nat>)

  // A string is laid down unless that was done before.
  function Intern(g: Segment, s: Text): Segment {
    if s in g.known then g else Segment(g.data + Entry(s), g.known[s := |g.data|])
  }

  function InternAll(literals: seq<Text>): Segment {
    if literals == [] then Segment([], map[]) else
    Intern(InternAll(literals[..|literals| - 1]), literals[|literals| - 1])
  }

  // The offset that each literal is given when its turn comes.
  function Offsets(literals: seq<Text>): (r: seq<nat>)
    ensures |r| == |literals|
  {
    if literals == [] then [] else
    Offsets(literals[..|literals| - 1]) + [InternAll(literals).known[literals[|literals| - 1]]]
  }

  function WithCaches(data: seq<Byte>, cells: nat): seq<Byte> {
    if cells == 0 then data else WithCaches(data, cells - 1) + CACHE_CELL
  }

  // ----- The visitor -----

  class InternVisitor {
    var data: seq<Byte>
    var alreadyInterned: map<Text, nat>

    ghost function State(): Segment
      reads this
    {
      Segment(data, alreadyInterned)
    }

    constructor ()
      ensures State() == Segment([], map[])
    {
      data := [];
      alreadyInterned := map[];
    }

    method InternString(s: Text) returns (pos: nat)
      requires |s.utf8| < WORD && |data| < WORD
      modifies this
      ensures State() == Intern(old(State()), s) && pos == State().known[s]
    {
      if s in alreadyInterned {
        pos := alreadyInterned[s];
        return;
      }
      pos := |data|;
      alreadyInterned := alreadyInterned[s := pos];
      AppendEntry(s);
    }

    method AppendEntry(s: Text)
      modifies this`data
      ensures data == old(data) + Entry(s)
    {
      data := data + STRING_TAG;
      data := data + LittleEndian(|s.utf8|);
      data := data + s.utf8;
      var unpadded := data;
      var needed := 3 - ((|s.utf8| + 8 + 3) % 4);
      var i := 0;
      while i < needed
        invariant 0 <= i <= needed && data == unpadded + Zeros(i)
      {
        data := data + [0];
        i := i + 1;
      }
      PaddingFormula(|s.utf8|);
      EntryAssembled(old(data), s);
    }

    // A cell for an inline cache, with no offset cached yet.
    method DataCache() returns (pos: nat)
      modifies this`data
      ensures pos == |old(data)| && |data| == pos + 4 && data[..pos] == old(data) && Signed(data[pos..]) == -1
      ensures data == old(data) + CACHE_CELL
    {
      pos := |data|;
      data := data + CACHE_CELL;
      AllOnes(data[pos..]);
    }
  }

  lemma EntryAssembled(data: seq<Byte>, s: Text)
    ensures data + STRING_TAG + LittleEndian(|s.utf8|) + s.utf8 + Zeros(Padding(|s.utf8|)) == data + Entry(s)
  {
    Assembled(data, LittleEndian(|s.utf8|), s.utf8, Padding(|s.utf8|));
  }

  lemma Assembled(data: seq<Byte>, length: seq<Byte>, bytes: seq<Byte>, padding: nat)
    ensures data + STRING_TAG + length + bytes + Zeros(padding) == data + Packed(length, bytes, padding)
  {
  }

  // Walks a program: its string literals in order, and then, when code is emitted, its cache cells.
  method LayOut(literals: seq<Text>, cells: nat) returns (offsets: seq<nat>, caches: seq<nat>, data: seq<Byte>)
    requires (forall s <- literals :: |s.utf8| < WORD) && |InternAll(literals).data| < WORD
    ensures offsets == Offsets(literals) && data == WithCaches(InternAll(literals).data, cells)
    ensures caches == CacheOffsets(|InternAll(literals).data|, cells)
    ensures forall c :: 0 <= c < cells ==> CellEmpty(data, caches[c])
  {
    var v := new InternVisitor();
    offsets, caches := [], [];
    var i := 0;
    while i < |literals|
      invariant 0 <= i <= |literals| && fresh(v)
      invariant v.State() == InternAll(literals[..i]) && offsets == Offsets(literals[..i])
    {
      assert literals[..i + 1][..i] == literals[..i];
      SegmentGrows(literals, i);
      var pos := v.InternString(literals[i]);
      offsets := offsets + [pos];
      i := i + 1;
    }
    assert literals[..i] == literals;
    ghost var strings := v.data;
    var c := 0;
    while c < cells
      invariant 0 <= c <= cells && fresh(v)
      invariant v.data == WithCaches(strings, c) && |v.data| == |strings| + 4 * c && caches == CacheOffsets(|strings|, c)
    {
      var pos := v.DataCache();
      caches := caches + [pos];
      c := c + 1;
    }
    data := v.data;
    CellsAreEmpty(literals, cells, caches, data);
  }

  lemma CellsAreEmpty(literals: seq<Text>, cells: nat, caches: seq<nat>, data: seq<Byte>)
    requires forall s <- literals :: |s.utf8| < WORD
    requires data == WithCaches(InternAll(literals).data, cells) && caches == CacheOffsets(|InternAll(literals).data|, cells)
    ensures forall c :: 0 <= c < cells ==> CellEmpty(data, caches[c])
  {
    forall c | 0 <= c < cells
      ensures CellEmpty(data, caches[c])
    {
      CacheCellIsSound(literals, cells, c);
    }
  }

  // The four bytes there are minus one.
  predicate CellEmpty(data: seq<Byte>, at: nat) {
    at + 4 <= |data| && Signed(data[at..at + 4]) == -1
  }

  function CacheOffsets(start: nat, cells: nat): seq<nat> {
    seq(cells, c requires 0 <= c < cells => start + 4 * c)
  }

  lemma {:induction false} SegmentGrows(literals: seq<Text>, i: nat)
    requires i <= |literals|
    ensures |InternAll(literals[..i]).data| <= |InternAll(literals).data|
    decreases |literals|
  {
    if i == |literals| {
      assert literals[..i] == literals;
    } else {
      var front := literals[..|literals| - 1];
      assert front[..i] == literals[..i];
      SegmentGrows(front, i);
    }
  }

  // ----- What the segment holds -----

  // Every string known has a row, and its offset is where that row starts.
  ghost predicate Known(rows: seq<seq<Byte>>, offsets: map<Text, nat>, rowOf: map<Text, nat>, entry: Text -> seq<Byte>) {
    && offsets.Keys == rowOf.Keys
    && forall s <- rowOf :: |s.utf8| < WORD && rowOf[s] < |rows| && rows[rowOf[s]] == entry(s) && offsets[s] == Start(rows, rowOf[s])
  }

  lemma RowAdded(rows: seq<seq<Byte>>, r: seq<Byte>, offsets: map<Text, nat>, rowOf: map<Text, nat>, entry: Text -> seq<Byte>)
    requires Laid(rows) && Known(rows, offsets, rowOf, entry) && r != [] && |r| % 4 == 0
    ensures Laid(rows + [r]) && Known(rows + [r], offsets, rowOf, entry) && Flat(rows + [r]) == Flat(rows) + r
    ensures Start(rows + [r], |rows|) == |Flat(rows)|
  {
    Appended(rows, r);
  }

  lemma KnowsOneMore(rows: seq<seq<Byte>>, offsets: map<Text, nat>, rowOf: map<Text, nat>, s: Text, entry: Text -> seq<Byte>)
    requires Laid(rows) && Known(rows, offsets, rowOf, entry) && |s.utf8| < WORD && entry(s) != [] && |entry(s)| % 4 == 0
    ensures Laid(rows + [entry(s)]) && Known(rows + [entry(s)], offsets[s := |Flat(rows)|], rowOf[s := |rows|], entry)
    ensures Flat(rows + [entry(s)]) == Flat(rows) + entry(s)
  {
    RowAdded(rows, entry(s), offsets, rowOf, entry);
  }

  // Different strings have different rows, which lie apart.
  lemma StringsApart(rows: seq<seq<Byte>>, offsets: map<Text, nat>, rowOf: map<Text, nat>, s: Text, t: Text)
    requires Laid(rows) && Known(rows, offsets, rowOf, Entry) && s in offsets && t in offsets && s != t
    ensures offsets[s] != offsets[t] && Apart(offsets[s], |Entry(s)|, offsets[t], |Entry(t)|)
  {
    if rowOf[s] == rowOf[t] { SameEntry(s, t); }
    PairApart(rows, rowOf[s], rowOf[t]);
  }

  lemma DecodesAlone(e: seq<Byte>, s: Text)
    requires |s.utf8| < WORD && e == Entry(s)
    ensures DecodeAt(e, 0) == Some(s)
  {
    assert e[0..0 + |e|] == e;
    EntryDecodes(e, 0, s);
  }

  lemma SameEntry(s: Text, t: Text)
    requires |s.utf8| < WORD && |t.utf8| < WORD && Entry(s) == Entry(t)
    ensures s == t
  {
    DecodesAlone(Entry(s), s);
    DecodesAlone(Entry(s), t);
  }

  // The rows of the segment, and the row of every string known.
  lemma {:induction false} SegmentRows(literals: seq<Text>) returns (rows: seq<seq<Byte>>, rowOf: map<Text, nat>)
    requires forall s <- literals :: |s.utf8| < WORD
    ensures InternAll(literals).data == Flat(rows) && Laid(rows) && Known(rows, InternAll(literals).known, rowOf, Entry)
  {
    if literals == [] {
      rows, rowOf := [], map[];
    } else {
      var front, s := literals[..|literals| - 1], literals[|literals| - 1];
      assert forall x <- front :: x in literals;
      var rows0, rowOf0 := SegmentRows(front);
      if s in InternAll(front).known {
        rows, rowOf := rows0, rowOf0;
      } else {
        EntryAligned(s);
        KnowsOneMore(rows0, InternAll(front).known, rowOf0, s, Entry);
        rows, rowOf := rows0 + [Entry(s)], rowOf0[s := |rows0|];
      }
    }
  }

  // An offset, once given, stays.
  lemma {:induction false} OffsetsStay(literals: seq<Text>, i: nat)
    requires i < |literals|
    ensures literals[i] in InternAll(literals).known && Offsets(literals)[i] == InternAll(literals).known[literals[i]]
    decreases |literals|
  {
    var n := |literals| - 1;
    if i < n {
      OffsetsStay(literals[..n], i);
    }
  }

  function WithCells(rows: seq<seq<Byte>>, cells: nat): seq<seq<Byte>> {
    rows + seq(cells, _ => CACHE_CELL)
  }

  lemma {:induction false} CachesAppended(rows: seq<seq<Byte>>, cells: nat)
    requires Laid(rows)
    ensures Laid(WithCells(rows, cells)) && Flat(WithCells(rows, cells)) == WithCaches(Flat(rows), cells)
    decreases cells
  {
    if cells == 0 {
      assert WithCells(rows, 0) == rows;
    } else {
      CachesAppended(rows, cells - 1);
      OneCellMore(rows, cells);
      LaidOneMore(WithCells(rows, cells - 1), CACHE_CELL);
      Appended(WithCells(rows, cells - 1), CACHE_CELL);
    }
  }

  lemma OneCellMore(rows: seq<seq<Byte>>, cells: nat)
    requires cells > 0
    ensures WithCells(rows, cells) == WithCells(rows, cells - 1) + [CACHE_CELL]
  {
  }

  lemma LaidOneMore(rows: seq<seq<Byte>>, r: seq<Byte>)
    requires Laid(rows) && |r| == 4
    ensures Laid(rows + [r])
  {
  }

  lemma StartKept(rows: seq<seq<Byte>>, cells: nat, k: nat)
    requires k <= |rows|
    ensures Start(WithCells(rows, cells), k) == Start(rows, k)
  {
    assert WithCells(rows, cells)[..k] == rows[..k];
  }

  lemma {:induction false} CellStart(rows: seq<seq<Byte>>, cells: nat, c: nat)
    requires Laid(rows) && c <= cells
    ensures Start(WithCells(rows, cells), |rows| + c) == |Flat(rows)| + 4 * c
    decreases c
  {
    var more := WithCells(rows, cells);
    if c == 0 {
      assert more[..|rows|] == rows;
    } else {
      CellStart(rows, cells, c - 1);
      RowAt(more, |rows| + c - 1);
    }
  }

  // In the finished segment every string literal is found, whole, at the 4-aligned offset it was
  // given; two literals have the same offset exactly when they are the same string, and otherwise
  // lie apart.
  lemma LiteralsAreSound(literals: seq<Text>, cells: nat, i: nat, j: nat)
    requires (forall s <- literals :: |s.utf8| < WORD) && i < |literals| && j < |literals|
    ensures Offsets(literals)[i] % 4 == 0
    ensures DecodeAt(WithCaches(InternAll(literals).data, cells), Offsets(literals)[i]) == Some(literals[i])
    ensures Offsets(literals)[i] == Offsets(literals)[j] <==> literals[i] == literals[j]
    ensures literals[i] != literals[j] ==>
              Apart(Offsets(literals)[i], |Entry(literals[i])|, Offsets(literals)[j], |Entry(literals[j])|)
  {
    var rows, rowOf := SegmentRows(literals);
    var known := InternAll(literals).known;
    OffsetsStay(literals, i);
    OffsetsStay(literals, j);
    var k := rowOf[literals[i]];
    StartsAligned(rows, k);
    CachesAppended(rows, cells);
    StartKept(rows, cells, k);
    RowDecodes(WithCells(rows, cells), k, literals[i]);
    if literals[i] != literals[j] { StringsApart(rows, known, rowOf, literals[i], literals[j]); }
  }

  // Cell c lies right after the strings and the cells before it; it is 4-aligned and holds -1 to
  // begin with.
  lemma CacheCellIsSound(literals: seq<Text>, cells: nat, c: nat)
    requires (forall s <- literals :: |s.utf8| < WORD) && c < cells
    ensures var data := WithCaches(InternAll(literals).data, cells);
            var at := |InternAll(literals).data| + 4 * c;
            at % 4 == 0 && CellEmpty(data, at)
  {
    var rows, rowOf := SegmentRows(literals);
    CellHolds(rows, cells, c);
  }

  // So the first lookup through it looks at the class.
  lemma FreshCacheScans(literals: seq<Text>, cells: nat, c: nat, class_: ClassLists.Class, text: string)
    requires (forall s <- literals :: |s.utf8| < WORD) && c < cells
    ensures var data := WithCaches(InternAll(literals).data, cells);
            var at := |InternAll(literals).data| + 4 * c;
            && CellEmpty(data, at)
            && var answer, slot := ClassLists.Lookup(class_, text, Signed(data[at..at + 4])), ClassLists.Slot(class_, text);
            if slot.Some? then answer.Some? && answer.value == slot.value else answer.None?
  {
    CacheCellIsSound(literals, cells, c);
  }

  lemma CellHolds(rows: seq<seq<Byte>>, cells: nat, c: nat)
    requires Laid(rows) && c < cells
    ensures var data := WithCaches(Flat(rows), cells);
            var at := |Flat(rows)| + 4 * c;
            at % 4 == 0 && CellEmpty(data, at)
  {
    var more := WithCells(rows, cells);
    CachesAppended(rows, cells);
    CellStart(rows, cells, c);
    assert more[|rows| + c] == CACHE_CELL;
    CellIsSound(more, |rows| + c);
  }

  // And it touches no string.
  lemma CachesTouchNoString(literals: seq<Text>, c: nat, i: nat)
    requires (forall s <- literals :: |s.utf8| < WORD) && i < |literals|
    ensures Apart(|InternAll(literals).data| + 4 * c, 4, Offsets(literals)[i], |Entry(literals[i])|)
  {
    var rows, rowOf := SegmentRows(literals);
    OffsetsStay(literals, i);
    CellApart(rows, c + 1, c, rowOf[literals[i]]);
  }

  lemma CellApart(rows: seq<seq<Byte>>, cells: nat, c: nat, r: nat)
    requires Laid(rows) && c < cells && r < |rows|
    ensures Apart(|Flat(rows)| + 4 * c, 4, Start(rows, r), |rows[r]|)
  {
    CachesAppended(rows, cells);
    StartKept(rows, cells, r);
    CellStart(rows, cells, c);
    PairApart(WithCells(rows, cells), |rows| + c, r);
  }

  lemma CellIsSound(rows: seq<seq<Byte>>, k: nat)
    requires Laid(rows) && k < |rows| && rows[k] == CACHE_CELL
    ensures Start(rows, k) % 4 == 0 && CellEmpty(Flat(rows), Start(rows, k))
  {
    StartsAligned(rows, k);
    RowAt(rows, k);
    AllOnes(Flat(rows)[Start(rows, k)..Start(rows, k + 1)]);
  }
}

// Statements that a walk wants to add to a block, and how they are put in.

module Patches {
  // A patch goes in front of the statement with its index, or at the end.
  datatype Patch<T> = Patch(index: nat, stmt: T)

  // The statements added at one place, in the order they were added.
  function At<T>(patches: seq<Patch<T>>, i: nat): seq<T> {
    if patches == [] then []
    else (if patches[0].index == i then [patches[0].stmt] else []) + At(patches[1..], i)
  }

  // For each place in turn, the patches for it and then the statement of the block.
  function Interleaved<T>(block: seq<T>, patches: seq<Patch<T>>, from: nat): seq<T>
    requires from <= |block|
    decreases |block| - from
  {
    if from == |block| then At(patches, from)
    else At(patches, from) + [block[from]] + Interleaved(block, patches, from + 1)
  }

  ghost predicate AllBelow<T>(patches: seq<Patch<T>>, end: nat) {
    forall k :: 0 <= k < |patches| ==> patches[k].index < end
  }

  ghost predicate AllFrom<T>(patches: seq<Patch<T>>, i: nat) {
    forall k :: 0 <= k < |patches| ==> patches[k].index >= i
  }

  ghost predicate NoneAt<T>(patches: seq<Patch<T>>, i: nat) {
    forall k :: 0 <= k < |patches| ==> patches[k].index != i
  }

  ghost predicate Ascending<T>(patches: seq<Patch<T>>) {
    forall j, k :: 0 <= j < k < |patches| ==> patches[j].index <= patches[k].index
  }

  // The same patches at every place, in the same order.
  ghost predicate SamePlaces<T>(a: seq<Patch<T>>, b: seq<Patch<T>>) {
    forall i :: At(a, i) == At(b, i)
  }

  ghost predicate SameFrom<T>(a: seq<Patch<T>>, b: seq<Patch<T>>, from: nat) {
    forall i | i >= from :: At(a, i) == At(b, i)
  }

  lemma AtCons<T>(p: Patch<T>, patches: seq<Patch<T>>, i: nat)
    ensures At([p] + patches, i) == (if p.index == i then [p.stmt] else []) + At(patches, i)
  {
    assert ([p] + patches)[1..] == patches;
  }

  lemma {:induction false} AtConcat<T>(a: seq<Patch<T>>, b: seq<Patch<T>>, i: nat)
    ensures At(a + b, i) == At(a, i) + At(b, i)
  {
    if a == [] {
      assert a + b == b;
    } else {
      AtConcat(a[1..], b, i);
      AtCons(a[0], a[1..], i);
      AtCons(a[0], a[1..] + b, i);
      Reassociated([a[0]], a[1..], b);
      Reassociated(if a[0].index == i then [a[0].stmt] else [], At(a[1..], i), At(b, i));
      assert [a[0]] + a[1..] == a;
    }
  }

  lemma Reassociated<T>(a: seq<T>, b: seq<T>, c: seq<T>)
    ensures a + b + c == a + (b + c)
  {
  }

  lemma {:induction false} NothingBelow<T>(patches: seq<Patch<T>>, i: nat)
    requires NoneAt(patches, i)
    ensures At(patches, i) == []
  {
    if patches != [] { NothingBelow(patches[1..], i); }
  }

  // ----- Sorting -----

  // A patch moved past patches with other indices is at its place all the same.
  lemma MovedPast<T>(front: seq<Patch<T>>, back: seq<Patch<T>>, p: Patch<T>)
    requires NoneAt(back, p.index)
    ensures SamePlaces(front + [p] + back, front + back + [p])
  {
    forall i
      ensures At(front + [p] + back, i) == At(front + back + [p], i)
    {
      AtConcat(front + [p], back, i);
      AtConcat(front, [p], i);
      AtConcat(front + back, [p], i);
      AtConcat(front, back, i);
      if i == p.index {
        NothingBelow(back, i);
      } else {
        NothingBelow([p], i);
      }
    }
  }

  // Puts a patch behind those that are not greater.
  method InsertSorted<T>(sorted: seq<Patch<T>>, p: Patch<T>) returns (r: seq<Patch<T>>)
    requires Ascending(sorted)
    ensures Ascending(r) && SamePlaces(r, sorted + [p])
    ensures forall end :: AllBelow(sorted + [p], end) ==> AllBelow(r, end)
  {
    var j := |sorted|;
    while j > 0 && sorted[j - 1].index > p.index
      invariant 0 <= j <= |sorted|
      invariant forall k :: j <= k < |sorted| ==> sorted[k].index > p.index
    {
      j := j - 1;
    }
    r := sorted[..j] + [p] + sorted[j..];
    Placed(sorted, j, p);
  }

  // In front of what is strictly higher and behind the rest.
  lemma Placed<T>(sorted: seq<Patch<T>>, j: nat, p: Patch<T>)
    requires Ascending(sorted) && j <= |sorted|
    requires forall k :: j <= k < |sorted| ==> sorted[k].index > p.index
    requires j > 0 ==> sorted[j - 1].index <= p.index
    ensures var r := sorted[..j] + [p] + sorted[j..];
            && Ascending(r) && SamePlaces(r, sorted + [p])
            && forall end :: AllBelow(sorted + [p], end) ==> AllBelow(r, end)
  {
    MovedPast(sorted[..j], sorted[j..], p);
    assert sorted[..j] + sorted[j..] == sorted;
    Rearranged(sorted, j, p);
  }

  lemma Rearranged<T>(sorted: seq<Patch<T>>, j: nat, p: Patch<T>)
    requires Ascending(sorted) && j <= |sorted|
    requires (j > 0 ==> sorted[j - 1].index <= p.index) && forall k :: j <= k < |sorted| ==> sorted[k].index > p.index
    ensures Ascending(sorted[..j] + [p] + sorted[j..])
    ensures forall end :: AllBelow(sorted + [p], end) ==> AllBelow(sorted[..j] + [p] + sorted[j..], end)
  {
    var r := sorted[..j] + [p] + sorted[j..];
    assert forall k :: 0 <= k < |r| ==> r[k] == if k < j then sorted[k] else if k == j then p else sorted[k - 1];
    forall end | AllBelow(sorted + [p], end)
      ensures AllBelow(r, end)
    {
      assert (sorted + [p])[|sorted|] == p;
      assert forall k :: 0 <= k < |sorted| ==> (sorted + [p])[k] == sorted[k];
    }
  }

  // A stable sort by index.
  method StableSort<T>(patches: seq<Patch<T>>) returns (sorted: seq<Patch<T>>)
    ensures Ascending(sorted) && SamePlaces(sorted, patches)
    ensures forall end :: AllBelow(patches, end) ==> AllBelow(sorted, end)
  {
    sorted := [];
    var n := 0;
    while n < |patches|
      invariant 0 <= n <= |patches|
      invariant Ascending(sorted) && SamePlaces(sorted, patches[..n])
      invariant forall end :: AllBelow(patches, end) ==> AllBelow(sorted, end)
    {
      AddedLast(sorted, patches[..n], patches[n]);
      sorted := InsertSorted(sorted, patches[n]);
      assert patches[..n + 1] == patches[..n] + [patches[n]];
      n := n + 1;
    }
    assert patches[..n] == patches;
  }

  lemma AddedLast<T>(a: seq<Patch<T>>, b: seq<Patch<T>>, p: Patch<T>)
    requires SamePlaces(a, b)
    ensures SamePlaces(a + [p], b + [p])
  {
    forall i
      ensures At(a + [p], i) == At(b + [p], i)
    {
      AtConcat(a, [p], i);
      AtConcat(b, [p], i);
    }
  }

  // ----- Applying -----

  lemma {:induction false} SameInterleaving<T>(block: seq<T>, a: seq<Patch<T>>, b: seq<Patch<T>>, from: nat)
    requires from <= |block| && SameFrom(a, b, from)
    ensures Interleaved(block, a, from) == Interleaved(block, b, from)
    decreases |block| - from
  {
    if from < |block| { SameInterleaving(block, a, b, from + 1); }
  }

  // Below the lowest patch the block is as it was.
  lemma {:induction false} UntouchedBelow<T>(block: seq<T>, patches: seq<Patch<T>>, from: nat, i: nat)
    requires from <= i <= |block| && AllFrom(patches, i)
    ensures Interleaved(block, patches, from) == block[from..i] + Interleaved(block, patches, i)
    decreases i - from
  {
    if from < i {
      NothingBelow(patches, from);
      UntouchedBelow(block, patches, from + 1, i);
      Regrouped(block[from], block[from + 1..i], Interleaved(block, patches, i));
      assert block[from..i] == [block[from]] + block[from + 1..i];
    }
  }

  lemma Regrouped<T>(x: T, a: seq<T>, b: seq<T>)
    ensures [] + [x] + (a + b) == [x] + a + b
  {
  }

  lemma NotHere<T>(p: Patch<T>, patches: seq<Patch<T>>, i: nat)
    requires p.index != i
    ensures At([p] + patches, i) == At(patches, i)
  {
    AtCons(p, patches, i);
  }

  lemma FourParts<T>(a: seq<T>, b: seq<T>, c: seq<T>, d: seq<T>)
    ensures a + b + c + d == a + (b + c + d)
  {
  }

  // `more` has one patch more at place i, in front, and is the same above.
  lemma OneMoreHere<T>(block: seq<T>, more: seq<Patch<T>>, patches: seq<Patch<T>>, x: T, i: nat)
    requires i <= |block| && At(more, i) == [x] + At(patches, i) && SameFrom(more, patches, i + 1)
    ensures Interleaved(block, more, i) == [x] + Interleaved(block, patches, i)
  {
    if i < |block| {
      SameInterleaving(block, more, patches, i + 1);
      FourParts([x], At(patches, i), [block[i]], Interleaved(block, patches, i + 1));
    }
  }

  // At the lowest patch's own place it comes first.
  lemma FirstAtPlace<T>(block: seq<T>, patches: seq<Patch<T>>, p: Patch<T>)
    requires p.index <= |block|
    ensures Interleaved(block, [p] + patches, p.index) == [p.stmt] + Interleaved(block, patches, p.index)
  {
    AtCons(p, patches, p.index);
    forall i | i > p.index
      ensures At([p] + patches, i) == At(patches, i)
    {
      NotHere(p, patches, i);
    }
    OneMoreHere(block, [p] + patches, patches, p.stmt, p.index);
  }

  // Inserting the patch before all others of its place and above.
  lemma OneInserted<T>(block: seq<T>, patches: seq<Patch<T>>, p: Patch<T>)
    requires p.index <= |block| && AllFrom(patches, p.index)
    ensures var was := Interleaved(block, patches, 0);
            p.index <= |was| && Interleaved(block, [p] + patches, 0) == was[..p.index] + [p.stmt] + was[p.index..]
  {
    var i := p.index;
    var rest := Interleaved(block, patches, i);
    assert forall k :: 1 <= k < |[p] + patches| ==> ([p] + patches)[k] == patches[k - 1];
    UntouchedBelow(block, patches, 0, i);
    UntouchedBelow(block, [p] + patches, 0, i);
    FirstAtPlace(block, patches, p);
    Spliced(block[0..i], p.stmt, rest);
  }

  lemma NextInserted<T>(block: seq<T>, sorted: seq<Patch<T>>, k: nat)
    requires k < |sorted| && sorted[k].index <= |block| && Ascending(sorted)
    ensures var was, p := Interleaved(block, sorted[k + 1..], 0), sorted[k];
            p.index <= |was| && Interleaved(block, sorted[k..], 0) == was[..p.index] + [p.stmt] + was[p.index..]
  {
    assert sorted[k..] == [sorted[k]] + sorted[k + 1..];
    OneInserted(block, sorted[k + 1..], sorted[k]);
  }

  lemma Spliced<T>(front: seq<T>, x: T, back: seq<T>)
    ensures (front + back)[..|front|] + [x] + (front + back)[|front|..] == front + ([x] + back)
  {
    assert (front + back)[..|front|] == front && (front + back)[|front|..] == back;
  }

  class BlockContext<T> {
    const len: nat
    var patches: seq<Patch<T>>

    constructor (len: nat)
      ensures this.len == len && patches == []
    {
      this.len := len;
      patches := [];
    }

    // False stands for a panic: the index is not in the block.
    method Insert(index: nat, stmt: T) returns (ok: bool)
      modifies this
      ensures ok <==> index <= len
      ensures patches == if ok then old(patches) + [Patch(index, stmt)] else old(patches)
    {
      if index > len { return false; }
      patches := patches + [Patch(index, stmt)];
      ok := true;
    }

    // Sorts the patches and inserts them from the last to the first.
    method ApplyPatches(block: seq<T>) returns (r: seq<T>)
      requires len == |block| && AllBelow(patches, len + 1)
      modifies this
      ensures r == Interleaved(block, old(patches), 0) && patches == []
    {
      var sorted := StableSort(patches);
      SameInterleaving(block, sorted, patches, 0);
      r := block;
      var k := |sorted|;
      NoPatches(block, 0);
      assert sorted[k..] == [];
      while k > 0
        invariant 0 <= k <= |sorted| && r == Interleaved(block, sorted[k..], 0)
      {
        k := k - 1;
        var p := sorted[k];
        NextInserted(block, sorted, k);
        r := r[..p.index] + [p.stmt] + r[p.index..];
      }
      assert sorted[0..] == sorted;
      patches := [];
    }
  }

  lemma {:induction false} NoPatches<T>(block: seq<T>, from: nat)
    requires from <= |block|
    ensures Interleaved<T>(block, [], from) == block[from..]
    decreases |block| - from
  {
    if from < |block| {
      NoPatches(block, from + 1);
      assert block[from..] == [block[from]] + block[from + 1..];
    }
  }
}

// Hidden classes: field layouts arranged in a tree of transitions.

module ClassLists {
  import opened Common

  // A pointer to a string on the heap, together with the text found there (one char a byte).
  // Strings never change, and two of them are equal when their texts are.
  datatype StringPtr = StringPtr(ptr: nat, text: string)

  datatype Class = Class(size: nat, offsets: seq<(StringPtr, nat)>, transitions: seq<(StringPtr, nat)>)

  // Class tags are 16 bits wide.
  const TAGS := 0x1_0000

  const EMPTY_CLASS := Class(0, [], [])

  // The first entry for this name.
  function Find(entries: seq<(StringPtr, nat)>, text: string): (r: Option<nat>)
    ensures r.Some? <==> exists i :: 0 <= i < |entries| && entries[i].0.text == text
  {
    if entries == [] then None
    else if entries[0].0.text == text then Some(entries[0].1)
    else
      assert forall i :: 0 <= i < |entries| - 1 ==> entries[1..][i] == entries[i + 1];
      assert forall i :: 1 <= i < |entries| ==> entries[i] == entries[1..][i - 1];
      Find(entries[1..], text)
  }

  lemma {:induction false} FindAt(entries: seq<(StringPtr, nat)>, i: nat)
    requires i < |entries| && forall j :: 0 <= j < i ==> entries[j].0.text != entries[i].0.text
    ensures Find(entries, entries[i].0.text) == Some(entries[i].1)
  {
    if i > 0 {
      assert entries[1..][i - 1] == entries[i];
      assert forall j :: 0 <= j < i - 1 ==> entries[1..][j] == entries[j + 1];
      FindAt(entries[1..], i - 1);
    }
  }

  function Branch(c: Class, name: StringPtr): Class {
    Class(c.size + 1, c.offsets + [(name, c.size)], [])
  }

  // A class with one entry per field, in slot order, and no name twice.
  ghost predicate WellLaidOut(c: Class) {
    && c.size == |c.offsets|
    && (forall i :: 0 <= i < |c.offsets| ==> c.offsets[i].1 == i)
    && (forall i, j :: 0 <= i < j < |c.offsets| ==> c.offsets[i].0.text != c.offsets[j].0.text)
  }

  // Class t was made from class p by adding the field `name`.
  ghost predicate Child(cs: seq<Class>, p: nat, name: StringPtr, t: nat) {
    p < t < |cs| && cs[t].offsets == cs[p].offsets + [(name, cs[p].size)]
  }

  // The parent of every class but the first has a transition to it.
  ghost predicate HasParent(cs: seq<Class>, t: nat)
    requires t < |cs|
  {
    exists p: nat, k: nat :: p < t && k < |cs[p].transitions| && cs[p].transitions[k].1 == t
  }

  ghost predicate ValidClasses(cs: seq<Class>) {
    && 0 < |cs| <= TAGS
    && cs[0].offsets == []
    && (forall t :: 0 <= t < |cs| ==> WellLaidOut(cs[t]))
    && (forall p, k :: 0 <= p < |cs| && 0 <= k < |cs[p].transitions| ==>
          Child(cs, p, cs[p].transitions[k].0, cs[p].transitions[k].1))
    && (forall p, j, k :: 0 <= p < |cs| && 0 <= j < k < |cs[p].transitions| ==>
          cs[p].transitions[j].0.text != cs[p].transitions[k].0.text)
    && (forall t :: 0 < t < |cs| ==> HasParent(cs, t))
  }

  // The field's slot as the class has it, whatever a cache may say.
  function Slot(c: Class, text: string): Option<nat> {
    Find(c.offsets, text)
  }

  lemma SlotInRange(c: Class, text: string)
    requires WellLaidOut(c)
    ensures var r := Slot(c, text); r.Some? ==> r.value < c.size && c.offsets[r.value].0.text == text
    ensures forall i :: 0 <= i < c.size && c.offsets[i].0.text == text ==> Slot(c, text) == Some(i)
  {
    forall i | 0 <= i < c.size && c.offsets[i].0.text == text
      ensures Slot(c, text) == Some(i)
    {
      FindAt(c.offsets, i);
    }
  }

  lemma BranchLaidOut(c: Class, name: StringPtr)
    requires WellLaidOut(c) && Slot(c, name.text) == None
    ensures WellLaidOut(Branch(c, name)) && Slot(Branch(c, name), name.text) == Some(c.size)
    ensures forall text :: text != name.text ==> Slot(Branch(c, name), text) == Slot(c, text)
  {
    var d := Branch(c, name);
    assert WellLaidOut(d);
    SlotInRange(d, name.text);
    assert d.offsets[c.size].0.text == name.text;
    forall text | text != name.text
      ensures Slot(d, text) == Slot(c, text)
    {
      SlotInRange(d, text);
      SlotInRange(c, text);
      assert forall i :: 0 <= i < c.size ==> d.offsets[i] == c.offsets[i];
    }
  }

  // The table after `transition`, and the tag it returns.
  function AfterTransition(cs: seq<Class>, c: nat, name: StringPtr): (r: (seq<Class>, nat))
    requires c < |cs|
  {
    match Find(cs[c].transitions, name.text)
    case Some(t) => (cs, t)
    case None =>
      var t := |cs| % TAGS;
      (cs[c := cs[c].(transitions := cs[c].transitions + [(name, t)])] + [Branch(cs[c], name)], t)
  }

  // Later tables keep every class's layout.
  ghost predicate Extends(cs: seq<Class>, ds: seq<Class>) {
    |cs| <= |ds| && forall t :: 0 <= t < |cs| ==> ds[t].offsets == cs[t].offsets && ds[t].size == cs[t].size
  }

  lemma FindGives(entries: seq<(StringPtr, nat)>, text: string) returns (k: nat)
    requires Find(entries, text).Some?
    ensures k < |entries| && entries[k].0.text == text && entries[k].1 == Find(entries, text).value
  {
    if entries[0].0.text == text { k := 0; } else { k := FindGives(entries[1..], text); k := k + 1; }
  }

  // The transition exists already, or there is a tag left for its class.
  predicate HasTag(cs: seq<Class>, c: nat, text: string)
    requires c < |cs|
  {
    |cs| < TAGS || Find(cs[c].transitions, text).Some?
  }

  // A transition that has a tag leads to the class with exactly this one field more; the table stays
  // valid, and no existing class changes its layout.
  lemma {:induction false} TransitionAddsField(cs: seq<Class>, c: nat, name: StringPtr)
    requires ValidClasses(cs) && c < |cs| && HasTag(cs, c, name.text) && Slot(cs[c], name.text) == None
    ensures var (ds, t) := AfterTransition(cs, c, name);
            && ValidClasses(ds) && Extends(cs, ds) && |ds| <= |cs| + 1 && c < t < |ds|
            && ds[t].size == cs[c].size + 1
            && Slot(ds[t], name.text) == Some(cs[c].size)
            && (forall text :: text != name.text ==> Slot(ds[t], text) == Slot(cs[c], text))
            && (exists n: StringPtr :: n.text == name.text && ds[t].offsets == cs[c].offsets + [(n, cs[c].size)])
  {
    var (ds, t) := AfterTransition(cs, c, name);
    if Find(cs[c].transitions, name.text).Some? {
      var k := FindGives(cs[c].transitions, name.text);
      var n := cs[c].transitions[k].0;
      assert Child(cs, c, n, t);
      SameText(cs[c], n, name);
      BranchLaidOut(cs[c], n);
      assert cs[t].offsets == Branch(cs[c], n).offsets && Slot(cs[t], name.text) == Slot(Branch(cs[c], n), name.text);
    } else {
      BranchLaidOut(cs[c], name);
      NewClassValid(cs, c, name);
      assert name.text == name.text && ds[t].offsets == cs[c].offsets + [(name, cs[c].size)];
    }
  }

  lemma SameText(c: Class, n: StringPtr, name: StringPtr)
    requires n.text == name.text && Slot(c, name.text) == None
    ensures Slot(c, n.text) == None
  {
  }

  lemma NewClassValid(cs: seq<Class>, c: nat, name: StringPtr)
    requires ValidClasses(cs) && c < |cs| < TAGS && Slot(cs[c], name.text) == None && Find(cs[c].transitions, name.text) == None
    ensures var (ds, t) := AfterTransition(cs, c, name);
            && ValidClasses(ds) && Extends(cs, ds) && |ds| == |cs| + 1 && t == |cs| && ds[t] == Branch(cs[c], name)
  {
    var (ds, t) := AfterTransition(cs, c, name);
    var last := |cs[c].transitions|;
    BranchLaidOut(cs[c], name);
    assert forall p :: 0 <= p < |cs| && p != c ==> ds[p] == cs[p];
    assert ds[c].transitions == cs[c].transitions + [(name, t)];
    forall p, k | 0 <= p < |ds| && 0 <= k < |ds[p].transitions|
      ensures Child(ds, p, ds[p].transitions[k].0, ds[p].transitions[k].1)
    {
      if p == c && k == last {
        assert ds[p].transitions[k] == (name, t);
      } else {
        assert ds[p].transitions[k] == cs[p].transitions[k];
        assert Child(cs, p, cs[p].transitions[k].0, cs[p].transitions[k].1);
      }
    }
    forall u | 0 < u < |ds|
      ensures HasParent(ds, u)
    {
      if u == t { assert ds[c].transitions[last].1 == u; } else { ParentStays(cs, ds, u); }
    }
  }

  lemma ParentStays(cs: seq<Class>, ds: seq<Class>, u: nat)
    requires u < |cs| <= |ds| && HasParent(cs, u) && forall p :: 0 <= p < |cs| ==> cs[p].transitions <= ds[p].transitions
    ensures HasParent(ds, u)
  {
    var p: nat, k: nat :| p < u && k < |cs[p].transitions| && cs[p].transitions[k].1 == u;
    assert ds[p].transitions[k] == cs[p].transitions[k];
  }

  // And only then is the field there.
  lemma {:induction false} TransitionRightIff(cs: seq<Class>, c: nat, name: StringPtr)
    requires ValidClasses(cs) && c < |cs| && Slot(cs[c], name.text) == None
    ensures var (ds, t) := AfterTransition(cs, c, name);
            t < |ds| && Slot(ds[t], name.text) == Some(cs[c].size) <==> HasTag(cs, c, name.text)
  {
    if HasTag(cs, c, name.text) { TransitionAddsField(cs, c, name); } else { TagsWrap(cs, c, name); }
  }

  // The class remembers the transition.
  lemma {:induction false} TransitionKept(cs: seq<Class>, c: nat, name: StringPtr)
    requires c < |cs|
    ensures var (ds, t) := AfterTransition(cs, c, name); c < |ds| && Find(ds[c].transitions, name.text) == Some(t)
  {
    if Find(cs[c].transitions, name.text).None? { FindLast(cs[c].transitions, name, |cs| % TAGS); }
  }

  lemma {:induction false} FindLast(entries: seq<(StringPtr, nat)>, name: StringPtr, t: nat)
    requires Find(entries, name.text).None?
    ensures Find(entries + [(name, t)], name.text) == Some(t)
  {
    if entries != [] {
      FindLast(entries[1..], name, t);
      assert (entries + [(name, t)])[1..] == entries[1..] + [(name, t)];
    }
  }

  // At 65536 classes the tag wraps round to the empty class.
  lemma TagsWrap(cs: seq<Class>, c: nat, name: StringPtr)
    requires ValidClasses(cs) && |cs| == TAGS && c < |cs| && Find(cs[c].transitions, name.text) == None && Slot(cs[c], name.text) == None
    ensures var (ds, t) := AfterTransition(cs, c, name); t == 0 && Slot(ds[t], name.text) == None
  {
    var (ds, _) := AfterTransition(cs, c, name);
    assert ds[0].offsets == [];
  }

  // ----- One class per field order -----

  ghost function FieldNames(c: Class): seq<string> {
    seq(|c.offsets|, i requires 0 <= i < |c.offsets| => c.offsets[i].0.text)
  }

  lemma ParentOf(cs: seq<Class>, t: nat) returns (p: nat, k: nat)
    requires ValidClasses(cs) && 0 < t < |cs|
    ensures p < t && k < |cs[p].transitions| && cs[p].transitions[k].1 == t
    ensures FieldNames(cs[t]) == FieldNames(cs[p]) + [cs[p].transitions[k].0.text]
  {
    assert HasParent(cs, t);
    p, k :| p < t && k < |cs[p].transitions| && cs[p].transitions[k].1 == t;
    assert Child(cs, p, cs[p].transitions[k].0, t);
  }

  // Objects given the same fields in the same order share their class.
  lemma {:induction false} ClassesAreCanonical(cs: seq<Class>, s: nat, t: nat)
    requires ValidClasses(cs) && s < |cs| && t < |cs| && FieldNames(cs[s]) == FieldNames(cs[t])
    ensures s == t
    decreases t
  {
    if s == 0 || t == 0 {
      if s != 0 { var p, k := ParentOf(cs, s); }
      if t != 0 { var p, k := ParentOf(cs, t); }
    } else {
      var p, k := ParentOf(cs, s);
      var q, j := ParentOf(cs, t);
      var m := |FieldNames(cs[p])|;
      assert FieldNames(cs[s])[..m] == FieldNames(cs[p]) && FieldNames(cs[t])[..m] == FieldNames(cs[q]);
      ClassesAreCanonical(cs, p, q);
      assert FieldNames(cs[s])[m] == cs[p].transitions[k].0.text == cs[p].transitions[j].0.text;
    }
  }

  // ----- The inline cache -----

  // What a lookup through a cache answers: a filled cache is believed without looking.
  function Lookup(c: Class, text: string, cache: int): Option<int> {
    if cache != -1 then Some(cache) else
    match Slot(c, text)
    case None => None
    case Some(i) => Some(i)
  }

  function CacheAfter(c: Class, text: string, cache: int): int {
    match Lookup(c, text, cache)
    case None => cache
    case Some(i) => i
  }

  ghost predicate CacheFits(c: Class, text: string, cache: int) {
    cache == -1 || (0 <= cache < |c.offsets| && c.offsets[cache].0.text == text)
  }

  // Exactly when a filled cache can be believed.
  lemma CacheRightIffFits(c: Class, text: string, cache: int)
    requires WellLaidOut(c)
    ensures Lookup(c, text, cache) == Lookup(c, text, -1) <==> CacheFits(c, text, cache)
    ensures var slot := Slot(c, text); Lookup(c, text, -1) == if slot.Some? then Some(slot.value) else None
    ensures CacheFits(c, text, cache) ==> CacheFits(c, text, CacheAfter(c, text, cache))
  {
    SlotInRange(c, text);
  }

  ghost predicate Steps(cs: seq<Class>, c: nat, d: nat) {
    c < |cs| && exists k: nat :: k < |cs[c].transitions| && cs[c].transitions[k].1 == d
  }

  // From class c, one transition after another leads through the path.
  ghost predicate Descends(cs: seq<Class>, c: nat, path: seq<nat>)
    decreases path
  {
    path == [] || (Steps(cs, c, path[0]) && Descends(cs, path[0], path[1..]))
  }

  ghost function End(c: nat, path: seq<nat>): nat {
    if path == [] then c else path[|path| - 1]
  }

  lemma StepExtends(cs: seq<Class>, c: nat, d: nat)
    requires ValidClasses(cs) && Steps(cs, c, d)
    ensures d < |cs| && cs[c].offsets <= cs[d].offsets
  {
    var k: nat :| k < |cs[c].transitions| && cs[c].transitions[k].1 == d;
    assert Child(cs, c, cs[c].transitions[k].0, d);
  }

  lemma {:induction false} DescendantsExtend(cs: seq<Class>, c: nat, path: seq<nat>)
    requires ValidClasses(cs) && c < |cs| && Descends(cs, c, path)
    ensures End(c, path) < |cs| && cs[c].offsets <= cs[End(c, path)].offsets
    decreases path
  {
    if path != [] {
      StepExtends(cs, c, path[0]);
      DescendantsExtend(cs, path[0], path[1..]);
    }
  }

  // An offset cached at a class is right at every class reached from it, in this table and in every
  // later one.
  lemma CacheGoodBelow(cs: seq<Class>, ds: seq<Class>, c: nat, path: seq<nat>, text: string)
    requires ValidClasses(cs) && ValidClasses(ds) && Extends(cs, ds) && c < |cs| && Descends(ds, c, path)
    ensures End(c, path) < |ds|
    ensures var cache := CacheAfter(cs[c], text, -1);
            Lookup(ds[End(c, path)], text, cache) == Lookup(ds[End(c, path)], text, -1)
  {
    DescendantsExtend(ds, c, path);
    SlotInRange(cs[c], text);
    CacheRightIffFits(ds[End(c, path)], text, CacheAfter(cs[c], text, -1));
  }

  // The other way round it is not: a cache filled at {x} misreads {y}.
  lemma CacheWrongElsewhere(x: StringPtr, y: StringPtr)
    requires x.text != y.text
    ensures var cache := CacheAfter(Branch(EMPTY_CLASS, x), x.text, -1);
            var other := Branch(EMPTY_CLASS, y);
            Lookup(other, x.text, cache) != Lookup(other, x.text, -1)
  {
    BranchLaidOut(EMPTY_CLASS, x);
    BranchLaidOut(EMPTY_CLASS, y);
    SlotInRange(Branch(EMPTY_CLASS, y), x.text);
  }

  class ClassList {
    var classes: seq<Class>

    constructor ()
      ensures classes == [EMPTY_CLASS] && ValidClasses(classes)
    {
      classes := [EMPTY_CLASS];
    }

    method NewClassType(c: Class) returns (tag: nat)
      modifies this
      ensures classes == old(classes) + [c] && tag == |old(classes)| % TAGS
    {
      tag := |classes| % TAGS;
      classes := classes + [c];
    }

    method Transition(tag: nat, name: StringPtr) returns (t: nat)
      requires tag < |classes|
      modifies this
      ensures (classes, t) == AfterTransition(old(classes), tag, name)
    {
      var newTag := |classes| % TAGS;
      var found := LookupTransition(tag, name);
      match found {
        case Some(u) => t := u;
        case None =>
          var newClass := BranchInPlace(tag, name, newTag);
          t := NewClassType(newClass);
      }
    }

    method LookupTransition(tag: nat, name: StringPtr) returns (r: Option<nat>)
      requires tag < |classes|
      ensures r == Find(classes[tag].transitions, name.text)
    {
      r := FindEntry(classes[tag].transitions, name);
    }

    method BranchInPlace(tag: nat, name: StringPtr, newTag: nat) returns (c: Class)
      requires tag < |classes|
      modifies this
      ensures var was := old(classes[tag]);
              c == Branch(was, name) && classes == old(classes)[tag := was.(transitions := was.transitions + [(name, newTag)])]
    {
      var was := classes[tag];
      classes := classes[tag := was.(transitions := was.transitions + [(name, newTag)])];
      c := Class(was.size + 1, was.offsets + [(name, was.size)], []);
    }

    method LookupCached(tag: nat, name: StringPtr, cache: int) returns (r: Option<int>, cache1: int)
      requires tag < |classes|
      ensures r == Lookup(classes[tag], name.text, cache) && cache1 == CacheAfter(classes[tag], name.text, cache)
    {
      if cache != -1 {
        return Some(cache), cache;
      }
      var found := FindEntry(classes[tag].offsets, name);
      match found {
        case Some(i) => r, cache1 := Some(i), i;
        case None => r, cache1 := None, cache;
      }
    }
  }

  // The scan that both tables use.
  method FindEntry(entries: seq<(StringPtr, nat)>, name: StringPtr) returns (r: Option<nat>)
    ensures r == Find(entries, name.text)
    ensures r.None? ==> forall i :: 0 <= i < |entries| ==> entries[i].0.text != name.text
  {
    var i := 0;
    while i < |entries|
      invariant 0 <= i <= |entries|
      invariant forall j :: 0 <= j < i ==> entries[j].0.text != name.text
    {
      if entries[i].0.text == name.text {
        FindAt(entries, i);
        return Some(entries[i].1);
      }
      i := i + 1;
    }
    r := None;
  }
}

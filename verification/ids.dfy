// Identifiers, the fresh name generator, and the option type shared by every pass.

module Common {
  datatype Option<+T> = None | Some(value: T)

  // The result of a walk over a list whose first part has already given `done`.
  ghost function Prepend<T, S>(done: seq<T>, r: Option<(seq<T>, S)>): Option<(seq<T>, S)> {
    match r
    case None => None
    case Some((rest, st)) => Some((done + rest, st))
  }

  lemma PrependNothing<T, S>(r: Option<(seq<T>, S)>)
    ensures Prepend([], r) == r
  {
    if r.Some? {
      assert [] + r.value.0 == r.value.0;
    }
  }

  lemma PrependOne<T, S>(done: seq<T>, t: T, r: Option<(seq<T>, S)>)
    ensures Prepend(done, Prepend([t], r)) == Prepend(done + [t], r)
  {
    if r.Some? {
      assert done + ([t] + r.value.0) == (done + [t]) + r.value.0;
    }
  }
}

module Ids {
  datatype Id = Named(name: string) | Generated(baseName: string, index: nat)

  // The generator's table: for each base name, the last index handed out.
  type Names = map<string, nat>

  // An identifier that can already occur in a program: written by the user or handed out earlier.
  predicate Known(names: Names, id: Id) {
    id.Generated? ==> id.baseName in names && id.index <= names[id.baseName]
  }

  ghost predicate Grows(before: Names, after: Names) {
    forall b :: b in before ==> b in after && before[b] <= after[b]
  }

  function FreshId(names: Names, base: string): Id {
    Generated(base, if base in names then names[base] + 1 else 0)
  }

  function AfterFresh(names: Names, base: string): Names {
    names[base := if base in names then names[base] + 1 else 0]
  }

  lemma FreshIsNew(names: Names, base: string)
    ensures !Known(names, FreshId(names, base))
    ensures Known(AfterFresh(names, base), FreshId(names, base))
    ensures Grows(names, AfterFresh(names, base))
  {
  }

  class NameGen {
    var nextName: Names

    constructor ()
      ensures nextName == map[]
    {
      nextName := map[];
    }

    method Fresh(base: string) returns (id: Id)
      modifies this
      ensures id == FreshId(old(nextName), base)
      ensures nextName == AfterFresh(old(nextName), base)
      ensures !Known(old(nextName), id) && Known(nextName, id)
    {
      if base in nextName {
        nextName := nextName[base := nextName[base] + 1];
      } else {
        nextName := nextName[base := 0];
      }
      id := Generated(base, nextName[base]);
    }
  }
}

/** The two list edits the dashboard applies to a cached list of records, each keyed by its id:
    `list.filter((x) => x.id !== id)` and `list.map((x) => x.id === y.id ? y : x)`.
    `key` extracts a record's id. */
module RecordLists {

  /** The records whose id is not `id`, in their original order. */
  function Without<T>(xs: seq<T>, key: T -> string, id: string): (r: seq<T>)
    ensures |r| <= |xs|
    ensures forall x :: x in r ==> x in xs && key(x) != id
    ensures forall x :: x in xs && key(x) != id ==> x in r
  {
    if xs == [] then []
    else (if key(xs[0]) == id then [] else [xs[0]]) + Without(xs[1..], key, id)
  }

  /** Filtering distributes over concatenation: what is kept keeps its relative order. */
  lemma {:induction false} WithoutConcat<T>(xs: seq<T>, ys: seq<T>, key: T -> string, id: string)
    ensures Without(xs + ys, key, id) == Without(xs, key, id) + Without(ys, key, id)
  {
    if xs == [] {
      assert xs + ys == ys;
    } else {
      assert (xs + ys)[0] == xs[0];
      assert (xs + ys)[1..] == xs[1..] + ys;
      WithoutConcat(xs[1..], ys, key, id);
    }
  }

  /** An id no record has leaves the list as it was. */
  lemma {:induction false} WithoutAbsent<T>(xs: seq<T>, key: T -> string, id: string)
    requires forall i :: 0 <= i < |xs| ==> key(xs[i]) != id
    ensures Without(xs, key, id) == xs
  {
    if xs != [] {
      WithoutAbsent(xs[1..], key, id);
      assert xs == [xs[0]] + xs[1..];
    }
  }

  /** Removing the same id twice removes nothing more. */
  lemma WithoutIdempotent<T>(xs: seq<T>, key: T -> string, id: string)
    ensures Without(Without(xs, key, id), key, id) == Without(xs, key, id)
  {
    var r := Without(xs, key, id);
    forall i | 0 <= i < |r| ensures key(r[i]) != id {
      assert r[i] in r;
    }
    WithoutAbsent(r, key, id);
  }

  /** Appending a record whose id is new and then removing that id gives back the list. */
  lemma AppendThenWithout<T>(xs: seq<T>, key: T -> string, y: T)
    requires forall i :: 0 <= i < |xs| ==> key(xs[i]) != key(y)
    ensures Without(xs + [y], key, key(y)) == xs
  {
    WithoutConcat(xs, [y], key, key(y));
    WithoutAbsent(xs, key, key(y));
    assert [y][1..] == [];
  }

  /** The list with every record whose id is `y`'s replaced by `y`, in place. */
  function ReplaceById<T>(xs: seq<T>, key: T -> string, y: T): (r: seq<T>)
    ensures |r| == |xs|
    ensures forall i :: 0 <= i < |xs| && key(xs[i]) == key(y) ==> r[i] == y
    ensures forall i :: 0 <= i < |xs| && key(xs[i]) != key(y) ==> r[i] == xs[i]
  {
    if xs == [] then []
    else [if key(xs[0]) == key(y) then y else xs[0]] + ReplaceById(xs[1..], key, y)
  }

  /** Replacing keeps every position's id, so a second identical replacement changes nothing. */
  lemma ReplaceByIdIdempotent<T>(xs: seq<T>, key: T -> string, y: T)
    ensures ReplaceById(ReplaceById(xs, key, y), key, y) == ReplaceById(xs, key, y)
  {
    var r := ReplaceById(xs, key, y);
    var rr := ReplaceById(r, key, y);
    forall i | 0 <= i < |xs| ensures rr[i] == r[i] {
      if key(xs[i]) == key(y) { assert r[i] == y; }
    }
  }
}

/** Sequence facts shared by the other modules: suffixes of bounded length, flattening, sorting. */
module Seqs {

  datatype Option<+T> = None | Some(value: T)

  datatype Result<+T, +E> = Ok(value: T) | Err(error: E)

  function Min(a: int, b: int): int {
    if a < b then a else b
  }

  /** Go's conversion to int32. */
  function Int32(x: int): (r: int)
    ensures -0x8000_0000 <= r < 0x8000_0000 && (r - x) % 0x1_0000_0000 == 0
  {
    (x + 0x8000_0000) % 0x1_0000_0000 - 0x8000_0000
  }

  /** The last `limit` elements of `s`, or all of it when it is shorter; nothing for a non-positive limit. */
  function TakeLast<T>(s: seq<T>, limit: int): (r: seq<T>)
    ensures limit > 0 && s != [] ==> r != [] && r[|r| - 1] == s[|s| - 1]
    ensures limit > 0 ==> |r| == Min(|s|, limit)
    ensures limit <= 0 ==> r == []
  {
    if limit <= 0 then [] else if |s| <= limit then s else s[|s| - limit..]
  }

  predicate IsPrefix<T(==)>(p: seq<T>, s: seq<T>) {
    |p| <= |s| && s[..|p|] == p
  }

  predicate IsSuffix<T(==)>(p: seq<T>, s: seq<T>) {
    |p| <= |s| && s[|s| - |p|..] == p
  }

  /** What is kept of `s + t` depends only on what was kept of `s`. */
  lemma TakeLastAppend<T>(s: seq<T>, t: seq<T>, limit: int)
    ensures TakeLast(TakeLast(s, limit) + t, limit) == TakeLast(s + t, limit)
  {
    if limit > 0 && |s| > limit {
      var r := TakeLast(s, limit);
      assert (r + t)[|r + t| - limit..] == (s + t)[|s + t| - limit..];
    }
  }

  lemma TakeLastIsSuffix<T>(s: seq<T>, limit: int)
    ensures IsSuffix(TakeLast(s, limit), s)
    ensures s == s[..|s| - |TakeLast(s, limit)|] + TakeLast(s, limit)
  {
    var n := |s| - |TakeLast(s, limit)|;
    assert TakeLast(s, limit) == s[n..];
    assert s == s[..n] + s[n..];
  }

  function Flatten<T>(chunks: seq<seq<T>>): seq<T> {
    if chunks == [] then [] else Flatten(chunks[..|chunks| - 1]) + chunks[|chunks| - 1]
  }

  // ---- Lexicographic order on strings, as Go compares them ----

  predicate StringLess(a: string, b: string) {
    if b == "" then false
    else if a == "" then true
    else if a[0] != b[0] then a[0] < b[0]
    else StringLess(a[1..], b[1..])
  }

  lemma {:induction false} StringLessTrichotomy(a: string, b: string)
    ensures StringLess(a, b) || a == b || StringLess(b, a)
    ensures !(StringLess(a, b) && StringLess(b, a))
    ensures !StringLess(a, a)
  {
    if a != "" && b != "" && a[0] == b[0] {
      StringLessTrichotomy(a[1..], b[1..]);
      assert a == [a[0]] + a[1..] && b == [b[0]] + b[1..];
    }
    if a != "" {
      StringLessTrichotomy(a[1..], a[1..]);
    }
  }

  lemma {:induction false} StringLessTransitive(a: string, b: string, c: string)
    requires StringLess(a, b) && StringLess(b, c)
    ensures StringLess(a, c)
  {
    if a != "" && a[0] == b[0] == c[0] {
      StringLessTransitive(a[1..], b[1..], c[1..]);
    }
  }

  // ---- Sorting ----

  /** `less` can drive a sort: it never contradicts itself and incomparability is transitive. */
  ghost predicate WeakOrder<T(!new)>(less: (T, T) -> bool) {
    && (forall a, b :: less(a, b) ==> !less(b, a))
    && (forall a, b, c :: !less(b, a) && !less(c, b) ==> !less(c, a))
  }

  ghost predicate SortedBy<T>(s: seq<T>, less: (T, T) -> bool) {
    forall i, j :: 0 <= i < j < |s| ==> !less(s[j], s[i])
  }

  lemma InsertKeepsSorted<T>(s: seq<T>, x: T, i: nat, less: (T, T) -> bool)
    requires SortedBy(s, less) && i <= |s|
    requires forall j :: 0 <= j < i ==> !less(x, s[j])
    requires forall j :: i <= j < |s| ==> !less(s[j], x)
    ensures SortedBy(s[..i] + [x] + s[i..], less)
    ensures multiset(s[..i] + [x] + s[i..]) == multiset(s) + multiset{x}
  {
    assert s == s[..i] + s[i..];
  }

  lemma NotBelow<T(!new)>(s: seq<T>, x: T, i: nat, less: (T, T) -> bool)
    requires WeakOrder(less) && SortedBy(s, less) && i <= |s|
    requires i > 0 ==> !less(x, s[i - 1])
    ensures forall j :: 0 <= j < i ==> !less(x, s[j])
  {
    forall j | 0 <= j < i ensures !less(x, s[j]) {
      if j < i - 1 {
        assert !less(s[i - 1], s[j]);
      }
    }
  }

  method InsertSorted<T(!new)>(s: seq<T>, x: T, less: (T, T) -> bool) returns (r: seq<T>)
    requires WeakOrder(less) && SortedBy(s, less)
    ensures SortedBy(r, less)
    ensures multiset(r) == multiset(s) + multiset{x}
  {
    var i := |s|;
    while i > 0 && less(x, s[i - 1])
      invariant 0 <= i <= |s|
      invariant forall j :: i <= j < |s| ==> !less(s[j], x)
    {
      i := i - 1;
    }
    NotBelow(s, x, i, less);
    InsertKeepsSorted(s, x, i, less);
    r := s[..i] + [x] + s[i..];
  }

  /** Stands for Go's sort.Slice and sort.Ints: sorted, and a permutation; nothing is said about ties. */
  method Sort<T(!new)>(s: seq<T>, less: (T, T) -> bool) returns (r: seq<T>)
    requires WeakOrder(less)
    ensures SortedBy(r, less)
    ensures multiset(r) == multiset(s)
  {
    r := [];
    for i := 0 to |s|
      invariant SortedBy(r, less)
      invariant multiset(r) == multiset(s[..i])
    {
      r := InsertSorted(r, s[i], less);
      assert s[..i + 1] == s[..i] + [s[i]];
    }
    assert s[..|s|] == s;
  }

  lemma SameMembers<T>(a: seq<T>, b: seq<T>)
    requires multiset(a) == multiset(b)
    ensures forall x :: x in a <==> x in b
  {
    forall x ensures x in a <==> x in b {
      assert x in a <==> x in multiset(a);
      assert x in b <==> x in multiset(b);
    }
  }

  /** A permutation repeats an element only if the original does. */
  lemma TwiceInPermutation<T>(cs: seq<T>, ds: seq<T>, i: nat, j: nat)
    requires i < j < |ds| && ds[i] == ds[j] && multiset(ds) == multiset(cs)
    ensures exists a, b :: 0 <= a < b < |cs| && cs[a] == cs[b]
  {
    var x := ds[i];
    assert ds == ds[..j] + [ds[j]] + ds[j + 1..];
    assert x in ds[..j];
    assert multiset(ds)[x] >= 2;
    var a :| 0 <= a < |cs| && cs[a] == x by {
      assert x in multiset(cs);
    }
    assert cs == cs[..a] + [cs[a]] + cs[a + 1..];
    assert x in multiset(cs[..a]) || x in multiset(cs[a + 1..]);
    if x in cs[..a] {
      var b :| 0 <= b < a && cs[b] == x;
    } else {
      assert x in cs[a + 1..];
      var b :| a + 1 <= b < |cs| && cs[b] == x;
    }
  }

  ghost predicate StrictlySorted<T>(s: seq<T>, less: (T, T) -> bool) {
    forall i, j :: 0 <= i < j < |s| ==> less(s[i], s[j])
  }

  /** Under an order that never contradicts itself, a strictly sorted sequence is determined by its elements. */
  lemma {:induction false} StrictlySortedUnique<T>(a: seq<T>, b: seq<T>, less: (T, T) -> bool)
    requires StrictlySorted(a, less) && StrictlySorted(b, less)
    requires forall x, y :: x in a && y in a ==> !(less(x, y) && less(y, x))
    requires forall x :: x in a <==> x in b
    ensures a == b
  {
    assert |b| > 0 ==> b[0] in a;
    if a != [] {
      assert a[0] in b;
      assert a[0] == b[0];
      forall x ensures x in a[1..] <==> x in b[1..] {
        assert x in a[1..] ==> x in a && less(a[0], x);
        assert x in b[1..] ==> x in b && less(b[0], x);
      }
      StrictlySortedUnique(a[1..], b[1..], less);
    }
  }
}

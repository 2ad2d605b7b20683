/**
 * Ordering used by the tables and the status deriver: `sort_unstable_by`
 * over a comparison, and the byte-wise order of names (`String::cmp`).
 *
 * The library sort leaves equal elements in an unspecified order. The model
 * fixes one order (insertion from the left, equal elements keep their
 * relative order); what is claimed about it holds for every order that the
 * comparison allows: the result is sorted, it is a permutation of the input,
 * it is the only sorted permutation when no two elements compare equal, and
 * its first element is a least one.
 */
module Sorting {
  import opened Common

  /** Every two values are comparable. */
  ghost predicate Total<T(!new)>(le: (T, T) -> bool) {
    forall x, y :: le(x, y) || le(y, x)
  }

  ghost predicate Transitive<T(!new)>(le: (T, T) -> bool) {
    forall x, y, z :: le(x, y) && le(y, z) ==> le(x, z)
  }

  /** Neighbours are in order. */
  ghost predicate Sorted<T>(s: seq<T>, le: (T, T) -> bool) {
    forall k :: 0 < k < |s| ==> le(s[k - 1], s[k])
  }

  /** Elements of `s` that compare equal both ways are the same element. */
  ghost predicate Distinct<T>(s: seq<T>, le: (T, T) -> bool) {
    forall x, y :: x in s && y in s && le(x, y) && le(y, x) ==> x == y
  }

  /** Place `x` into `s`, after every element that is not greater than it. */
  function Insert<T>(s: seq<T>, x: T, le: (T, T) -> bool): seq<T>
    decreases |s|
  {
    if s == [] then [x]
    else if le(s[|s| - 1], x) then s + [x]
    else Insert(s[..|s| - 1], x, le) + [s[|s| - 1]]
  }

  /** The sorted order of `s`: each element inserted in turn, left to right. */
  function SortBy<T>(s: seq<T>, le: (T, T) -> bool): seq<T>
    decreases |s|
  {
    if s == [] then []
    else Insert(SortBy(s[..|s| - 1], le), s[|s| - 1], le)
  }

  /** Insertion adds exactly the inserted value. */
  lemma {:induction false} InsertPermutation<T>(s: seq<T>, x: T, le: (T, T) -> bool)
    ensures |Insert(s, x, le)| == |s| + 1
    ensures multiset(Insert(s, x, le)) == multiset(s) + multiset{x}
    decreases |s|
  {
    if s != [] && !le(s[|s| - 1], x) {
      assert s == s[..|s| - 1] + [s[|s| - 1]];
      InsertPermutation(s[..|s| - 1], x, le);
    }
  }

  /** Sorting keeps every element, as often as it occurs. */
  lemma {:induction false} SortByPermutation<T>(s: seq<T>, le: (T, T) -> bool)
    ensures |SortBy(s, le)| == |s|
    ensures multiset(SortBy(s, le)) == multiset(s)
    decreases |s|
  {
    if s != [] {
      assert s == s[..|s| - 1] + [s[|s| - 1]];
      SortByPermutation(s[..|s| - 1], le);
      InsertPermutation(SortBy(s[..|s| - 1], le), s[|s| - 1], le);
    }
  }

  /** The last element of an insertion is the inserted value or the old last one. */
  lemma {:induction false} InsertLast<T>(s: seq<T>, x: T, le: (T, T) -> bool)
    ensures var r := Insert(s, x, le);
      r[|r| - 1] == x || (s != [] && r[|r| - 1] == s[|s| - 1])
  {
  }

  lemma {:induction false} InsertSorted<T(!new)>(s: seq<T>, x: T, le: (T, T) -> bool)
    requires Total(le)
    requires Sorted(s, le)
    ensures Sorted(Insert(s, x, le), le)
    decreases |s|
  {
    if s != [] && !le(s[|s| - 1], x) {
      var init, last := s[..|s| - 1], s[|s| - 1];
      assert Sorted(init, le) by {
        forall k | 0 < k < |init| ensures le(init[k - 1], init[k]) {
          assert init[k - 1] == s[k - 1] && init[k] == s[k];
        }
      }
      InsertSorted(init, x, le);
      var r := Insert(init, x, le);
      InsertLast(init, x, le);
      assert le(x, last);
      assert le(r[|r| - 1], last) by {
        if r[|r| - 1] != x {
          assert init != [] && r[|r| - 1] == s[|s| - 2];
        }
      }
      var res := r + [last];
      assert Insert(s, x, le) == res;
      forall k | 0 < k < |res| ensures le(res[k - 1], res[k]) {
        if k < |r| {
          assert res[k - 1] == r[k - 1] && res[k] == r[k];
        }
      }
    }
  }

  /** `SortBy` sorts whenever the comparison is total. */
  lemma {:induction false} SortBySorted<T(!new)>(s: seq<T>, le: (T, T) -> bool)
    requires Total(le)
    ensures Sorted(SortBy(s, le), le)
    decreases |s|
  {
    if s != [] {
      SortBySorted(s[..|s| - 1], le);
      InsertSorted(SortBy(s[..|s| - 1], le), s[|s| - 1], le);
    }
  }

  /** In a sorted sequence every element is in order with every later one. */
  lemma {:induction false} SortedPairwise<T(!new)>(s: seq<T>, le: (T, T) -> bool)
    requires Transitive(le)
    requires Sorted(s, le)
    ensures forall i, j :: 0 <= i < j < |s| ==> le(s[i], s[j])
    decreases |s|
  {
    if |s| > 1 {
      var init := s[..|s| - 1];
      assert Sorted(init, le) by {
        forall k | 0 < k < |init| ensures le(init[k - 1], init[k]) {
          assert init[k - 1] == s[k - 1] && init[k] == s[k];
        }
      }
      SortedPairwise(init, le);
      forall i, j | 0 <= i < j < |s| ensures le(s[i], s[j]) {
        if j < |s| - 1 {
          assert s[i] == init[i] && s[j] == init[j];
        } else if i < j - 1 {
          assert le(s[i], s[j - 1]) by { assert s[i] == init[i] && s[j - 1] == init[j - 1]; }
        }
      }
    }
  }

  /** The first element of a sorted sequence is a least element of it. */
  lemma SortedFirstIsLeast<T(!new)>(s: seq<T>, le: (T, T) -> bool)
    requires Total(le) && Transitive(le)
    requires Sorted(s, le) && s != []
    ensures forall y :: y in s ==> le(s[0], y)
  {
    SortedPairwise(s, le);
    forall y | y in s ensures le(s[0], y) {
      var j :| 0 <= j < |s| && s[j] == y;
      if j == 0 {
        assert le(y, y) || le(y, y);
      }
    }
  }

  /** After sorting, the first element is one of the input's least elements. */
  lemma SortByFirstIsLeast<T(!new)>(s: seq<T>, le: (T, T) -> bool)
    requires Total(le) && Transitive(le)
    requires s != []
    ensures SortBy(s, le) != [] && SortBy(s, le)[0] in s
    ensures forall y :: y in s ==> le(SortBy(s, le)[0], y)
  {
    var sorted := SortBy(s, le);
    SortByPermutation(s, le);
    SortBySorted(s, le);
    assert sorted[0] in multiset(sorted);
    SortedFirstIsLeast(sorted, le);
    forall y | y in s ensures le(sorted[0], y) {
      assert y in multiset(s);
    }
  }

  lemma SortedTail<T>(s: seq<T>, le: (T, T) -> bool)
    requires Sorted(s, le) && s != []
    ensures Sorted(s[1..], le)
  {
    forall k | 0 < k < |s[1..]| ensures le(s[1..][k - 1], s[1..][k]) {
      assert s[1..][k - 1] == s[k] && s[1..][k] == s[k + 1];
    }
  }

  /** Two sorted permutations of distinct elements start with the same element. */
  lemma SameHead<T(!new)>(a: seq<T>, b: seq<T>, le: (T, T) -> bool)
    requires Total(le) && Transitive(le)
    requires Sorted(a, le) && Sorted(b, le)
    requires multiset(a) == multiset(b) && a != []
    requires Distinct(a, le)
    ensures b != [] && a[0] == b[0]
  {
    assert a[0] in multiset(a);
    assert b != [] by { assert a[0] in multiset(b); }
    assert b[0] in multiset(b);
    SortedFirstIsLeast(a, le);
    SortedFirstIsLeast(b, le);
  }

  /**
   * When no two elements compare equal, there is only one sorted permutation:
   * any two sorts of the same elements agree, however the sort treats ties.
   */
  lemma {:induction false} SortedPermutationUnique<T(!new)>(a: seq<T>, b: seq<T>, le: (T, T) -> bool)
    requires Total(le) && Transitive(le)
    requires Sorted(a, le) && Sorted(b, le)
    requires multiset(a) == multiset(b)
    requires Distinct(a, le)
    ensures a == b
    decreases |a|
  {
    if a == [] {
      assert |b| == |multiset(b)| == 0;
    } else {
      SameHead(a, b, le);
      DropHead(a, b, le);
      SortedTail(a, le);
      SortedTail(b, le);
      SortedPermutationUnique(a[1..], b[1..], le);
      assert a == [a[0]] + a[1..] && b == [b[0]] + b[1..];
    }
  }

  /** Removing an equal head from two permutations leaves permutations, still distinct. */
  lemma DropHead<T>(a: seq<T>, b: seq<T>, le: (T, T) -> bool)
    requires a != [] && b != [] && a[0] == b[0]
    requires multiset(a) == multiset(b) && Distinct(a, le)
    ensures multiset(a[1..]) == multiset(b[1..]) && Distinct(a[1..], le)
  {
    assert a == [a[0]] + a[1..] && b == [b[0]] + b[1..];
    assert multiset(a[1..]) == multiset(a) - multiset{a[0]};
    assert multiset(b[1..]) == multiset(b) - multiset{b[0]};
    forall x | x in a[1..] ensures x in a { }
  }

  /** One swap of the sift: moving `x` one place left keeps the same insertion result. */
  lemma SwapStep<T>(pre: seq<T>, post: seq<T>, j: nat, i: nat, x: T, target: seq<T>, le: (T, T) -> bool)
    requires 0 < j <= i < |pre|
    requires pre[j] == x && !le(pre[j - 1], x)
    requires post == pre[j - 1 := x][j := pre[j - 1]]
    requires Insert(pre[..j], x, le) + pre[j + 1..i + 1] == target
    ensures post[j - 1] == x && post[i + 1..] == pre[i + 1..]
    ensures Insert(post[..j - 1], x, le) + post[j..i + 1] == target
  {
    assert pre[..j][..j - 1] == pre[..j - 1];
    assert post[..j - 1] == pre[..j - 1];
    assert post[j..i + 1] == [pre[j - 1]] + pre[j + 1..i + 1];
  }

  /** Where the sift stops, the insertion result is the prefix as it stands. */
  lemma StopPoint<T>(s: seq<T>, j: nat, i: nat, x: T, le: (T, T) -> bool)
    requires j <= i < |s| && s[j] == x
    requires j == 0 || le(s[j - 1], x)
    ensures Insert(s[..j], x, le) + s[j + 1..i + 1] == s[..i + 1]
  {
    if j == 0 {
      assert s[..i + 1] == [x] + s[1..i + 1];
    } else {
      assert s[..j][j - 1] == s[j - 1];
      assert s[..i + 1] == s[..j] + [x] + s[j + 1..i + 1];
    }
  }

  /**
   * Move `a[i]` down into the sorted prefix `a[..i]` by swapping it with
   * each greater neighbour.
   */
  method SiftDown<T>(a: array<T>, i: nat, le: (T, T) -> bool)
    requires i < a.Length
    modifies a
    ensures a[..i + 1] == Insert(old(a[..i]), old(a[i]), le)
    ensures a[i + 1..] == old(a[i + 1..])
  {
    ghost var prefix := a[..i];
    var x := a[i];
    var j := i;
    while j > 0 && !le(a[j - 1], a[j])
      invariant 0 <= j <= i
      invariant a[j] == x
      invariant Insert(a[..j], x, le) + a[j + 1..i + 1] == Insert(prefix, x, le)
      invariant a[i + 1..] == old(a[i + 1..])
    {
      ghost var pre := a[..];
      a[j - 1], a[j] := a[j], a[j - 1];
      assert a[..] == pre[j - 1 := x][j := pre[j - 1]];
      SwapStep(pre, a[..], j, i, x, Insert(prefix, x, le), le);
      j := j - 1;
    }
    StopPoint(a[..], j, i, x, le);
  }

  /** The library's in-place sort of a slice, as an insertion sort. */
  method SortInPlace<T>(a: array<T>, le: (T, T) -> bool)
    modifies a
    ensures a[..] == SortBy(old(a[..]), le)
  {
    ghost var orig := a[..];
    var i := 0;
    while i < a.Length
      invariant 0 <= i <= a.Length
      invariant a[..i] == SortBy(orig[..i], le)
      invariant a[i..] == orig[i..]
    {
      assert orig[..i + 1][..i] == orig[..i];
      assert a[i] == orig[i];
      SiftDown(a, i, le);
      i := i + 1;
    }
    assert a[..] == a[..a.Length] && orig == orig[..a.Length];
  }

  /** Byte-wise lexicographic order of strings, as `String::cmp` orders them. */
  predicate NameLe(a: string, b: string)
    decreases |a|
  {
    |a| == 0 || (|b| > 0 && (a[0] < b[0] || (a[0] == b[0] && NameLe(a[1..], b[1..]))))
  }

  lemma {:induction false} NameLeTotal(a: string, b: string)
    ensures NameLe(a, b) || NameLe(b, a)
    decreases |a|
  {
    if |a| > 0 && |b| > 0 && a[0] == b[0] {
      NameLeTotal(a[1..], b[1..]);
    }
  }

  lemma {:induction false} NameLeTransitive(a: string, b: string, c: string)
    requires NameLe(a, b) && NameLe(b, c)
    ensures NameLe(a, c)
    decreases |a|
  {
    if |a| > 0 && a[0] == b[0] && b[0] == c[0] {
      NameLeTransitive(a[1..], b[1..], c[1..]);
    }
  }

  lemma {:induction false} NameLeAntisymmetric(a: string, b: string)
    ensures NameLe(a, b) && NameLe(b, a) ==> a == b
    decreases |a|
  {
    if |a| > 0 && NameLe(a, b) && NameLe(b, a) {
      NameLeAntisymmetric(a[1..], b[1..]);
      assert a == [a[0]] + a[1..] && b == [b[0]] + b[1..];
    }
  }

  /** Compare values by a name drawn from them. */
  function ByName<T>(name: T -> string): (T, T) -> bool {
    (x: T, y: T) => NameLe(name(x), name(y))
  }

  /** Ordering by name is total and transitive. */
  lemma ByNameOrders<T(!new)>(name: T -> string)
    ensures Total(ByName(name)) && Transitive(ByName(name))
  {
    var le := ByName(name);
    forall x, y ensures le(x, y) || le(y, x) {
      NameLeTotal(name(x), name(y));
    }
    forall x, y, z | le(x, y) && le(y, z) ensures le(x, z) {
      NameLeTransitive(name(x), name(y), name(z));
    }
  }

  /** With pairwise different names, no two elements compare equal. */
  lemma ByNameDistinct<T>(s: seq<T>, name: T -> string)
    requires forall i, j :: 0 <= i < j < |s| ==> name(s[i]) != name(s[j])
    ensures Distinct(s, ByName(name))
  {
    var le := ByName(name);
    forall x, y | x in s && y in s && x != y ensures !(le(x, y) && le(y, x)) {
      var i :| 0 <= i < |s| && s[i] == x;
      var j :| 0 <= j < |s| && s[j] == y;
      if i < j {
        assert name(s[i]) != name(s[j]);
      } else {
        assert name(s[j]) != name(s[i]);
      }
      NameLeAntisymmetric(name(x), name(y));
    }
  }

  /**
   * The element at the selected row of `s` sorted by `le`, as the commands of
   * the list views pick it: none when nothing is selected or the index is
   * past the end.
   */
  function SelectedOf<T>(s: seq<T>, le: (T, T) -> bool, selected: Option<nat>): (r: Option<T>)
    ensures r.Some? <==> selected.Some? && selected.value < |s|
    ensures r.Some? ==> r.value in s
  {
    var sorted := SortBy(s, le);
    SortByPermutation(s, le);
    if selected.Some? && selected.value < |sorted| then
      assert sorted[selected.value] in multiset(s);
      Some(sorted[selected.value])
    else None
  }

  /** Sorts a copy of `s` in place and takes the selected element; `s` itself is a value and stays as it was. */
  method SortedCopyAt<T>(s: seq<T>, le: (T, T) -> bool, selected: Option<nat>) returns (r: Option<T>)
    ensures r == SelectedOf(s, le, selected)
  {
    var copy := new T[|s|](i requires 0 <= i < |s| => s[i]);
    assert copy[..] == s;
    SortInPlace(copy, le);
    if selected.Some? && selected.value < copy.Length {
      r := Some(copy[selected.value]);
    } else {
      r := None;
    }
  }

  /**
   * When no two elements compare equal, the selected element is the one at
   * the same row of any sorted permutation, so it does not depend on how
   * the sort breaks ties or on the order the elements arrived in.
   */
  lemma SelectedOfAnySorted<T(!new)>(s: seq<T>, shown: seq<T>, le: (T, T) -> bool, i: nat)
    requires Total(le) && Transitive(le) && Distinct(s, le)
    requires multiset(shown) == multiset(s) && Sorted(shown, le)
    requires i < |s|
    ensures |shown| == |s| && i < |SortBy(s, le)|
    ensures SortBy(s, le)[i] == shown[i]
    ensures SelectedOf(s, le, Some(i)) == Some(shown[i])
  {
    var sorted := SortBy(s, le);
    SortBySorted(s, le);
    SortByPermutation(s, le);
    assert |shown| == |multiset(shown)| == |s|;
    assert Distinct(sorted, le) by {
      forall x | x in sorted ensures x in s {
        assert x in multiset(s);
      }
    }
    SortedPermutationUnique(sorted, shown, le);
  }
}

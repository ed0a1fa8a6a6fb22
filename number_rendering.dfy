/**
 The text a refreshable body in the refreshable tests displays for its list of
 numbers: `'[' + ', '.join(str(n) for n in sorted(numbers)) + ']'`.
 Everything here is a pure function of the current list; the lemmas say that the
 text depends on the numbers only through their multiset, and that it is the
 empty rendering `[]` exactly when the list is empty.
 */
module NumberRendering {

  /** Ascending order, as Python's `sorted` returns it. */
  predicate Sorted(s: seq<int>) {
    forall i, j :: 0 <= i < j < |s| ==> s[i] <= s[j]
  }

  /** Insert `x` into a sorted sequence, keeping it sorted. */
  function Insert(x: int, s: seq<int>): (r: seq<int>)
    requires Sorted(s)
    ensures Sorted(r)
    ensures multiset(r) == multiset(s) + multiset{x}
    ensures |r| == |s| + 1
    ensures r[0] == x || (s != [] && r[0] == s[0])
    decreases |s|
  {
    if s == [] || x <= s[0] then
      assert Sorted([x] + s) by { ConsSorted(x, s); }
      [x] + s
    else
      var tail := Insert(x, s[1..]);
      assert s == [s[0]] + s[1..];
      assert Sorted([s[0]] + tail) by { ConsSorted(s[0], tail); }
      [s[0]] + tail
  }

  /** Putting an element no larger than the head in front of a sorted sequence keeps it sorted. */
  lemma ConsSorted(x: int, s: seq<int>)
    requires Sorted(s)
    requires s != [] ==> x <= s[0]
    ensures Sorted([x] + s)
  {
  }

  /** Python's `sorted` on a list of integers: an ascending permutation of the input. */
  function Sort(s: seq<int>): (r: seq<int>)
    ensures Sorted(r)
    ensures multiset(r) == multiset(s)
    ensures |r| == |s|
  {
    if s == [] then
      []
    else
      assert s == [s[0]] + s[1..];
      Insert(s[0], Sort(s[1..]))
  }

  /** The head of a sorted sequence is its least element. */
  lemma SortedHeadIsLeast(s: seq<int>, x: int)
    requires Sorted(s) && x in s
    ensures s[0] <= x
  {
  }

  lemma SortedTail(s: seq<int>)
    requires Sorted(s) && s != []
    ensures Sorted(s[1..])
  {
  }

  /** Removing the first element of a non-empty sequence removes one copy of it
      from the multiset. */
  lemma MultisetOfTail(s: seq<int>)
    requires s != []
    ensures multiset(s[1..]) == multiset(s) - multiset{s[0]}
  {
    assert s == [s[0]] + s[1..];
  }

  /** Two non-empty sorted sequences with the same elements have the same head. */
  lemma SortedHeadsAgree(a: seq<int>, b: seq<int>)
    requires Sorted(a) && Sorted(b) && a != [] && b != []
    requires multiset(a) == multiset(b)
    ensures a[0] == b[0]
  {
    assert a[0] in multiset(b) && b[0] in multiset(a);
    SortedHeadIsLeast(b, a[0]);
    SortedHeadIsLeast(a, b[0]);
  }

  /** Two sorted sequences with the same elements are the same sequence. */
  lemma {:induction false} SortedUnique(a: seq<int>, b: seq<int>)
    requires Sorted(a) && Sorted(b)
    requires multiset(a) == multiset(b)
    ensures a == b
  {
    assert |a| == |multiset(a)| == |multiset(b)| == |b|;
    if a != [] {
      SortedHeadsAgree(a, b);
      MultisetOfTail(a);
      MultisetOfTail(b);
      SortedTail(a);
      SortedTail(b);
      SortedUnique(a[1..], b[1..]);
      assert a == [a[0]] + a[1..] && b == [b[0]] + b[1..];
    }
  }

  /** Sorting sees only the multiset of its input. */
  lemma SortPermutationInvariant(a: seq<int>, b: seq<int>)
    requires multiset(a) == multiset(b)
    ensures Sort(a) == Sort(b)
  {
    SortedUnique(Sort(a), Sort(b));
  }

  /** Sorting a sorted list gives it back. */
  lemma SortOfSorted(s: seq<int>)
    requires Sorted(s)
    ensures Sort(s) == s
  {
    SortedUnique(Sort(s), s);
  }

  predicate IsDigit(c: char) {
    '0' <= c <= '9'
  }

  function DigitChar(d: int): (c: char)
    requires 0 <= d < 10
    ensures IsDigit(c) && c as int - '0' as int == d
  {
    "0123456789"[d]
  }

  /** Python's `str` on a non-negative integer: decimal digits without leading zeros. */
  function NatToString(n: nat): (s: string)
    ensures |s| >= 1
    ensures forall i :: 0 <= i < |s| ==> IsDigit(s[i])
    ensures s[0] == '0' ==> n == 0
  {
    if n < 10 then [DigitChar(n)] else NatToString(n / 10) + [DigitChar(n % 10)]
  }

  /** Python's `str` on an integer: a minus sign before the digits of a negative number. */
  function IntToString(i: int): (s: string)
    ensures |s| >= 1
    ensures forall k :: 0 <= k < |s| ==> IsDigit(s[k]) || (k == 0 && s[k] == '-')
    ensures s[0] == '-' <==> i < 0
  {
    if i < 0 then "-" + NatToString(-i) else NatToString(i)
  }

  /** `str(n) for n in numbers`. */
  function Decimals(numbers: seq<int>): (r: seq<string>)
    ensures |r| == |numbers|
    ensures forall k :: 0 <= k < |r| ==> r[k] == IntToString(numbers[k])
  {
    if numbers == [] then [] else [IntToString(numbers[0])] + Decimals(numbers[1..])
  }

  /** Python's `sep.join(items)`. */
  function Join(items: seq<string>, sep: string): (r: string)
  {
    if items == [] then ""
    else if |items| == 1 then items[0]
    else items[0] + sep + Join(items[1..], sep)
  }

  /** The label text of the refreshable body for the current list of numbers: the
      sorted decimals between square brackets. */
  function Render(numbers: seq<int>): (r: string)
    ensures |r| >= 2 && r[0] == '[' && r[|r| - 1] == ']'
  {
    "[" + Join(Decimals(Sort(numbers)), ", ") + "]"
  }

  /** Joining at least one non-empty item gives a non-empty string. */
  lemma {:induction false} JoinNonEmpty(items: seq<string>, sep: string)
    requires |items| >= 1 && |items[0]| >= 1
    ensures |Join(items, sep)| >= 1
  {
  }

  /** The rendering is `[]` exactly when there are no numbers, so a display that
      shows the rendering of a non-empty list never shows `[]`. */
  lemma RenderEmptyIff(numbers: seq<int>)
    ensures Render(numbers) == "[]" <==> numbers == []
  {
    var items := Decimals(Sort(numbers));
    if numbers != [] {
      JoinNonEmpty(items, ", ");
      assert |Render(numbers)| > 2;
    }
  }

  /** The rendering depends on the numbers only through their multiset: neither the
      order of insertion nor anything that happened before matters. */
  lemma RenderPermutationInvariant(a: seq<int>, b: seq<int>)
    requires multiset(a) == multiset(b)
    ensures Render(a) == Render(b)
  {
    SortPermutationInvariant(a, b);
  }

  /** The renderings the refreshable tests expect. */
  lemma RenderEmptyList()
    ensures Render([]) == "[]"
  {
  }

  lemma RenderOne()
    ensures Render([1]) == "[1]"
  {
    assert Sort([1]) == [1];
    assert Decimals([1]) == ["1"];
  }

  lemma RenderOneTwo()
    ensures Render([1, 2]) == "[1, 2]"
  {
    var sorted := Sort([1, 2]);
    assert sorted == [1, 2] by { SortOfSorted([1, 2]); }
    var items := Decimals(sorted);
    assert items == ["1", "2"] by { DecimalsOneTwo(); }
    var joined := Join(items, ", ");
    assert joined == "1, 2" by { JoinOneTwo(); }
    assert Render([1, 2]) == "[" + joined + "]";
  }

  lemma JoinOneTwo()
    ensures Join(["1", "2"], ", ") == "1, 2"
  {
    assert ["1", "2"][1..] == ["2"];
  }

  lemma RenderTwoOne()
    ensures Render([2, 1]) == "[1, 2]"
  {
    assert multiset([2, 1]) == multiset([1, 2]);
    RenderPermutationInvariant([2, 1], [1, 2]);
    RenderOneTwo();
  }

  lemma DecimalsOneTwo()
    ensures Decimals([1, 2]) == ["1", "2"]
  {
    assert IntToString(1) == "1" && IntToString(2) == "2";
    assert [1, 2][1..] == [2];
  }
}

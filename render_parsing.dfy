/**
 A reader for the label text of the refreshable tests, the inverse of
 NumberRendering.Render. Reading a rendering back gives the sorted numbers, so the
 rendering pins the list down up to order: two lists render alike exactly when
 they hold the same numbers.
 */
module RenderParsing {
  import opened NumberRendering

  datatype Option<T> = None | Some(value: T)

  predicate AllDigits(s: string) {
    forall i :: 0 <= i < |s| ==> IsDigit(s[i])
  }

  predicate NoComma(s: string) {
    forall i :: 0 <= i < |s| ==> s[i] != ','
  }

  /** The number a string of decimal digits denotes, read from left to right. */
  function DigitsValue(s: string): (n: nat)
    requires AllDigits(s)
  {
    if s == [] then 0 else DigitsValue(s[..|s| - 1]) * 10 + (s[|s| - 1] as int - '0' as int)
  }

  /** An optionally negative decimal integer. */
  function ParseInt(s: string): (r: Option<int>) {
    if |s| >= 2 && s[0] == '-' && AllDigits(s[1..]) then
      var n: int := DigitsValue(s[1..]); Some(-n)
    else if |s| >= 1 && AllDigits(s) then Some(DigitsValue(s))
    else None
  }

  /** The position of the first comma of `s`, or `|s|` when there is none. */
  function CommaIndex(s: string): (k: nat)
    ensures k <= |s|
    ensures forall j :: 0 <= j < k ==> s[j] != ','
    ensures k < |s| ==> s[k] == ','
  {
    if s == [] || s[0] == ',' then 0 else 1 + CommaIndex(s[1..])
  }

  /** The integers of a non-empty list separated by `, `. */
  function ParseItems(s: string): (r: Option<seq<int>>)
    decreases |s|
  {
    var k := CommaIndex(s);
    match ParseInt(s[..k])
    case None => None
    case Some(x) =>
      if k == |s| then
        Some([x])
      else if k + 1 < |s| && s[k + 1] == ' ' then
        match ParseItems(s[k + 2..])
        case None => None
        case Some(rest) => Some([x] + rest)
      else
        None
  }

  /** Read a label `[n1, n2, ...]` back into its numbers. */
  function Parse(t: string): (r: Option<seq<int>>) {
    if |t| >= 2 && t[0] == '[' && t[|t| - 1] == ']' then
      var inner := t[1..|t| - 1];
      if inner == "" then Some([]) else ParseItems(inner)
    else
      None
  }

  lemma {:induction false} NatRoundTrip(n: nat)
    ensures DigitsValue(NatToString(n)) == n
  {
    var s := NatToString(n);
    if n < 10 {
      assert s[..|s| - 1] == [];
    } else {
      assert s[..|s| - 1] == NatToString(n / 10);
      NatRoundTrip(n / 10);
    }
  }

  lemma IntRoundTrip(i: int)
    ensures ParseInt(IntToString(i)) == Some(i)
  {
    if i < 0 {
      NegativeRoundTrip(-i);
    } else {
      NatRoundTrip(i);
      var s := NatToString(i);
      assert AllDigits(s) && s[0] != '-';
    }
  }

  lemma NegativeRoundTrip(n: nat)
    requires n > 0
    ensures ParseInt("-" + NatToString(n)) == Some(-(n as int))
  {
    var digits := NatToString(n);
    var s := "-" + digits;
    assert s[1..] == digits;
    assert AllDigits(digits);
    NatRoundTrip(n);
  }

  lemma {:induction false} CommaIndexAfter(u: string, v: string)
    requires NoComma(u)
    ensures CommaIndex(u + v) == |u| + CommaIndex(v)
  {
    if u != [] {
      assert (u + v)[1..] == u[1..] + v;
      CommaIndexAfter(u[1..], v);
    } else {
      assert u + v == v;
    }
  }

  lemma DecimalNoComma(i: int)
    ensures NoComma(IntToString(i))
  {
  }

  /** Where the first item of `d, rest` ends and the rest begins. */
  lemma SplitFirstItem(d: string, rest: string)
    requires NoComma(d)
    ensures var s := d + (", " + rest);
      CommaIndex(s) == |d| && s[..|d|] == d && |d| + 1 < |s| && s[|d| + 1] == ' ' && s[|d| + 2..] == rest
  {
    CommaIndexAfter(d, ", " + rest);
  }

  /** A single decimal reads back as a one-item list. */
  lemma ItemsSingle(x: int)
    ensures ParseItems(IntToString(x)) == Some([x])
  {
    var d := IntToString(x);
    DecimalNoComma(x);
    CommaIndexAfter(d, "");
    assert d + "" == d;
    assert d[..CommaIndex(d)] == d;
    IntRoundTrip(x);
  }

  /** A decimal, `, ` and a list that reads back read back as the longer list. */
  lemma ItemsCons(x: int, rest: string, xs: seq<int>, s: string)
    requires ParseItems(rest) == Some(xs)
    requires s == IntToString(x) + (", " + rest)
    ensures ParseItems(s) == Some([x] + xs)
  {
    var d := IntToString(x);
    DecimalNoComma(x);
    SplitFirstItem(d, rest);
    IntRoundTrip(x);
  }

  /** The joined decimals of a one-item list are that item's decimal. */
  lemma JoinDecimalsSingle(xs: seq<int>)
    requires |xs| == 1
    ensures Join(Decimals(xs), ", ") == IntToString(xs[0])
  {
    assert Decimals(xs) == [IntToString(xs[0])];
  }

  /** The joined decimals of a longer list: the first decimal, `, `, the rest. */
  lemma JoinDecimalsCons(xs: seq<int>)
    requires |xs| >= 2
    ensures Join(Decimals(xs), ", ") == IntToString(xs[0]) + (", " + Join(Decimals(xs[1..]), ", "))
  {
    var ds := Decimals(xs);
    assert ds[1..] == Decimals(xs[1..]);
  }

  /** Reading back a joined list of decimals gives the list. */
  lemma {:induction false} ItemsRoundTrip(xs: seq<int>)
    requires xs != []
    ensures ParseItems(Join(Decimals(xs), ", ")) == Some(xs)
  {
    if |xs| == 1 {
      assert xs == [xs[0]];
      JoinDecimalsSingle(xs);
      ItemsSingle(xs[0]);
    } else {
      assert xs == [xs[0]] + xs[1..];
      JoinDecimalsCons(xs);
      ItemsRoundTrip(xs[1..]);
      ItemsCons(xs[0], Join(Decimals(xs[1..]), ", "), xs[1..], Join(Decimals(xs), ", "));
    }
  }

  /** Reading a rendering back gives the numbers in sorted order. */
  lemma RenderRoundTrip(numbers: seq<int>)
    ensures Parse(Render(numbers)) == Some(Sort(numbers))
  {
    var inner := Join(Decimals(Sort(numbers)), ", ");
    var t := Render(numbers);
    assert t[1..|t| - 1] == inner;
    if numbers != [] {
      JoinNonEmpty(Decimals(Sort(numbers)), ", ");
      ItemsRoundTrip(Sort(numbers));
    }
  }

  /** Two lists render alike exactly when they hold the same numbers, each as often. */
  lemma RenderInjective(a: seq<int>, b: seq<int>)
    ensures Render(a) == Render(b) <==> multiset(a) == multiset(b)
  {
    if Render(a) == Render(b) {
      RenderRoundTrip(a);
      RenderRoundTrip(b);
      assert Sort(a) == Sort(b);
    }
    if multiset(a) == multiset(b) {
      RenderPermutationInvariant(a, b);
    }
  }
}

/** The "Functions" playground page: a function returning two values (minMax),
    functions with named and defaulted parameters (join and its variants),
    pass-by-reference exchange (swap, swap2) and a one-line square (sqr).

    Swift's `Double` is modelled as `real`: the page only compares and
    multiplies finite values, so NaN, signed zero and rounding are outside
    the model. Swift `String` is `seq<char>`: lengths and equality are over
    Unicode scalars, not Swift's grapheme-cluster `count` and canonical `==`. */
module Functions {

  // ---------------------------------------------------------------------
  // sqr

  /** `sqr(x)` returns the square of its argument, which is never negative. */
  function Sqr(x: real): (r: real)
    ensures r >= 0.0
  {
    x * x
  }

  // ---------------------------------------------------------------------
  // minMax: specification

  /** `m` is no greater than any element of `s`. */
  predicate IsLowerBound(m: real, s: seq<real>) {
    forall j :: 0 <= j < |s| ==> m <= s[j]
  }

  /** `m` is no smaller than any element of `s`. */
  predicate IsUpperBound(m: real, s: seq<real>) {
    forall j :: 0 <= j < |s| ==> s[j] <= m
  }

  /** The smallest element of a non-empty sequence, folded from the left
      as the scan in minMax visits the elements. */
  function MinOf(s: seq<real>): real
    requires |s| > 0
    decreases |s|
  {
    if |s| == 1 then s[0]
    else
      var m := MinOf(s[..|s| - 1]);
      if s[|s| - 1] < m then s[|s| - 1] else m
  }

  /** The largest element of a non-empty sequence, folded from the left. */
  function MaxOf(s: seq<real>): real
    requires |s| > 0
    decreases |s|
  {
    if |s| == 1 then s[0]
    else
      var m := MaxOf(s[..|s| - 1]);
      if s[|s| - 1] > m then s[|s| - 1] else m
  }

  /** MinOf picks an element of the sequence that bounds all others from below. */
  lemma {:induction false} MinOfIsMinimum(s: seq<real>)
    requires |s| > 0
    ensures MinOf(s) in s && IsLowerBound(MinOf(s), s)
  {
    if |s| > 1 {
      var init := s[..|s| - 1];
      MinOfIsMinimum(init);
      assert s == init + [s[|s| - 1]];
    }
  }

  /** MaxOf picks an element of the sequence that bounds all others from above. */
  lemma {:induction false} MaxOfIsMaximum(s: seq<real>)
    requires |s| > 0
    ensures MaxOf(s) in s && IsUpperBound(MaxOf(s), s)
  {
    if |s| > 1 {
      var init := s[..|s| - 1];
      MaxOfIsMaximum(init);
      assert s == init + [s[|s| - 1]];
    }
  }

  /** An element that bounds the sequence from below is its minimum, and one
      that bounds it from above is its maximum: the pair minMax must return
      is fully determined, and its first component never exceeds the second. */
  lemma ExtremesAreUnique(s: seq<real>, lo: real, hi: real)
    requires lo in s && IsLowerBound(lo, s)
    requires hi in s && IsUpperBound(hi, s)
    ensures lo == MinOf(s) && hi == MaxOf(s)
    ensures lo <= hi
  {
    MinOfIsMinimum(s);
    MaxOfIsMaximum(s);
  }

  // ---------------------------------------------------------------------
  // minMax: the scan

  /** `minMax(items)`: one left-to-right pass that keeps the running minimum
      and maximum. `minMax` reads `items[0]` without a check, so an empty
      array is a caller error (a trap), hence the precondition. */
  method MinMax(items: seq<real>) returns (min: real, max: real)
    requires |items| >= 1
    ensures min in items && IsLowerBound(min, items)
    ensures max in items && IsUpperBound(max, items)
    ensures min <= max
    ensures min == MinOf(items) && max == MaxOf(items)
  {
    min := items[0];
    max := items[0];
    for i := 1 to |items|
      invariant min in items[..i] && IsLowerBound(min, items[..i])
      invariant max in items[..i] && IsUpperBound(max, items[..i])
      invariant min <= max
    {
      assert items[..i + 1] == items[..i] + [items[i]];
      if items[i] < min {
        min := items[i];
      } else if items[i] > max {
        max := items[i];
      }
    }
    assert items[..|items|] == items;
    ExtremesAreUnique(items, min, max);
  }

  /** The page's two calls on `[3.5, -4.0, 3, 1]`: the smallest element is
      -4.0 and the largest 3.5. */
  method MinMaxCalls() returns (smallest: real, largest: real)
    ensures smallest == -4.0 && largest == 3.5
  {
    var items := [3.5, -4.0, 3.0, 1.0];
    smallest, largest := MinMax(items);
    assert smallest <= items[1] && largest >= items[0];
  }

  /** On a one-element array the loop body never runs and both results are
      that element. */
  method MinMaxOfSingleton(x: real) returns (lo: real, hi: real)
    ensures lo == x && hi == x
  {
    lo, hi := MinMax([x]);
  }

  // ---------------------------------------------------------------------
  // join and its variants

  /** The joiner `join` uses when none is given. */
  const DefaultJoiner: string := ","

  /** `join(string:toString:joiner:)`: the first string, the joiner, then the
      second string. All three parameters are passed by label; the joiner may
      be omitted. */
  function Join(nameonly str: string, nameonly toString: string,
                nameonly joiner: string := DefaultJoiner): (r: string)
    ensures |r| == |str| + |joiner| + |toString|
    ensures r[..|str|] == str
    ensures r[|str|..|str| + |joiner|] == joiner
    ensures r[|str| + |joiner|..] == toString
  {
    str + joiner + toString
  }

  /** `join2`: the same labels as `join`, without a default joiner. */
  function Join2(nameonly str: string, nameonly toString: string,
                 nameonly joiner: string): (r: string)
    ensures r == Join(str := str, toString := toString, joiner := joiner)
  {
    str + joiner + toString
  }

  /** `join3`: external labels `firstString` and `secondString`. */
  function Join3(nameonly firstString: string, nameonly secondString: string,
                 nameonly joiner: string): (r: string)
    ensures r == Join(str := firstString, toString := secondString, joiner := joiner)
  {
    firstString + joiner + secondString
  }

  /** `join4`: the two strings are passed by position, the joiner by label. */
  function Join4(str: string, toString: string, nameonly joiner: string): (r: string)
    ensures r == Join(str := str, toString := toString, joiner := joiner)
  {
    str + joiner + toString
  }

  /** A joined string determines its parts: given the joiner and the length
      of the first string, both strings are recovered. */
  lemma JoinSplits(s1: string, t1: string, s2: string, t2: string, joiner: string)
    requires |s1| == |s2|
    requires Join(str := s1, toString := t1, joiner := joiner)
          == Join(str := s2, toString := t2, joiner := joiner)
    ensures s1 == s2 && t1 == t2
  {
    var r := Join(str := s1, toString := t1, joiner := joiner);
    assert s1 == r[..|s1|] == s2;
    assert t1 == r[|s1| + |joiner|..] == t2;
  }

  /** The page's five calls: with a space joiner, and with the default or an
      explicit "," through each of the four functions. */
  method JoinCalls() returns (spaced: string, byDefault: string,
                              viaJoin2: string, viaJoin3: string, viaJoin4: string)
    ensures spaced == "hello world"
    ensures byDefault == "hello,world"
    ensures viaJoin2 == byDefault && viaJoin3 == byDefault && viaJoin4 == byDefault
  {
    spaced := Join(str := "hello", toString := "world", joiner := " ");
    assert spaced == "hello" + " " + "world" == "hello world";
    byDefault := Join(str := "hello", toString := "world");
    assert byDefault == "hello" + "," + "world" == "hello,world";
    viaJoin2 := Join2(str := "hello", toString := "world", joiner := ",");
    viaJoin3 := Join3(firstString := "hello", secondString := "world", joiner := ",");
    viaJoin4 := Join4("hello", "world", joiner := ",");
  }

  // ---------------------------------------------------------------------
  // swap and swap2

  /** `swap(a:_:)` on two `inout Int`s. An `inout` argument is copied in and
      written back when the call returns, so the two variables are modelled
      as inputs and the values written back as outputs. Swift forbids passing
      the same variable for both. */
  method Swap(a: int, b: int) returns (a': int, b': int)
    ensures a' == b && b' == a
  {
    var temp := a;
    a' := b;
    b' := temp;
  }

  /** `swap2`: the same exchange for any type. */
  method Swap2<T>(a: T, b: T) returns (a': T, b': T)
    ensures a' == b && b' == a
  {
    var temp := a;
    a' := b;
    b' := temp;
  }

  /** Exchanging twice gives back the original pair. */
  method SwapTwice<T>(a: T, b: T) returns (a': T, b': T)
    ensures a' == a && b' == b
  {
    var x, y := Swap2(a, b);
    a', b' := Swap2(x, y);
  }

  /** The page's swaps: `c, d` start at 5, 6 and are exchanged twice (`c1, d1`
      are the values printed after the first exchange), `e, f` start at 3.5,
      4.5 and are exchanged once. */
  method SwapCalls() returns (c1: int, d1: int, c: int, d: int, e: real, f: real)
    ensures c1 == 6 && d1 == 5
    ensures c == 5 && d == 6
    ensures e == 4.5 && f == 3.5
  {
    c, d := 5, 6;
    c, d := Swap(c, d);
    c1, d1 := c, d;
    e, f := 3.5, 4.5;
    e, f := Swap2(e, f);
    c, d := Swap2(c, d);
  }
}

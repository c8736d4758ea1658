/** Swift standard-library behaviour that the resolver's renderers rely on:
    the fixed-width integer types, `Optional`, `?? ""`, the decimal text of an
    integer in string interpolation, and the description of a `[String]`. */
module Swift {
  import opened Text

  datatype Option<+T> = None | Some(value: T)

  newtype Int32 = x: int | -0x8000_0000 <= x < 0x8000_0000
  newtype UInt16 = x: int | 0 <= x < 0x1_0000
  newtype UInt32 = x: int | 0 <= x < 0x1_0000_0000

  /** `s ?? ""`: an absent string renders as the empty string. */
  function OrEmpty(s: Option<string>): (r: string)
    ensures s.Some? ==> r == s.value
    ensures s.None? ==> r == ""
  {
    match s
    case Some(t) => t
    case None => ""
  }

  predicate IsDigit(c: char) {
    '0' <= c <= '9'
  }

  predicate AllDigits(s: string) {
    forall i :: 0 <= i < |s| ==> IsDigit(s[i])
  }

  function DigitChar(d: nat): (c: char)
    requires d < 10
    ensures IsDigit(c)
  {
    (('0' as int) + d) as char
  }

  /** Base-10 text of a non-negative integer, most significant digit first. */
  function NatDecimal(n: nat): (r: string)
    ensures 0 < |r| && AllDigits(r)
    ensures n < 10 <==> |r| == 1
  {
    if n < 10 then [DigitChar(n)] else NatDecimal(n / 10) + [DigitChar(n % 10)]
  }

  /** `"\(n)"` for a Swift integer: base 10, preceded by '-' when negative. */
  function Decimal(n: int): (r: string)
    ensures 0 < |r|
    ensures r[0] == '-' <==> n < 0
    ensures forall i :: 0 < i < |r| ==> IsDigit(r[i])
    ensures IsDigit(r[0]) || r[0] == '-'
  {
    if n < 0 then "-" + NatDecimal(-n) else NatDecimal(n)
  }

  /** Value of a string of decimal digits. */
  function DigitsValue(s: string): nat
    requires AllDigits(s)
  {
    if s == [] then 0 else 10 * DigitsValue(s[..|s| - 1]) + (s[|s| - 1] as int - '0' as int)
  }

  /** Reads back an integer written in base 10 with an optional leading '-'. */
  function ParseDecimal(s: string): (r: Option<int>)
    ensures r.Some? ==> 0 < |s|
  {
    if 0 < |s| && AllDigits(s) then Some(DigitsValue(s))
    else if 1 < |s| && s[0] == '-' && AllDigits(s[1..]) then
      var magnitude: int := DigitsValue(s[1..]);
      Some(-magnitude)
    else None
  }

  lemma {:induction false} NatDecimalRoundTrip(n: nat)
    ensures DigitsValue(NatDecimal(n)) == n
  {
    if n >= 10 {
      NatDecimalRoundTrip(n / 10);
      var s := NatDecimal(n);
      assert s[..|s| - 1] == NatDecimal(n / 10);
    }
  }

  /** The decimal text of an integer reads back as that integer. */
  lemma DecimalRoundTrip(n: int)
    ensures ParseDecimal(Decimal(n)) == Some(n)
  {
    if n < 0 {
      NatDecimalRoundTrip(-n);
      assert Decimal(n)[1..] == NatDecimal(-n);
    } else {
      NatDecimalRoundTrip(n);
    }
  }

  /** Distinct integers have distinct decimal texts. */
  lemma DecimalInjective(m: int, n: int)
    requires Decimal(m) == Decimal(n)
    ensures m == n
  {
    DecimalRoundTrip(m);
    DecimalRoundTrip(n);
  }

  /** `"\(xs)"` for a `[String]`: each element between double quotes,
      separated by ", ", the whole between brackets. */
  function ArrayDescription(xs: seq<string>): (r: string)
    ensures 2 <= |r| && r[0] == '[' && r[|r| - 1] == ']'
    ensures r == "[]" <==> xs == []
  {
    "[" + QuotedList(xs) + "]"
  }

  function QuotedList(xs: seq<string>): (r: string)
    ensures r == [] <==> xs == []
  {
    if xs == [] then ""
    else "\"" + xs[0] + "\"" + (if |xs| == 1 then "" else ", " + QuotedList(xs[1..]))
  }

  /** No element contains a double quote. */
  predicate QuoteFree(xs: seq<string>) {
    forall i :: 0 <= i < |xs| ==> '"' !in xs[i]
  }

  /** Elements free of double quotes are read back from the array's text. */
  lemma ArrayDescriptionInjective(xs: seq<string>, ys: seq<string>)
    requires QuoteFree(xs) && QuoteFree(ys)
    requires ArrayDescription(xs) == ArrayDescription(ys)
    ensures xs == ys
  {
    CancelAround("[", QuotedList(xs), QuotedList(ys), "]");
    QuotedListInjective(xs, ys);
  }

  lemma {:induction false} QuotedListInjective(xs: seq<string>, ys: seq<string>)
    requires QuoteFree(xs) && QuoteFree(ys)
    requires QuotedList(xs) == QuotedList(ys)
    ensures xs == ys
  {
    if xs != [] {
      var rest1 := if |xs| == 1 then "" else ", " + QuotedList(xs[1..]);
      var rest2 := if |ys| == 1 then "" else ", " + QuotedList(ys[1..]);
      assert '"' !in xs[0] && '"' !in ys[0];
      PeelQuoted(xs[0], rest1, ys[0], rest2);
      if |xs| > 1 {
        CancelLeft(", ", QuotedList(xs[1..]), QuotedList(ys[1..]));
        assert QuoteFree(xs[1..]) && QuoteFree(ys[1..]);
        QuotedListInjective(xs[1..], ys[1..]);
        assert xs == [xs[0]] + xs[1..];
        assert ys == [ys[0]] + ys[1..];
      }
    }
  }

  /** A quoted element free of double quotes is read back from the text it opens. */
  lemma PeelQuoted(a1: string, rest1: string, a2: string, rest2: string)
    requires '"' !in a1 && '"' !in a2
    requires "\"" + a1 + "\"" + rest1 == "\"" + a2 + "\"" + rest2
    ensures a1 == a2 && rest1 == rest2
  {
    assert "\"" + a1 + "\"" + rest1 == "\"" + (a1 + ("\"" + rest1));
    assert "\"" + a2 + "\"" + rest2 == "\"" + (a2 + ("\"" + rest2));
    CancelLeft("\"", a1 + ("\"" + rest1), a2 + ("\"" + rest2));
    IndexOfAfter(a1, "\"" + rest1, '"');
    IndexOfAfter(a2, "\"" + rest2, '"');
    CancelLeftSameLength(a1, "\"" + rest1, a2, "\"" + rest2);
    CancelLeft("\"", rest1, rest2);
  }
}

/** Facts about strings used to read values back out of rendered text. */
module Text {

  /** Position of the first `c` in `s`, or `|s|` when there is none. */
  function IndexOf(s: string, c: char): (i: nat)
    ensures i <= |s|
    ensures i < |s| ==> s[i] == c
    ensures forall j :: 0 <= j < i ==> s[j] != c
  {
    if s == [] then 0
    else if s[0] == c then 0
    else 1 + IndexOf(s[1..], c)
  }

  lemma IndexOfAfter(a: string, b: string, c: char)
    requires c !in a && 0 < |b| && b[0] == c
    ensures IndexOf(a + b, c) == |a|
  {
    assert (a + b)[|a|] == c;
    assert forall j :: 0 <= j < |a| ==> (a + b)[j] == a[j];
  }

  /** Position of the last `c` in `s`, or `|s|` when there is none. */
  function LastIndexOf(s: string, c: char): (i: nat)
    ensures i <= |s|
    ensures i < |s| ==> s[i] == c && forall j :: i < j < |s| ==> s[j] != c
    ensures i == |s| ==> c !in s
  {
    if s == [] then 0
    else if s[|s| - 1] == c then |s| - 1
    else
      var i := LastIndexOf(s[..|s| - 1], c);
      if i == |s| - 1 then |s| else i
  }

  lemma LastIndexOfBefore(a: string, b: string, c: char)
    requires c !in b
    ensures LastIndexOf(a + [c] + b, c) == |a|
  {
    var s := a + [c] + b;
    var i := LastIndexOf(s, c);
    assert s[|a|] == c;
    assert c in s;
    assert |a| <= i < |s|;
  }

  /** Two texts that end in a `c` followed by a `c`-free tail split there the same way. */
  lemma SplitAtLast(x1: string, t1: string, x2: string, t2: string, c: char)
    requires x1 + [c] + t1 == x2 + [c] + t2
    requires c !in t1 && c !in t2
    ensures x1 == x2 && t1 == t2
  {
    var s := x1 + [c] + t1;
    assert s[|x1|] == c && s[|x2|] == c;
    assert forall k :: |x1| < k < |s| ==> s[k] == t1[k - |x1| - 1];
    assert forall k :: |x2| < k < |s| ==> s[k] == t2[k - |x2| - 1];
    assert |x1| == |x2|;
    CancelRight(x1 + [c], t1, x2 + [c], t2);
    CancelRight(x1, [c], x2, [c]);
  }

  lemma CancelLeft(p: string, v1: string, v2: string)
    requires p + v1 == p + v2
    ensures v1 == v2
  {
    assert v1 == (p + v1)[|p|..];
    assert v2 == (p + v2)[|p|..];
  }

  lemma CancelLeftSameLength(a1: string, b1: string, a2: string, b2: string)
    requires a1 + b1 == a2 + b2 && |a1| == |a2|
    ensures a1 == a2 && b1 == b2
  {
    CancelRight(a1, b1, a2, b2);
  }

  lemma CancelRight(a1: string, b1: string, a2: string, b2: string)
    requires a1 + b1 == a2 + b2 && |b1| == |b2|
    ensures a1 == a2 && b1 == b2
  {
    assert a1 == (a1 + b1)[..|a1|];
    assert a2 == (a2 + b2)[..|a2|];
    assert b1 == (a1 + b1)[|a1|..];
    assert b2 == (a2 + b2)[|a2|..];
  }

  /** A text between a fixed prefix and a fixed suffix is determined by the whole. */
  lemma CancelAround(p: string, v1: string, v2: string, q: string)
    requires p + v1 + q == p + v2 + q
    ensures v1 == v2
  {
    CancelRight(p + v1, q, p + v2, q);
    assert v1 == (p + v1)[|p|..];
    assert v2 == (p + v2)[|p|..];
  }
}

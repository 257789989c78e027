/** String helpers the visitor relies on: the QCString operations it calls
    (findRev, right, operator+=), QTextStream's rendering of an int, and the
    comma-joined parameter list, each with its inverse or characterisation. */
module Text {

  /** QCString::findRev(c): the index of the last occurrence of `c`, or -1. */
  function LastIndexOf(s: string, c: char): (r: int)
    ensures -1 <= r < |s|
    ensures r == -1 <==> c !in s
    ensures r >= 0 ==> s[r] == c && c !in s[r + 1..]
  {
    if |s| == 0 then -1
    else if s[|s| - 1] == c then |s| - 1
    else
      assert s == s[..|s| - 1] + [s[|s| - 1]];
      LastIndexOf(s[..|s| - 1], c)
  }

  /** True when `suffix` is a suffix of `s`. */
  predicate EndsWith(s: string, suffix: string)
  {
    |suffix| <= |s| && s[|s| - |suffix|..] == suffix
  }

  /** QCString::right(n): the last `n` characters, or the whole string when it is shorter. */
  function Right(s: string, n: nat): (r: string)
    ensures |r| == if n < |s| then n else |s|
    ensures EndsWith(s, r)
  {
    if n >= |s| then s else s[|s| - n..]
  }

  /** `right(length() - i - 1)` is everything after position `i`. */
  lemma RightAfter(s: string, i: int)
    requires 0 <= i < |s|
    ensures Right(s, |s| - i - 1) == s[i + 1..]
  {
  }

  /** Comparing `right(|suffix|)` with `suffix`, as the visitor does, is exactly a suffix test. */
  lemma RightMatchesIffEndsWith(s: string, suffix: string)
    ensures Right(s, |suffix|) == suffix <==> EndsWith(s, suffix)
  {
    if |suffix| > |s| {
      assert |Right(s, |suffix|)| == |s| < |suffix|;
    }
  }

  // ---------------------------------------------------------------------------
  // Appending several pieces to a stream one after the other appends their
  // concatenation.
  // ---------------------------------------------------------------------------

  lemma Regroup2(o: string, a: string, b: string)
    ensures o + (a + b) == o + a + b
  {
  }

  lemma Regroup3(o: string, a: string, b: string, c: string)
    ensures o + (a + b + c) == o + a + b + c
  {
  }

  lemma Regroup4(o: string, a: string, b: string, c: string, d: string)
    ensures o + (a + b + c + d) == o + a + b + c + d
  {
  }

  lemma Regroup5(o: string, a: string, b: string, c: string, d: string, e: string)
    ensures o + (a + b + c + d + e) == o + a + b + c + d + e
  {
  }

  // ---------------------------------------------------------------------------
  // Decimal rendering of integers (QTextStream << int) and its inverse.
  // ---------------------------------------------------------------------------

  predicate IsDigit(c: char)
  {
    '0' <= c <= '9'
  }

  function DigitChar(d: nat): (c: char)
    requires d < 10
    ensures IsDigit(c)
  {
    "0123456789"[d]
  }

  function DigitValue(c: char): (d: nat)
  {
    if IsDigit(c) then c as int - '0' as int else 0
  }

  /** Decimal digits of `n`, most significant first, without leading zeros. */
  function NatToString(n: nat): (r: string)
    ensures |r| > 0
    ensures forall k :: 0 <= k < |r| ==> IsDigit(r[k])
    ensures n > 0 ==> r[0] != '0'
  {
    if n < 10 then [DigitChar(n)]
    else NatToString(n / 10) + [DigitChar(n % 10)]
  }

  /** What `m_t << i` writes for an int: a minus sign for negatives, then the digits. */
  function IntToString(i: int): (r: string)
  {
    if i < 0 then "-" + NatToString(-i) else NatToString(i)
  }

  function ParseNat(s: string): (n: nat)
  {
    if |s| == 0 then 0 else ParseNat(s[..|s| - 1]) * 10 + DigitValue(s[|s| - 1])
  }

  function ParseInt(s: string): (i: int)
  {
    if |s| > 0 && s[0] == '-' then -(ParseNat(s[1..]) as int) else ParseNat(s)
  }

  lemma {:induction false} ParseNatToString(n: nat)
    ensures ParseNat(NatToString(n)) == n
  {
    if n >= 10 {
      var r := NatToString(n);
      assert r[..|r| - 1] == NatToString(n / 10);
      ParseNatToString(n / 10);
    }
  }

  /** A leading minus sign negates the number its digits spell. */
  lemma ParseIntMinus(digits: string)
    ensures ParseInt("-" + digits) == -(ParseNat(digits) as int)
  {
    var s := "-" + digits;
    assert s[0] == '-' && s[1..] == digits;
  }

  /** The number written into a heading tag reads back as the same number. */
  lemma IntToStringRoundTrip(i: int)
    ensures ParseInt(IntToString(i)) == i
  {
    if i < 0 {
      var n: nat := -i;
      var digits := NatToString(n);
      ParseNatToString(n);
      var parsed := ParseNat(digits);
      assert parsed == n;
      ParseIntMinus(digits);
      assert IntToString(i) == "-" + digits;
    } else {
      var digits := NatToString(i);
      assert IntToString(i) == digits;
      assert IsDigit(digits[0]);
      assert ParseInt(digits) == ParseNat(digits);
      ParseNatToString(i);
    }
  }

  // ---------------------------------------------------------------------------
  // Comma-joined parameter names and their inverse.
  // ---------------------------------------------------------------------------

  /** The names separated by single commas, with no leading or trailing comma.
      Built left to right, as the writing loop produces it. */
  function JoinComma(names: seq<string>): (r: string)
  {
    if |names| == 0 then ""
    else if |names| == 1 then names[0]
    else JoinComma(names[..|names| - 1]) + "," + names[|names| - 1]
  }

  /** Appending one more name: the name alone when it is the first, otherwise
      a comma and the name. */
  lemma JoinCommaSnoc(names: seq<string>, i: int)
    requires 0 <= i < |names|
    ensures i == 0 ==> JoinComma(names[..i + 1]) == names[i]
    ensures i > 0 ==> JoinComma(names[..i + 1]) == JoinComma(names[..i]) + "," + names[i]
  {
    assert names[..i + 1][..i] == names[..i];
  }

  /** Splits at every comma (the inverse of JoinComma on comma-free names). */
  function SplitComma(s: string): (parts: seq<string>)
    ensures |parts| > 0
    decreases |s|
  {
    var k := LastIndexOf(s, ',');
    if k == -1 then [s] else SplitComma(s[..k]) + [s[k + 1..]]
  }

  predicate CommaFree(names: seq<string>)
  {
    forall i :: 0 <= i < |names| ==> ',' !in names[i]
  }

  /** The last comma of `a + "," + b` is the one between them when `b` holds none. */
  lemma LastCommaBetween(a: string, b: string)
    requires ',' !in b
    ensures LastIndexOf(a + "," + b, ',') == |a|
  {
    var s := a + "," + b;
    assert s[|a|] == ',';
  }

  /** Splitting `a + "," + b` splits `a` and keeps `b` whole when `b` holds no comma. */
  lemma SplitCommaSnoc(a: string, b: string)
    requires ',' !in b
    ensures SplitComma(a + "," + b) == SplitComma(a) + [b]
  {
    var s := a + "," + b;
    LastCommaBetween(a, b);
    assert s[..|a|] == a;
    assert s[|a| + 1..] == b;
  }

  lemma CommaFreePrefix(names: seq<string>, k: nat)
    requires k <= |names| && CommaFree(names)
    ensures CommaFree(names[..k])
  {
    forall i | 0 <= i < k ensures ',' !in names[..k][i] {
      assert names[..k][i] == names[i];
    }
  }

  /** Parameter names without commas can be read back from the joined row. */
  lemma {:induction false} SplitJoin(names: seq<string>)
    requires |names| > 0 && CommaFree(names)
    ensures SplitComma(JoinComma(names)) == names
  {
    var n := |names|;
    if n > 1 {
      var init, last := names[..n - 1], names[n - 1];
      assert ',' !in last;
      assert JoinComma(names) == JoinComma(init) + "," + last;
      SplitCommaSnoc(JoinComma(init), last);
      CommaFreePrefix(names, n - 1);
      SplitJoin(init);
      assert names == init + [last];
    }
  }

  /** A non-empty joined row reads back as its names when they hold no comma,
      and is as long as the names plus one comma between each pair. */
  lemma JoinedRow(names: seq<string>)
    ensures |names| > 0 && CommaFree(names) ==> SplitComma(JoinComma(names)) == names
    ensures |names| > 0 ==> |JoinComma(names)| == TotalLength(names) + |names| - 1
  {
    if |names| > 0 {
      JoinCommaLength(names);
      if CommaFree(names) {
        SplitJoin(names);
      }
    }
  }

  /** The joined row is as long as the names plus one comma between each pair. */
  lemma {:induction false} JoinCommaLength(names: seq<string>)
    requires |names| > 0
    ensures |JoinComma(names)| == TotalLength(names) + |names| - 1
  {
    if |names| > 1 {
      JoinCommaLength(names[..|names| - 1]);
      TotalLengthSnoc(names[..|names| - 1], names[|names| - 1]);
      assert names == names[..|names| - 1] + [names[|names| - 1]];
    }
  }

  function TotalLength(names: seq<string>): (n: nat)
  {
    if |names| == 0 then 0 else |names[0]| + TotalLength(names[1..])
  }

  lemma {:induction false} TotalLengthSnoc(names: seq<string>, last: string)
    ensures TotalLength(names + [last]) == TotalLength(names) + |last|
  {
    if |names| > 0 {
      assert (names + [last])[1..] == names[1..] + [last];
      TotalLengthSnoc(names[1..], last);
    }
  }
}

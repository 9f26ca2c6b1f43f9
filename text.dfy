/**
 * The string operations the application borrows from its toolkit: searching
 * for a character, taking a prefix, decimal formatting of numbers, and the
 * inverse operations used to state what a formatted string contains.
 */
module Text {
  import opened Wrappers

  /** The position of the first `x` in `s`, or `|s|` when there is none. */
  function IndexOf<T(==)>(s: seq<T>, x: T): (k: nat)
    ensures k <= |s|
    ensures k < |s| ==> s[k] == x
    ensures forall j :: 0 <= j < k ==> s[j] != x
    ensures k == |s| <==> x !in s
  {
    if s == [] then 0
    else if s[0] == x then 0
    else 1 + IndexOf(s[1..], x)
  }

  /** `lastIndexOf(c)`: the position of the last `c` in `s`, or -1 when there is none. */
  function LastIndexOf(s: string, c: char): (k: int)
    ensures -1 <= k < |s|
    ensures k >= 0 ==> s[k] == c
    ensures forall j :: k < j < |s| ==> s[j] != c
    ensures k == -1 <==> c !in s
  {
    if s == [] then -1
    else if s[|s| - 1] == c then |s| - 1
    else LastIndexOf(s[..|s| - 1], c)
  }

  /**
   * `left(n)`: the first `n` characters; all of `s` when `n` reaches past its
   * end, and nothing when `n` is negative.
   */
  function Left(s: string, n: int): (r: string)
    ensures n >= |s| ==> r == s
    ensures n < 0 ==> r == []
    ensures 0 <= n <= |s| ==> r == s[..n]
  {
    if n >= |s| then s
    else if n < 0 then []
    else s[..n]
  }

  /** What a C string sees of `s`: everything before the first NUL character. */
  function TruncateAtNul(s: string): (r: string)
    ensures '\0' !in r
    ensures r <= s
    ensures '\0' !in s ==> r == s
    ensures |r| < |s| ==> s[|r|] == '\0'
  {
    s[..IndexOf(s, '\0')]
  }

  predicate IsDigit(c: char) {
    '0' <= c <= '9'
  }

  predicate AllDigits(s: string) {
    forall k :: 0 <= k < |s| ==> IsDigit(s[k])
  }

  function DigitChar(d: nat): (c: char)
    requires d < 10
    ensures IsDigit(c)
  {
    ('0' as int + d) as char
  }

  function DigitValue(c: char): (d: nat)
    requires IsDigit(c)
    ensures d < 10
  {
    c as int - '0' as int
  }

  /** `QString::number(n)`: the decimal digits of `n`, without leading zeros. */
  function Decimal(n: nat): (s: string)
    ensures |s| >= 1
    ensures AllDigits(s)
    ensures s[0] == '0' ==> n == 0
    decreases n
  {
    if n < 10 then [DigitChar(n)] else Decimal(n / 10) + [DigitChar(n % 10)]
  }

  /** The number a string of decimal digits denotes. */
  function DigitsValue(s: string): nat
    requires AllDigits(s)
    decreases |s|
  {
    if s == [] then 0 else 10 * DigitsValue(s[..|s| - 1]) + DigitValue(s[|s| - 1])
  }

  /** Reads a decimal number back; `None` for an empty string or one with other characters. */
  function ParseNat(s: string): (r: Option<nat>)
    ensures r.Some? <==> s != [] && AllDigits(s)
  {
    if s != [] && AllDigits(s) then Some(DigitsValue(s)) else None
  }

  /** Reading a formatted number gives the number back. */
  lemma {:induction false} DecimalRoundTrip(n: nat)
    ensures ParseNat(Decimal(n)) == Some(n)
    decreases n
  {
    var s := Decimal(n);
    if n < 10 {
      assert s == [DigitChar(n)];
      assert s[..|s| - 1] == [];
      assert DigitsValue(s) == 10 * DigitsValue([]) + DigitValue(s[0]);
    } else {
      DecimalRoundTrip(n / 10);
      assert s[..|s| - 1] == Decimal(n / 10);
      assert DigitValue(s[|s| - 1]) == n % 10;
    }
  }

  /** The fields of `s` between the occurrences of `sep`, in order. */
  function Split(s: string, sep: char): (fields: seq<string>)
    ensures |fields| >= 1
    ensures forall k :: 0 <= k < |fields| ==> sep !in fields[k]
    decreases |s|
  {
    var k := IndexOf(s, sep);
    if k == |s| then [s] else [s[..k]] + Split(s[k + 1..], sep)
  }

  /** A field joined to the rest by a separator comes back as the first field. */
  lemma SplitJoined(x: string, sep: char, y: string)
    requires sep !in x
    ensures Split(x + [sep] + y, sep) == [x] + Split(y, sep)
  {
    var s := x + [sep] + y;
    var k := IndexOf(s, sep);
    assert s[|x|] == sep;
    assert k == |x|;
    assert s[..k] == x;
    assert s[k + 1..] == y;
  }

  /** A string without the separator is a single field. */
  lemma SplitSingle(x: string, sep: char)
    requires sep !in x
    ensures Split(x, sep) == [x]
  {
  }

  /** A decimal string never holds a dash, so dashes can separate numbers. */
  lemma DecimalHasNoDash(n: nat)
    ensures '-' !in Decimal(n)
  {
  }

  /** The fields joined into one string, with `sep` between neighbours. */
  function Join(fields: seq<string>, sep: char): string
    requires |fields| >= 1
    decreases |fields|
  {
    if |fields| == 1 then fields[0] else fields[0] + [sep] + Join(fields[1..], sep)
  }

  /** Splitting undoes joining when no field holds the separator. */
  lemma {:induction false} SplitJoin(fields: seq<string>, sep: char)
    requires |fields| >= 1
    requires forall k :: 0 <= k < |fields| ==> sep !in fields[k]
    ensures Split(Join(fields, sep), sep) == fields
    decreases |fields|
  {
    if |fields| == 1 {
      SplitSingle(fields[0], sep);
    } else {
      SplitJoin(fields[1..], sep);
      SplitJoined(fields[0], sep, Join(fields[1..], sep));
    }
  }
}

/** String helpers with the semantics of the Python built-ins the core uses. */
module Text {

  /** `sep.join(parts)` */
  function Join(parts: seq<string>, sep: string): string
  {
    if |parts| == 0 then ""
    else if |parts| == 1 then parts[0]
    else parts[0] + sep + Join(parts[1..], sep)
  }

  lemma {:induction false} JoinAppend(parts: seq<string>, last: string, sep: string)
    requires |parts| > 0
    ensures Join(parts + [last], sep) == Join(parts, sep) + sep + last
  {
    if |parts| == 1 {
      assert parts + [last] == [parts[0], last];
    } else {
      assert (parts + [last])[1..] == parts[1..] + [last];
      JoinAppend(parts[1..], last, sep);
    }
  }

  /** `s.split(c)` for a one-character separator: never empty. */
  function Split(s: string, c: char): (r: seq<string>)
    ensures |r| >= 1
    ensures |r| == 1 <==> c !in s
    ensures Join(r, [c]) == s
  {
    if |s| == 0 then [""]
    else
      var rest := Split(s[1..], c);
      if s[0] == c then [""] + rest
      else [[s[0]] + rest[0]] + rest[1..]
  }

  /** Splitting text that holds exactly one separator yields the two sides. */
  lemma {:induction false} SplitOnce(a: string, b: string, c: char)
    requires c !in a && c !in b
    ensures Split(a + [c] + b, c) == [a, b]
  {
    if |a| == 0 {
      assert a + [c] + b == [c] + b;
      assert ([c] + b)[1..] == b;
    } else {
      assert (a + [c] + b)[1..] == a[1..] + [c] + b;
      SplitOnce(a[1..], b, c);
      assert a == [a[0]] + a[1..];
    }
  }

  /** `s.replace(c, r)` for a one-character pattern. */
  function ReplaceChar(s: string, c: char, r: string): (t: string)
    ensures c !in r ==> c !in t
  {
    if |s| == 0 then ""
    else (if s[0] == c then r else [s[0]]) + ReplaceChar(s[1..], c, r)
  }

  /** Replacing a character distributes over concatenation. */
  lemma {:induction false} ReplaceCharAppend(a: string, b: string, c: char, r: string)
    ensures ReplaceChar(a + b, c, r) == ReplaceChar(a, c, r) + ReplaceChar(b, c, r)
  {
    if |a| > 0 {
      assert (a + b)[1..] == a[1..] + b;
      ReplaceCharAppend(a[1..], b, c, r);
    } else {
      assert a + b == b;
    }
  }

  predicate IsAsciiDigit(ch: char) { '0' <= ch <= '9' }

  /** `s.isdigit()` restricted to ASCII digits. */
  predicate IsDigits(s: string)
  {
    |s| > 0 && forall i :: 0 <= i < |s| ==> IsAsciiDigit(s[i])
  }

  /** `int(s)` for a string of ASCII digits. */
  function DigitsValue(s: string): (n: nat)
    requires forall i :: 0 <= i < |s| ==> IsAsciiDigit(s[i])
  {
    if |s| == 0 then 0
    else 10 * DigitsValue(s[..|s| - 1]) + DigitValue(s[|s| - 1])
  }

  function DigitValue(ch: char): nat
    requires IsAsciiDigit(ch)
  {
    ch as int - '0' as int
  }

  /** Decimal digits of a natural number, most significant first. */
  function NatDigits(n: nat): (s: string)
    ensures IsDigits(s)
    ensures DigitsValue(s) == n
  {
    var d := ['0' + ((n % 10) as char)];
    if n < 10 then d
    else
      var hi := NatDigits(n / 10);
      assert (hi + d)[..|hi + d| - 1] == hi;
      hi + d
  }

  /** `str(i)` for a Python int. */
  function IntToString(i: int): (s: string)
    ensures |s| > 0
    ensures i >= 0 ==> IsDigits(s) && DigitsValue(s) == i
    ensures i < 0 ==> s[0] == '-' && IsDigits(s[1..]) && DigitsValue(s[1..]) == -i
  {
    if i >= 0 then NatDigits(i) else "-" + NatDigits(-i)
  }

  /** Python's `a < b` on str: lexicographic by code point, a proper prefix is smaller. */
  predicate StrLess(a: string, b: string)
  {
    if |b| == 0 then false
    else if |a| == 0 then true
    else if a[0] != b[0] then a[0] < b[0]
    else StrLess(a[1..], b[1..])
  }

  /** Python's `a >= b` on str. */
  predicate StrGe(a: string, b: string) { !StrLess(a, b) }

  lemma {:induction false} StrLessIrreflexive(a: string)
    ensures !StrLess(a, a)
  {
    if |a| > 0 { StrLessIrreflexive(a[1..]); }
  }

  lemma {:induction false} StrLessTrichotomy(a: string, b: string)
    ensures a == b || StrLess(a, b) || StrLess(b, a)
  {
    if |a| > 0 && |b| > 0 && a[0] == b[0] {
      StrLessTrichotomy(a[1..], b[1..]);
      if a[1..] == b[1..] {
        assert a == [a[0]] + a[1..] && b == [b[0]] + b[1..];
      }
    }
  }
}

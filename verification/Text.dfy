/**
 Machine numbers, and the little of Go's `strings` and `strconv` that the operator
 relies on: decimal text, 64-bit parsing and splitting on a separator.
 */
module Text {

  datatype Option<+T> = None | Some(value: T)

  newtype int32 = x: int | -0x8000_0000 <= x < 0x8000_0000

  const TWO32: nat := 0x1_0000_0000
  const UINT64_LIMIT: nat := 0x1_0000_0000_0000_0000

  /** The base-ten text of a natural number, without leading zeros. */
  function Decimal(n: nat): string
  {
    if n < 10 then [DigitChar(n)] else Decimal(n / 10) + [DigitChar(n % 10)]
  }

  /** The text that the verb `%d` prints for an integer of either sign. */
  function IntText(n: int): string
  {
    if n < 0 then "-" + Decimal(-n) else Decimal(n)
  }

  function DigitChar(d: nat): char
    requires d < 10
  {
    ('0' as int + d) as char
  }

  predicate IsDigit(c: char)
  {
    '0' <= c <= '9'
  }

  predicate AllDigits(s: string)
  {
    forall i :: 0 <= i < |s| ==> IsDigit(s[i])
  }

  /** The number that a string of digits denotes, leading zeros allowed. */
  function Value(s: string): nat
    requires AllDigits(s)
  {
    if s == [] then 0 else 10 * Value(s[..|s| - 1]) + (s[|s| - 1] as int - '0' as int)
  }

  /** `strconv.ParseUint(s, 10, 64)`: no sign, at least one digit, no overflow. */
  function ParseUint64(s: string): Option<nat>
  {
    if s == [] || !AllDigits(s) || Value(s) >= UINT64_LIMIT then None else Some(Value(s))
  }

  function IndexOf(s: string, c: char): (i: nat)
    requires c in s
    ensures i < |s| && s[i] == c && c !in s[..i]
  {
    if s[0] == c then 0 else 1 + IndexOf(s[1..], c)
  }

  /** `strings.Split` on a one-character separator. */
  function Split(s: string, sep: char): (tokens: seq<string>)
    ensures |tokens| >= 1
    decreases |s|
  {
    if sep !in s then [s]
    else
      var i := IndexOf(s, sep);
      [s[..i]] + Split(s[i + 1..], sep)
  }

  function LastToken(s: string, sep: char): string
  {
    var tokens := Split(s, sep);
    tokens[|tokens| - 1]
  }

  // ----- Properties -----

  lemma {:induction false} DecimalDigits(n: nat)
    ensures Decimal(n) != [] && AllDigits(Decimal(n)) && Value(Decimal(n)) == n
  {
    var d := Decimal(n);
    if n >= 10 {
      DecimalDigits(n / 10);
      assert d[..|d| - 1] == Decimal(n / 10);
    }
  }

  /** Printing and then parsing a 64-bit number gives the number back. */
  lemma DecimalRoundTrip(n: nat)
    requires n < UINT64_LIMIT
    ensures ParseUint64(Decimal(n)) == Some(n)
  {
    DecimalDigits(n);
  }

  lemma {:induction false} FirstIndex(s: string, c: char, j: nat)
    requires j < |s| && s[j] == c && c !in s[..j]
    ensures IndexOf(s, c) == j
  {
    if j > 0 {
      assert s[0] == s[..j][0];
      assert s[1..][..j - 1] == s[..j][1..];
      FirstIndex(s[1..], c, j - 1);
    }
  }

  lemma SplitOnce(head: string, sep: char, rest: string)
    requires sep !in head
    ensures Split(head + [sep] + rest, sep) == [head] + Split(rest, sep)
  {
    var s := head + [sep] + rest;
    assert s[|head|] == sep && s[..|head|] == head && s[|head| + 1..] == rest;
    FirstIndex(s, sep, |head|);
  }

  lemma SplitBefore(head: string, sep: char, rest: string)
    requires sep !in head
    ensures LastToken(head + ([sep] + rest), sep) == LastToken(rest, sep)
  {
    assert head + ([sep] + rest) == head + [sep] + rest;
    SplitOnce(head, sep, rest);
  }

  /** What follows the last separator is the last token, whatever precedes it. */
  lemma {:induction false} LastTokenOfSuffix(base: string, sep: char, tail: string)
    requires sep !in tail
    ensures LastToken(base + [sep] + tail, sep) == tail
    decreases |base|
  {
    if sep in base {
      var i := IndexOf(base, sep);
      var rest := base[i + 1..] + [sep] + tail;
      assert base + [sep] + tail == base[..i] + ([sep] + rest) by {
        assert base == base[..i] + ([sep] + base[i + 1..]);
      }
      SplitBefore(base[..i], sep, rest);
      LastTokenOfSuffix(base[i + 1..], sep, tail);
    } else {
      assert base + [sep] + tail == base + ([sep] + tail);
      SplitBefore(base, sep, tail);
      assert Split(tail, sep) == [tail];
    }
  }

  /** The last token is the string itself, or what follows its last separator. */
  lemma {:induction false} LastTokenIsSuffix(s: string, sep: char) returns (base: string)
    ensures sep !in LastToken(s, sep)
    ensures s == LastToken(s, sep) || s == base + [sep] + LastToken(s, sep)
    decreases |s|
  {
    base := "";
    if sep in s {
      var i := IndexOf(s, sep);
      var head, rest := s[..i], s[i + 1..];
      assert s == head + ([sep] + rest);
      SplitBefore(head, sep, rest);
      var inner := LastTokenIsSuffix(rest, sep);
      base := if rest == LastToken(rest, sep) then head else head + [sep] + inner;
      Regroup(s, head, sep, inner, rest, LastToken(s, sep));
    }
  }

  lemma Regroup(s: string, head: string, sep: char, inner: string, rest: string, last: string)
    requires s == head + ([sep] + rest) && (rest == last || rest == inner + [sep] + last)
    ensures s == (if rest == last then head else head + [sep] + inner) + [sep] + last
  {
  }

  /** The string ends in the digits of `n`, and they are all of it or follow a separator. */
  ghost predicate EndsIn(s: string, sep: char, n: nat)
  {
    exists t: string ::
      AllDigits(t) && t != "" && Value(t) == n && (s == t || exists base: string :: s == base + [sep] + t)
  }

  /** What is read as the number at the end of a string, exactly. */
  lemma LastNumberExactly(s: string, sep: char, n: nat)
    requires !IsDigit(sep)
    ensures ParseUint64(LastToken(s, sep)) == Some(n) <==> EndsIn(s, sep, n) && n < UINT64_LIMIT
  {
    var base := LastTokenIsSuffix(s, sep);
    if EndsIn(s, sep, n) {
      var t :| AllDigits(t) && t != "" && Value(t) == n && (s == t || exists base: string :: s == base + [sep] + t);
      if s == t {
        assert Split(s, sep) == [s];
      } else {
        var b: string :| s == b + [sep] + t;
        LastTokenOfSuffix(b, sep, t);
      }
    }
  }

  /** Leading zeros change nothing. */
  lemma {:induction false} LeadingZero(s: string)
    requires AllDigits(s)
    ensures AllDigits("0" + s) && Value("0" + s) == Value(s)
    decreases |s|
  {
    if s != [] {
      assert ("0" + s)[..|s|] == "0" + s[..|s| - 1];
      LeadingZero(s[..|s| - 1]);
    }
  }

  /** A string determines both sides of its last separator. */
  lemma LastSeparatorIsUnique(a: string, n: string, b: string, m: string, sep: char)
    requires a + [sep] + n == b + [sep] + m
    requires sep !in n && sep !in m
    ensures a == b && n == m
  {
    LastTokenOfSuffix(a, sep, n);
    LastTokenOfSuffix(b, sep, m);
    var s := a + [sep] + n;
    assert a == s[..|s| - |n| - 1] == b;
  }

  lemma IntTextHasNo(n: int, c: char)
    requires !IsDigit(c) && c != '-'
    ensures c !in IntText(n)
  {
    DecimalDigits(if n < 0 then -n else n);
  }
}

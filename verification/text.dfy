/**
  The string operations the launcher relies on, with Rust's semantics:
  `str::split` on a single character, `join` with a separator, `Display` of
  an `i32`, and `str::parse::<i32>`.
 */
module Text {
  import opened Prelude

  /** Index of the first occurrence of `c` in `s`. */
  function IndexOf(s: string, c: char): (r: Option<nat>)
    ensures r.None? <==> c !in s
    ensures r.Some? ==> r.value < |s| && s[r.value] == c && c !in s[..r.value]
  {
    FindFirst(s, (d: char) => d == c)
  }

  /**
    `s.split(c)` collected into a list: the maximal `c`-free pieces between
    occurrences of `c`, so a string with k occurrences has k + 1 pieces and
    the empty string has one empty piece.
   */
  function Split(s: string, c: char): (parts: seq<string>)
    ensures |parts| >= 1
    ensures c in s <==> |parts| >= 2
    ensures forall i :: 0 <= i < |parts| ==> c !in parts[i]
    decreases |s|
  {
    match IndexOf(s, c)
    case None => [s]
    case Some(i) => [s[..i]] + Split(s[i + 1..], c)
  }

  /**
    `parts.join(sep)`: the pieces with `sep` between neighbours, no leading
    or trailing separator.
   */
  function Join(parts: seq<string>, sep: string): string
    decreases |parts|
  {
    if |parts| == 0 then ""
    else if |parts| == 1 then parts[0]
    else parts[0] + sep + Join(parts[1..], sep)
  }

  /**
    A join starts with the first piece, followed by the separator when there
    is a second piece, and ends with the last piece: there is no separator
    before the first piece or after the last.
   */
  lemma {:induction false} JoinEnds(parts: seq<string>, sep: string)
    ensures |parts| == 0 ==> Join(parts, sep) == ""
    ensures |parts| >= 1 ==> var r := Join(parts, sep);
      |r| >= |parts[0]| && r[..|parts[0]|] == parts[0]
    ensures |parts| >= 2 ==> var r := Join(parts, sep);
      |r| >= |parts[0]| + |sep| && r[|parts[0]|..|parts[0]| + |sep|] == sep
    ensures |parts| >= 1 ==> var r := Join(parts, sep); var last := parts[|parts| - 1];
      |r| >= |last| && r[|r| - |last|..] == last
  {
    JoinStarts(parts, sep);
    JoinEndsWithLast(parts, sep);
  }

  lemma JoinStarts(parts: seq<string>, sep: string)
    ensures |parts| >= 1 ==> var r := Join(parts, sep);
      |r| >= |parts[0]| && r[..|parts[0]|] == parts[0]
    ensures |parts| >= 2 ==> var r := Join(parts, sep);
      |r| >= |parts[0]| + |sep| && r[|parts[0]|..|parts[0]| + |sep|] == sep
  {
    if |parts| >= 2 {
      var first, tail := parts[0], Join(parts[1..], sep);
      var r := first + sep + tail;
      assert Join(parts, sep) == r;
      assert r[..|first|] == first;
      assert r[|first|..|first| + |sep|] == sep;
    }
  }

  lemma {:induction false} JoinEndsWithLast(parts: seq<string>, sep: string)
    ensures |parts| >= 1 ==> var r := Join(parts, sep); var last := parts[|parts| - 1];
      |r| >= |last| && r[|r| - |last|..] == last
    decreases |parts|
  {
    if |parts| >= 2 {
      var rest := parts[1..];
      JoinEndsWithLast(rest, sep);
      var tail := Join(rest, sep);
      var r := parts[0] + sep + tail;
      assert Join(parts, sep) == r;
      assert rest[|rest| - 1] == parts[|parts| - 1];
      assert r[|r| - |tail|..] == tail;
    }
  }

  /**
    Splitting a join of `c`-free pieces gives the pieces back; stated for
    any pieces, as an implication.
   */
  lemma JoinReadsBack(parts: seq<string>, c: char)
    ensures |parts| >= 1 && (forall i :: 0 <= i < |parts| ==> c !in parts[i]) ==>
      Split(Join(parts, [c]), c) == parts
  {
    if |parts| >= 1 && (forall i :: 0 <= i < |parts| ==> c !in parts[i]) {
      SplitJoin(parts, c);
    }
  }

  /**
    The three pieces of `a c b c d` for `c`-free `a`, `b` and `d`.
   */
  lemma SplitThree(a: string, b: string, d: string, c: char)
    requires c !in a && c !in b && c !in d
    ensures Split(a + [c] + (b + [c] + d), c) == [a, b, d]
  {
    SplitCons(a, c, b + [c] + d);
    SplitCons(b, c, d);
    assert Split(d, c) == [d];
  }

  /** A character absent from two strings is absent from their concatenation. */
  lemma FreeConcat(a: string, b: string, c: char)
    requires c !in a && c !in b
    ensures c !in a + b
  {
    forall i | 0 <= i < |a + b|
      ensures (a + b)[i] != c
    {
      if i < |a| {
        assert (a + b)[i] == a[i];
      } else {
        assert (a + b)[i] == b[i - |a|];
      }
    }
  }

  /** Splitting a string that starts with a `c`-free piece and a `c` peels that piece off. */
  lemma SplitCons(a: string, c: char, t: string)
    requires c !in a
    ensures Split(a + [c] + t, c) == [a] + Split(t, c)
  {
    var s := a + [c] + t;
    assert s[|a|] == c;
    assert s[..|a|] == a;
    var i := IndexOf(s, c).value;
    assert i == |a|;
    assert s[..i] == a;
    assert s[i + 1..] == t;
  }

  /** Joining the pieces of a split puts back the separators: the split loses nothing. */
  lemma {:induction false} JoinSplit(s: string, c: char)
    ensures Join(Split(s, c), [c]) == s
    decreases |s|
  {
    match IndexOf(s, c)
    case None =>
    case Some(i) =>
      var rest := s[i + 1..];
      JoinSplit(rest, c);
      var parts := Split(s, c);
      assert parts == [s[..i]] + Split(rest, c);
      assert parts[0] == s[..i] && parts[1..] == Split(rest, c);
      assert Join(parts, [c]) == s[..i] + [c] + Join(Split(rest, c), [c]);
      assert s == s[..i] + [c] + rest;
  }

  /** Splitting a join of `c`-free pieces gives the pieces back. */
  lemma {:induction false} SplitJoin(parts: seq<string>, c: char)
    requires |parts| >= 1
    requires forall i :: 0 <= i < |parts| ==> c !in parts[i]
    ensures Split(Join(parts, [c]), c) == parts
    decreases |parts|
  {
    if |parts| > 1 {
      SplitJoin(parts[1..], c);
      SplitCons(parts[0], c, Join(parts[1..], [c]));
      assert parts[0] + [c] + Join(parts[1..], [c]) == Join(parts, [c]);
      assert [parts[0]] + parts[1..] == parts;
    }
  }

  predicate IsDigit(ch: char) {
    '0' <= ch <= '9'
  }

  predicate AllDigits(s: string) {
    forall i :: 0 <= i < |s| ==> IsDigit(s[i])
  }

  function DigitValue(ch: char): nat
    requires IsDigit(ch)
  {
    (ch - '0') as nat
  }

  function DigitChar(d: nat): (ch: char)
    requires d < 10
    ensures IsDigit(ch) && DigitValue(ch) == d
  {
    ('0' as int + d) as char
  }

  /** The number a string of decimal digits denotes, most significant digit first. */
  function DigitsValue(s: string): nat
    requires AllDigits(s)
    decreases |s|
  {
    if |s| == 0 then 0
    else DigitsValue(s[..|s| - 1]) * 10 + DigitValue(s[|s| - 1])
  }

  /** Decimal digits of a natural number, without leading zeros. */
  function NatToString(n: nat): (s: string)
    ensures |s| >= 1 && AllDigits(s)
    ensures DigitsValue(s) == n
    ensures s[0] == '0' ==> n == 0
    decreases n
  {
    var last := DigitChar(n % 10);
    if n < 10 then [last]
    else
      var prefix := NatToString(n / 10);
      var s := prefix + [last];
      assert s[..|s| - 1] == prefix;
      assert s[0] == prefix[0];
      s
  }

  /**
    `Display` for an integer: a minus sign exactly for negatives, then the
    decimal digits of the magnitude without leading zeros.
   */
  function FormatInt(n: int): (s: string)
    ensures |s| >= 1
    ensures s[0] == '-' <==> n < 0
    ensures var digits := if n < 0 then s[1..] else s;
      |digits| >= 1 && AllDigits(digits)
      && DigitsValue(digits) == (if n < 0 then -n else n)
      && (digits[0] == '0' ==> n == 0)
    ensures '\n' !in s && '.' !in s && ',' !in s
  {
    var s := if n < 0 then "-" + NatToString(-n) else NatToString(n);
    assert n < 0 ==> s[1..] == NatToString(-n);
    assert forall i :: 0 < i < |s| ==> IsDigit(s[i]);
    s
  }

  /**
    `s.parse::<i32>()`: an optional single `+` or `-`, then one or more ASCII
    digits, whose value must fit in 32 bits. The empty string, a lone sign,
    any other character (spaces included) and an out-of-range value are
    errors (None).
   */
  function ParseI32(s: string): (r: Option<i32>)
    ensures r.Some? ==> |s| >= 1
    ensures (exists i :: 0 <= i < |s| && !IsDigit(s[i]) && !(i == 0 && (s[0] == '-' || s[0] == '+')))
      ==> r.None?
    ensures s == "-" || s == "+" ==> r.None?
    ensures r.Some? && AllDigits(s) ==> r.value as int == DigitsValue(s)
    ensures r.Some? && s[0] == '-' ==> AllDigits(s[1..]) && r.value as int == -(DigitsValue(s[1..]) as int)
    ensures r.Some? && s[0] == '+' ==> AllDigits(s[1..]) && r.value as int == DigitsValue(s[1..])
    ensures |s| >= 1 && AllDigits(s) && DigitsValue(s) < 0x8000_0000 ==> r.Some?
    ensures |s| >= 2 && (s[0] == '-' || s[0] == '+') && AllDigits(s[1..]) &&
            InI32(if s[0] == '-' then -(DigitsValue(s[1..]) as int) else DigitsValue(s[1..]))
            ==> r.Some?
  {
    if |s| == 0 then None
    else
      var negative := s[0] == '-';
      var digits := if s[0] == '-' || s[0] == '+' then s[1..] else s;
      if |digits| == 0 || !AllDigits(digits) then None
      else
        var v: int := if negative then -(DigitsValue(digits) as int) else DigitsValue(digits);
        if InI32(v) then Some(v as i32) else None
  }

  /** Stray characters, a lone sign and a doubled sign are rejected. */
  lemma ParseRejects()
    ensures ParseI32("1a").None? && ParseI32(" 1").None? && ParseI32("1 ").None?
    ensures ParseI32("+").None? && ParseI32("-").None? && ParseI32("--1").None?
  {
    assert !IsDigit("1a"[1]) && !IsDigit(" 1"[0]) && !IsDigit("1 "[1]) && !IsDigit("--1"[1]);
  }

  /** One leading sign is accepted, and a minus negates. */
  lemma ParseSigned()
    ensures ParseI32("-12") == Some(-12) && ParseI32("+7") == Some(7)
  {
    assert "-12"[1..] == "12" && "12"[..1] == "1" && "1"[..0] == "";
    assert AllDigits("12") && DigitsValue("12") == 12;
    assert "+7"[1..] == "7" && "7"[..0] == "";
    assert AllDigits("7") && DigitsValue("7") == 7;
  }

  /** Parsing what `Display` prints gives back the same `i32`. */
  lemma FormatParseRoundTrip(n: i32)
    ensures ParseI32(FormatInt(n as int)) == Some(n)
  {
    var s := FormatInt(n as int);
    if n < 0 {
      assert s[1..] == NatToString(-(n as int));
    } else {
      assert IsDigit(s[0]);
    }
  }
}

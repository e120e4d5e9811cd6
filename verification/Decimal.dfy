/** Decimal printing and parsing of integers, splitting and ordering of strings, as Go's standard library does them. */
module Decimal {
  import opened Common

  const MAX_INT64 := 0x7FFF_FFFF_FFFF_FFFF
  const TWO_64 := 0x1_0000_0000_0000_0000

  predicate FitsInt64(n: int) {
    -MAX_INT64 - 1 <= n <= MAX_INT64
  }

  /** The 64-bit two's complement value of `n`. */
  function Wrap64(n: int): (w: int)
    ensures FitsInt64(w) && (FitsInt64(n) ==> w == n) && w % TWO_64 == n % TWO_64
  {
    var low := n % TWO_64;
    if low > MAX_INT64 then low - TWO_64 else low
  }

  /** Division that truncates toward zero. */
  function Quotient(a: int, b: int): int
    requires b > 0
  {
    if a >= 0 then a / b else -(-a / b)
  }

  // ---------------------------------------------------------------- digits

  predicate IsDigit(c: char) {
    '0' <= c <= '9'
  }

  predicate AllDigits(s: string) {
    s != "" && forall i :: 0 <= i < |s| ==> IsDigit(s[i])
  }

  function Digit(d: nat): char
    requires d < 10
  {
    '0' + d as char
  }

  function PrintNat(n: nat): string {
    if n < 10 then [Digit(n)] else PrintNat(n / 10) + [Digit(n % 10)]
  }

  /** The value of the digits of `s`; other characters count as zero. */
  function Value(s: string): nat {
    if s == "" then 0
    else
      var last := s[|s| - 1];
      10 * Value(s[..|s| - 1]) + (if IsDigit(last) then last as int - '0' as int else 0)
  }

  lemma {:induction false} ValueOfPrint(n: nat)
    ensures AllDigits(PrintNat(n)) && Value(PrintNat(n)) == n
  {
    if n >= 10 {
      ValueOfPrint(n / 10);
      var s := PrintNat(n);
      assert s[..|s| - 1] == PrintNat(n / 10);
    } else {
      assert [Digit(n)][..0] == "";
    }
  }

  function PrintInt(n: int): string {
    if n < 0 then "-" + PrintNat(-n) else PrintNat(n)
  }

  /** `strconv.Atoi`: an optional sign, then digits, within 64 bits. */
  function Atoi(s: string): Option<int> {
    if s != "" && (s[0] == '-' || s[0] == '+') then
      var n: int := Value(s[1..]);
      var signed := if s[0] == '-' then -n else n;
      if AllDigits(s[1..]) && FitsInt64(signed) then Some(signed) else None
    else if AllDigits(s) && Value(s) <= MAX_INT64 then Some(Value(s))
    else None
  }

  lemma {:induction false} AtoiOfDigits(s: string, n: nat)
    requires AllDigits(s) && Value(s) == n
    ensures FitsInt64(n) ==> Atoi(s) == Some(n)
    ensures FitsInt64(-(n as int)) ==> Atoi("-" + s) == Some(-(n as int))
    ensures Atoi("+" + s) == Atoi(s) && (n > MAX_INT64 ==> Atoi(s).None?)
  {
    assert IsDigit(s[0]);
    assert ("+" + s)[0] == '+' && ("+" + s)[1..] == s;
    assert ("-" + s)[0] == '-' && ("-" + s)[1..] == s;
  }

  lemma {:induction false} AtoiOfPrint(n: int)
    requires FitsInt64(n)
    ensures Atoi(PrintInt(n)) == Some(n)
  {
    var size: nat := if n < 0 then -n else n;
    ValueOfPrint(size);
    AtoiOfDigits(PrintNat(size), size);
  }

  // ---------------------------------------------------------------- splitting

  function Split(s: string, sep: char): (parts: seq<string>)
    ensures parts != [] && forall i :: 0 <= i < |parts| ==> sep !in parts[i]
  {
    if s == "" then [""]
    else
      var rest := Split(s[1..], sep);
      if s[0] == sep then [""] + rest else [[s[0]] + rest[0]] + rest[1..]
  }

  function Join(parts: seq<string>, sep: char): string
    requires parts != []
  {
    if |parts| == 1 then parts[0] else parts[0] + [sep] + Join(parts[1..], sep)
  }

  lemma {:induction false} SplitWithout(s: string, sep: char)
    requires sep !in s
    ensures Split(s, sep) == [s]
  {
    if s != "" {
      SplitWithout(s[1..], sep);
      assert s == [s[0]] + s[1..];
    }
  }

  lemma {:induction false} SplitFirst(head: string, sep: char, tail: string)
    requires sep !in head
    ensures Split(head + [sep] + tail, sep) == [head] + Split(tail, sep)
  {
    var s := head + [sep] + tail;
    if head == "" {
      assert s[1..] == tail;
    } else {
      assert s[1..] == head[1..] + [sep] + tail;
      SplitFirst(head[1..], sep, tail);
      assert head == [head[0]] + head[1..];
      assert ([head[1..]] + Split(tail, sep))[1..] == Split(tail, sep);
    }
  }

  lemma {:induction false} SplitOfJoin(parts: seq<string>, sep: char)
    requires parts != [] && forall i :: 0 <= i < |parts| ==> sep !in parts[i]
    ensures Split(Join(parts, sep), sep) == parts
  {
    if |parts| == 1 {
      SplitWithout(parts[0], sep);
    } else {
      SplitOfJoin(parts[1..], sep);
      SplitFirst(parts[0], sep, Join(parts[1..], sep));
    }
  }

  lemma {:induction false} JoinOfSplit(s: string, sep: char)
    ensures Join(Split(s, sep), sep) == s
  {
    if s != "" {
      JoinOfSplit(s[1..], sep);
      var rest := Split(s[1..], sep);
      var parts := Split(s, sep);
      if s[0] == sep {
        assert parts[1..] == rest;
        assert s == "" + [sep] + s[1..];
      } else {
        assert parts[1..] == rest[1..];
        if |rest| == 1 {
          assert s == [s[0]] + rest[0];
        } else {
          assert Join(parts, sep) == [s[0]] + rest[0] + [sep] + Join(rest[1..], sep);
          assert s == [s[0]] + (rest[0] + [sep] + Join(rest[1..], sep));
        }
      }
    }
  }

  // ---------------------------------------------------------------- order of strings

  /** `strings.Compare`. */
  function CompareStrings(a: string, b: string): (r: int)
    ensures -1 <= r <= 1
  {
    if a == "" && b == "" then 0
    else if a == "" then -1
    else if b == "" then 1
    else if a[0] != b[0] then (if a[0] < b[0] then -1 else 1)
    else CompareStrings(a[1..], b[1..])
  }

  lemma {:induction false} CompareFlips(a: string, b: string)
    ensures CompareStrings(a, b) == -CompareStrings(b, a)
    ensures CompareStrings(a, b) == 0 <==> a == b
    decreases |a|
  {
    if a != "" && b != "" && a[0] == b[0] {
      CompareFlips(a[1..], b[1..]);
      assert a == [a[0]] + a[1..] && b == [b[0]] + b[1..];
    }
  }

  lemma {:induction false} CompareChains(a: string, b: string, c: string)
    requires CompareStrings(a, b) <= 0 && CompareStrings(b, c) <= 0
    ensures CompareStrings(a, c) <= 0
    decreases |a|
  {
    if a != "" && b != "" && c != "" && a[0] == b[0] == c[0] {
      CompareChains(a[1..], b[1..], c[1..]);
    }
  }
}

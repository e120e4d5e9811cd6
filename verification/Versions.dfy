/** OceanBase versions: parsing, printing and ordering, from pkg/helper/version.go. */
module Versions {
  import opened Common
  import opened Decimal

  datatype Version = Version(major: int, minor: int, patch: int, subPatch: int, build: string)

  datatype ParseError = WrongFormat | OutOfRange(field: string)

  // ---------------------------------------------------------------- parsing

  /** The check of the pattern, by splitting as the parser does. */
  predicate MatchesPattern(s: string) {
    var parts := Split(s, '-');
    var fields := Split(parts[0], '.');
    && |parts| <= 2 && 3 <= |fields| <= 4
    && (forall i :: 0 <= i < |fields| ==> AllDigits(fields[i]))
    && (|parts| == 2 ==> AllDigits(parts[1]))
  }

  function ParseField(s: string): Result<int, ParseError> {
    if Atoi(s).Some? then Ok(Atoi(s).value) else Err(OutOfRange(s))
  }

  function Parse(version: string): Result<Version, ParseError> {
    if !MatchesPattern(version) then Err(WrongFormat)
    else
      var parts := Split(version, '-');
      var build := if |parts| > 1 then parts[1] else "";
      var fields := Split(parts[0], '.');
      var major := ParseField(fields[0]);
      if major.Err? then Err(major.error) else
      var minor := ParseField(fields[1]);
      if minor.Err? then Err(minor.error) else
      var patch := ParseField(fields[2]);
      if patch.Err? then Err(patch.error) else
      var subPatch := if |fields| > 3 then ParseField(fields[3]) else Ok(0);
      if subPatch.Err? then Err(subPatch.error)
      else Ok(Version(major.value, minor.value, patch.value, subPatch.value, build))
  }

  /** The parser as the source runs it, filling the version field by field. */
  method ParseOceanBaseVersion(version: string) returns (r: Result<Version, ParseError>)
    ensures r == Parse(version)
  {
    var ver := Version(0, 0, 0, 0, "");
    if !MatchesPattern(version) {
      return Err(WrongFormat);
    }
    var verStr := Split(version, '-');
    if |verStr| > 1 {
      ver := ver.(build := verStr[1]);
    }
    verStr := Split(verStr[0], '.');
    var n := Atoi(verStr[0]);
    if n.None? { return Err(OutOfRange(verStr[0])); }
    ver := ver.(major := n.value);
    n := Atoi(verStr[1]);
    if n.None? { return Err(OutOfRange(verStr[1])); }
    ver := ver.(minor := n.value);
    n := Atoi(verStr[2]);
    if n.None? { return Err(OutOfRange(verStr[2])); }
    ver := ver.(patch := n.value);
    if |verStr| > 3 {
      n := Atoi(verStr[3]);
      if n.None? { return Err(OutOfRange(verStr[3])); }
      ver := ver.(subPatch := n.value);
    }
    return Ok(ver);
  }

  // ---------------------------------------------------------------- printing

  /** `strings.TrimRight(s, ".")`. */
  function TrimDots(s: string): string {
    if s != "" && s[|s| - 1] == '.' then TrimDots(s[..|s| - 1]) else s
  }

  function FieldsOf(v: Version): seq<string> {
    [PrintInt(v.major), PrintInt(v.minor), PrintInt(v.patch), PrintInt(v.subPatch)]
  }

  function Print(v: Version): string {
    var verPart := TrimDots(Join(FieldsOf(v), '.'));
    if v.build != "" then verPart + "-" + v.build else verPart
  }

  // ---------------------------------------------------------------- the pattern

  ghost predicate Composed(s: string, fields: seq<string>, build: string) {
    && 3 <= |fields| <= 4
    && (forall i :: 0 <= i < |fields| ==> AllDigits(fields[i]))
    && (build == "" || AllDigits(build))
    && s == Join(fields, '.') + (if build == "" then "" else "-" + build)
  }

  /** The regular expression: three or four numbers separated by dots, then optionally a dash and a number. */
  ghost predicate VersionFormat(s: string) {
    exists fields, build :: Composed(s, fields, build)
  }

  lemma {:induction false} JoinAvoids(fields: seq<string>, c: char)
    requires fields != [] && c != '.' && forall i :: 0 <= i < |fields| ==> c !in fields[i]
    ensures c !in Join(fields, '.')
  {
    if |fields| > 1 {
      JoinAvoids(fields[1..], c);
    }
  }

  /** The parts of a composed string are recovered by splitting it. */
  lemma {:induction false} ComposedSplits(s: string, fields: seq<string>, build: string)
    requires Composed(s, fields, build)
    ensures Split(s, '-') == if build == "" then [Join(fields, '.')] else [Join(fields, '.'), build]
    ensures Split(Join(fields, '.'), '.') == fields
  {
    JoinAvoids(fields, '-');
    SplitOfJoin(fields, '.');
    if build == "" {
      assert s == Join(fields, '.');
      SplitWithout(s, '-');
    } else {
      assert s == Join(fields, '.') + ['-'] + build;
      SplitFirst(Join(fields, '.'), '-', build);
      SplitWithout(build, '-');
    }
  }

  lemma {:induction false} PatternIsFormat(s: string)
    ensures MatchesPattern(s) <==> VersionFormat(s)
  {
    var parts := Split(s, '-');
    var fields := Split(parts[0], '.');
    if MatchesPattern(s) {
      JoinOfSplit(s, '-');
      JoinOfSplit(parts[0], '.');
      var build := if |parts| == 2 then parts[1] else "";
      if |parts| == 2 {
        assert parts[1..] == [build];
        assert s == parts[0] + ['-'] + build;
      }
      assert Composed(s, fields, build);
    }
    if VersionFormat(s) {
      var fields', build' :| Composed(s, fields', build');
      ComposedSplits(s, fields', build');
    }
  }

  /** Parsing accepts exactly the strings of the format whose numbers fit an int. */
  lemma {:induction false} ParseAccepts(s: string)
    ensures Parse(s).Ok? <==>
      VersionFormat(s) && forall i :: 0 <= i < |Split(Split(s, '-')[0], '.')| ==>
        Value(Split(Split(s, '-')[0], '.')[i]) <= MAX_INT64
  {
    PatternIsFormat(s);
    if MatchesPattern(s) {
      var fields := Split(Split(s, '-')[0], '.');
      forall i | 0 <= i < |fields| ensures ParseField(fields[i]).Ok? <==> Value(fields[i]) <= MAX_INT64 {
        assert IsDigit(fields[i][0]);
      }
      if Parse(s).Ok? {
        assert forall i :: 0 <= i < |fields| ==> ParseField(fields[i]).Ok?;
      }
    }
  }

  /** What is parsed: the four numbers in their order, a missing sub-patch being zero, and the build. */
  lemma {:induction false} ParseReadsFields(s: string, fields: seq<string>, build: string)
    requires Composed(s, fields, build) && forall i :: 0 <= i < |fields| ==> Value(fields[i]) <= MAX_INT64
    ensures Parse(s) == Ok(Version(Value(fields[0]), Value(fields[1]), Value(fields[2]),
                                   if |fields| == 4 then Value(fields[3]) else 0, build))
  {
    ComposedSplits(s, fields, build);
    forall i | 0 <= i < |fields| ensures Atoi(fields[i]) == Some(Value(fields[i])) {
      AtoiOfDigits(fields[i], Value(fields[i]));
    }
  }

  // ---------------------------------------------------------------- round trips

  /** Versions that parsing can produce: non-negative ints and an empty or all-digit build. */
  predicate Proper(v: Version) {
    && 0 <= v.major <= MAX_INT64 && 0 <= v.minor <= MAX_INT64
    && 0 <= v.patch <= MAX_INT64 && 0 <= v.subPatch <= MAX_INT64
    && (v.build == "" || AllDigits(v.build))
  }

  lemma {:induction false} PrintComposes(v: Version)
    requires Proper(v)
    ensures Composed(Print(v), FieldsOf(v), v.build)
  {
    ValueOfPrint(v.major);
    ValueOfPrint(v.minor);
    ValueOfPrint(v.patch);
    ValueOfPrint(v.subPatch);
    var s := Join(FieldsOf(v), '.');
    JoinEnds(FieldsOf(v));
    assert TrimDots(s) == s;
  }

  lemma {:induction false} JoinEnds(fields: seq<string>)
    requires fields != [] && fields[|fields| - 1] != ""
    ensures Join(fields, '.') != ""
      && Join(fields, '.')[|Join(fields, '.')| - 1] == fields[|fields| - 1][|fields[|fields| - 1]| - 1]
  {
    if |fields| > 1 {
      JoinEnds(fields[1..]);
    }
  }

  /** Printing then parsing gives the version back. */
  lemma {:induction false} ParseOfPrint(v: Version)
    requires Proper(v)
    ensures Parse(Print(v)) == Ok(v)
  {
    PrintComposes(v);
    ComposedSplits(Print(v), FieldsOf(v), v.build);
    AtoiOfPrint(v.major);
    AtoiOfPrint(v.minor);
    AtoiOfPrint(v.patch);
    AtoiOfPrint(v.subPatch);
  }

  lemma {:induction false} ParsedIsProper(s: string)
    requires Parse(s).Ok?
    ensures Proper(Parse(s).value)
  {
    var fields := Split(Split(s, '-')[0], '.');
    assert IsDigit(fields[0][0]) && IsDigit(fields[1][0]) && IsDigit(fields[2][0]);
    if |fields| > 3 {
      assert IsDigit(fields[3][0]);
    }
  }

  /** Printing a parsed string gives a normal form: it parses to the same version and prints as itself. */
  lemma {:induction false} PrintIsNormalForm(s: string)
    requires Parse(s).Ok?
    ensures Parse(Print(Parse(s).value)) == Parse(s)
    ensures Print(Parse(Print(Parse(s).value)).value) == Print(Parse(s).value)
  {
    ParsedIsProper(s);
    ParseOfPrint(Parse(s).value);
  }

  // ---------------------------------------------------------------- ordering

  function Cmp(v: Version, w: Version): int {
    if v.major != w.major then Wrap64(v.major - w.major)
    else if v.minor != w.minor then Wrap64(v.minor - w.minor)
    else if v.patch != w.patch then Wrap64(v.patch - w.patch)
    else if v.subPatch != w.subPatch then Wrap64(v.subPatch - w.subPatch)
    else if v.build != w.build then CompareStrings(v.build, w.build)
    else 0
  }

  /** `Cmp` is antisymmetric in sign, and zero only between equal versions, that is between equal normal forms. */
  lemma {:induction false} CmpIsAntisymmetric(v: Version, w: Version)
    requires Proper(v) && Proper(w)
    ensures Cmp(v, w) < 0 <==> Cmp(w, v) > 0
    ensures Cmp(v, w) == 0 <==> v == w
    ensures Cmp(v, w) == 0 <==> Print(v) == Print(w)
  {
    CompareFlips(v.build, w.build);
    ParseOfPrint(v);
    ParseOfPrint(w);
  }

  function NumbersOf(v: Version): seq<int> {
    [v.major, v.minor, v.patch, v.subPatch]
  }

  /**
   The order: the first of the four numbers in which two versions differ decides, major before minor before patch
   before sub-patch; when all four agree the text of the build does.
   */
  lemma {:induction false} CmpOrdersByFirstDifference(v: Version, w: Version, i: nat)
    requires Proper(v) && Proper(w)
    requires i < 4 && NumbersOf(v)[..i] == NumbersOf(w)[..i] && NumbersOf(v)[i] != NumbersOf(w)[i]
    ensures Cmp(v, w) < 0 <==> NumbersOf(v)[i] < NumbersOf(w)[i]
    ensures Cmp(v, w) != 0
  {
    forall k | 0 <= k < i ensures NumbersOf(v)[k] == NumbersOf(w)[k] {
      assert NumbersOf(v)[..i][k] == NumbersOf(w)[..i][k];
    }
    assert i > 0 ==> NumbersOf(v)[0] == NumbersOf(w)[0];
    assert i > 1 ==> NumbersOf(v)[1] == NumbersOf(w)[1];
    assert i > 2 ==> NumbersOf(v)[2] == NumbersOf(w)[2];
  }

  lemma {:induction false} CmpOrdersByBuild(v: Version, w: Version)
    requires NumbersOf(v) == NumbersOf(w)
    ensures Cmp(v, w) < 0 <==> TextBefore(v.build, w.build)
    ensures Cmp(v, w) == 0 <==> v.build == w.build
  {
    assert NumbersOf(v)[0] == NumbersOf(w)[0] && NumbersOf(v)[1] == NumbersOf(w)[1]
           && NumbersOf(v)[2] == NumbersOf(w)[2] && NumbersOf(v)[3] == NumbersOf(w)[3];
    CompareFlips(v.build, w.build);
    TextOrder(v.build, w.build);
  }

  /** One text comes before another: it is a proper beginning of it, or smaller at the first difference. */
  predicate TextBefore(a: string, b: string) {
    (|a| < |b| && a <= b) ||
    exists i :: 0 <= i < |a| && i < |b| && a[..i] == b[..i] && a[i] < b[i]
  }

  lemma {:induction false} TextOrder(a: string, b: string)
    ensures CompareStrings(a, b) < 0 <==> TextBefore(a, b)
    decreases |a|
  {
    if a == "" || b == "" {
    } else if a[0] != b[0] {
      if a[0] < b[0] {
        assert a[..0] == b[..0] && a[0] < b[0];
      }
      forall i | 0 < i < |a| && i < |b| ensures a[..i] != b[..i] {
        assert a[..i][0] == a[0] && b[..i][0] == b[0];
      }
    } else {
      TextOrder(a[1..], b[1..]);
      TextTail(a, b);
    }
  }

  lemma {:induction false} TextTail(a: string, b: string)
    requires a != "" && b != "" && a[0] == b[0]
    ensures TextBefore(a, b) <==> TextBefore(a[1..], b[1..])
  {
    PrefixTail(a, b);
    if TextBefore(a, b) && !(|a| < |b| && a <= b) {
      var i :| 0 <= i < |a| && i < |b| && a[..i] == b[..i] && a[i] < b[i];
      TailPrefix(a, b, i - 1);
      assert a[1..][i - 1] < b[1..][i - 1];
    }
    if TextBefore(a[1..], b[1..]) && !(|a| < |b| && a <= b) {
      TailBefore(a, b);
    }
  }

  lemma {:induction false} PrefixTail(a: string, b: string)
    requires a != "" && b != "" && a[0] == b[0]
    ensures a <= b <==> a[1..] <= b[1..]
  {
    assert a == [a[0]] + a[1..] && b == [b[0]] + b[1..];
  }

  lemma {:induction false} TailBefore(a: string, b: string)
    requires a != "" && b != "" && a[0] == b[0]
    requires exists i :: 0 <= i < |a| - 1 && i < |b| - 1 && a[1..][..i] == b[1..][..i] && a[1..][i] < b[1..][i]
    ensures TextBefore(a, b)
  {
    var i :| 0 <= i < |a| - 1 && i < |b| - 1 && a[1..][..i] == b[1..][..i] && a[1..][i] < b[1..][i];
    TailPrefix(a, b, i);
    assert a[i + 1] < b[i + 1];
  }

  lemma {:induction false} TailPrefix(a: string, b: string, i: nat)
    requires i < |a| && i < |b| && a[0] == b[0]
    ensures a[1..][..i] == b[1..][..i] <==> a[..i + 1] == b[..i + 1]
  {
    var x, y := a[1..], b[1..];
    assert a[..i + 1] == [a[0]] + x[..i] && b[..i + 1] == [b[0]] + y[..i];
    assert x[..i] == a[..i + 1][1..] && y[..i] == b[..i + 1][1..];
  }

  lemma {:induction false} CmpIsTransitive(u: Version, v: Version, w: Version)
    requires Proper(u) && Proper(v) && Proper(w) && Cmp(u, v) <= 0 && Cmp(v, w) <= 0
    ensures Cmp(u, w) <= 0
  {
    CompareFlips(u.build, v.build);
    CompareFlips(v.build, w.build);
    CompareFlips(u.build, w.build);
    if CompareStrings(u.build, v.build) <= 0 && CompareStrings(v.build, w.build) <= 0 {
      CompareChains(u.build, v.build, w.build);
    }
  }

  // ---------------------------------------------------------------- builds are compared as text

  function Pow10(n: nat): nat {
    if n == 0 then 1 else 10 * Pow10(n - 1)
  }

  lemma {:induction false} ValueByFirst(s: string)
    requires AllDigits(s)
    ensures Value(s) == (s[0] as int - '0' as int) * Pow10(|s| - 1) + Value(s[1..])
    ensures Value(s) < Pow10(|s|)
    decreases |s|
  {
    var init := s[..|s| - 1];
    if |s| == 1 {
      assert init == "" && s[1..] == "";
    } else {
      ValueByFirst(init);
      assert s[1..][..|s| - 2] == init[1..];
      TenfoldMoves(s[0] as int - '0' as int, Pow10(|s| - 2));
    }
  }

  lemma {:induction false} TenfoldMoves(d: int, p: int)
    ensures 10 * (d * p) == d * (10 * p)
  {
  }

  lemma {:induction false} LeadingDigitDecides(d: int, e: int, unit: nat, x: nat, y: nat)
    requires x < unit && y < unit && d < e
    ensures d * unit + x < e * unit + y
  {
    assert d * unit + unit == (d + 1) * unit;
    assert (d + 1) * unit <= e * unit;
  }

  /** Builds of equal length compare like the numbers they denote. */
  lemma {:induction false} EqualLengthBuildsCompareAsNumbers(a: string, b: string)
    requires |a| == |b| && (a == "" || (AllDigits(a) && AllDigits(b)))
    ensures CompareStrings(a, b) < 0 <==> Value(a) < Value(b)
    decreases |a|
  {
    if a != "" {
      FirstCharacterDecides(a, b);
      EqualLengthBuildsCompareAsNumbers(a[1..], b[1..]);
    }
  }

  lemma {:induction false} FirstCharacterDecides(a: string, b: string)
    requires |a| == |b| && AllDigits(a) && AllDigits(b)
    ensures a[0] < b[0] ==> Value(a) < Value(b)
    ensures b[0] < a[0] ==> Value(b) < Value(a)
    ensures a[0] == b[0] ==> (Value(a) < Value(b) <==> Value(a[1..]) < Value(b[1..]))
  {
    ValueByFirst(a);
    ValueByFirst(b);
    if |a| > 1 {
      ValueByFirst(a[1..]);
      ValueByFirst(b[1..]);
    }
    var d, e := a[0] as int - '0' as int, b[0] as int - '0' as int;
    if d < e {
      LeadingDigitDecides(d, e, Pow10(|a| - 1), Value(a[1..]), Value(b[1..]));
    } else if e < d {
      LeadingDigitDecides(e, d, Pow10(|a| - 1), Value(b[1..]), Value(a[1..]));
    }
  }

  /** The shorter of two texts orders first exactly when it does not exceed the other one's prefix. */
  lemma {:induction false} PrefixDecides(a: string, b: string)
    requires |a| < |b|
    ensures CompareStrings(a, b) < 0 <==> CompareStrings(a, b[..|a|]) <= 0
    decreases |a|
  {
    if a != "" && a[0] == b[0] {
      PrefixDecides(a[1..], b[1..]);
      assert b[..|a|][1..] == b[1..][..|a| - 1];
    }
  }

  predicate IsBuild(s: string) {
    s == "" || AllDigits(s)
  }

  /** A shorter build orders first exactly when its number is at most that of the other one's leading digits. */
  lemma {:induction false} ShorterBuildOrdersFirstIff(a: string, b: string)
    requires IsBuild(a) && IsBuild(b) && |a| < |b|
    ensures CompareStrings(a, b) < 0 <==> Value(a) <= Value(b[..|a|])
  {
    PrefixDecides(a, b);
    CompareFlips(a, b[..|a|]);
    EqualLengthBuildsCompareAsNumbers(b[..|a|], a);
  }

  lemma {:induction false} PrefixValue(s: string, n: nat)
    requires n < |s|
    ensures Value(s) >= 10 * Value(s[..n])
    decreases |s|
  {
    var init := s[..|s| - 1];
    if n < |init| {
      PrefixValue(init, n);
      assert init[..n] == s[..n];
    }
  }

  /**
   For versions that differ in their builds only, the shorter one being `a`: the order agrees with the order of
   the numbers unless the number of `a` lies strictly between that of the leading digits of `b` and that of `b`,
   as for 9 and 10, or both numbers are zero.
   */
  lemma {:induction false} BuildsCompareAsNumbersIff(v: Version, a: string, b: string)
    requires IsBuild(a) && IsBuild(b) && |a| < |b|
    ensures (Cmp(v.(build := a), v.(build := b)) < 0 <==> Value(a) < Value(b)) <==>
      !(Value(b[..|a|]) < Value(a) < Value(b)) && !(Value(a) == 0 && Value(b) == 0)
  {
    ShorterBuildOrdersFirstIff(a, b);
    PrefixValue(b, |a|);
  }

  /** Builds of different length need not: the later build 10 orders before build 9. */
  lemma {:induction false} LongerBuildMayOrderFirst(v: Version)
    requires v.build == "10"
    ensures Cmp(v, v.(build := "9")) < 0 && Value("9") < Value("10")
  {
    assert "9"[..0] == "" && "10"[..1] == "1" && "1"[..0] == "";
  }
}

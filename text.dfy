/**
 * String helpers the screens rely on: case-insensitive substring search
 * (Foundation's `localizedCaseInsensitiveContains`), `split(separator:)`
 * keeping only the first piece, and `String(Int)` rendering.
 */
module Text {
  import opened Wrappers

  // ---------------------------------------------------------------- case folding

  function LowerChar(c: char): char {
    if 'A' <= c <= 'Z' then (c as int + 32) as char else c
  }

  function UpperChar(c: char): char {
    if 'a' <= c <= 'z' then (c as int - 32) as char else c
  }

  function Lower(s: string): string {
    seq(|s|, i requires 0 <= i < |s| => LowerChar(s[i]))
  }

  function Upper(s: string): string {
    seq(|s|, i requires 0 <= i < |s| => UpperChar(s[i]))
  }

  /** Folding twice is folding once. */
  lemma LowerIdempotent(s: string)
    ensures Lower(Lower(s)) == Lower(s)
  {
    assert forall i :: 0 <= i < |s| ==> Lower(Lower(s))[i] == Lower(s)[i];
  }

  /** Upper-casing a string first does not change its folded form. */
  lemma LowerOfUpper(s: string)
    ensures Lower(Upper(s)) == Lower(s)
  {
    assert forall i :: 0 <= i < |s| ==> Lower(Upper(s))[i] == Lower(s)[i];
  }

  // ---------------------------------------------------------------- substring search

  /** `needle` occurs in `hay` starting at index `i`. */
  predicate OccursAt(hay: string, needle: string, i: int) {
    0 <= i <= |hay| - |needle| && hay[i..i + |needle|] == needle
  }

  /** `needle` occurs in `hay` at some position. */
  predicate Contains(hay: string, needle: string) {
    exists i | 0 <= i <= |hay| :: OccursAt(hay, needle, i)
  }

  /** Substring search after folding both sides to lower case. */
  predicate ContainsIgnoringCase(hay: string, needle: string) {
    Contains(Lower(hay), Lower(needle))
  }

  /** An exact occurrence is also a case-insensitive one. */
  lemma ExactMatchIgnoringCase(hay: string, needle: string)
    requires Contains(hay, needle)
    ensures ContainsIgnoringCase(hay, needle)
  {
    var i :| 0 <= i <= |hay| && OccursAt(hay, needle, i);
    assert 0 <= i <= |hay| - |needle| && hay[i..i + |needle|] == needle;
    assert |Lower(hay)| == |hay| && |Lower(needle)| == |needle|;
    assert OccursAt(Lower(hay), Lower(needle), i) by {
      forall j | 0 <= j < |needle|
        ensures Lower(hay)[i..i + |needle|][j] == Lower(needle)[j]
      {
        assert hay[i..i + |needle|][j] == needle[j];
      }
    }
  }

  /** Under this model's predicate, every string contains the empty needle. */
  lemma EmptyQueryMatches(hay: string)
    ensures ContainsIgnoringCase(hay, [])
  {
    assert OccursAt(Lower(hay), Lower([]), 0);
  }

  /** The search gives the same answer whatever the case of either side. */
  lemma MatchIgnoresCase(hay: string, needle: string)
    ensures ContainsIgnoringCase(Upper(hay), needle) == ContainsIgnoringCase(hay, needle)
    ensures ContainsIgnoringCase(Lower(hay), needle) == ContainsIgnoringCase(hay, needle)
    ensures ContainsIgnoringCase(hay, Upper(needle)) == ContainsIgnoringCase(hay, needle)
    ensures ContainsIgnoringCase(hay, Lower(needle)) == ContainsIgnoringCase(hay, needle)
  {
    LowerOfUpper(hay);
    LowerOfUpper(needle);
    LowerIdempotent(hay);
    LowerIdempotent(needle);
  }

  // ---------------------------------------------------------------- splitting

  /** `s` without its leading run of `sep`. */
  function SkipSeparators(s: string, sep: char): (r: string)
    ensures |r| <= |s| && r == s[|s| - |r|..]
    ensures forall j :: 0 <= j < |s| - |r| ==> s[j] == sep
    ensures r != [] ==> r[0] != sep
  {
    if s != [] && s[0] == sep then SkipSeparators(s[1..], sep) else s
  }

  /** The longest prefix of `s` free of `sep`. */
  function TakeUntil(s: string, sep: char): (r: string)
    ensures |r| <= |s| && r == s[..|r|]
    ensures sep !in r
    ensures |r| < |s| ==> s[|r|] == sep
  {
    if s == [] || s[0] == sep then [] else [s[0]] + TakeUntil(s[1..], sep)
  }

  /**
   * `p` starts at index `i` of `s`, after nothing but separators, and runs
   * to the end of `s` or to a separator: the first piece `split` yields.
   */
  predicate PieceAt(s: string, sep: char, p: string, i: int) {
    && 0 <= i && i + |p| <= |s|
    && (forall j :: 0 <= j < i ==> s[j] == sep)
    && s[i..i + |p|] == p
    && (i + |p| == |s| || s[i + |p|] == sep)
  }

  /**
   * The first element of `s.split(separator: sep)`: Swift drops empty
   * pieces, so this is the first non-empty run of characters other than
   * `sep`, and there is none when `s` holds nothing but separators.
   */
  function FirstPiece(s: string, sep: char): (r: Option<string>)
    ensures r.None? <==> forall j :: 0 <= j < |s| ==> s[j] == sep
    ensures r.Some? ==> r.value != [] && sep !in r.value
    ensures r.Some? ==> exists i | 0 <= i <= |s| :: PieceAt(s, sep, r.value, i)
  {
    var rest := SkipSeparators(s, sep);
    if rest == [] then None
    else
      assert s[|s| - |rest|] == rest[0] != sep;
      FirstPieceFound(s, sep);
      Some(TakeUntil(rest, sep))
  }

  /** The piece taken after the leading separators sits where `PieceAt` says. */
  lemma FirstPieceFound(s: string, sep: char)
    requires SkipSeparators(s, sep) != []
    ensures PieceAt(s, sep, TakeUntil(SkipSeparators(s, sep), sep), |s| - |SkipSeparators(s, sep)|)
  {
    PieceOfSuffix(s, sep, SkipSeparators(s, sep), TakeUntil(SkipSeparators(s, sep), sep));
  }

  /** A prefix `t` of the suffix `rest` of `s` that ends at a separator or at the end is a piece. */
  lemma PieceOfSuffix(s: string, sep: char, rest: string, t: string)
    requires |rest| <= |s| && rest == s[|s| - |rest|..]
    requires forall j :: 0 <= j < |s| - |rest| ==> s[j] == sep
    requires |t| <= |rest| && t == rest[..|t|]
    requires |t| < |rest| ==> rest[|t|] == sep
    ensures PieceAt(s, sep, t, |s| - |rest|)
  {
    var i := |s| - |rest|;
    assert s[i..i + |t|] == s[i..][..|t|];
    if |t| < |rest| {
      assert s[i + |t|] == rest[|t|];
    }
  }

  /** A separator-free string is its own longest separator-free prefix. */
  lemma {:induction false} TakeUntilAll(a: string, sep: char)
    requires sep !in a
    ensures TakeUntil(a, sep) == a
  {
    if a != [] {
      TakeUntilAll(a[1..], sep);
    }
  }

  lemma {:induction false} TakeUntilJoined(a: string, sep: char, b: string)
    requires sep !in a
    ensures TakeUntil(a + [sep] + b, sep) == a
  {
    if a != [] {
      assert (a + [sep] + b)[1..] == a[1..] + [sep] + b;
      TakeUntilJoined(a[1..], sep, b);
    }
  }

  /** Splitting `a + sep + b` yields `a` first when `a` is a non-empty piece. */
  lemma FirstPieceOfJoined(a: string, sep: char, b: string)
    requires a != [] && sep !in a
    ensures FirstPiece(a + [sep] + b, sep) == Some(a)
  {
    var s := a + [sep] + b;
    assert s[0] == a[0];
    assert SkipSeparators(s, sep) == s;
    TakeUntilJoined(a, sep, b);
  }

  /** Conversely, a non-empty separator-free piece that `PieceAt` places in `s` is the first piece. */
  lemma FirstPieceUnique(s: string, sep: char, p: string, i: int)
    requires p != [] && sep !in p && PieceAt(s, sep, p, i)
    ensures FirstPiece(s, sep) == Some(p)
  {
    var rest := SkipSeparators(s, sep);
    var k := |s| - |rest|;
    assert k < |s| ==> s[k] == rest[0];
    PieceStart(s, sep, p, i, k);
    assert rest == s[i..];
    if i + |p| == |s| {
      assert rest == p;
      TakeUntilAll(p, sep);
    } else {
      SplitAtPieceEnd(s, p, i);
      TakeUntilJoined(p, sep, s[i + |p| + 1..]);
    }
  }

  /** A piece starts right after the leading run of separators. */
  lemma PieceStart(s: string, sep: char, p: string, i: int, k: int)
    requires p != [] && sep !in p && PieceAt(s, sep, p, i)
    requires 0 <= k <= |s| && (forall j :: 0 <= j < k ==> s[j] == sep) && (k < |s| ==> s[k] != sep)
    ensures k == i
  {
    assert s[i] == s[i..i + |p|][0] == p[0];
  }

  lemma SplitAtPieceEnd(s: string, p: string, i: int)
    requires 0 <= i && i + |p| < |s| && s[i..i + |p|] == p
    ensures s[i..] == p + [s[i + |p|]] + s[i + |p| + 1..]
  {
    assert s[i..] == s[i..i + |p|] + s[i + |p|..];
    assert s[i + |p|..] == [s[i + |p|]] + s[i + |p| + 1..];
  }

  // ---------------------------------------------------------------- number rendering

  predicate IsDigit(c: char) { '0' <= c <= '9' }

  predicate AllDigits(s: string) { forall i :: 0 <= i < |s| ==> IsDigit(s[i]) }

  function DigitChar(d: int): char
    requires 0 <= d < 10
  {
    ('0' as int + d) as char
  }

  /** Decimal digits of `n`, most significant first, without leading zeros. */
  function NatDigits(n: nat): (r: string)
    ensures r != [] && AllDigits(r)
    ensures r[0] == '0' ==> r == "0"
    decreases n
  {
    if n < 10 then [DigitChar(n)] else NatDigits(n / 10) + [DigitChar(n % 10)]
  }

  /** Swift's `String(n)` for an `Int`. */
  function DecimalString(n: int): string {
    if n < 0 then "-" + NatDigits(-n) else NatDigits(n)
  }

  function DigitsValue(s: string): nat
    requires AllDigits(s)
  {
    if s == [] then 0 else DigitsValue(s[..|s| - 1]) * 10 + (s[|s| - 1] as int - '0' as int)
  }

  /** Reads back an optionally signed decimal numeral. */
  function ParseDecimal(s: string): Option<int> {
    if |s| > 1 && s[0] == '-' && AllDigits(s[1..]) then Some(0 - DigitsValue(s[1..]))
    else if s != [] && AllDigits(s) then Some(DigitsValue(s))
    else None
  }

  lemma {:induction false} DigitsRoundTrip(n: nat)
    ensures DigitsValue(NatDigits(n)) == n
    decreases n
  {
    if n >= 10 {
      var d := NatDigits(n / 10) + [DigitChar(n % 10)];
      assert d[..|d| - 1] == NatDigits(n / 10);
      DigitsRoundTrip(n / 10);
    }
  }

  /** The rendered count reads back as the same number. */
  lemma DecimalRoundTrip(n: int)
    ensures ParseDecimal(DecimalString(n)) == Some(n)
  {
    if n < 0 {
      DigitsRoundTrip(-n);
      assert DecimalString(n)[1..] == NatDigits(-n);
    } else {
      DigitsRoundTrip(n);
    }
  }
}

/** The parts of Go's `strings`, `strconv` and `fmt` that the read path leans on, as functions on `string`. */
module GoText {

  datatype Option<+T> = None | Some(value: T)

  const INT64_MIN: int := -0x8000_0000_0000_0000
  const INT64_MAX: int := 0x7FFF_FFFF_FFFF_FFFF

  /** Go's signed 64-bit integer; every arithmetic result of this type is checked to fit. */
  newtype Int64 = x: int | -0x8000_0000_0000_0000 <= x <= 0x7FFF_FFFF_FFFF_FFFF

  // ---------------------------------------------------------------- searching and cutting

  predicate Free(s: string, c: char) {
    forall k | 0 <= k < |s| :: s[k] != c
  }

  /** strings.Cut for a one-character separator: the text before and after the first c. */
  function Cut(s: string, c: char): (r: Option<(string, string)>)
    ensures r.None? <==> Free(s, c)
    ensures r.Some? ==> Free(r.value.0, c) && s == r.value.0 + [c] + r.value.1
  {
    if s == "" then None
    else if s[0] == c then Some(("", s[1..]))
    else
      match Cut(s[1..], c)
      case None => None
      case Some(p) => Some(([s[0]] + p.0, p.1))
  }

  /** The first c splits the text in one way only. */
  lemma {:induction false} CutUnique(before: string, c: char, after: string)
    requires Free(before, c)
    ensures Cut(before + [c] + after, c) == Some((before, after))
  {
    var s := before + [c] + after;
    if before == "" {
      assert s[1..] == after;
    } else {
      assert s[0] == before[0] && s[1..] == before[1..] + [c] + after;
      CutUnique(before[1..], c, after);
      assert [before[0]] + before[1..] == before;
    }
  }

  /** strings.SplitN for n > 0: at most n pieces, the last one unsplit. */
  function SplitN(s: string, c: char, n: nat): (parts: seq<string>)
    requires n > 0
    ensures 1 <= |parts| <= n
    decreases n
  {
    match Cut(s, c)
    case None => [s]
    case Some(p) => if n == 1 then [s] else [p.0] + SplitN(p.1, c, n - 1)
  }

  /** strings.Split. */
  function Split(s: string, c: char): (parts: seq<string>)
    ensures |parts| >= 1
    decreases |s|
  {
    match Cut(s, c)
    case None => [s]
    case Some(p) => [p.0] + Split(p.1, c)
  }

  /** strings.Join. */
  function Join(parts: seq<string>, c: char): string
    requires |parts| >= 1
  {
    if |parts| == 1 then parts[0] else parts[0] + [c] + Join(parts[1..], c)
  }

  /** The pieces hold no separator, and joined by it they spell the text back out. */
  lemma {:induction false} SplitMeaning(s: string, c: char)
    ensures Join(Split(s, c), c) == s
    ensures forall part | part in Split(s, c) :: Free(part, c)
    decreases |s|
  {
    match Cut(s, c)
    case None =>
    case Some(p) =>
      SplitMeaning(p.1, c);
      assert Split(s, c)[1..] == Split(p.1, c);
  }

  lemma SplitCons(before: string, c: char, after: string)
    requires Free(before, c)
    ensures Split(before, c) == [before]
    ensures Split(before + [c] + after, c) == [before] + Split(after, c)
  {
    CutUnique(before, c, after);
  }

  function Occurrences(s: string, c: char): nat {
    if s == "" then 0 else (if s[0] == c then 1 else 0) + Occurrences(s[1..], c)
  }

  lemma {:induction false} OccurrencesConcat(a: string, b: string, c: char)
    ensures Occurrences(a + b, c) == Occurrences(a, c) + Occurrences(b, c)
  {
    if a == "" {
      assert a + b == b;
    } else {
      assert (a + b)[1..] == a[1..] + b;
      OccurrencesConcat(a[1..], b, c);
    }
  }

  lemma {:induction false} FreeHasNone(s: string, c: char)
    ensures Free(s, c) <==> Occurrences(s, c) == 0
  {
    if s != "" {
      FreeHasNone(s[1..], c);
      assert Free(s, c) <==> s[0] != c && Free(s[1..], c) by {
        assert forall k | 1 <= k < |s| :: s[k] == s[1..][k - 1];
      }
    }
  }

  /** One separator more than there are pieces left to cut. */
  lemma CutOccurrences(s: string, c: char)
    requires Cut(s, c).Some?
    ensures Occurrences(s, c) == 1 + Occurrences(Cut(s, c).value.1, c)
  {
    var p := Cut(s, c).value;
    OccurrencesConcat(p.0 + [c], p.1, c);
    OccurrencesConcat(p.0, [c], c);
    FreeHasNone(p.0, c);
  }

  function TrimLeft(s: string, c: char): (r: string)
    ensures r != "" ==> r[0] != c
    ensures s != "" && s[0] != c ==> r == s
  {
    if s != "" && s[0] == c then TrimLeft(s[1..], c) else s
  }

  function Repeat(c: char, n: nat): (r: string)
    ensures |r| == n && forall k | 0 <= k < n :: r[k] == c
  {
    if n == 0 then "" else [c] + Repeat(c, n - 1)
  }

  lemma {:induction false} TrimLeftRepeat(c: char, n: nat, s: string)
    ensures TrimLeft(Repeat(c, n) + s, c) == TrimLeft(s, c)
  {
    if n == 0 {
      assert Repeat(c, n) + s == s;
    } else {
      assert (Repeat(c, n) + s)[1..] == Repeat(c, n - 1) + s;
      TrimLeftRepeat(c, n - 1, s);
    }
  }

  // ---------------------------------------------------------------- trimming by character set

  /** unicode.IsSpace. */
  predicate IsSpace(c: char) {
    || c in "\t\n\r " || c == '\U{0B}' || c == '\U{0C}' || c == '\U{85}' || c == '\U{A0}'
    || c == '\U{1680}' || '\U{2000}' <= c <= '\U{200a}' || c == '\U{2028}' || c == '\U{2029}'
    || c == '\U{202f}' || c == '\U{205f}' || c == '\U{3000}'
  }

  function TrimFront(s: string, drop: char -> bool): (r: string)
    ensures |r| <= |s|
  {
    if s != "" && drop(s[0]) then TrimFront(s[1..], drop) else s
  }

  function TrimBack(s: string, drop: char -> bool): (r: string)
    ensures |r| <= |s|
  {
    if s != "" && drop(s[|s| - 1]) then TrimBack(s[..|s| - 1], drop) else s
  }

  function TrimSpace(s: string): string {
    TrimBack(TrimFront(s, IsSpace), IsSpace)
  }

  predicate IsQuote(c: char) { c in "\"'" }

  /** strings.Trim(s, `"'`). */
  function TrimQuotes(s: string): string {
    TrimBack(TrimFront(s, IsQuote), IsQuote)
  }

  // ---------------------------------------------------------------- decimal integers

  predicate IsDigit(c: char) { '0' <= c <= '9' }

  predicate AllDigits(s: string) {
    forall k | 0 <= k < |s| :: IsDigit(s[k])
  }

  function Digit(d: nat): (c: char)
    requires d < 10
    ensures IsDigit(c) && c as int - '0' as int == d
  {
    '0' + d as char
  }

  function FormatNat(n: nat): (s: string)
    ensures s != "" && AllDigits(s)
  {
    if n < 10 then [Digit(n)] else FormatNat(n / 10) + [Digit(n % 10)]
  }

  /** The %d verb. */
  function FormatInt(n: int): (s: string)
    ensures s != ""
  {
    if n < 0 then "-" + FormatNat(-n) else FormatNat(n)
  }

  function DecimalValue(s: string): nat
    requires AllDigits(s)
  {
    if s == "" then 0 else DecimalValue(s[..|s| - 1]) * 10 + (s[|s| - 1] as int - '0' as int)
  }

  /** An optional sign and at least one digit, as strconv.ParseInt(s, 10, 64) wants it. */
  function ParseSigned(s: string): (r: Option<int>) {
    var negative := s != "" && s[0] == '-';
    var digits := if s != "" && (s[0] == '-' || s[0] == '+') then s[1..] else s;
    if digits == "" || !AllDigits(digits) then None
    else
      var v: int := DecimalValue(digits);
      Some(if negative then -v else v)
  }

  /** strconv.ParseInt(s, 10, 64); None stands for either of its two errors (syntax, range). */
  function ParseInt(s: string): (r: Option<Int64>) {
    match ParseSigned(s)
    case None => None
    case Some(v) => if INT64_MIN <= v <= INT64_MAX then Some(v as Int64) else None
  }

  lemma {:induction false} FormatNatValue(n: nat)
    ensures DecimalValue(FormatNat(n)) == n
  {
    if n >= 10 {
      FormatNatValue(n / 10);
      var s := FormatNat(n);
      assert s[..|s| - 1] == FormatNat(n / 10);
    }
  }

  /** Printing with %d and reading back is the identity on all of int64, and only on int64. */
  lemma ParseFormat(n: int)
    ensures ParseSigned(FormatInt(n)) == Some(n)
    ensures ParseInt(FormatInt(n)) == if INT64_MIN <= n <= INT64_MAX then Some(n as Int64) else None
  {
    var s := FormatInt(n);
    if n < 0 {
      FormatNatValue(-n);
      assert s[1..] == FormatNat(-n);
    } else {
      FormatNatValue(n);
      assert IsDigit(s[0]);
    }
  }

  /** A printed integer is made of digits and at most a leading minus. */
  lemma FormatIntFree(n: int, c: char)
    requires !IsDigit(c) && c != '-'
    ensures Free(FormatInt(n), c)
  {
  }

  /** A plus sign does not count, and leading zeros do not either. */
  lemma ParseIntMeaning(digits: string)
    requires digits != "" && AllDigits(digits)
    ensures var v: int := DecimalValue(digits);
            && ParseInt(digits) == (if v <= INT64_MAX then Some(v as Int64) else None)
            && ParseInt("+" + digits) == ParseInt(digits)
            && ParseInt("-" + digits) == (if -v >= INT64_MIN then Some((-v) as Int64) else None)
    ensures ParseInt("0" + digits) == ParseInt(digits)
  {
    SignedMeaning(digits);
    LeadingZero(digits);
    SignedMeaning("0" + digits);
    hide DecimalValue, ParseSigned, AllDigits;
  }

  lemma SignedMeaning(digits: string)
    requires digits != "" && AllDigits(digits)
    ensures var v: int := DecimalValue(digits);
            && ParseSigned(digits) == Some(v)
            && ParseSigned("+" + digits) == Some(v)
            && ParseSigned("-" + digits) == Some(-v)
  {
    hide DecimalValue;
    assert IsDigit(digits[0]);
    assert ("+" + digits)[1..] == digits && ("-" + digits)[1..] == digits;
  }

  lemma {:induction false} LeadingZero(digits: string)
    requires AllDigits(digits)
    ensures AllDigits("0" + digits) && DecimalValue("0" + digits) == DecimalValue(digits)
  {
    if digits != "" {
      LeadingZero(digits[..|digits| - 1]);
      var s := "0" + digits;
      assert s[..|s| - 1] == "0" + digits[..|digits| - 1];
    } else {
      assert "0"[..0] == "";
    }
  }

  /** Nothing else is an integer. */
  lemma OnlySignedDigits(s: string)
    ensures ParseInt(s).Some? ==>
              s != "" && (AllDigits(s) || (s[0] in "+-" && AllDigits(s[1..]) && s[1..] != ""))
  {
  }
}

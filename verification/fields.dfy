/**
 * Field-level normalisation rules applied by the form handlers before a
 * stored procedure is called: phone formatting, state-code upper-casing,
 * the `int(...)`-or-`None` coercion of foreign keys, and the two ways an
 * absent value (an empty string, the "Select a result" placeholder) is
 * turned into `None`.
 */
module Fields {
  import opened Common

  // ---------------------------------------------------------------------
  // Phone numbers
  // ---------------------------------------------------------------------

  /** A number in the stored `NNN-NNN-NNNN` shape: twelve characters with dashes at 3 and 7. */
  predicate IsDashedPhone(t: string) {
    |t| == 12 && t[3] == '-' && t[7] == '-'
  }

  /** Drops the two dashes of a dashed number, leaving its ten other characters. */
  function Undash(t: string): (s: string)
    requires IsDashedPhone(t)
    ensures |s| == 10
  {
    t[..3] + t[4..7] + t[8..]
  }

  /**
   * Phone normalisation: a value of exactly ten characters is split 3-3-4
   * with dashes; any other length is kept as it is. Only the length is
   * checked, not whether the characters are digits.
   */
  function FormatPhone(s: string): (r: string)
    ensures |s| == 10 ==> IsDashedPhone(r) && Undash(r) == s
    ensures |s| != 10 ==> r == s
  {
    if |s| == 10 then
      var r := s[..3] + "-" + s[3..6] + "-" + s[6..];
      assert r[..3] == s[..3] && r[4..7] == s[3..6] && r[8..] == s[6..];
      assert s == s[..3] + s[3..6] + s[6..];
      r
    else s
  }

  /** Every dashed number is the formatting of exactly the ten characters it carries. */
  lemma FormatUndash(t: string)
    requires IsDashedPhone(t)
    ensures FormatPhone(Undash(t)) == t
  {
  }

  /** Formatting an already-formatted number (as a pre-filled update form resubmits it) changes nothing. */
  lemma FormatPhoneIdempotent(s: string)
    ensures FormatPhone(FormatPhone(s)) == FormatPhone(s)
  {
  }

  // ---------------------------------------------------------------------
  // State codes: Python's str.upper() over ASCII
  // ---------------------------------------------------------------------

  predicate IsLowerAscii(c: char) { 'a' <= c <= 'z' }

  /** The case-folding key: ASCII letters compare equal whatever their case. */
  function FoldCase(c: char): char {
    if 'A' <= c <= 'Z' then (c as int + 32) as char else c
  }

  /** `a` and `b` spell the same text when ASCII letter case is ignored. */
  predicate SameIgnoringCase(a: string, b: string) {
    |a| == |b| && forall i :: 0 <= i < |a| ==> FoldCase(a[i]) == FoldCase(b[i])
  }

  /** No character of `s` is an ASCII lower-case letter. */
  predicate NoLowerAscii(s: string) {
    forall i :: 0 <= i < |s| ==> !IsLowerAscii(s[i])
  }

  function UpperChar(c: char): char {
    if IsLowerAscii(c) then (c as int - 32) as char else c
  }

  /** State-code normalisation (`str.upper()`), restricted to ASCII letters. */
  function Upper(s: string): (r: string)
    ensures NoLowerAscii(r)
    ensures SameIgnoringCase(s, r)
    ensures forall i :: 0 <= i < |s| && !IsLowerAscii(s[i]) ==> r[i] == s[i]
  {
    seq(|s|, i requires 0 <= i < |s| => UpperChar(s[i]))
  }

  /** Text without lower-case letters is already normalised. */
  lemma UpperFixesUpper(s: string)
    requires NoLowerAscii(s)
    ensures Upper(s) == s
  {
  }

  /** Upper-casing twice is upper-casing once. */
  lemma UpperIdempotent(s: string)
    ensures Upper(Upper(s)) == Upper(s)
  {
    UpperFixesUpper(Upper(s));
  }

  /** The upper-cased text is the only case-insensitive equivalent without lower-case letters. */
  lemma UpperUnique(s: string, t: string)
    requires SameIgnoringCase(s, t) && NoLowerAscii(t)
    ensures Upper(s) == t
  {
  }

  // ---------------------------------------------------------------------
  // Integer fields: an approximation of Python's int() on form text
  // ---------------------------------------------------------------------

  predicate IsDigit(c: char) { '0' <= c <= '9' }

  predicate AllDigits(s: string) {
    forall i :: 0 <= i < |s| ==> IsDigit(s[i])
  }

  function DigitValue(c: char): nat
    requires IsDigit(c)
  {
    c as int - '0' as int
  }

  function DigitChar(d: nat): (c: char)
    requires d < 10
    ensures IsDigit(c) && DigitValue(c) == d
  {
    ('0' as int + d) as char
  }

  /** Text `int()` accepts here: an optional sign followed by at least one decimal digit. */
  predicate IsIntLiteral(s: string) {
    |s| >= 1 && var ds := Unsigned(s); |ds| >= 1 && AllDigits(ds)
  }

  /** The part of `s` after an optional leading sign. */
  function Unsigned(s: string): string {
    if |s| >= 1 && (s[0] == '-' || s[0] == '+') then s[1..] else s
  }

  /** Positional value of a digit string, most significant digit first. */
  function DecimalValue(ds: string): nat
    requires AllDigits(ds)
  {
    if ds == [] then 0 else DecimalValue(ds[..|ds| - 1]) * 10 + DigitValue(ds[|ds| - 1])
  }

  /** The integer an accepted literal denotes. */
  function LiteralValue(s: string): int
    requires IsIntLiteral(s)
  {
    var n: int := DecimalValue(Unsigned(s));
    if s[0] == '-' then -n else n
  }

  /** Left-to-right digit scan with an accumulator; `None` at the first non-digit. */
  function ScanDigits(s: string, acc: nat): Option<nat> {
    if s == [] then Some(acc)
    else if IsDigit(s[0]) then ScanDigits(s[1..], acc * 10 + DigitValue(s[0]))
    else None
  }

  /**
   * `int(text)` where a `ValueError` becomes `None`: the coercion every
   * optional foreign-key field goes through on the update forms.
   */
  function ParseInt(s: string): (r: Option<int>)
  {
    if s == [] then None
    else
      var ds := if s[0] == '-' || s[0] == '+' then s[1..] else s;
      if ds == [] then None
      else match ScanDigits(ds, 0)
        case None => None
        case Some(n) => Some(if s[0] == '-' then -(n as int) else n as int)
  }

  /** Appending one digit to a scanned string multiplies by ten and adds the digit. */
  lemma {:induction false} ScanDigitsSnoc(s: string, c: char, acc: nat)
    requires IsDigit(c) && ScanDigits(s, acc).Some?
    ensures ScanDigits(s + [c], acc) == Some(ScanDigits(s, acc).value * 10 + DigitValue(c))
  {
    if s != [] {
      assert (s + [c])[1..] == s[1..] + [c];
      ScanDigitsSnoc(s[1..], c, acc * 10 + DigitValue(s[0]));
    }
  }

  /** On a digit string the scan yields its positional value. */
  lemma {:induction false} ScanDigitsValue(ds: string)
    requires AllDigits(ds)
    ensures ScanDigits(ds, 0) == Some(DecimalValue(ds))
  {
    if ds != [] {
      var p, c := ds[..|ds| - 1], ds[|ds| - 1];
      assert ds == p + [c];
      assert AllDigits(p);
      ScanDigitsValue(p);
      ScanDigitsSnoc(p, c, 0);
    }
  }

  /** The scan succeeds exactly on digit strings, and then yields their positional value. */
  lemma ScanDigitsCorrect(ds: string)
    ensures ScanDigits(ds, 0).Some? <==> AllDigits(ds)
    ensures AllDigits(ds) ==> ScanDigits(ds, 0) == Some(DecimalValue(ds))
  {
    if AllDigits(ds) {
      ScanDigitsValue(ds);
    } else {
      var k :| 0 <= k < |ds| && !IsDigit(ds[k]);
      ScanFailsAt(ds, k, 0);
    }
  }

  /** A scan over text holding a non-digit fails, whatever the accumulator. */
  lemma {:induction false} ScanFailsAt(s: string, k: nat, acc: nat)
    requires k < |s| && !IsDigit(s[k])
    ensures ScanDigits(s, acc) == None
  {
    if k > 0 && IsDigit(s[0]) {
      ScanFailsAt(s[1..], k - 1, acc * 10 + DigitValue(s[0]));
    }
  }

  /** `ParseInt` accepts exactly the integer literals and returns the integer each denotes. */
  lemma ParseIntCorrect(s: string)
    ensures ParseInt(s).Some? <==> IsIntLiteral(s)
    ensures IsIntLiteral(s) ==> ParseInt(s) == Some(LiteralValue(s))
  {
    if s != [] {
      ScanDigitsCorrect(Unsigned(s));
    }
  }

  /** Decimal rendering of a natural number, without leading zeros. */
  function FormatNat(n: nat): (r: string)
    ensures |r| >= 1 && AllDigits(r)
  {
    if n < 10 then [DigitChar(n)] else FormatNat(n / 10) + [DigitChar(n % 10)]
  }

  /** Decimal rendering of an integer, as `str(n)` writes it. */
  function FormatInt(n: int): (r: string)
    ensures IsIntLiteral(r)
  {
    if n < 0 then "-" + FormatNat(-n) else FormatNat(n)
  }

  lemma {:induction false} FormatNatValue(n: nat)
    ensures DecimalValue(FormatNat(n)) == n
  {
    if n >= 10 {
      FormatNatValue(n / 10);
      var r := FormatNat(n);
      assert r[..|r| - 1] == FormatNat(n / 10);
    }
  }

  /** Every integer the application itself renders (an id in a drop-down) is read back unchanged. */
  lemma ParseFormatInt(n: int)
    ensures ParseInt(FormatInt(n)) == Some(n)
  {
    var r := FormatInt(n);
    ParseIntCorrect(r);
    if n < 0 {
      assert Unsigned(r) == FormatNat(-n);
      FormatNatValue(-n);
    } else {
      assert Unsigned(r) == FormatNat(n);
      FormatNatValue(n);
    }
  }

  // ---------------------------------------------------------------------
  // Absent values
  // ---------------------------------------------------------------------

  /** An empty date or date-time input is stored as NULL (`if not value: value = None`). */
  function BlankToNone(s: string): (r: Option<string>)
    ensures r == None <==> s == ""
    ensures r.Some? ==> r.value == s
  {
    if s == "" then None else Some(s)
  }

  /** The placeholder the result drop-down shows when nothing is chosen. */
  const NoResultChosen: string := "Select a result"

  /** On creation of a scheduled test the placeholder is stored as NULL. */
  function PlaceholderToNone(s: string): (r: Option<string>)
    ensures r == None <==> s == NoResultChosen
    ensures r.Some? ==> r.value == s
  {
    if s == NoResultChosen then None else Some(s)
  }

  /**
   * Creation and update agree on the result drop-down: the placeholder, and
   * an empty value, are both NULL through `int()` as well.
   */
  lemma AbsentResultIsNotInt()
    ensures ParseInt(NoResultChosen) == None
    ensures ParseInt("") == None
  {
    ParseIntCorrect(NoResultChosen);
  }
}

/**
 * The string-to-integer coercion the form uses to recognise the franchise
 * department: `parseInt(id) === 2`, with `parseInt` called without a radix.
 * The scan follows the `parseInt` algorithm of ECMA-262 (section 19.2.5 in
 * the 2022 and later editions): skip leading white space, read an optional
 * sign, switch to radix 16 after a `0x`/`0X` prefix, then take the longest
 * prefix of digits of that radix; no digit at all gives NaN.
 */
module JsCoercion {
  import opened Wrappers

  /** The department id that activates the franchise branches. */
  const FranchiseDepartmentId: int := 2

  /** StrWhiteSpaceChar of ECMA-262: WhiteSpace (including every Zs character) and LineTerminator. */
  predicate IsWhiteSpace(c: char) {
    c == '\t' || c == '\n' || c == '\U{000B}' || c == '\U{000C}' || c == '\r' || c == ' '
    || c == '\U{00A0}' || c == '\U{1680}' || ('\U{2000}' <= c <= '\U{200A}')
    || c == '\U{2028}' || c == '\U{2029}' || c == '\U{202F}' || c == '\U{205F}'
    || c == '\U{3000}' || c == '\U{FEFF}'
  }

  /** The string without its leading white space. */
  function TrimStart(s: string): (r: string)
    ensures |r| <= |s| && r == s[|s| - |r|..]
    ensures r == [] || !IsWhiteSpace(r[0])
    ensures forall i :: 0 <= i < |s| - |r| ==> IsWhiteSpace(s[i])
  {
    if s != [] && IsWhiteSpace(s[0]) then TrimStart(s[1..]) else s
  }

  /** The two radixes `parseInt` without a radix argument can pick. */
  datatype Radix = Decimal | Hex

  /** A digit of the radix: 0-9, and for radix 16 also a-f and A-F. */
  predicate IsDigit(c: char, radix: Radix) {
    ('0' <= c <= '9') || (radix == Hex && (('a' <= c <= 'f') || ('A' <= c <= 'F')))
  }

  /** The value of a digit. */
  function DigitValue(c: char, radix: Radix): (v: nat)
    requires IsDigit(c, radix)
    ensures radix == Decimal ==> v < 10
    ensures v < 16
    ensures v == 2 <==> c == '2'
    ensures v == 0 <==> c == '0'
  {
    if '0' <= c <= '9' then c as nat - '0' as nat
    else if 'a' <= c <= 'f' then c as nat - 'a' as nat + 10
    else c as nat - 'A' as nat + 10
  }

  /** The longest prefix of `s` made of digits of `radix`. */
  function DigitPrefix(s: string, radix: Radix): (r: string)
    ensures r <= s
    ensures forall i :: 0 <= i < |r| ==> IsDigit(r[i], radix)
    ensures |r| < |s| ==> !IsDigit(s[|r|], radix)
  {
    if s != [] && IsDigit(s[0], radix) then [s[0]] + DigitPrefix(s[1..], radix) else []
  }

  /** `v` times the base of `radix`. */
  function Shift(v: nat, radix: Radix): nat {
    if radix == Hex then 16 * v else 10 * v
  }

  /** The mathematical value of a digit string, most significant digit first. */
  function Value(ds: string, radix: Radix): nat
    requires forall i :: 0 <= i < |ds| ==> IsDigit(ds[i], radix)
  {
    if ds == [] then 0
    else
      assert IsDigit(ds[|ds| - 1], radix);
      Shift(Value(ds[..|ds| - 1], radix), radix) + DigitValue(ds[|ds| - 1], radix)
  }

  /** What the scan of `parseInt` reads from a string: its sign, its radix and its digits. */
  datatype Scanned = Scanned(negative: bool, radix: Radix, digits: string)

  function Scan(s: string): (r: Scanned)
    ensures forall i :: 0 <= i < |r.digits| ==> IsDigit(r.digits[i], r.radix)
  {
    var t := TrimStart(s);
    var negative := t != [] && t[0] == '-';
    var u := if t != [] && (t[0] == '-' || t[0] == '+') then t[1..] else t;
    var hex := |u| >= 2 && u[0] == '0' && (u[1] == 'x' || u[1] == 'X');
    var radix := if hex then Hex else Decimal;
    Scanned(negative, radix, DigitPrefix(if hex then u[2..] else u, radix))
  }

  /** `parseInt(s)`: None stands for NaN. */
  function ParseInt(s: string): (r: Option<int>)
    ensures r.None? <==> Scan(s).digits == []
    ensures r.Some? && !Scan(s).negative ==> r.value >= 0
    ensures r.Some? && Scan(s).negative ==> r.value <= 0
  {
    var sc := Scan(s);
    if sc.digits == [] then None
    else
      var v: int := Value(sc.digits, sc.radix);
      Some(if sc.negative then -v else v)
  }

  /** `parseInt(id) === 2`. NaN and -0 are never equal to 2, and no digit string
      whose value differs from 2 rounds to 2 as a double, so exact integers agree. */
  predicate IsFranchise(id: string): (franchise: bool)
    ensures franchise ==> Scan(id).digits != [] && !Scan(id).negative
  {
    ParseInt(id) == Some(FranchiseDepartmentId)
  }

  /** A digit string made of zeros followed by one '2'. */
  predicate ZerosThenTwo(ds: string) {
    |ds| > 0 && ds[|ds| - 1] == '2' && forall i :: 0 <= i < |ds| - 1 ==> ds[i] == '0'
  }

  lemma {:induction false} ValueZeroIff(ds: string, radix: Radix)
    requires forall i :: 0 <= i < |ds| ==> IsDigit(ds[i], radix)
    ensures Value(ds, radix) == 0 <==> forall i :: 0 <= i < |ds| ==> ds[i] == '0'
  {
    if ds != [] {
      var init := ds[..|ds| - 1];
      assert forall i :: 0 <= i < |init| ==> init[i] == ds[i];
      ValueZeroIff(init, radix);
    }
  }

  lemma {:induction false} ValueTwoIff(ds: string, radix: Radix)
    requires forall i :: 0 <= i < |ds| ==> IsDigit(ds[i], radix)
    ensures Value(ds, radix) == 2 <==> ZerosThenTwo(ds)
  {
    if ds != [] {
      var init := ds[..|ds| - 1];
      assert forall i :: 0 <= i < |init| ==> init[i] == ds[i];
      ValueZeroIff(init, radix);
    }
  }

  /** The franchise test holds exactly for an optional '+', an optional hex prefix and
      a digit run of zeros ending in a single '2' (anything may follow the run). */
  lemma IsFranchiseIff(id: string)
    ensures IsFranchise(id) <==> !Scan(id).negative && ZerosThenTwo(Scan(id).digits)
  {
    var sc := Scan(id);
    if sc.digits != [] {
      ValueTwoIff(sc.digits, sc.radix);
    }
  }

  /** Leading white space does not change what `parseInt` reads. */
  lemma ScanSkipsWhiteSpace(s: string)
    requires s != [] && IsWhiteSpace(s[0])
    ensures Scan(s) == Scan(s[1..])
  {
  }

  /** A string that starts with neither white space, a sign nor a hex prefix is read in radix 10. */
  lemma ScanPlain(s: string)
    requires s != [] && !IsWhiteSpace(s[0]) && s[0] != '-' && s[0] != '+'
    requires !(|s| >= 2 && s[0] == '0' && (s[1] == 'x' || s[1] == 'X'))
    ensures Scan(s) == Scanned(false, Decimal, DigitPrefix(s, Decimal))
  {
    assert TrimStart(s) == s;
  }

  /** A `0x` or `0X` prefix switches to radix 16. */
  lemma ScanHex(s: string)
    requires |s| >= 2 && s[0] == '0' && (s[1] == 'x' || s[1] == 'X')
    ensures Scan(s) == Scanned(false, Hex, DigitPrefix(s[2..], Hex))
  {
    assert TrimStart(s) == s;
  }

  /** A leading minus makes the result negative. */
  lemma ScanMinus(s: string)
    requires s != [] && s[0] == '-'
    ensures Scan(s).negative
  {
    assert TrimStart(s) == s;
  }

  lemma DigitPrefixOfTwo()
    ensures DigitPrefix("2", Decimal) == "2" && DigitPrefix("2", Hex) == "2"
  {
    assert "2"[1..] == [];
  }

  lemma PlainTwoIsFranchise()
    ensures IsFranchise("2")
  {
    ScanPlain("2");
    DigitPrefixOfTwo();
    IsFranchiseIff("2");
  }

  lemma ZeroFilledTwoIsFranchise()
    ensures IsFranchise("02")
  {
    ScanPlain("02");
    assert "02"[1..] == "2";
    DigitPrefixOfTwo();
    assert DigitPrefix("02", Decimal) == "02";
    IsFranchiseIff("02");
  }

  lemma PaddedTwoIsFranchise()
    ensures IsFranchise(" 02")
  {
    ScanSkipsWhiteSpace(" 02");
    assert " 02"[1..] == "02";
    ZeroFilledTwoIsFranchise();
  }

  lemma HexTwoIsFranchise()
    ensures IsFranchise("0x2")
  {
    ScanHex("0x2");
    assert "0x2"[2..] == "2";
    DigitPrefixOfTwo();
    IsFranchiseIff("0x2");
  }

  lemma TrailingTextIsFranchise()
    ensures IsFranchise("2abc")
  {
    ScanPlain("2abc");
    assert "2abc"[1..] == "abc" && !IsDigit('a', Decimal);
    assert DigitPrefix("2abc", Decimal) == "2";
    IsFranchiseIff("2abc");
  }

  lemma TwelveIsNotFranchise()
    ensures !IsFranchise("12")
  {
    ScanPlain("12");
    assert "12"[1..] == "2";
    DigitPrefixOfTwo();
    assert DigitPrefix("12", Decimal) == "12";
    IsFranchiseIff("12");
  }

  lemma NegativeTwoIsNotFranchise()
    ensures !IsFranchise("-2")
  {
    ScanMinus("-2");
    IsFranchiseIff("-2");
  }

  /** Ids the franchise test accepts (padded, zero-filled, hexadecimal and
      trailing-text forms of 2) and ids it rejects (another number, -2, NaN). */
  lemma FranchiseIdExamples()
    ensures IsFranchise("2") && IsFranchise(" 02") && IsFranchise("0x2") && IsFranchise("2abc")
    ensures !IsFranchise("12") && !IsFranchise("-2") && !IsFranchise("")
  {
    PlainTwoIsFranchise();
    PaddedTwoIsFranchise();
    HexTwoIsFranchise();
    TrailingTextIsFranchise();
    TwelveIsNotFranchise();
    NegativeTwoIsNotFranchise();
    IsFranchiseIff("");
  }
}

/**
 * Base-10 integer text as Go's `strconv.ParseInt(s, 10, 64)` reads it and
 * `strconv.FormatInt(n, 10)` / `fmt`'s `%d` write it.
 */
module Decimal {
  import opened Wrappers

  const Int64Min: int := -0x8000_0000_0000_0000
  const Int64Max: int := 0x7FFF_FFFF_FFFF_FFFF

  predicate IsInt64(n: int) {
    Int64Min <= n <= Int64Max
  }

  predicate IsDigit(c: char) {
    '0' <= c <= '9'
  }

  predicate AllDigits(s: string) {
    forall i | 0 <= i < |s| :: IsDigit(s[i])
  }

  function DigitChar(d: nat): (c: char)
    requires d < 10
    ensures IsDigit(c) && (c as int) - ('0' as int) == d
  {
    (('0' as int) + d) as char
  }

  /** The value of a string of decimal digits, most significant first. */
  function DigitsValue(s: string): nat
    requires AllDigits(s)
  {
    if s == [] then 0 else 10 * DigitsValue(s[..|s| - 1]) + ((s[|s| - 1] as int) - ('0' as int))
  }

  /** The shortest decimal text of `n`: digits only, no leading zero, and reading back as `n`. */
  function FormatNat(n: nat): (r: string)
    ensures r != [] && AllDigits(r)
    ensures r[0] != '0' || r == "0"
    ensures DigitsValue(r) == n
  {
    if n < 10 then [DigitChar(n)]
    else
      var r := FormatNat(n / 10) + [DigitChar(n % 10)];
      assert r[..|r| - 1] == FormatNat(n / 10);
      r
  }

  /** `strconv.FormatInt(n, 10)`: a minus sign for negative values, then the digits. */
  function FormatInt(n: int): (r: string)
    ensures n >= 0 ==> r == FormatNat(n)
    ensures n < 0 ==> r == "-" + FormatNat(-n)
  {
    if n < 0 then "-" + FormatNat(-n) else FormatNat(n)
  }

  /** The text after an optional leading `+` or `-`. */
  function Unsigned(s: string): (u: string)
    ensures |u| <= |s| && u == s[|s| - |u|..]
  {
    if s != [] && (s[0] == '+' || s[0] == '-') then s[1..] else s
  }

  /** The number a signed digit string denotes: its digits, negated after a minus sign. */
  function SignedValue(s: string): int
    requires AllDigits(Unsigned(s))
  {
    if s != [] && s[0] == '-' then -(DigitsValue(Unsigned(s)) as int) else DigitsValue(Unsigned(s))
  }

  /**
   * `strconv.ParseInt(s, 10, 64)`: an optional sign, at least one decimal
   * digit and nothing else, with a value in the int64 range; `None` is
   * every case in which Go returns an error (empty text, a stray character,
   * out of range). Leading zeros, a `+` and `-0` are accepted.
   */
  function ParseInt64(s: string): (r: Option<int>)
    ensures r.Some? <==> Unsigned(s) != [] && AllDigits(Unsigned(s)) && IsInt64(SignedValue(s))
    ensures r.Some? ==> r.value == SignedValue(s)
    ensures r.Some? ==> IsInt64(r.value) && s != []
    ensures r.Some? ==> forall i | 1 <= i < |s| :: IsDigit(s[i])
  {
    if s == [] then None
    else
      var negative := s[0] == '-';
      var digits := if s[0] == '+' || s[0] == '-' then s[1..] else s;
      if digits == [] || !AllDigits(digits) then None
      else
        var v := DigitsValue(digits);
        if (!negative && v > Int64Max) || (negative && v > -Int64Min) then None
        else
          var n: int := if negative then -(v as int) else v;
          Some(n)
  }

  /** A plus sign and a negative zero are accepted. */
  lemma ParseInt64Signs()
    ensures ParseInt64("+7") == Some(7)
    ensures ParseInt64("-0") == Some(0)
  {
    assert Unsigned("+7") == "7";
    assert Unsigned("-0") == "0";
  }

  /** Leading zeros are accepted. */
  lemma ParseInt64LeadingZeros()
    ensures ParseInt64("007") == Some(7)
  {
    var s := "007";
    assert s[..2] == "00" && s[..2][..1] == "0" && s[..2][..1][..0] == [];
    assert DigitsValue("0") == 0;
    assert DigitsValue("00") == 0;
    assert DigitsValue(s) == 7;
  }

  /** Spellings Go refuses: no digits, a space, a unit or a digit separator. */
  lemma ParseInt64Refusals()
    ensures ParseInt64("") == None && ParseInt64("+") == None && ParseInt64("-") == None
    ensures ParseInt64(" 7") == None && ParseInt64("7s") == None && ParseInt64("1_000") == None
  {
    assert !IsDigit(" 7"[0]) && !IsDigit("7s"[1]) && !IsDigit("1_000"[1]);
  }

  /** Every int64 written by `FormatInt` parses back to itself. */
  lemma ParseFormatInt(n: int)
    requires IsInt64(n)
    ensures ParseInt64(FormatInt(n)) == Some(n)
  {
    if n < 0 {
      assert FormatInt(n)[1..] == FormatNat(-n);
    }
  }

  /** A value outside the int64 range is refused whatever its spelling. */
  lemma ParseRefusesOutOfRange(n: int)
    requires !IsInt64(n)
    ensures ParseInt64(FormatInt(n)) == None
  {
  }
}

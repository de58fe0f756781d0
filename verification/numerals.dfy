/** Fixed-width unsigned integers and their decimal text, as Rust's `u16`, `u64`,
    `str::parse::<u64>` and `format!("{}")` treat them. */
module Numerals {
  import opened Wrappers

  const U64_LIMIT: int := 0x1_0000_0000_0000_0000

  type u16 = n: int | 0 <= n < 0x1_0000
  type u64 = n: int | 0 <= n < 0x1_0000_0000_0000_0000

  predicate IsDigit(c: char) {
    '0' <= c <= '9'
  }

  predicate AllDigits(s: string) {
    forall i :: 0 <= i < |s| ==> IsDigit(s[i])
  }

  function DigitValue(c: char): nat
    requires IsDigit(c)
  {
    c as int - '0' as int
  }

  function DigitChar(d: nat): (c: char)
    requires d < 10
    ensures IsDigit(c) && DigitValue(c) == d
  {
    ('0' as int + d) as char
  }

  /** The number a run of decimal digits denotes, most significant digit first. */
  function DigitsValue(s: string): nat
    requires AllDigits(s)
  {
    if |s| == 0 then 0 else DigitsValue(s[..|s| - 1]) * 10 + DigitValue(s[|s| - 1])
  }

  /** `str::parse::<u64>`: an optional `+`, then at least one decimal digit, and the
      value must fit in 64 bits. A `-` sign is never accepted for an unsigned type. */
  function ParseU64(s: string): (r: Option<u64>)
    ensures s == [] ==> r.None?
    ensures |s| > 0 && s[0] == '-' ==> r.None?
    ensures r.Some? ==> |s| > 0
    ensures r.Some? && s[0] != '+' ==> AllDigits(s) && DigitsValue(s) == r.value
    ensures r.Some? && s[0] == '+' ==> |s| > 1 && AllDigits(s[1..]) && DigitsValue(s[1..]) == r.value
    ensures |s| > 0 && s[0] != '+' && AllDigits(s) && DigitsValue(s) < U64_LIMIT ==> r == Some(DigitsValue(s))
    ensures |s| > 1 && s[0] == '+' && AllDigits(s[1..]) && DigitsValue(s[1..]) < U64_LIMIT ==> r == Some(DigitsValue(s[1..]))
  {
    var digits := if |s| > 0 && s[0] == '+' then s[1..] else s;
    if |digits| > 0 && AllDigits(digits) && DigitsValue(digits) < U64_LIMIT then
      Some(DigitsValue(digits))
    else
      None
  }

  /** `format!("{}", n)`: shortest decimal text, no sign, no leading zero. */
  function Decimal(n: nat): (r: string)
    ensures |r| > 0 && AllDigits(r) && DigitsValue(r) == n
    ensures |r| > 1 ==> r[0] != '0'
  {
    if n < 10 then [DigitChar(n)]
    else
      var prefix := Decimal(n / 10);
      var r := prefix + [DigitChar(n % 10)];
      assert r[..|r| - 1] == prefix;
      r
  }

  /** Parsing the decimal text of any 64-bit value gives that value back. */
  lemma ParseDecimal(n: u64)
    ensures ParseU64(Decimal(n)) == Some(n)
  {
    var d := Decimal(n);
    assert d[0] != '+' by { assert IsDigit(d[0]); }
  }

  /** Decimal text never contains a character other than a digit. */
  lemma DecimalHasNo(n: nat, c: char)
    requires !IsDigit(c)
    ensures c !in Decimal(n)
  {
  }

  /** Leading zeros and a single leading `+` are accepted; a sign alone, a `-` and any
      other character are not. */
  lemma ParseU64Examples()
    ensures ParseU64("007") == Some(7)
    ensures ParseU64("+5") == Some(5)
    ensures ParseU64("-5") == None
    ensures ParseU64("+") == None
    ensures ParseU64("12a") == None
  {
    var z := "007";
    assert z[..2] == "00" && z[..2][..1] == "0" && z[..2][..1][..0] == [];
    assert DigitsValue("0") == 0;
    assert DigitsValue("00") == 0;
    assert DigitsValue(z) == 7;
    var p := "+5";
    assert p[1..] == "5" && p[1..][..0] == [];
    assert DigitsValue(p[1..]) == 5;
    assert !IsDigit("12a"[2]);
  }
}

/**
 * Base-10 amount texts and the amount policy (internal/wallet/service.go, `validateAmountPolicy`).
 * `strconv.ParseInt(s, 10, 64)` and `big.Int.SetString(s, 10)` read the same grammar, an optional
 * sign and at least one digit; the former also refuses values outside int64.
 */
module Amounts {
  import opened Types

  const MAX_INT64 := 0x7FFF_FFFF_FFFF_FFFF
  const MIN_INT64 := -0x8000_0000_0000_0000

  predicate IsDigit(c: char) { '0' <= c <= '9' }

  predicate AllDigits(s: string) { forall i :: 0 <= i < |s| ==> IsDigit(s[i]) }

  function DigitsValue(s: string): nat
    requires AllDigits(s)
  {
    if s == "" then 0
    else DigitsValue(s[..|s| - 1]) * 10 + (s[|s| - 1] as int - '0' as int)
  }

  /** `big.Int.SetString(s, 10)`. */
  function ParseDecimal(s: string): Option<int> {
    var signed := s != "" && (s[0] == '-' || s[0] == '+');
    var digits := if signed then s[1..] else s;
    if digits == "" || !AllDigits(digits) then None
    else
      var v: int := DigitsValue(digits);
      Some(if signed && s[0] == '-' then -v else v)
  }

  /** `strconv.ParseInt(s, 10, 64)`. */
  function ParseInt64(s: string): Option<int> {
    match ParseDecimal(s)
    case None => None
    case Some(v) => if MIN_INT64 <= v <= MAX_INT64 then Some(v) else None
  }

  /** The decimal text of a number, as `big.Int.String` prints it. */
  function Decimal(n: nat): (s: string)
    ensures s != ""
  {
    var last := [('0' as int + n % 10) as char];
    if n < 10 then last else Decimal(n / 10) + last
  }

  lemma {:induction false} DecimalIsDigits(n: nat)
    ensures AllDigits(Decimal(n)) && DigitsValue(Decimal(n)) == n
  {
    var last := [('0' as int + n % 10) as char];
    if n < 10 {
      assert last[..|last| - 1] == "";
    } else {
      DecimalIsDigits(n / 10);
      var s := Decimal(n);
      assert s[..|s| - 1] == Decimal(n / 10);
    }
  }

  /** Decimal notation, most significant digit first. */
  lemma DecimalReads()
    ensures Decimal(0) == "0" && Decimal(9) == "9" && Decimal(120) == "120"
  {
    assert Decimal(1) == "1";
    assert Decimal(12) == "12";
  }

  function Zeros(k: nat): string { if k == 0 then "" else Zeros(k - 1) + "0" }

  function Abs(n: int): nat { if n < 0 then -n else n }

  /** The texts of a number: an optional sign that fits it, any leading zeros, then its digits. */
  ghost predicate Denotes(s: string, n: int) {
    exists sign: string, k: nat :: Spells(s, n, sign, k)
  }

  ghost predicate Spells(s: string, n: int, sign: string, k: nat) {
    && s == sign + (Zeros(k) + Decimal(Abs(n)))
    && ((sign == "-" && n <= 0) || ((sign == "" || sign == "+") && n >= 0))
  }

  lemma {:induction false} ZerosAreDigits(k: nat)
    ensures AllDigits(Zeros(k)) && DigitsValue(Zeros(k)) == 0
  {
    if k > 0 {
      ZerosAreDigits(k - 1);
      var s := Zeros(k);
      assert s[..|s| - 1] == Zeros(k - 1);
    }
  }

  lemma {:induction false} LeadingZeros(k: nat, d: string)
    requires AllDigits(d)
    ensures AllDigits(Zeros(k) + d) && DigitsValue(Zeros(k) + d) == DigitsValue(d)
    decreases |d|
  {
    ZerosAreDigits(k);
    var s := Zeros(k) + d;
    if d == "" {
      assert s == Zeros(k);
    } else {
      var n := |d| - 1;
      LeadingZeros(k, d[..n]);
      assert s[..|s| - 1] == Zeros(k) + d[..n] && s[|s| - 1] == d[n];
    }
  }

  function DigitOf(c: char): nat
    requires IsDigit(c)
  {
    c as int - '0' as int
  }

  lemma ValueSnoc(u: string, c: char)
    requires AllDigits(u) && IsDigit(c)
    ensures AllDigits(u + [c]) && DigitsValue(u + [c]) == 10 * DigitsValue(u) + DigitOf(c)
  {
    assert (u + [c])[..|u|] == u;
  }

  lemma DecimalSnoc(v: nat, c: char)
    requires IsDigit(c)
    ensures Decimal(10 * v + DigitOf(c)) == (if v == 0 then "" else Decimal(v)) + [c]
  {
    assert (10 * v + DigitOf(c)) / 10 == v && (10 * v + DigitOf(c)) % 10 == DigitOf(c);
  }

  lemma ZeroSpelled(k: nat)
    ensures Zeros(k) + Decimal(0) == Zeros(k + 1)
  {}

  /** Digits are leading zeros and the printed value. */
  lemma {:induction false} DigitsSpell(d: string) returns (k: nat)
    requires d != "" && AllDigits(d)
    ensures d == Zeros(k) + Decimal(DigitsValue(d))
    decreases |d|
  {
    hide Decimal, DigitsValue, Zeros;
    var n := |d| - 1;
    var u, c := d[..n], d[n];
    assert d == u + [c] && IsDigit(c);
    ValueSnoc(u, c);
    DecimalSnoc(DigitsValue(u), c);
    if u == "" {
      k := 0;
      NoDigits();
    } else {
      k := DigitsSpell(u);
      if DigitsValue(u) == 0 {
        ZeroSpelled(k);
        k := k + 1;
      } else {
        assert d == Zeros(k) + (Decimal(DigitsValue(u)) + [c]);
      }
    }
  }

  lemma NoDigits()
    ensures DigitsValue("") == 0 && Zeros(0) == ""
  {}

  /** A text parses as a number if and only if it is one of that number's texts. */
  lemma ParseDenotes(s: string, n: int)
    ensures ParseDecimal(s) == Some(n) <==> Denotes(s, n)
  {
    hide Decimal, Zeros, DigitsValue;
    if sign: string, k: nat :| Spells(s, n, sign, k) {
      SpelledParses(s, n, sign, k);
    }
    if ParseDecimal(s) == Some(n) {
      ParsedSpells(s, n);
    }
  }

  lemma ParsedSpells(s: string, n: int)
    requires ParseDecimal(s) == Some(n)
    ensures Denotes(s, n)
  {
    hide Decimal, Zeros, DigitsValue;
    var signed := s[0] == '-' || s[0] == '+';
    var sign, digits := if signed then s[..1] else "", if signed then s[1..] else s;
    assert s == sign + digits && Abs(n) == DigitsValue(digits);
    var k := DigitsSpell(digits);
    assert Spells(s, n, sign, k);
  }

  lemma SpelledParses(s: string, n: int, sign: string, k: nat)
    requires Spells(s, n, sign, k)
    ensures ParseDecimal(s) == Some(n)
  {
    var d := Zeros(k) + Decimal(Abs(n));
    DecimalIsDigits(Abs(n));
    LeadingZeros(k, Decimal(Abs(n)));
    hide Decimal, Zeros, DigitsValue;
    assert IsDigit(d[0]);
    assert s == sign + d && (sign != "" ==> s[1..] == d && s[0] == sign[0]) && (sign == "" ==> s == d);
  }

  /** Printing then parsing any integer gives it back, so no amount is out of reach of the parser. */
  lemma ParsePrinted(n: int)
    ensures n >= 0 ==> ParseDecimal(Decimal(n)) == Some(n)
    ensures n < 0 ==> ParseDecimal("-" + Decimal(-n)) == Some(n)
  {
    if n >= 0 {
      DecimalIsDigits(n);
      assert IsDigit(Decimal(n)[0]);
    } else {
      DecimalIsDigits(-n);
      assert ("-" + Decimal(-n))[1..] == Decimal(-n);
    }
  }
}

/** `formatCyberpunkDate`: a calendar date written year.MM.DD. */
module Utils {
  function Digit(d: nat): (c: char)
    requires d < 10
    ensures '0' <= c <= '9' && c as int - '0' as int == d
  {
    ('0' as int + d) as char
  }

  predicate IsDigit(c: char) {
    '0' <= c <= '9'
  }

  /** `String(n)` for a non-negative integer: decimal digits, no leading zeros. */
  function NatToString(n: nat): (r: string)
    ensures |r| > 0 && forall i :: 0 <= i < |r| ==> IsDigit(r[i])
  {
    if n < 10 then [Digit(n)] else NatToString(n / 10) + [Digit(n % 10)]
  }

  /** The value of a string of decimal digits, read left to right. */
  function ParseNat(s: string): nat
    requires forall i :: 0 <= i < |s| ==> IsDigit(s[i])
  {
    if s == [] then 0
    else
      var last := s[|s| - 1];
      assert IsDigit(last);
      ParseNat(s[..|s| - 1]) * 10 + (last as int - '0' as int)
  }

  /** Reading the digits back gives the number. */
  lemma {:induction false} ParseNatToString(n: nat)
    ensures ParseNat(NatToString(n)) == n
  {
    if n >= 10 {
      ParseNatToString(n / 10);
      var r := NatToString(n);
      assert r[..|r| - 1] == NatToString(n / 10);
    }
  }

  /** The number of digits: one below 10, two below 100, four from 1000 to 9999. */
  lemma {:induction false} NatToStringLength(n: nat)
    ensures n < 10 ==> |NatToString(n)| == 1
    ensures 10 <= n < 100 ==> |NatToString(n)| == 2
    ensures 1000 <= n < 10000 ==> |NatToString(n)| == 4
  {
    if n >= 10 {
      NatToStringLength(n / 10);
      if n >= 1000 {
        NatToStringLength(n / 100);
        NatToStringLength(n / 1000);
        assert n / 10 / 10 == n / 100 && n / 100 / 10 == n / 1000;
      }
    }
  }

  /** `String(i)` for any integer: a minus sign before the digits of a negative value. */
  function IntToString(i: int): (r: string)
    ensures |r| > 0
  {
    if i < 0 then "-" + NatToString(-i) else NatToString(i)
  }

  /** `String(n).padStart(2, "0")`. */
  function Pad2(n: nat): (r: string)
    ensures |r| >= 2 && forall i :: 0 <= i < |r| ==> IsDigit(r[i])
  {
    var s := NatToString(n);
    if |s| < 2 then "0" + s else s
  }

  /** Padding keeps the value, and every value below 100 fills exactly two places. */
  lemma Pad2Value(n: nat)
    ensures ParseNat(Pad2(n)) == n
    ensures n < 100 ==> |Pad2(n)| == 2
    ensures 10 <= n ==> Pad2(n) == NatToString(n)
  {
    ParseNatToString(n);
    NatToStringLength(n);
    var s := NatToString(n);
    if |s| < 2 {
      var p := "0" + s;
      assert p[..|p| - 1] == "0";
      assert ParseNat("0") == 0 by {
        assert "0"[..0] == [];
      }
    }
  }

  /**
   * The formatted date. The calendar fields are those a valid `Date` reports: `monthIndex` is
   * `getMonth()` (0 to 11) and `day` is `getDate()` (1 to 31).
   */
  function FormatCyberpunkDate(year: int, monthIndex: nat, day: nat): string
    requires monthIndex < 12 && 1 <= day <= 31
  {
    IntToString(year) + "." + Pad2(monthIndex + 1) + "." + Pad2(day)
  }

  /**
   * For a four-digit year the result has ten characters, dots at 4 and 7, and its three fields
   * read back as the year, the month number (1 to 12) and the day.
   */
  lemma FormatFields(year: int, monthIndex: nat, day: nat)
    requires monthIndex < 12 && 1 <= day <= 31
    requires 1000 <= year < 10000
    ensures var r := FormatCyberpunkDate(year, monthIndex, day);
      && |r| == 10 && r[4] == '.' && r[7] == '.'
      && r[..4] == NatToString(year) && ParseNat(r[..4]) == year
      && ParseNat(r[5..7]) == monthIndex + 1
      && ParseNat(r[8..]) == day
  {
    NatToStringLength(year);
    ParseNatToString(year);
    Pad2Value(monthIndex + 1);
    Pad2Value(day);
    var y, m, d := NatToString(year), Pad2(monthIndex + 1), Pad2(day);
    var r := FormatCyberpunkDate(year, monthIndex, day);
    assert r == y + "." + m + "." + d;
    assert r[..4] == y && r[5..7] == m && r[8..] == d;
  }

  /** Month and day are padded to two digits whatever the year. */
  lemma FormatEndsWithPaddedFields(year: int, monthIndex: nat, day: nat)
    requires monthIndex < 12 && 1 <= day <= 31
    ensures var r := FormatCyberpunkDate(year, monthIndex, day);
      && |r| == |IntToString(year)| + 6
      && r[|r| - 6] == '.' && r[|r| - 3] == '.'
      && ParseNat(r[|r| - 5..|r| - 3]) == monthIndex + 1
      && ParseNat(r[|r| - 2..]) == day
  {
    Pad2Value(monthIndex + 1);
    Pad2Value(day);
    var y, m, d := IntToString(year), Pad2(monthIndex + 1), Pad2(day);
    var r := FormatCyberpunkDate(year, monthIndex, day);
    assert r == y + "." + m + "." + d;
    assert r[|r| - 5..|r| - 3] == m && r[|r| - 2..] == d;
  }
}

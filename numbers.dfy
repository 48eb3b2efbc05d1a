/**
 * Decimal integers as the storefront moves them through URL parameters:
 * `String(n)` / `n.toString()` and `parseInt(s, 10)`.
 */
module Numbers {
  import opened Wrappers
  import Text

  predicate IsDigit(c: char) { '0' <= c <= '9' }

  function DigitValue(c: char): (d: nat)
    requires IsDigit(c)
    ensures d < 10
  {
    c as int - '0' as int
  }

  function DigitChar(d: nat): (c: char)
    requires d < 10
    ensures IsDigit(c) && DigitValue(c) == d
  {
    ('0' as int + d) as char
  }

  /** The length of the run of digits `s` starts with. */
  function DigitRun(s: string): (n: nat)
    ensures n <= |s|
    ensures forall i :: 0 <= i < n ==> IsDigit(s[i])
    ensures n < |s| ==> !IsDigit(s[n])
    decreases |s|
  {
    if |s| > 0 && IsDigit(s[0]) then 1 + DigitRun(s[1..]) else 0
  }

  /** The value of a string of decimal digits, most significant first. */
  function DigitsValue(s: string): nat
    requires forall i :: 0 <= i < |s| ==> IsDigit(s[i])
    decreases |s|
  {
    if |s| == 0 then 0 else 10 * DigitsValue(s[..|s| - 1]) + DigitValue(s[|s| - 1])
  }

  /** `String(n)` for a natural number: no sign, no leading zero. */
  function NatText(n: nat): (s: string)
    ensures |s| > 0 && forall i :: 0 <= i < |s| ==> IsDigit(s[i])
    ensures |s| > 1 ==> s[0] != '0'
    decreases n
  {
    if n < 10 then [DigitChar(n)] else NatText(n / 10) + [DigitChar(n % 10)]
  }

  /** `String(n)` for an integer. */
  function IntText(n: int): (s: string)
    ensures |s| > 0
    ensures s[0] == '-' <==> n < 0
  {
    if n < 0 then "-" + NatText(-n) else NatText(n)
  }

  /**
   * `parseInt(s, 10)`: leading white space is skipped, one optional sign is
   * read, then the longest run of digits; `None` stands for `NaN` (no digit).
   */
  function ParseInt(s: string): Option<int> {
    var t := Text.TrimStart(s);
    var negative := |t| > 0 && t[0] == '-';
    var body := if |t| > 0 && (t[0] == '-' || t[0] == '+') then t[1..] else t;
    var n := DigitRun(body);
    if n == 0 then None
    else
      var v: int := DigitsValue(body[..n]);
      Some(if negative then -v else v)
  }

  lemma {:induction false} NatTextValue(n: nat)
    ensures DigitsValue(NatText(n)) == n
    decreases n
  {
    if n >= 10 {
      var s := NatText(n);
      NatTextValue(n / 10);
      assert s[..|s| - 1] == NatText(n / 10);
    }
  }

  /** Reading back what `String(n)` wrote gives `n`: page numbers survive the URL. */
  lemma ParseIntText(n: int)
    ensures ParseInt(IntText(n)) == Some(n)
  {
    var s := IntText(n);
    var digits := if n < 0 then -n else n;
    var d := NatText(digits);
    assert !Text.IsSpace(s[0]);
    assert Text.TrimStart(s) == s;
    var body := if n < 0 then s[1..] else s;
    assert body == d;
    assert DigitRun(d) == |d| by { DigitRunAll(d); }
    assert d[..|d|] == d;
    NatTextValue(digits);
  }

  lemma {:induction false} DigitRunAll(s: string)
    requires forall i :: 0 <= i < |s| ==> IsDigit(s[i])
    ensures DigitRun(s) == |s|
    decreases |s|
  {
    if |s| > 0 {
      DigitRunAll(s[1..]);
    }
  }

  /** Trailing junk after the digits is ignored, as `parseInt` does: `"12abc"` reads as 12. */
  lemma ParseIntStopsAtJunk(n: nat, junk: string)
    requires |junk| == 0 || !IsDigit(junk[0])
    ensures ParseInt(NatText(n) + junk) == Some(n)
  {
    var d := NatText(n);
    var s := d + junk;
    assert s[0] == d[0];
    assert !Text.IsSpace(s[0]);
    assert Text.TrimStart(s) == s;
    DigitRunPrefix(d, junk);
    assert s[..|d|] == d;
    NatTextValue(n);
  }

  lemma {:induction false} DigitRunPrefix(d: string, junk: string)
    requires forall i :: 0 <= i < |d| ==> IsDigit(d[i])
    requires |junk| == 0 || !IsDigit(junk[0])
    ensures DigitRun(d + junk) == |d|
    decreases |d|
  {
    if |d| > 0 {
      assert (d + junk)[1..] == d[1..] + junk;
      DigitRunPrefix(d[1..], junk);
    } else {
      assert d + junk == junk;
    }
  }
}

/** The two uses of Go's `fmt` package the password hasher depends on:
    `%d` formatting of unsigned integers, and `Sscanf` reading unsigned
    decimal integers into fixed-width variables. */
module Fmt {
  import opened Wrappers
  import Text

  predicate IsDigit(c: char)
  {
    '0' <= c <= '9'
  }

  predicate AllDigits(s: string)
  {
    forall i :: 0 <= i < |s| ==> IsDigit(s[i])
  }

  function DigitChar(d: nat): (c: char)
    requires d < 10
    ensures IsDigit(c) && c as int - '0' as int == d
  {
    ('0' as int + d) as char
  }

  /** `%d` of a non-negative integer: its shortest decimal spelling. */
  function Decimal(n: nat): (s: string)
    ensures s != [] && AllDigits(s)
    ensures n > 0 ==> s[0] != '0'
  {
    if n < 10 then [DigitChar(n)] else Decimal(n / 10) + [DigitChar(n % 10)]
  }

  /** The number a string of decimal digits denotes (leading zeros allowed). */
  function DigitsValue(s: string): nat
    requires AllDigits(s)
  {
    if s == [] then 0
    else DigitsValue(s[..|s| - 1]) * 10 + (s[|s| - 1] as int - '0' as int)
  }

  lemma {:induction false} DecimalValue(n: nat)
    ensures DigitsValue(Decimal(n)) == n
  {
    if n >= 10 {
      DecimalValue(n / 10);
      var s := Decimal(n);
      assert s[..|s| - 1] == Decimal(n / 10);
    }
  }

  /** Length of the longest all-digit prefix. */
  function DigitRun(s: string): (n: nat)
    ensures n <= |s| && AllDigits(s[..n])
    ensures n == |s| || !IsDigit(s[n])
  {
    if s == [] || !IsDigit(s[0]) then 0
    else
      var k := DigitRun(s[1..]);
      assert s[..k + 1] == [s[0]] + s[1..][..k];
      k + 1
  }

  /** Scanning skips leading blanks, but a newline ends the input with an error. */
  function SkipSpace(s: string): (r: Option<string>)
    ensures r.Some? ==> |r.value| <= |s| && r.value == s[|s| - |r.value|..]
    ensures r.Some? ==> r.value == [] || !Text.IsSpace(r.value[0])
    ensures r.Some? ==> Text.AllSpace(s[..|s| - |r.value|]) && '\n' !in s[..|s| - |r.value|]
    ensures r.None? <==> exists i :: 0 <= i < |s| && s[i] == '\n' && Text.AllSpace(s[..i])
  {
    if s == [] then Some(s)
    else if s[0] == '\n' then
      assert Text.AllSpace(s[..0]);
      None
    else if Text.IsSpace(s[0]) then
      var r := SkipSpace(s[1..]);
      SkipSpaceNone(s);
      SkipSpacePrefix(s, r);
      r
    else
      assert forall i :: 0 <= i < |s| && Text.AllSpace(s[..i]) ==> i == 0 by {
        forall i | 0 < i < |s| ensures !Text.AllSpace(s[..i]) { assert s[..i][0] == s[0]; }
      }
      Some(s)
  }

  /** One blank in front of a skipped run of blanks is skipped as well. */
  lemma SkipSpacePrefix(s: string, r: Option<string>)
    requires s != [] && s[0] != '\n' && Text.IsSpace(s[0])
    requires r.Some? ==> |r.value| <= |s| - 1
    requires r.Some? ==> Text.AllSpace(s[1..][..|s| - 1 - |r.value|]) && '\n' !in s[1..][..|s| - 1 - |r.value|]
    ensures r.Some? ==> Text.AllSpace(s[..|s| - |r.value|]) && '\n' !in s[..|s| - |r.value|]
  {
    if r.Some? {
      var k := |s| - |r.value|;
      assert s[..k] == [s[0]] + s[1..][..k - 1];
    }
  }

  lemma SkipSpaceNone(s: string)
    requires s != [] && s[0] != '\n' && Text.IsSpace(s[0])
    ensures (exists i :: 0 <= i < |s| && s[i] == '\n' && Text.AllSpace(s[..i]))
        <==> (exists i :: 0 <= i < |s| - 1 && s[1..][i] == '\n' && Text.AllSpace(s[1..][..i]))
  {
    var t := s[1..];
    if exists i :: 0 <= i < |s| && s[i] == '\n' && Text.AllSpace(s[..i]) {
      var i :| 0 <= i < |s| && s[i] == '\n' && Text.AllSpace(s[..i]);
      assert i > 0;
      assert t[i - 1] == '\n';
      var u, w := t[..i - 1], s[..i];
      assert Text.AllSpace(u) by {
        forall j | 0 <= j < |u| ensures Text.IsSpace(u[j]) { assert u[j] == w[j + 1]; }
      }
    }
    if exists i :: 0 <= i < |t| && t[i] == '\n' && Text.AllSpace(t[..i]) {
      var i :| 0 <= i < |t| && t[i] == '\n' && Text.AllSpace(t[..i]);
      assert s[i + 1] == '\n';
      var u, w := s[..i + 1], t[..i];
      assert Text.AllSpace(u) by {
        forall j | 0 <= j < |u| ensures Text.IsSpace(u[j]) {
          if j > 0 { assert u[j] == w[j - 1]; }
        }
      }
    }
  }

  /** One `%d` conversion into an unsigned variable whose values lie below
      `limit` (2^32 for `uint32`, 2^8 for `uint8`): blanks, then at least one
      digit; a value that does not fit is an overflow error.
      Returns the value and the unread input: the input is blanks without a
      newline, then the longest run of digits, whose value (leading zeros
      allowed) is the result, then the unread input. */
  function ScanUint(s: string, limit: nat): (r: Option<(nat, string)>)
    ensures r.Some? ==> r.value.0 < limit && |r.value.1| < |s|
    ensures r.Some? ==> s[|s| - |r.value.1|..] == r.value.1
    ensures r.Some? ==> r.value.1 == [] || !IsDigit(r.value.1[0])
    ensures r.Some? ==> exists j :: (
      && 0 <= j < |s| - |r.value.1|
      && Text.AllSpace(s[..j]) && '\n' !in s[..j]
      && AllDigits(s[j..|s| - |r.value.1|])
      && r.value.0 == DigitsValue(s[j..|s| - |r.value.1|]))
  {
    match SkipSpace(s)
    case None => None
    case Some(t) =>
      var n := DigitRun(t);
      if n == 0 then None
      else
        var v := DigitsValue(t[..n]);
        if v >= limit then None
        else
          var j := |s| - |t|;
          assert s[j..|s| - |t[n..]|] == t[..n];
          assert s[|s| - |t[n..]|..] == t[n..];
          Some((v, t[n..]))
  }

  /** The input after a literal prefix; a mismatch (or early end) is an error. */
  function ScanLiteral(s: string, lit: string): (r: Option<string>)
    ensures r.Some? <==> lit <= s
    ensures r.Some? ==> s == lit + r.value
  {
    if lit <= s then Some(s[|lit|..]) else None
  }

  lemma ScanLiteralOf(lit: string, rest: string)
    ensures ScanLiteral(lit + rest, lit) == Some(rest)
  {
    assert lit <= lit + rest;
    assert (lit + rest)[|lit|..] == rest;
  }

  /** `%d` followed by a non-digit reads exactly the printed number. */
  lemma ScanDecimal(n: nat, limit: nat, rest: string)
    requires n < limit
    requires rest == [] || !IsDigit(rest[0])
    ensures ScanUint(Decimal(n) + rest, limit) == Some((n, rest))
  {
    var s := Decimal(n) + rest;
    assert !Text.IsSpace(s[0]) && s[0] != '\n';
    assert SkipSpace(s) == Some(s);
    DigitRunOf(Decimal(n), rest);
    assert s[..|Decimal(n)|] == Decimal(n);
    assert s[|Decimal(n)|..] == rest;
    DecimalValue(n);
  }

  lemma {:induction false} DigitRunOf(d: string, rest: string)
    requires AllDigits(d)
    requires rest == [] || !IsDigit(rest[0])
    ensures DigitRun(d + rest) == |d|
  {
    if d != [] {
      assert (d + rest)[1..] == d[1..] + rest;
      DigitRunOf(d[1..], rest);
    }
  }
}

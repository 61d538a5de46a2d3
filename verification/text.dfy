/**
 * String helpers with the semantics of the JavaScript built-ins the
 * application relies on: `includes`, the comma search behind `split`,
 * ASCII `toLowerCase`, `Number.prototype.toString` on non-negative
 * integers and `parseInt`.
 */
module Text {
  import opened Wrappers

  predicate IsPrefix(p: string, s: string) {
    |p| <= |s| && s[..|p|] == p
  }

  /** `t` occurs in `s` starting at offset `i`. */
  ghost predicate OccursAt(s: string, t: string, i: int) {
    0 <= i && i + |t| <= |s| && s[i..i + |t|] == t
  }

  /** `s.includes(t)`: a left-to-right scan for an occurrence of `t`. */
  function Contains(s: string, t: string): (b: bool)
    ensures b <==> exists i :: OccursAt(s, t, i)
    decreases |s|
  {
    if IsPrefix(t, s) then
      assert OccursAt(s, t, 0);
      true
    else if |s| == 0 then
      false
    else
      ContainsStep(s, t);
      Contains(s[1..], t)
  }

  /** `t` occurs at `i` in the tail of `s` exactly when it occurs at `i + 1` in `s`. */
  lemma OccursShift(s: string, t: string, i: nat)
    requires |s| > 0
    ensures OccursAt(s[1..], t, i) <==> OccursAt(s, t, i + 1)
  {
    if i + |t| <= |s[1..]| {
      assert s[1..][i..i + |t|] == s[i + 1..i + 1 + |t|];
    }
  }

  /** When `t` is not a prefix of `s`, its occurrences in `s` are those in the tail, moved by one. */
  lemma ContainsStep(s: string, t: string)
    requires |s| > 0 && !IsPrefix(t, s)
    ensures (exists i :: OccursAt(s, t, i)) <==> (exists i :: OccursAt(s[1..], t, i))
  {
    if i :| OccursAt(s, t, i) {
      assert i != 0;
      OccursShift(s, t, i - 1);
      assert OccursAt(s[1..], t, i - 1);
    }
    if i :| OccursAt(s[1..], t, i) {
      OccursShift(s, t, i);
      assert OccursAt(s, t, i + 1);
    }
  }

  /** Position of the first occurrence of the character `c` in `s`. */
  function IndexOf(s: string, c: char): (r: Option<nat>)
    ensures r.None? <==> c !in s
    ensures r.Some? ==> r.value < |s| && s[r.value] == c && c !in s[..r.value]
  {
    if |s| == 0 then None
    else if s[0] == c then Some(0)
    else
      match IndexOf(s[1..], c)
      case None => None
      case Some(k) =>
        assert s[..k + 1] == [s[0]] + s[1..][..k];
        Some(k + 1)
  }

  function ToLowerChar(c: char): char {
    if 'A' <= c <= 'Z' then (c as int + 32) as char else c
  }

  /** `toLowerCase`, restricted to the ASCII letters. */
  function ToLower(s: string): (r: string)
    ensures |r| == |s|
    ensures forall i :: 0 <= i < |s| ==> r[i] == ToLowerChar(s[i])
  {
    seq(|s|, i requires 0 <= i < |s| => ToLowerChar(s[i]))
  }

  predicate IsDigit(c: char) {
    '0' <= c <= '9'
  }

  predicate AllDigits(s: string) {
    forall i :: 0 <= i < |s| ==> IsDigit(s[i])
  }

  function DigitChar(d: nat): (c: char)
    requires d < 10
    ensures IsDigit(c)
  {
    ('0' as int + d) as char
  }

  function DigitValue(c: char): nat
    requires IsDigit(c)
  {
    c as int - '0' as int
  }

  /** Value of a run of decimal digits, most significant first. */
  function DigitsValue(d: string): nat
    requires AllDigits(d)
  {
    if |d| == 0 then 0 else DigitsValue(d[..|d| - 1]) * 10 + DigitValue(d[|d| - 1])
  }

  /** `n.toString()` for a non-negative integer. */
  function DecimalString(n: nat): (r: string)
    ensures |r| >= 1 && AllDigits(r)
    ensures r[0] == '0' ==> n == 0
  {
    if n < 10 then [DigitChar(n)] else DecimalString(n / 10) + [DigitChar(n % 10)]
  }

  /** The longest prefix of `s` made only of decimal digits. */
  function LeadingDigits(s: string): (r: string)
    ensures IsPrefix(r, s) && AllDigits(r)
    ensures |r| == |s| || !IsDigit(s[|r|])
  {
    if |s| == 0 || !IsDigit(s[0]) then []
    else [s[0]] + LeadingDigits(s[1..])
  }

  predicate IsSpace(c: char) {
    c == ' ' || c == '\t' || c == '\n' || c == '\r' || c == '\U{B}' || c == '\U{C}'
  }

  function TrimStart(s: string): (r: string)
    ensures |r| <= |s| && r == s[|s| - |r|..]
    ensures |r| == 0 || !IsSpace(r[0])
  {
    if |s| > 0 && IsSpace(s[0]) then TrimStart(s[1..]) else s
  }

  /** An optional leading sign: whether it is a minus, and the text after it. */
  function SplitSign(t: string): (bool, string) {
    if |t| > 0 && t[0] == '-' then (true, t[1..])
    else if |t| > 0 && t[0] == '+' then (false, t[1..])
    else (false, t)
  }

  predicate IsHexDigit(c: char) {
    IsDigit(c) || 'a' <= c <= 'f' || 'A' <= c <= 'F'
  }

  predicate AllHexDigits(s: string) {
    forall i :: 0 <= i < |s| ==> IsHexDigit(s[i])
  }

  function HexDigitValue(c: char): (v: nat)
    requires IsHexDigit(c)
    ensures v < 16
  {
    if IsDigit(c) then DigitValue(c)
    else if 'a' <= c <= 'f' then c as int - 'a' as int + 10
    else c as int - 'A' as int + 10
  }

  /** Value of a run of hexadecimal digits, most significant first. */
  function HexValue(d: string): nat
    requires AllHexDigits(d)
  {
    if |d| == 0 then 0 else HexValue(d[..|d| - 1]) * 16 + HexDigitValue(d[|d| - 1])
  }

  /** The longest prefix of `s` made only of hexadecimal digits. */
  function LeadingHexDigits(s: string): (r: string)
    ensures IsPrefix(r, s) && AllHexDigits(r)
    ensures |r| == |s| || !IsHexDigit(s[|r|])
  {
    if |s| == 0 || !IsHexDigit(s[0]) then []
    else [s[0]] + LeadingHexDigits(s[1..])
  }

  /** Without a radix, `parseInt` reads text after "0x" or "0X" in base 16. */
  predicate HasHexPrefix(t: string) {
    |t| >= 2 && t[0] == '0' && (t[1] == 'x' || t[1] == 'X')
  }

  /**
   * The unsigned part of `parseInt`: after a hexadecimal prefix the longest
   * run of hexadecimal digits, otherwise the longest run of decimal digits;
   * `None` when the run is empty.
   */
  function Magnitude(body: string): (r: Option<nat>)
    ensures HasHexPrefix(body) ==> (r.None? <==> |body| == 2 || !IsHexDigit(body[2]))
    ensures !HasHexPrefix(body) ==> (r.None? <==> |body| == 0 || !IsDigit(body[0]))
  {
    if HasHexPrefix(body) then
      var digits := LeadingHexDigits(body[2..]);
      if |digits| == 0 then None else Some(HexValue(digits))
    else
      var digits := LeadingDigits(body);
      if |digits| == 0 then None else Some(DigitsValue(digits))
  }

  /**
   * `parseInt(s)` without a radix: leading white space, an optional sign,
   * then a hexadecimal number after "0x"/"0X" or else a decimal one; `None`
   * stands for `NaN` (no digit at all).
   */
  function ParseInt(s: string): (r: Option<int>)
    ensures r.None? <==> Magnitude(SplitSign(TrimStart(s)).1).None?
    ensures r.Some? && SplitSign(TrimStart(s)).0 ==> r.value <= 0
    ensures r.Some? && !SplitSign(TrimStart(s)).0 ==> r.value >= 0
  {
    var (negative, body) := SplitSign(TrimStart(s));
    match Magnitude(body)
    case None => None
    case Some(m) => if negative then Some(-(m as int)) else Some(m as int)
  }

  lemma {:induction false} DigitsValueOfDecimal(n: nat)
    ensures DigitsValue(DecimalString(n)) == n
  {
    if n >= 10 {
      var d := DecimalString(n);
      DigitsValueOfDecimal(n / 10);
      assert d[..|d| - 1] == DecimalString(n / 10);
    }
  }

  lemma {:induction false} LeadingDigitsOfDigits(s: string)
    requires AllDigits(s)
    ensures LeadingDigits(s) == s
  {
    if |s| > 0 {
      LeadingDigitsOfDigits(s[1..]);
    }
  }

  /** `parseInt(String(n)) === n` for every non-negative integer. */
  lemma ParseDecimalRoundTrip(n: nat)
    ensures ParseInt(DecimalString(n)) == Some(n)
  {
    var d := DecimalString(n);
    DigitsArePlain(d);
    LeadingDigitsOfDigits(d);
    DigitsValueOfDecimal(n);
  }

  /** A run of decimal digits has no white space, sign or hexadecimal prefix in front. */
  lemma DigitsArePlain(d: string)
    requires |d| >= 1 && AllDigits(d)
    ensures TrimStart(d) == d && SplitSign(d) == (false, d) && !HasHexPrefix(d)
  {
    assert IsDigit(d[0]) && !IsSpace(d[0]);
    if |d| >= 2 {
      assert IsDigit(d[1]);
    }
  }

  /** `parseInt("-" + String(n)) === -n`: a minus sign is kept. */
  lemma ParseNegativeRoundTrip(n: nat)
    ensures ParseInt("-" + DecimalString(n)) == Some(-(n as int))
  {
    var d := DecimalString(n);
    var s := "-" + d;
    DigitsArePlain(d);
    assert !IsSpace(s[0]);
    assert TrimStart(s) == s;
    assert s[1..] == d;
    assert SplitSign(s) == (true, d);
    LeadingDigitsOfDigits(d);
    DigitsValueOfDecimal(n);
  }

  lemma {:induction false} LeadingHexDigitsOfHex(s: string)
    requires AllHexDigits(s)
    ensures LeadingHexDigits(s) == s
  {
    if |s| > 0 {
      LeadingHexDigitsOfHex(s[1..]);
    }
  }

  /** `"0x" + d` is read as the hexadecimal number `d`. */
  lemma ParseHexRoundTrip(d: string)
    requires |d| >= 1 && AllHexDigits(d)
    ensures ParseInt("0x" + d) == Some(HexValue(d))
  {
    var s := "0x" + d;
    assert !IsSpace(s[0]) && TrimStart(s) == s;
    assert SplitSign(s) == (false, s) && HasHexPrefix(s);
    assert s[2..] == d;
    LeadingHexDigitsOfHex(d);
  }

  /** A hexadecimal prefix followed by no hexadecimal digit is `NaN`. */
  lemma ParseHexWithoutDigits(t: string)
    requires |t| == 0 || !IsHexDigit(t[0])
    ensures ParseInt("0x" + t).None?
  {
    var s := "0x" + t;
    assert !IsSpace(s[0]) && TrimStart(s) == s;
    assert SplitSign(s) == (false, s) && HasHexPrefix(s);
    assert s[2..] == t;
  }
}

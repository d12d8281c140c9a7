/**
 std::to_string and std::stoi on int: the page token of the prompt adapters is an index
 written in decimal and read back, and Retry-After is read with the same function.
 */
module Decimal {
  import opened Wire

  const INT_MAX := 0x7fff_ffff
  const INT_MIN := -0x8000_0000

  predicate IsDigit(c: char) { '0' <= c <= '9' }

  function DigitValue(c: char): (d: nat)
    requires IsDigit(c)
    ensures d <= 9
  {
    c as int - '0' as int
  }

  function DigitChar(d: nat): (c: char)
    requires d <= 9
    ensures IsDigit(c) && DigitValue(c) == d
  {
    ('0' as int + d) as char
  }

  function NatText(n: nat): (s: string)
    ensures |s| > 0 && forall i :: 0 <= i < |s| ==> IsDigit(s[i])
  {
    if n < 10 then [DigitChar(n)] else NatText(n / 10) + [DigitChar(n % 10)]
  }

  /** std::to_string(int). */
  function ToText(n: int): string {
    if n < 0 then "-" + NatText(-n) else NatText(n)
  }

  /** The length of the leading run of digits. */
  function DigitRun(s: string): (k: nat)
    ensures k <= |s|
    ensures forall i :: 0 <= i < k ==> IsDigit(s[i])
    ensures k < |s| ==> !IsDigit(s[k])
  {
    if s == "" || !IsDigit(s[0]) then 0 else 1 + DigitRun(s[1..])
  }

  function DigitsValue(s: string): nat
    requires forall i :: 0 <= i < |s| ==> IsDigit(s[i])
  {
    if s == "" then 0 else 10 * DigitsValue(s[..|s| - 1]) + DigitValue(s[|s| - 1])
  }

  predicate IsSpace(c: char) { c == ' ' || '\t' <= c <= '\r' }

  function SkipSpaces(s: string): string {
    if s != "" && IsSpace(s[0]) then SkipSpaces(s[1..]) else s
  }

  /** The digits `s` begins with, read; None if there is none. */
  function Magnitude(s: string): Option<nat> {
    var k := DigitRun(s);
    if k == 0 then None else Some(DigitsValue(s[..k]))
  }

  function Unsigned(s: string): string {
    if s != "" && (s[0] == '-' || s[0] == '+') then s[1..] else s
  }

  /** std::stoi: leading spaces, an optional sign, then digits; whatever follows is ignored.
      None where it throws: no digit at all, or a value outside int. */
  function Stoi(text: string): Option<int> {
    var s := SkipSpaces(text);
    match Magnitude(Unsigned(s))
    case None => None
    case Some(magnitude) =>
      var m: int := magnitude;
      var v := if s != "" && s[0] == '-' then -m else m;
      if INT_MIN <= v <= INT_MAX then Some(v) else None
  }

  lemma {:induction false} NatTextValue(n: nat)
    ensures DigitsValue(NatText(n)) == n
  {
    if n < 10 {
      assert DigitsValue([DigitChar(n)]) == 10 * DigitsValue([DigitChar(n)][..0]) + n;
    } else {
      var s := NatText(n);
      assert s[..|s| - 1] == NatText(n / 10);
      NatTextValue(n / 10);
    }
  }

  lemma {:induction false} DigitRunAll(s: string)
    requires forall i :: 0 <= i < |s| ==> IsDigit(s[i])
    ensures DigitRun(s) == |s|
  {
    if s != "" { DigitRunAll(s[1..]); }
  }

  /** Reading a printed index gives the index back. */
  lemma StoiOfText(n: int)
    requires INT_MIN <= n <= INT_MAX
    ensures Stoi(ToText(n)) == Some(n)
  {
    var m: nat := if n < 0 then -n else n;
    var s := NatText(m);
    assert !IsSpace(s[0]) && s[0] != '-' && s[0] != '+';
    DigitRunAll(s);
    assert s[..|s|] == s;
    NatTextValue(m);
    assert n < 0 ==> ToText(n)[1..] == s;
  }

  // ---- What std::stoi reads ----

  predicate AllDigits(s: string) { forall m :: 0 <= m < |s| ==> IsDigit(s[m]) }

  predicate AllSpaces(s: string) {
    forall m :: 0 <= m < |s| ==> s[m] as int == 32 || 9 <= s[m] as int <= 13
  }

  predicate DigitsThen(s: string, digits: string, rest: string) {
    && s == digits + rest && digits != "" && AllDigits(digits)
    && (rest != "" ==> !IsDigit(rest[0]))
  }

  /** White space, perhaps a sign, digits, and something that goes on otherwise: they spell v. */
  predicate SpelledBy(
    text: string, spaces: string, sign: string, digits: string, rest: string, v: int)
  {
    && text == spaces + (sign + (digits + rest))
    && AllSpaces(spaces) && (sign == "" || sign == "+" || sign == "-")
    && DigitsThen(digits + rest, digits, rest)
    && v == if sign == "-" then 0 - DigitsValue(digits) else DigitsValue(digits)
  }

  ghost predicate Spells(text: string, v: int) {
    exists spaces, sign, digits, rest :: SpelledBy(text, spaces, sign, digits, rest, v)
  }

  lemma {:induction false} SkipSpacesOf(spaces: string, u: string)
    requires AllSpaces(spaces) && (u != "" ==> !IsSpace(u[0]))
    ensures SkipSpaces(spaces + u) == u
  {
    if spaces != "" {
      SkipSpacesOf(spaces[1..], u);
      assert (spaces + u)[1..] == spaces[1..] + u;
    } else {
      assert spaces + u == u;
    }
  }

  lemma {:induction false} SpacesSplit(text: string) returns (spaces: string)
    ensures AllSpaces(spaces) && text == spaces + SkipSpaces(text)
    ensures SkipSpaces(text) != "" ==> !IsSpace(SkipSpaces(text)[0])
  {
    spaces := "";
    if text != "" && IsSpace(text[0]) {
      var more := SpacesSplit(text[1..]);
      spaces := [text[0]] + more;
    }
  }

  lemma {:induction false} DigitRunOf(digits: string, rest: string)
    requires AllDigits(digits) && (rest != "" ==> !IsDigit(rest[0]))
    ensures DigitRun(digits + rest) == |digits|
  {
    if digits != "" {
      DigitRunOf(digits[1..], rest);
      assert (digits + rest)[1..] == digits[1..] + rest;
    }
  }

  lemma MagnitudeOf(s: string, digits: string, rest: string)
    requires DigitsThen(s, digits, rest)
    ensures Magnitude(s) == Some(DigitsValue(digits))
  {
    DigitRunOf(digits, rest);
    assert s[..|digits|] == digits;
  }

  lemma MagnitudeSplit(s: string) returns (digits: string, rest: string)
    requires Magnitude(s).Some?
    ensures DigitsThen(s, digits, rest) && Magnitude(s) == Some(DigitsValue(digits))
  {
    digits, rest := s[..DigitRun(s)], s[DigitRun(s)..];
  }

  lemma SpelledIsRead(
    text: string, spaces: string, sign: string, digits: string, rest: string, v: int)
    requires SpelledBy(text, spaces, sign, digits, rest, v)
    ensures Stoi(text) == if INT_MIN <= v <= INT_MAX then Some(v) else None
  {
    var s, t := sign + (digits + rest), digits + rest;
    assert t[0] == digits[0];
    if sign == "" { assert s == t; } else { assert s[0] == sign[0] && s[1..] == t; }
    SkipSpacesOf(spaces, s);
    assert Unsigned(s) == t;
    MagnitudeOf(t, digits, rest);
  }

  lemma ReadIsSpelled(text: string, v: int)
    requires Stoi(text) == Some(v)
    ensures Spells(text, v) && INT_MIN <= v <= INT_MAX
  {
    var s := SkipSpaces(text);
    var spaces := SpacesSplit(text);
    var digits, rest := MagnitudeSplit(Unsigned(s));
    var sign := if s != "" && (s[0] == '-' || s[0] == '+') then [s[0]] else "";
    assert s == sign + (digits + rest);
    assert SpelledBy(text, spaces, sign, digits, rest, v);
  }

  /** std::stoi reads v exactly where white space, an optional sign and digits spell it and it fits an
      int; anything may follow the digits. */
  lemma StoiIff(text: string, v: int)
    ensures Stoi(text) == Some(v) <==> Spells(text, v) && INT_MIN <= v <= INT_MAX
  {
    if Stoi(text) == Some(v) { ReadIsSpelled(text, v); }
    if Spells(text, v) {
      var spaces, sign, digits, rest :| SpelledBy(text, spaces, sign, digits, rest, v);
      SpelledIsRead(text, spaces, sign, digits, rest, v);
    }
  }

  /** Retry-After, delta-seconds form only (section 10.2.3 of RFC 9110): an absent or unreadable
      header, and a value outside (0, 3600], count as not given. */
  function RetryAfter(r: Response): (secs: Option<int>)
    ensures secs.Some? ==> 0 < secs.value <= MAX_RETRY_AFTER_SECS
  {
    if r.retryAfter == "" then None
    else
      match Stoi(r.retryAfter)
      case None => None
      case Some(v) => if v <= 0 || v > MAX_RETRY_AFTER_SECS then None else Some(v)
  }

  /** Exactly the headers that spell a number in (0, 3600] are honoured. */
  lemma RetryAfterIff(r: Response, n: int)
    ensures RetryAfter(r) == Some(n) <==> Spells(r.retryAfter, n) && 0 < n <= 3600
  {
    StoiIff(r.retryAfter, n);
  }

  /** A header that spells a number of seconds in (0, 3600] is read as exactly that number,
      and one that spells any other number is ignored. */
  lemma RetryAfterReads(r: Response, n: int)
    requires INT_MIN <= n <= INT_MAX && r.retryAfter == ToText(n)
    ensures RetryAfter(r) == if 0 < n <= MAX_RETRY_AFTER_SECS then Some(n) else None
  {
    StoiOfText(n);
  }
}

/**
 * The textual counter representation used by the dictionary quota backend:
 * counters are written with `dec2str` and read back with `strtoull(value, NULL, 10)`.
 */
module Decimal {
  import opened Common

  predicate IsDigit(c: char) { '0' <= c <= '9' }

  /** The characters C's `isspace` accepts in the "C" locale. */
  predicate IsSpace(c: char) {
    c == ' ' || c == '\t' || c == '\n' || c == '\r' || c == '\U{0B}' || c == '\U{0C}'
  }

  predicate AllDigits(s: string) {
    forall i :: 0 <= i < |s| ==> IsDigit(s[i])
  }

  function DigitChar(d: nat): (c: char)
    requires d < 10
    ensures IsDigit(c)
  {
    ('0' as int + d) as char
  }

  function DigitValue(c: char): (d: nat)
    requires IsDigit(c)
    ensures d < 10 && DigitChar(d) == c
  {
    c as int - '0' as int
  }

  /** `dec2str`: the shortest decimal spelling of `v`, most significant digit first. */
  function Dec2Str(v: nat): (s: string)
    ensures |s| >= 1 && AllDigits(s)
    ensures s[0] == '0' <==> v == 0
  {
    if v < 10 then [DigitChar(v)] else Dec2Str(v / 10) + [DigitChar(v % 10)]
  }

  /** The number a run of decimal digits denotes. */
  function DigitsValue(d: string): nat
    requires AllDigits(d)
  {
    if d == [] then 0 else DigitsValue(d[..|d| - 1]) * 10 + DigitValue(d[|d| - 1])
  }

  /** The longest prefix of `s` made of decimal digits. */
  function LeadingDigits(s: string): (d: string)
    ensures |d| <= |s| && d == s[..|d|] && AllDigits(d)
    ensures |d| < |s| ==> !IsDigit(s[|d|])
  {
    if s == [] || !IsDigit(s[0]) then [] else [s[0]] + LeadingDigits(s[1..])
  }

  /** `s` without its leading white space. */
  function SkipSpace(s: string): (t: string)
    ensures |t| <= |s| && t == s[|s| - |t|..]
    ensures t == [] || !IsSpace(t[0])
  {
    if s != [] && IsSpace(s[0]) then SkipSpace(s[1..]) else s
  }

  /**
   * `strtoull(s, NULL, 10)`: leading white space is skipped, one optional sign
   * is read, then the longest run of digits. No digits gives 0; a value past
   * the `uint64_t` range saturates at its maximum; a minus sign negates
   * modulo 2^64.
   */
  function Strtoull(s: string): uint64
  {
    ReadSigned(SkipSpace(s))
  }

  /** `strtoull` after the white space: an optional sign, then the digits. */
  function ReadSigned(t: string): uint64
  {
    if t != [] && (t[0] == '-' || t[0] == '+') then Convert(t[0] == '-', DigitsValue(LeadingDigits(t[1..])))
    else Convert(false, DigitsValue(LeadingDigits(t)))
  }

  /** The value `strtoull` returns for the digits' value `n`, negated or not. */
  function Convert(negative: bool, n: nat): uint64
  {
    if n >= UINT64_MOD then UINT64_MOD - 1
    else if negative then (UINT64_MOD - n) % UINT64_MOD
    else n
  }


  /** White space in front of a string that does not start with white space is skipped whole. */
  lemma {:induction false} SkipSpacePrefix(ws: string, t: string)
    requires forall i :: 0 <= i < |ws| ==> IsSpace(ws[i])
    requires t == [] || !IsSpace(t[0])
    ensures SkipSpace(ws + t) == t
  {
    if ws != [] {
      assert (ws + t)[1..] == ws[1..] + t;
      SkipSpacePrefix(ws[1..], t);
    }
  }

  /** A run of digits followed by a non-digit is read up to the non-digit. */
  lemma LeadingDigitsOfRun(d: string, tail: string)
    requires AllDigits(d)
    requires tail == [] || !IsDigit(tail[0])
    ensures LeadingDigits(d + tail) == d
  {
    var u := d + tail;
    assert forall i :: 0 <= i < |d| ==> u[i] == d[i];
    assert |d| < |u| ==> u[|d|] == tail[0];
  }

  /** Without a sign, the number is read from the first character. */
  lemma ReadUnsigned(u: string)
    requires u != [] && IsDigit(u[0])
    ensures ReadSigned(u) == Convert(false, DigitsValue(LeadingDigits(u)))
  {
  }

  /** A sign is consumed, and a minus makes the reading negative. */
  lemma ReadSignChar(c: char, u: string)
    requires c == '-' || c == '+'
    ensures ReadSigned([c] + u) == Convert(c == '-', DigitsValue(LeadingDigits(u)))
  {
    assert ([c] + u)[1..] == u;
  }

  /** `strtoull` on an optional sign, a non-empty run of digits and a non-digit tail. */
  lemma ReadSignedRun(sign: string, d: string, tail: string)
    requires sign == "" || sign == "+" || sign == "-"
    requires |d| > 0 && AllDigits(d)
    requires tail == [] || !IsDigit(tail[0])
    ensures ReadSigned(sign + d + tail) == Convert(sign == "-", DigitsValue(d))
  {
    var u := d + tail;
    LeadingDigitsOfRun(d, tail);
    if sign == "" {
      assert sign + d + tail == u && u[0] == d[0];
      ReadUnsigned(u);
    } else {
      assert sign + d + tail == [sign[0]] + u;
      ReadSignChar(sign[0], u);
    }
  }

  /** A sign or a digit is not white space, so it is where the number starts. */
  lemma SignedRunStart(sign: string, d: string, tail: string)
    requires sign == "" || sign == "+" || sign == "-"
    requires |d| > 0 && AllDigits(d)
    ensures !IsSpace((sign + d + tail)[0])
  {
    var t := sign + d + tail;
    if sign == "" { assert t[0] == d[0]; } else { assert t[0] == sign[0]; }
  }

  /** Leading white space is skipped before the sign is read. */
  lemma StrtoullOfSpaced(ws: string, t: string)
    requires forall i :: 0 <= i < |ws| ==> IsSpace(ws[i])
    requires t != [] && !IsSpace(t[0])
    ensures Strtoull(ws + t) == ReadSigned(t)
  {
    SkipSpacePrefix(ws, t);
  }

  /**
   * What `strtoull(s, NULL, 10)` returns for white space, an optional sign,
   * a run of digits and then anything that is not a digit: the digits' value;
   * with a minus sign, its negation modulo 2^64 (so "-5" reads as 2^64 - 5);
   * past the `uint64_t` range, the maximum 2^64 - 1 whatever the sign.
   */
  lemma StrtoullOfSignedDigits(ws: string, sign: string, d: string, tail: string)
    requires forall i :: 0 <= i < |ws| ==> IsSpace(ws[i])
    requires sign == "" || sign == "+" || sign == "-"
    requires |d| > 0 && AllDigits(d)
    requires tail == [] || !IsDigit(tail[0])
    ensures Strtoull(ws + (sign + d + tail))
         == if DigitsValue(d) >= UINT64_MOD then UINT64_MOD - 1
            else if sign == "-" then (UINT64_MOD - DigitsValue(d)) % UINT64_MOD
            else DigitsValue(d)
  {
    SignedRunStart(sign, d, tail);
    StrtoullOfSpaced(ws, sign + d + tail);
    ReadSignedRun(sign, d, tail);
  }

  /** On a plain run of digits whose value is in range, `strtoull` returns that value. */
  lemma StrtoullOfDigits(s: string)
    requires |s| > 0 && AllDigits(s) && DigitsValue(s) < UINT64_MOD
    ensures Strtoull(s) == DigitsValue(s)
  {
    StrtoullOfSignedDigits("", "", s, "");
    assert "" + ("" + s + "") == s;
  }

  /** Reading the digits `dec2str` wrote gives back the number. */
  lemma {:induction false} DigitsValueOfDec2Str(v: nat)
    ensures DigitsValue(Dec2Str(v)) == v
  {
    if v >= 10 {
      var s := Dec2Str(v);
      var front := Dec2Str(v / 10);
      assert s[..|s| - 1] == front;
      DigitsValueOfDec2Str(v / 10);
    }
  }

  /**
   * The round trip a stored counter takes: for every `uint64_t` value `v`,
   * `strtoull(dec2str(v), NULL, 10) == v`.
   */
  lemma ParseDec2Str(v: uint64)
    ensures Strtoull(Dec2Str(v)) == v
  {
    DigitsValueOfDec2Str(v);
    StrtoullOfDigits(Dec2Str(v));
  }

  /** Distinct counters are spelled differently, so a stored spelling determines the counter. */
  lemma Dec2StrInjective(a: uint64, b: uint64)
    requires Dec2Str(a) == Dec2Str(b)
    ensures a == b
  {
    ParseDec2Str(a);
    ParseDec2Str(b);
  }
}

/** ASCII models of the JavaScript string built-ins the screens rely on:
    `toLowerCase`, `includes` and decimal `parseInt`. */
module Text {

  /** `toLowerCase` on one character, restricted to ASCII: only 'A'..'Z' change. */
  function LowerChar(c: char): char
  {
    if 'A' <= c <= 'Z' then (c as int + 32) as char else c
  }

  /** `s.toLowerCase()` over ASCII. */
  function ToLower(s: string): (r: string)
    ensures |r| == |s|
    ensures forall i :: 0 <= i < |s| ==> r[i] == LowerChar(s[i])
  {
    if |s| == 0 then [] else [LowerChar(s[0])] + ToLower(s[1..])
  }

  /** The two strings differ at most in the ASCII case of their letters. */
  predicate EqualIgnoringCase(a: string, b: string)
  {
    |a| == |b| && forall i :: 0 <= i < |a| ==> LowerChar(a[i]) == LowerChar(b[i])
  }

  /** Comparing lower-cased strings is exactly comparing them up to ASCII case. */
  lemma EqualIgnoringCaseIffSameLower(a: string, b: string)
    ensures EqualIgnoringCase(a, b) <==> ToLower(a) == ToLower(b)
  {
    if ToLower(a) == ToLower(b) {
      assert |a| == |b|;
      forall i | 0 <= i < |a|
        ensures LowerChar(a[i]) == LowerChar(b[i])
      {
        assert ToLower(a)[i] == ToLower(b)[i];
      }
    }
  }

  /** `needle` occurs in `haystack` starting at index `i`. */
  ghost predicate OccursAt(haystack: string, needle: string, i: int)
  {
    0 <= i && i + |needle| <= |haystack| && haystack[i..i + |needle|] == needle
  }

  /** `needle` occurs somewhere in `haystack`. */
  ghost predicate Occurs(haystack: string, needle: string)
  {
    exists i :: OccursAt(haystack, needle, i)
  }

  /** `haystack.includes(needle)`: the needle is a window of the haystack. */
  function Includes(haystack: string, needle: string): (r: bool)
    ensures r <==> exists i :: OccursAt(haystack, needle, i)
    decreases |haystack|
  {
    if needle <= haystack then
      assert OccursAt(haystack, needle, 0);
      true
    else if |haystack| == 0 then
      false
    else
      var rest := Includes(haystack[1..], needle);
      IncludesStep(haystack, needle);
      rest
  }

  /** When the needle is not a prefix, its occurrences are those in the tail. */
  lemma IncludesStep(haystack: string, needle: string)
    requires |haystack| > 0 && !(needle <= haystack)
    ensures (exists i :: OccursAt(haystack, needle, i)) <==> (exists j :: OccursAt(haystack[1..], needle, j))
  {
    if |needle| <= |haystack| {
      assert haystack[0..|needle|] == haystack[..|needle|];
    }
    assert !OccursAt(haystack, needle, 0);
    if i :| OccursAt(haystack, needle, i) {
      assert haystack[1..][i - 1..i - 1 + |needle|] == haystack[i..i + |needle|];
      assert OccursAt(haystack[1..], needle, i - 1);
    }
    if j :| OccursAt(haystack[1..], needle, j) {
      assert haystack[1..][j..j + |needle|] == haystack[j + 1..j + 1 + |needle|];
      assert OccursAt(haystack, needle, j + 1);
    }
  }

  /** Every string contains the empty string. */
  lemma IncludesEmpty(haystack: string)
    ensures Includes(haystack, "")
  {
    assert OccursAt(haystack, "", 0);
  }

  predicate IsDigit(c: char)
  {
    '0' <= c <= '9'
  }

  predicate AllDigits(s: string)
  {
    forall i :: 0 <= i < |s| ==> IsDigit(s[i])
  }

  function DigitValue(c: char): nat
    requires IsDigit(c)
  {
    c as int - '0' as int
  }

  /** The longest prefix of `s` made of decimal digits. */
  function LeadingDigits(s: string): (r: string)
    ensures r <= s && AllDigits(r)
    ensures |r| < |s| ==> !IsDigit(s[|r|])
  {
    if |s| > 0 && IsDigit(s[0]) then [s[0]] + LeadingDigits(s[1..]) else []
  }

  /** The value of a decimal numeral, most significant digit first. */
  function DigitsValue(ds: string): nat
    requires AllDigits(ds)
  {
    if |ds| == 0 then 0 else 10 * DigitsValue(ds[..|ds| - 1]) + DigitValue(ds[|ds| - 1])
  }

  /** Strings on which `parseInt(s)` (no radix) reads a decimal number:
      they start with a digit, and do not start with the hexadecimal prefix 0x/0X. */
  predicate DecimalLead(s: string)
  {
    |s| > 0 && IsDigit(s[0]) && !(|s| >= 2 && s[0] == '0' && (s[1] == 'x' || s[1] == 'X'))
  }

  function Pow10(k: nat): (r: nat)
    ensures r >= 1
  {
    if k == 0 then 1 else 10 * Pow10(k - 1)
  }

  /** A numeral of `k` digits is below 10^k, and is 0 exactly when every digit is '0'. */
  lemma {:induction false} DigitsValueBounds(ds: string)
    requires AllDigits(ds)
    ensures DigitsValue(ds) < Pow10(|ds|)
    ensures DigitsValue(ds) == 0 <==> forall i :: 0 <= i < |ds| ==> ds[i] == '0'
  {
    if |ds| > 0 {
      var init := ds[..|ds| - 1];
      DigitsValueBounds(init);
      if DigitsValue(ds) == 0 {
        forall i | 0 <= i < |ds|
          ensures ds[i] == '0'
        {
          if i < |ds| - 1 {
            assert ds[i] == init[i];
          }
        }
      }
      if forall i :: 0 <= i < |ds| ==> ds[i] == '0' {
        assert forall i :: 0 <= i < |init| ==> init[i] == '0' by {
          forall i | 0 <= i < |init|
            ensures init[i] == '0'
          {
            assert init[i] == ds[i];
          }
        }
      }
    }
  }

  /** `parseInt(s)`: the value of the leading decimal digits; the rest is ignored.
      It is below 10^k for k leading digits, and 0 exactly when they are all zeros. */
  function ParseInt(s: string): (n: nat)
    requires DecimalLead(s)
    ensures 0 < |LeadingDigits(s)| && n < Pow10(|LeadingDigits(s)|)
    ensures n == 0 <==> forall i :: 0 <= i < |LeadingDigits(s)| ==> LeadingDigits(s)[i] == '0'
  {
    DigitsValueBounds(LeadingDigits(s));
    DigitsValue(LeadingDigits(s))
  }

  /** A run of `k` zero digits. */
  function Zeros(k: nat): (r: string)
    ensures |r| == k && AllDigits(r)
    ensures forall i :: 0 <= i < k ==> r[i] == '0'
  {
    seq(k, _ => '0')
  }

  lemma {:induction false} LeadingDigitsAfterZeros(z: nat, s: string)
    ensures LeadingDigits(Zeros(z) + s) == Zeros(z) + LeadingDigits(s)
  {
    if z > 0 {
      assert (Zeros(z) + s)[1..] == Zeros(z - 1) + s;
      LeadingDigitsAfterZeros(z - 1, s);
      assert Zeros(z) == [Zeros(z)[0]] + Zeros(z - 1);
    } else {
      assert Zeros(z) + s == s;
    }
  }

  /** Zeros in front of a numeral do not change its value. */
  lemma {:induction false} DigitsValueAfterZeros(z: nat, ds: string)
    requires AllDigits(ds)
    ensures AllDigits(Zeros(z) + ds)
    ensures DigitsValue(Zeros(z) + ds) == DigitsValue(ds)
  {
    var full := Zeros(z) + ds;
    assert AllDigits(full) by {
      forall i | 0 <= i < |full|
        ensures IsDigit(full[i])
      {
        if i < z { assert full[i] == Zeros(z)[i]; } else { assert full[i] == ds[i - z]; }
      }
    }
    if |ds| == 0 {
      assert full == Zeros(z);
      DigitsValueBounds(full);
    } else {
      var init := ds[..|ds| - 1];
      assert full[..|full| - 1] == Zeros(z) + init;
      assert full[|full| - 1] == ds[|ds| - 1];
      DigitsValueAfterZeros(z, init);
    }
  }

  /** `parseInt` skips zeros in front of the numeral: "05 mins" reads as 5. */
  lemma ParseSkipsLeadingZeros(z: nat, s: string)
    requires DecimalLead(s)
    ensures DecimalLead(Zeros(z) + s)
    ensures ParseInt(Zeros(z) + s) == ParseInt(s)
  {
    var full := Zeros(z) + s;
    if z > 0 {
      assert full[0] == '0';
      if z > 1 { assert full[1] == '0'; } else { assert full[1] == s[0]; }
    } else {
      assert full == s;
    }
    LeadingDigitsAfterZeros(z, s);
    DigitsValueAfterZeros(z, LeadingDigits(s));
  }

  function DigitChar(d: nat): (c: char)
    requires d < 10
    ensures IsDigit(c) && DigitValue(c) == d
  {
    ('0' as int + d) as char
  }

  /** Decimal rendering of a natural number, as `String(n)` writes it. */
  function Show(n: nat): (s: string)
    ensures |s| > 0 && AllDigits(s)
    ensures n > 0 ==> s[0] != '0'
  {
    if n < 10 then [DigitChar(n)] else Show(n / 10) + [DigitChar(n % 10)]
  }

  lemma {:induction false} DigitsValueShow(n: nat)
    ensures DigitsValue(Show(n)) == n
  {
    if n >= 10 {
      var s := Show(n);
      assert s[..|s| - 1] == Show(n / 10);
      DigitsValueShow(n / 10);
    }
  }

  /** A string that cannot extend a numeral: empty, or not starting with a digit. */
  predicate EndsNumeral(rest: string)
  {
    |rest| == 0 || !IsDigit(rest[0])
  }

  lemma {:induction false} LeadingDigitsOfNumeral(ds: string, rest: string)
    requires AllDigits(ds) && EndsNumeral(rest)
    ensures LeadingDigits(ds + rest) == ds
  {
    if |ds| > 0 {
      assert (ds + rest)[1..] == ds[1..] + rest;
      LeadingDigitsOfNumeral(ds[1..], rest);
    } else {
      assert ds + rest == rest;
    }
  }

  /** `parseInt` inverts decimal rendering: `parseInt(String(n) + rest) == n` whenever
      `rest` does not continue the numeral (and does not turn "0" into a hex prefix). */
  lemma ParseShowRoundTrip(n: nat, rest: string)
    requires EndsNumeral(rest)
    requires n == 0 ==> |rest| == 0 || (rest[0] != 'x' && rest[0] != 'X')
    ensures DecimalLead(Show(n) + rest)
    ensures ParseInt(Show(n) + rest) == n
  {
    var s := Show(n);
    assert (s + rest)[0] == s[0];
    if |s + rest| >= 2 && s[0] == '0' {
      assert n == 0;
      assert (s + rest)[1] == rest[0];
    }
    LeadingDigitsOfNumeral(s, rest);
    DigitsValueShow(n);
  }
}

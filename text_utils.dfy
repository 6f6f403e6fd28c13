/** Text helpers of the LED matrix (lib/MD_Parola_Matrix64x16/text_utils.h):
    fixed-width number strings, optionally in the font's subscript digits,
    and the bell glyph. */
module TextUtils {
  import opened Common

  /** Arduino's isDigit. */
  predicate IsDigit(c: char)
  {
    '0' <= c <= '9'
  }

  predicate AllDigits(s: string)
  {
    forall i :: 0 <= i < |s| ==> IsDigit(s[i])
  }

  function DigitChar(d: nat): (c: char)
    requires d < 10
    ensures IsDigit(c) && c as int - '0' as int == d
  {
    ('0' as int + d) as char
  }

  /** The number a string of decimal digits spells. */
  function Value(s: string): nat
    requires AllDigits(s)
  {
    if |s| == 0 then 0 else Value(s[..|s| - 1]) * 10 + (s[|s| - 1] as int - '0' as int)
  }

  function Pow10(k: nat): (r: nat)
    ensures r >= 1
  {
    if k == 0 then 1 else 10 * Pow10(k - 1)
  }

  /** std::to_string of a non-negative integer: no leading zeros. */
  function NatToDecimal(n: nat): (s: string)
    ensures |s| >= 1 && AllDigits(s) && Value(s) == n
    ensures |s| > 1 ==> s[0] != '0'
  {
    if n < 10 then [DigitChar(n)]
    else
      var s := NatToDecimal(n / 10) + [DigitChar(n % 10)];
      assert s[..|s| - 1] == NatToDecimal(n / 10);
      s
  }

  /** std::to_string of an integer. */
  function IntToDecimal(n: int): (s: string)
    ensures n >= 0 ==> s == NatToDecimal(n)
    ensures n < 0 ==> s == "-" + NatToDecimal(-n)
  {
    if n < 0 then "-" + NatToDecimal(-n) else NatToDecimal(n)
  }

  /** A decimal string fits in k characters exactly when the number is below 10^k. */
  lemma {:induction false} DecimalLength(n: nat, k: nat)
    requires k >= 1
    ensures |NatToDecimal(n)| <= k <==> n < Pow10(k)
  {
    if n >= 10 {
      if k == 1 {
        assert |NatToDecimal(n)| >= 2;
      } else {
        DecimalLength(n / 10, k - 1);
      }
    } else {
      assert Pow10(k) >= 10 by {
        assert Pow10(k) == 10 * Pow10(k - 1);
      }
    }
  }

  function Zeros(k: nat): (z: string)
    ensures |z| == k && forall i :: 0 <= i < k ==> z[i] == '0'
  {
    if k == 0 then [] else Zeros(k - 1) + ['0']
  }

  /** A run of zeros spells 0. */
  lemma {:induction false} ZerosValue(k: nat)
    ensures AllDigits(Zeros(k)) && Value(Zeros(k)) == 0
  {
    if k > 0 {
      assert Zeros(k)[..k - 1] == Zeros(k - 1);
      ZerosValue(k - 1);
    }
  }

  /** Leading zeros do not change the value. */
  lemma {:induction false} LeadingZerosKeepValue(k: nat, s: string)
    requires AllDigits(s)
    ensures AllDigits(Zeros(k) + s) && Value(Zeros(k) + s) == Value(s)
    decreases |s|
  {
    var t := Zeros(k) + s;
    assert AllDigits(t) by {
      forall i | 0 <= i < |t|
        ensures IsDigit(t[i])
      {
        if i >= k {
          assert t[i] == s[i - k];
        }
      }
    }
    if |s| == 0 {
      assert t == Zeros(k);
      ZerosValue(k);
    } else {
      assert t[..|t| - 1] == Zeros(k) + s[..|s| - 1];
      LeadingZerosKeepValue(k, s[..|s| - 1]);
    }
  }

  /** A prefix of a decimal string spells the leading digits. */
  lemma {:induction false} PrefixValue(s: string, k: nat)
    requires AllDigits(s) && k <= |s|
    ensures Value(s[..k]) == Value(s) / Pow10(|s| - k)
    decreases |s|
  {
    if k == |s| {
      assert s[..k] == s;
    } else {
      var t := s[..|s| - 1];
      assert t[..k] == s[..k];
      PrefixValue(t, k);
      var d := s[|s| - 1] as int - '0' as int;
      var p := Pow10(|t| - k);
      assert Pow10(|s| - k) == 10 * p;
      assert Value(s) == Value(t) * 10 + d;
      DivTen(Value(t), d, p);
    }
  }

  /** (10v + d) / 10p == v / p for a digit d. */
  lemma DivTen(v: nat, d: nat, p: nat)
    requires d < 10 && p >= 1
    ensures (v * 10 + d) / (10 * p) == v / p
  {
    var q := v / p;
    var r := v % p;
    assert v == q * p + r;
    assert v * 10 == q * (10 * p) + r * 10 by {
      assert (q * p + r) * 10 == q * (10 * p) + r * 10;
    }
    assert r * 10 + d < 10 * p by {
      assert r + 1 <= p;
      assert (r + 1) * 10 <= p * 10;
    }
    ModUnique(v * 10 + d, 10 * p, q, r * 10 + d);
  }

  /** The subscript glyph of a digit in the matrix font: 192 + digit. */
  function SubscriptChar(c: char): (r: char)
    ensures IsDigit(c) ==> r as int == 192 + (c as int - '0' as int)
    ensures !IsDigit(c) ==> r == c
  {
    if IsDigit(c) then (192 + c as int - '0' as int) as char else c
  }

  /** The decimal text `s` padded with leading zeros or cut to `digits` characters. */
  function Fitted(s: string, digits: nat): (r: string)
    ensures |r| == digits
  {
    if |s| < digits then Zeros(digits - |s|) + s else s[..digits]
  }

  /** A text whose last character is not a digit (a cut that kept only the
      sign) loses that character and gains a leading '0'. */
  function Repaired(s: string): (r: string)
    requires |s| >= 1
    ensures |r| == |s|
  {
    if !IsDigit(s[|s| - 1]) then "0" + s[..|s| - 1] else s
  }

  /** The string numToStr returns for the decimal text `s` of the number:
      fitted to `digits` characters, repaired, then each digit possibly
      turned into its subscript glyph. */
  function Formatted(s: string, digits: nat, subscript: bool): (r: string)
    requires digits >= 1
    ensures |r| == digits
  {
    var fixed := Repaired(Fitted(s, digits));
    if subscript then SubscriptAll(fixed) else fixed
  }

  function SubscriptAll(s: string): (r: string)
    ensures |r| == |s| && forall i :: 0 <= i < |s| ==> r[i] == SubscriptChar(s[i])
  {
    if |s| == 0 then [] else SubscriptAll(s[..|s| - 1]) + [SubscriptChar(s[|s| - 1])]
  }

  /** numToStr on the text std::to_string gave for the number. `s.back()` on
      an empty string is undefined, so at least one digit is asked for. */
  method NumToStr(s: string, digits: nat, subscript: bool) returns (r: string)
    requires digits >= 1
    ensures r == Formatted(s, digits, subscript)
  {
    r := s;
    if |r| < digits {
      r := Zeros(digits - |r|) + r;
    } else if |r| > digits {
      r := r[..digits];
    }
    assert r == Fitted(s, digits);
    if !IsDigit(r[|r| - 1]) {
      r := "0" + r[..|r| - 1];
    }
    assert r == Repaired(Fitted(s, digits));
    if subscript {
      r := SubscriptDigits(r);
    }
  }

  /** `for (char &c: s) if (isDigit(c)) c = 192 + c - '0'`. */
  method SubscriptDigits(s: string) returns (r: string)
    ensures r == SubscriptAll(s)
  {
    r := s;
    var i := 0;
    while i < |r|
      invariant 0 <= i <= |r| == |s|
      invariant forall j :: 0 <= j < i ==> r[j] == SubscriptChar(s[j])
      invariant forall j :: i <= j < |r| ==> r[j] == s[j]
    {
      if IsDigit(r[i]) {
        r := r[i := (192 + r[i] as int - '0' as int) as char];
      }
      i := i + 1;
    }
  }

  /** A non-negative number below 10^digits comes out zero-padded to exactly
      `digits` decimal digits that spell the number. */
  lemma NumberThatFitsKeepsValue(n: nat, digits: nat)
    requires digits >= 1 && n < Pow10(digits)
    ensures AllDigits(Formatted(IntToDecimal(n), digits, false))
    ensures Value(Formatted(IntToDecimal(n), digits, false)) == n
  {
    var s := NatToDecimal(n);
    assert IntToDecimal(n) == s;
    DecimalLength(n, digits);
    var fitted := Fitted(s, digits);
    if |s| < digits {
      LeadingZerosKeepValue(digits - |s|, s);
    } else {
      assert s[..digits] == s;
    }
    assert fitted[digits - 1] == s[|s| - 1];
    assert Formatted(s, digits, false) == fitted;
  }

  /** A number too wide for `digits` keeps its leading digits: the result
      spells n / 10^(width - digits). */
  lemma NumberTooWideKeepsLeadingDigits(n: nat, digits: nat)
    requires digits >= 1 && n >= Pow10(digits)
    ensures digits < |NatToDecimal(n)|
    ensures Formatted(IntToDecimal(n), digits, false) == NatToDecimal(n)[..digits]
    ensures Value(Formatted(IntToDecimal(n), digits, false)) == n / Pow10(|NatToDecimal(n)| - digits)
  {
    var s := NatToDecimal(n);
    DecimalLength(n, digits);
    PrefixValue(s, digits);
  }

  /** The string of an integer always ends in a digit, in plain or
      subscript form: a cut that leaves only the sign is repaired. */
  lemma FormattedEndsInDigit(n: int, digits: nat, subscript: bool)
    requires digits >= 1
    ensures var r := Formatted(IntToDecimal(n), digits, subscript);
      if subscript then 192 <= r[digits - 1] as int < 202 else IsDigit(r[digits - 1])
  {
    var s := IntToDecimal(n);
    var fitted := Fitted(s, digits);
    assert IsDigit(s[|s| - 1]);
    if |s| < digits {
      assert fitted[|fitted| - 1] == s[|s| - 1];
    } else if !IsDigit(fitted[|fitted| - 1]) {
      assert n < 0 && digits == 1;
    }
  }

  /** The subscript form differs from the plain one glyph for glyph. */
  lemma SubscriptIsGlyphwise(s: string, digits: nat)
    requires digits >= 1
    ensures forall i :: 0 <= i < digits ==>
      Formatted(s, digits, true)[i] == SubscriptChar(Formatted(s, digits, false)[i])
  {
  }

  /** A negative number cut to its sign becomes "0": -5 in one digit. */
  lemma NegativeCutToSign()
    ensures Formatted(IntToDecimal(-5), 1, false) == "0"
  {
    assert IntToDecimal(-5) == "-5";
  }

  const DEGREE_SIGN: char := '*'
  const BELL_FILLED: char := '$'
  const BELL_OUTLINE: char := '%'

  /** c_bell: the filled or the outlined bell glyph. */
  function CBell(filled: bool): (c: char)
    ensures c == BELL_FILLED <==> filled
    ensures c == BELL_FILLED || c == BELL_OUTLINE
  {
    if filled then BELL_FILLED else BELL_OUTLINE
  }

  /** Bell: a bell glyph remembered by whether it is filled. */
  datatype Bell = Bell(filled: bool)
  {
    /** operator char. */
    function ToChar(): (c: char)
      ensures c == CBell(filled)
    {
      CBell(filled)
    }
  }
}

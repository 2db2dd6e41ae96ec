/** String operations the source takes from Python: the `in` substring test,
    `str(n)` on a natural number and `str.zfill`. */
module Text {

  /** `pat` occurs in `text` starting at index `i`. */
  ghost predicate OccursAt(text: string, pat: string, i: int)
  {
    0 <= i && i + |pat| <= |text| && text[i..i + |pat|] == pat
  }

  predicate IsPrefix(pat: string, text: string)
  {
    |pat| <= |text| && text[..|pat|] == pat
  }

  /** Python's `pat in text`: tries every start position from the left. */
  predicate Contains(text: string, pat: string)
    decreases |text|
  {
    if IsPrefix(pat, text) then true
    else if |text| == 0 then false
    else Contains(text[1..], pat)
  }

  /** The scan finds `pat` exactly when it occurs at some index. */
  lemma {:induction false} ContainsIffOccurs(text: string, pat: string)
    ensures Contains(text, pat) <==> exists i :: OccursAt(text, pat, i)
    decreases |text|
  {
    if IsPrefix(pat, text) {
      assert OccursAt(text, pat, 0);
    } else if |text| == 0 {
    } else {
      ContainsIffOccurs(text[1..], pat);
      if exists i :: OccursAt(text[1..], pat, i) {
        var i :| OccursAt(text[1..], pat, i);
        assert text[i + 1..i + 1 + |pat|] == text[1..][i..i + |pat|];
        assert OccursAt(text, pat, i + 1);
      }
      if exists i :: OccursAt(text, pat, i) {
        var i :| OccursAt(text, pat, i);
        if i == 0 {
          assert false;
        }
        assert text[1..][i - 1..i - 1 + |pat|] == text[i..i + |pat|];
        assert OccursAt(text[1..], pat, i - 1);
      }
    }
  }

  predicate IsDigit(c: char)
  {
    '0' <= c <= '9'
  }

  predicate AllDigits(s: string)
  {
    forall i :: 0 <= i < |s| ==> IsDigit(s[i])
  }

  function DigitChar(d: nat): (c: char)
    requires d < 10
    ensures IsDigit(c)
  {
    ('0' as int + d) as char
  }

  function DigitValue(c: char): nat
    requires IsDigit(c)
  {
    c as int - '0' as int
  }

  /** Python's `str(n)` for a natural number: decimal digits, no leading zeros. */
  function DecimalString(n: nat): (s: string)
    ensures 1 <= |s|
    ensures AllDigits(s)
  {
    if n < 10 then [DigitChar(n)]
    else DecimalString(n / 10) + [DigitChar(n % 10)]
  }

  /** Reads a string of decimal digits back as a number. */
  function ParseDecimal(s: string): nat
    requires AllDigits(s)
  {
    if |s| == 0 then 0
    else 10 * ParseDecimal(s[..|s| - 1]) + DigitValue(s[|s| - 1])
  }

  lemma {:induction false} ParseDecimalString(n: nat)
    ensures ParseDecimal(DecimalString(n)) == n
  {
    var s := DecimalString(n);
    if n >= 10 {
      ParseDecimalString(n / 10);
      assert s[..|s| - 1] == DecimalString(n / 10);
    }
  }

  /** A number below 10^6 has at most six decimal digits. */
  lemma {:induction false} DecimalStringShort(n: nat)
    requires n < 1000000
    ensures |DecimalString(n)| <= 6
  {
    assert Pow10(6) == 1000000;
    DecimalStringBelow(n, 6);
  }

  function Pow10(k: nat): nat
  {
    if k == 0 then 1 else 10 * Pow10(k - 1)
  }

  lemma {:induction false} DecimalStringBelow(n: nat, k: nat)
    requires 1 <= k
    requires n < Pow10(k)
    ensures |DecimalString(n)| <= k
  {
    if n >= 10 {
      assert Pow10(k) == 10 * Pow10(k - 1);
      assert n / 10 < Pow10(k - 1);
      assert k - 1 != 0 by { assert Pow10(0) == 1; }
      DecimalStringBelow(n / 10, k - 1);
    }
  }

  function Zeros(k: nat): (s: string)
    ensures |s| == k
    ensures AllDigits(s)
  {
    if k == 0 then "" else "0" + Zeros(k - 1)
  }

  /** Python's `s.zfill(width)` for an unsigned string: left-pads with '0'
      up to `width` characters and leaves longer strings unchanged. */
  function ZFill(s: string, width: nat): (r: string)
    ensures |r| == if |s| >= width then |s| else width
  {
    if |s| >= width then s else Zeros(width - |s|) + s
  }

  lemma {:induction false} ParseLeadingZeros(k: nat, s: string)
    requires AllDigits(s)
    ensures AllDigits(Zeros(k) + s)
    ensures ParseDecimal(Zeros(k) + s) == ParseDecimal(s)
    decreases |s|
  {
    var z := Zeros(k) + s;
    if |s| == 0 {
      assert z == Zeros(k);
      ParseZeros(k);
    } else {
      ParseLeadingZeros(k, s[..|s| - 1]);
      assert z[..|z| - 1] == Zeros(k) + s[..|s| - 1];
    }
  }

  lemma {:induction false} ParseZeros(k: nat)
    ensures ParseDecimal(Zeros(k)) == 0
  {
    if k > 0 {
      var z := Zeros(k);
      assert z == Zeros(k - 1) + "0" by { ZerosSnoc(k); }
      assert z[..k - 1] == Zeros(k - 1);
      ParseZeros(k - 1);
    }
  }

  lemma {:induction false} ZerosSnoc(k: nat)
    requires k > 0
    ensures Zeros(k) == Zeros(k - 1) + "0"
  {
    if k > 1 {
      ZerosSnoc(k - 1);
    }
  }

  /** Zero-padding a decimal string never changes the number it denotes. */
  lemma ParseZFillDecimal(n: nat, width: nat)
    ensures AllDigits(ZFill(DecimalString(n), width))
    ensures ParseDecimal(ZFill(DecimalString(n), width)) == n
  {
    var s := DecimalString(n);
    ParseDecimalString(n);
    if |s| < width {
      ParseLeadingZeros(width - |s|, s);
    }
  }
}

/** Numerals: the value of a digit string in a radix (`number_base` of the tree transformer and
    Python's `int(text)`), and the exact value of the grammar's NUMBER text (`float(text)`). */
module Numerals {

  /** `ord(d) - ord('0')` for a decimal digit, else `ord(d) - ord('a') + 10`; no other check. */
  function DigitValue(c: char): (v: int)
    ensures '0' <= c <= '9' ==> 0 <= v <= 9
    ensures 'a' <= c <= 'z' ==> 10 <= v <= 35
  {
    if '0' <= c <= '9' then c as int - '0' as int else c as int - 'a' as int + 10
  }

  function Pow(b: int, n: nat): (r: int)
    ensures b > 0 ==> r > 0
  {
    if n == 0 then 1 else b * Pow(b, n - 1)
  }

  /** The value of `digits`, most significant first, in radix `base` (Horner's rule). */
  function Positional(digits: seq<char>, base: int): int
    decreases |digits|
  {
    if digits == [] then 0
    else Positional(digits[..|digits| - 1], base) * base + DigitValue(digits[|digits| - 1])
  }

  /** Σ DigitValue(rs[j]) * base^j over j < i: the sum `number_base` has built after `i`
      steps over the reversed digits. */
  function LowFirst(rs: seq<char>, i: nat, base: int): int
    requires i <= |rs|
  {
    if i == 0 then 0 else LowFirst(rs, i - 1, base) + DigitValue(rs[i - 1]) * Pow(base, i - 1)
  }

  function Reverse<T>(s: seq<T>): (r: seq<T>)
    ensures |r| == |s| && forall k :: 0 <= k < |s| ==> r[k] == s[|s| - 1 - k]
  {
    if s == [] then [] else Reverse(s[1..]) + [s[0]]
  }

  /** Taking one more least-significant digit in front multiplies the rest by the base. */
  lemma {:induction false} LowFirstShift(c: char, rs: seq<char>, i: nat, base: int)
    requires i <= |rs|
    ensures LowFirst([c] + rs, i + 1, base) == DigitValue(c) + base * LowFirst(rs, i, base)
  {
    if i > 0 {
      LowFirstShift(c, rs, i - 1, base);
      assert ([c] + rs)[i] == rs[i - 1];
      var x, p := DigitValue(rs[i - 1]), Pow(base, i - 1);
      var prev := LowFirst(rs, i - 1, base);
      assert LowFirst([c] + rs, i + 1, base) == DigitValue(c) + base * prev + x * (base * p);
      Distribute(base, prev, x, p);
    }
  }

  lemma Distribute(b: int, prev: int, x: int, p: int)
    ensures b * prev + x * (b * p) == b * (prev + x * p)
  {
  }

  /** Summing the reversed digits with increasing powers is Horner's rule on the digits. */
  lemma {:induction false} LowFirstOfReverse(digits: seq<char>, base: int)
    ensures LowFirst(Reverse(digits), |digits|, base) == Positional(digits, base)
    decreases |digits|
  {
    if digits != [] {
      var n := |digits|;
      var init := digits[..n - 1];
      var rev := Reverse(digits);
      assert rev == [digits[n - 1]] + Reverse(init);
      LowFirstShift(digits[n - 1], Reverse(init), n - 1, base);
      LowFirstOfReverse(init, base);
    }
  }

  /** `int(text)` on an INT token: its decimal value. */
  function DecimalValue(text: string): int {
    Positional(text, 10)
  }

  predicate IsDigit(c: char) {
    '0' <= c <= '9'
  }

  /** Text `int()` accepts among the NUMBER tokens: decimal digits only. */
  predicate IsIntText(text: string) {
    |text| > 0 && forall k :: 0 <= k < |text| ==> IsDigit(text[k])
  }

  /** A one-digit integer text is worth its digit. */
  lemma OneDigit(c: char)
    requires IsDigit(c)
    ensures IsIntText([c]) && DecimalValue([c]) == DigitValue(c)
  {
    assert [c][..0] == [];
    assert Positional([c], 10) == Positional([], 10) * 10 + DigitValue(c);
  }

  /** `number_base`: copies the digit tokens, reverses the copy in place, then adds each digit
      times the running power of the base, least significant first. */
  method NumberBase(digits: seq<char>, baseText: string) returns (res: int)
    ensures res == Positional(digits, DecimalValue(baseText))
  {
    var base := DecimalValue(baseText);
    var a := new char[|digits|](k requires 0 <= k < |digits| => digits[k]);
    assert a[..] == digits;
    ReverseInPlace(a);
    res := SumDigits(a, base);
    LowFirstOfReverse(digits, base);
  }

  /** The loop of `number_base`: each digit times the running power, least significant first. */
  method SumDigits(a: array<char>, base: int) returns (res: int)
    ensures res == LowFirst(a[..], a.Length, base)
  {
    var tmp := 1;
    res := 0;
    var i := 0;
    while i < a.Length
      invariant 0 <= i <= a.Length
      invariant tmp == Pow(base, i)
      invariant res == LowFirst(a[..], i, base)
    {
      res := res + DigitValue(a[i]) * tmp;
      tmp := tmp * base;
      i := i + 1;
    }
  }

  /** `list.reverse()`. */
  method ReverseInPlace(a: array<char>)
    modifies a
    ensures a[..] == Reverse(old(a[..]))
  {
    var i := 0;
    var n := a.Length;
    while i < n / 2
      invariant 0 <= i <= n / 2
      invariant forall k :: 0 <= k < i ==> a[k] == old(a[n - 1 - k]) && a[n - 1 - k] == old(a[k])
      invariant forall k :: i <= k < n - i ==> a[k] == old(a[k])
    {
      a[i], a[n - 1 - i] := a[n - 1 - i], a[i];
      i := i + 1;
    }
  }

  /** The digit character for a value below 36: `0-9` then `a-z`. */
  function DigitChar(v: nat): (c: char)
    requires v < 36
    ensures DigitValue(c) == v
  {
    if v < 10 then ('0' as int + v) as char else ('a' as int + v - 10) as char
  }

  /** The digits of `n` in radix `base`, most significant first (no leading zero; empty for 0). */
  function ToDigits(n: nat, base: nat): (ds: seq<char>)
    requires 2 <= base <= 36
    decreases n
  {
    if n == 0 then [] else ToDigits(n / base, base) + [DigitChar(n % base)]
  }

  /** Appending a digit multiplies the value so far by the base and adds the digit. */
  lemma PositionalSnoc(ds: seq<char>, c: char, base: int)
    ensures Positional(ds + [c], base) == Positional(ds, base) * base + DigitValue(c)
  {
    assert (ds + [c])[..|ds|] == ds;
  }

  lemma DivMod(n: nat, base: nat)
    requires 2 <= base && n > 0
    ensures n == (n / base) * base + n % base && 0 <= n % base < base && n / base < n
  {
  }

  /** Every natural number is the `number_base` value of its own digits, in any radix 2..36. */
  lemma {:induction false} PositionalToDigits(n: nat, base: nat)
    requires 2 <= base <= 36
    ensures Positional(ToDigits(n, base), base) == n
    decreases n
  {
    if n > 0 {
      var q, r := n / base, n % base;
      DivMod(n, base);
      PositionalToDigits(q, base);
      var c := DigitChar(r);
      assert ToDigits(n, base) == ToDigits(q, base) + [c];
      PositionalSnoc(ToDigits(q, base), c, base);
    }
  }

  /** Every digit of `ToDigits` is below the base, so `number_base` reads it back exactly. */
  lemma {:induction false} ToDigitsInRange(n: nat, base: nat)
    requires 2 <= base <= 36
    ensures forall k :: 0 <= k < |ToDigits(n, base)| ==> 0 <= DigitValue(ToDigits(n, base)[k]) < base
    decreases n
  {
    if n > 0 {
      ToDigitsInRange(n / base, base);
    }
  }

  /** `<ff>16` is 255 and `<101>2` is 5. */
  lemma NumberBaseExamples()
    ensures Positional("ff", 16) == 255
    ensures Positional("101", 2) == 5
  {
    assert "ff"[..1] == "f" && "101"[..2] == "10" && "10"[..1] == "1";
  }

  /** No digit is checked against the base: `<19>2` reads as 1*2 + 9 = 11. */
  lemma UncheckedDigit()
    ensures Positional("19", 2) == 11
  {
    assert "19"[..1] == "1";
  }

  /** The exact value of a NUMBER token: `[int] ["." [frac]] [("e"|"E") ["+"|"-"] int]`. Python's
      `float()` rounds this to binary64; the model keeps it exact. */
  function RealValue(text: string): real {
    var k := IndexOf(text, 'e', 'E');
    var mantissa := text[..k];
    var exponent := if k < |text| then text[k + 1..] else "";
    MantissaValue(mantissa) * PowerOfTen(ExponentValue(exponent))
  }

  /** The first index holding `c1` or `c2`, or `|s|`. */
  function IndexOf(s: string, c1: char, c2: char): (k: nat)
    ensures k <= |s|
    ensures forall j :: 0 <= j < k ==> s[j] != c1 && s[j] != c2
    ensures k < |s| ==> s[k] == c1 || s[k] == c2
  {
    if s == [] then 0
    else if s[0] == c1 || s[0] == c2 then 0
    else 1 + IndexOf(s[1..], c1, c2)
  }

  function MantissaValue(m: string): real {
    var k := IndexOf(m, '.', '.');
    var whole := m[..k];
    var frac := if k < |m| then m[k + 1..] else "";
    DecimalValue(whole) as real + DecimalValue(frac) as real / Pow(10, |frac|) as real
  }

  function ExponentValue(e: string): int {
    if |e| > 0 && e[0] == '-' then -DecimalValue(e[1..])
    else if |e| > 0 && e[0] == '+' then DecimalValue(e[1..])
    else DecimalValue(e)
  }

  function PowerOfTen(e: int): real {
    if e >= 0 then Pow(10, e) as real else 1.0 / Pow(10, -e) as real
  }

  /** On digit-only text, `float(text)` and `int(text)` agree: the value is the decimal one. */
  lemma {:induction false} RealValueOfInt(text: string)
    requires IsIntText(text)
    ensures RealValue(text) == DecimalValue(text) as real
  {
    assert forall j :: 0 <= j < |text| ==> text[j] != 'e' && text[j] != 'E' && text[j] != '.' by {
      forall j | 0 <= j < |text| ensures text[j] != 'e' && text[j] != 'E' && text[j] != '.' {
        assert IsDigit(text[j]);
      }
    }
    assert IndexOf(text, 'e', 'E') == |text|;
    assert text[..|text|] == text;
    assert IndexOf(text, '.', '.') == |text|;
    assert DecimalValue("") == 0;
  }

  /** `1.1` is eleven tenths and `13e3` is thirteen thousand. */
  lemma RealValueExamples()
    ensures RealValue("1.1") == 1.1
    ensures RealValue("13e3") == 13000.0
  {
    assert IndexOf("1.1", 'e', 'E') == 3;
    assert "1.1"[..3] == "1.1";
    assert IndexOf("1.1", '.', '.') == 1;
    assert "1.1"[..1] == "1" && "1.1"[2..] == "1";
    assert IndexOf("13e3", 'e', 'E') == 2;
    assert "13e3"[..2] == "13" && "13e3"[3..] == "3";
    assert IndexOf("13", '.', '.') == 2;
    assert "13"[..2] == "13" && "13"[..1] == "1";
  }
}

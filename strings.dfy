/**
 * The handful of JavaScript string operations the agents rely on, written out over
 * `seq<char>`: `toLowerCase` (ASCII letters only), `includes`, the regular-expression
 * `replace` calls that drop characters, and the leading-number readers `parseInt`
 * (decimal) and `parseFloat`.
 */
module Strings {
  import opened Common

  predicate IsDigit(c: char) { '0' <= c <= '9' }

  predicate AllDigits(s: string) { forall i :: 0 <= i < |s| ==> IsDigit(s[i]) }

  function DigitChar(d: nat): char
    requires d < 10
  {
    ('0' as int + d) as char
  }

  function DigitValue(c: char): nat
    requires IsDigit(c)
  {
    c as int - '0' as int
  }

  /** The white space that `parseInt` and `parseFloat` skip before the number. */
  predicate IsSpace(c: char) {
    c == ' ' || c == '\t' || c == '\n' || c == '\r' || c == '\U{B}' || c == '\U{C}'
    || c == '\U{A0}' || c == '\U{2028}' || c == '\U{2029}' || c == '\U{FEFF}'
  }

  function LowerChar(c: char): char {
    if 'A' <= c <= 'Z' then (c as int + 32) as char else c
  }

  /** `String.prototype.toLowerCase`, restricted to the ASCII letters. */
  function ToLower(s: string): (r: string)
    ensures |r| == |s|
  {
    if s == [] then [] else [LowerChar(s[0])] + ToLower(s[1..])
  }

  lemma {:induction false} ToLowerAppend(a: string, b: string)
    ensures ToLower(a + b) == ToLower(a) + ToLower(b)
  {
    if a != [] {
      assert (a + b)[1..] == a[1..] + b;
      ToLowerAppend(a[1..], b);
    } else {
      assert a + b == b;
    }
  }

  /** A word typed in any mix of cases is found by `includes` in the lower-cased answer. */
  lemma TypedWordFound(before: string, word: string, after: string, k: string)
    requires ToLower(word) == k
    ensures Contains(ToLower(before + word + after), k)
  {
    ToLowerAppend(before + word, after);
    ToLowerAppend(before, word);
    ContainsInfix(ToLower(before), k, ToLower(after));
  }

  /**
   * `String.prototype.length`: the number of UTF-16 code units, two for each character
   * outside the Basic Multilingual Plane.
   */
  function Utf16Length(s: string): (n: nat)
    ensures |s| <= n <= 2 * |s|
  {
    if s == [] then 0 else (if s[0] as int >= 0x1_0000 then 2 else 1) + Utf16Length(s[1..])
  }

  /** Within the Basic Multilingual Plane the length in code units is the number of characters. */
  lemma {:induction false} Utf16LengthOfBmp(s: string)
    requires forall i :: 0 <= i < |s| ==> (s[i] as int) < 0x1_0000
    ensures Utf16Length(s) == |s|
  {
    if s != [] {
      Utf16LengthOfBmp(s[1..]);
    }
  }

  /** Characters outside the Basic Multilingual Plane count twice. */
  lemma {:induction false} Utf16LengthOfAstral(s: string)
    requires forall i :: 0 <= i < |s| ==> (s[i] as int) >= 0x1_0000
    ensures Utf16Length(s) == 2 * |s|
  {
    if s != [] {
      Utf16LengthOfAstral(s[1..]);
    }
  }

  /** A string of digits is as long in code units as in characters. */
  lemma Utf16LengthOfDigits(s: string)
    requires AllDigits(s)
    ensures Utf16Length(s) == |s|
  {
    Utf16LengthOfBmp(s);
  }

  /** `String.prototype.includes`: `t` occurs somewhere in `s`. */
  predicate Contains(s: string, t: string)
    decreases |s|
  {
    t <= s || (|s| > 0 && Contains(s[1..], t))
  }

  predicate OccursAt(s: string, t: string, i: int) {
    0 <= i <= |s| - |t| && s[i..i + |t|] == t
  }

  /** `Contains` is the usual "occurs at some index" relation. */
  lemma {:induction false} ContainsAt(s: string, t: string)
    ensures Contains(s, t) <==> exists i :: OccursAt(s, t, i)
  {
    if |s| > 0 {
      ContainsAt(s[1..], t);
      forall i | 1 <= i && OccursAt(s, t, i)
        ensures OccursAt(s[1..], t, i - 1)
      {
        ShiftedSlice(s, i, |t|);
      }
      forall i | OccursAt(s[1..], t, i)
        ensures OccursAt(s, t, i + 1)
      {
        ShiftedSlice(s, i + 1, |t|);
      }
    }
    if t <= s {
      assert s[0..|t|] == t;
      assert OccursAt(s, t, 0);
    }
  }

  /** A slice of `s` away from its head is the matching slice of its tail. */
  lemma ShiftedSlice(s: string, i: int, m: nat)
    requires 1 <= i && i + m <= |s|
    ensures s[i..i + m] == s[1..][i - 1..i - 1 + m]
  {
    var head, tail := s[i..i + m], s[1..][i - 1..i - 1 + m];
    forall j | 0 <= j < m
      ensures head[j] == tail[j]
    {
      assert head[j] == s[i + j];
      assert tail[j] == s[1..][i - 1 + j];
    }
  }

  /** Whatever surrounds it, a word that is typed is found by `includes`. */
  lemma {:induction false} ContainsInfix(a: string, t: string, b: string)
    ensures Contains(a + t + b, t)
  {
    if a == [] {
      assert a + t + b == t + b;
    } else {
      assert (a + t + b)[1..] == a[1..] + t + b;
      ContainsInfix(a[1..], t, b);
    }
  }

  /** `s.replace(/[^0-9]/g, '')`: the digits of `s`, in order. */
  function DigitsOnly(s: string): (r: string)
    ensures AllDigits(r)
    ensures |r| <= |s|
  {
    if s == [] then []
    else (if IsDigit(s[0]) then [s[0]] else []) + DigitsOnly(s[1..])
  }

  lemma {:induction false} DigitsOnlyOfDigits(s: string)
    requires AllDigits(s)
    ensures DigitsOnly(s) == s
  {
    if s != [] {
      DigitsOnlyOfDigits(s[1..]);
    }
  }

  lemma DigitsOnlyIdempotent(s: string)
    ensures DigitsOnly(DigitsOnly(s)) == DigitsOnly(s)
  {
    DigitsOnlyOfDigits(DigitsOnly(s));
  }

  /** `s.replace(/[...]/g, '')` for a character class: `s` without the characters of `drop`. */
  function RemoveAll(s: string, drop: set<char>): (r: string)
    ensures forall i :: 0 <= i < |r| ==> r[i] !in drop
    ensures |r| <= |s|
  {
    if s == [] then []
    else (if s[0] in drop then [] else [s[0]]) + RemoveAll(s[1..], drop)
  }

  lemma {:induction false} RemoveAllKeeps(s: string, drop: set<char>)
    requires forall i :: 0 <= i < |s| ==> s[i] !in drop
    ensures RemoveAll(s, drop) == s
  {
    if s != [] {
      RemoveAllKeeps(s[1..], drop);
    }
  }

  lemma {:induction false} RemoveAllAppend(a: string, b: string, drop: set<char>)
    ensures RemoveAll(a + b, drop) == RemoveAll(a, drop) + RemoveAll(b, drop)
  {
    if a == [] {
      assert a + b == b;
    } else {
      assert (a + b)[1..] == a[1..] + b;
      RemoveAllAppend(a[1..], b, drop);
    }
  }

  function TrimStart(s: string): string {
    if |s| > 0 && IsSpace(s[0]) then TrimStart(s[1..]) else s
  }

  /** The longest prefix of `s` made of decimal digits. */
  function LeadingDigits(s: string): (r: string)
    ensures r <= s && AllDigits(r)
    ensures |r| < |s| ==> !IsDigit(s[|r|])
  {
    if |s| > 0 && IsDigit(s[0]) then [s[0]] + LeadingDigits(s[1..]) else []
  }

  /** The value of a string of decimal digits, most significant first. */
  function DigitsValue(d: string): nat
    requires AllDigits(d)
  {
    if d == [] then 0 else DigitsValue(d[..|d| - 1]) * 10 + DigitValue(d[|d| - 1])
  }

  /** The decimal numeral of `n`, without leading zeros. */
  function NatString(n: nat): (s: string)
    ensures |s| > 0 && AllDigits(s)
  {
    if n < 10 then [DigitChar(n)] else NatString(n / 10) + [DigitChar(n % 10)]
  }

  lemma {:induction false} NatStringValue(n: nat)
    ensures DigitsValue(NatString(n)) == n
  {
    if n >= 10 {
      var s := NatString(n);
      assert s[..|s| - 1] == NatString(n / 10);
      NatStringValue(n / 10);
    }
  }

  /** Three decimal digits with leading zeros: one thousands group. */
  function ThreeDigits(m: nat): (s: string)
    requires m < 1000
    ensures |s| == 3 && AllDigits(s)
  {
    [DigitChar(m / 100), DigitChar(m / 10 % 10), DigitChar(m % 10)]
  }

  /** The numeral of `n` with a comma between thousands groups, as in `50,000`. */
  function Grouped(n: nat): (s: string)
    ensures |s| > 0 && IsDigit(s[0])
  {
    if n < 1000 then NatString(n) else Grouped(n / 1000) + "," + ThreeDigits(n % 1000)
  }

  /** A numeral of four digits or more ends in its last thousands group. */
  lemma NatStringThousands(n: nat)
    requires n >= 1000
    ensures NatString(n) == NatString(n / 1000) + ThreeDigits(n % 1000)
  {
    var m := n % 1000;
    ThousandsArithmetic(n, n / 1000, m / 100, m / 10 % 10, m % 10);
    assert NatString(n) == NatString(n / 10) + [DigitChar(m % 10)];
    assert NatString(n / 10) == NatString(n / 100) + [DigitChar(m / 10 % 10)];
    assert NatString(n / 100) == NatString(n / 1000) + [DigitChar(m / 100)];
  }

  /** The digits of the last thousands group of `n = 1000q + 100a + 10b + c`. */
  lemma ThousandsArithmetic(n: nat, q: nat, a: nat, b: nat, c: nat)
    requires a < 10 && b < 10 && c < 10
    requires q == n / 1000 && a == n % 1000 / 100 && b == n % 1000 / 10 % 10 && c == n % 1000 % 10
    ensures n / 10 == 100 * q + 10 * a + b && n % 10 == c
    ensures n / 10 / 10 == n / 100 == 10 * q + a && n / 10 % 10 == b
    ensures n / 100 / 10 == q && n / 100 % 10 == a
  {
    assert n % 1000 == 100 * a + 10 * b + c;
    assert n == 1000 * q + 100 * a + 10 * b + c;
  }

  lemma {:induction false} LeadingDigitsOfNumeral(d: string, rest: string)
    requires AllDigits(d)
    requires rest == [] || !IsDigit(rest[0])
    ensures LeadingDigits(d + rest) == d
  {
    if d != [] {
      assert (d + rest)[1..] == d[1..] + rest;
      LeadingDigitsOfNumeral(d[1..], rest);
    } else {
      assert d + rest == rest;
    }
  }

  /** A leading `-` or `+`: whether the number is negative, and the text after the sign. */
  function SplitSign(t: string): (bool, string) {
    if |t| > 0 && (t[0] == '-' || t[0] == '+') then (t[0] == '-', t[1..]) else (false, t)
  }

  /**
   * `parseInt(s)` in base ten: skip white space, read an optional sign and the longest run
   * of digits; `None` stands for `NaN` (no digit where the number should start).
   */
  function ParseInt(s: string): (r: Option<int>)
    ensures var body := SplitSign(TrimStart(s)).1;
            r.None? <==> body == [] || !IsDigit(body[0])
    ensures r.Some? && r.value < 0 ==> SplitSign(TrimStart(s)).0
  {
    var (negative, body) := SplitSign(TrimStart(s));
    var digits := LeadingDigits(body);
    if digits == [] then None
    else Some(if negative then -(DigitsValue(digits) as int) else DigitsValue(digits))
  }

  function Pow10(k: nat): (p: nat)
    ensures p >= 1
  {
    if k == 0 then 1 else 10 * Pow10(k - 1)
  }

  /** The factor an exponent part (`e`, optional sign, digits) contributes; 1 when there is none. */
  function ExponentFactor(t: string): (f: real)
    ensures f > 0.0
  {
    if |t| > 0 && (t[0] == 'e' || t[0] == 'E') then
      var (negative, body) := SplitSign(t[1..]);
      var digits := LeadingDigits(body);
      if digits == [] then 1.0
      else if negative then 1.0 / Pow10(DigitsValue(digits)) as real
      else Pow10(DigitsValue(digits)) as real
    else 1.0
  }

  /**
   * `parseFloat(s)`: skip white space, read an optional sign, digits, an optional `.` and
   * fraction digits (at least one digit in all) and an optional exponent; `None` stands for `NaN`.
   */
  function ParseFloat(s: string): Option<real> {
    var (negative, body) := SplitSign(TrimStart(s));
    var whole := LeadingDigits(body);
    var afterWhole := body[|whole|..];
    var hasPoint := |afterWhole| > 0 && afterWhole[0] == '.';
    var fraction := if hasPoint then LeadingDigits(afterWhole[1..]) else [];
    if whole == [] && fraction == [] then None
    else
      var afterMantissa := if hasPoint then afterWhole[1 + |fraction|..] else afterWhole;
      var magnitude := DigitsValue(whole) as real + DigitsValue(fraction) as real / Pow10(|fraction|) as real;
      var value := magnitude * ExponentFactor(afterMantissa);
      Some(if negative then -value else value)
  }

  /**
   * `parseFloat` is `NaN` exactly when no digit starts the number, either straight after
   * the sign or after a leading point.
   */
  lemma ParseFloatNaN(s: string)
    ensures var body := SplitSign(TrimStart(s)).1;
            ParseFloat(s).None? <==> !((|body| > 0 && IsDigit(body[0])) || (|body| > 1 && body[0] == '.' && IsDigit(body[1])))
  {
    var body := SplitSign(TrimStart(s)).1;
    var whole := LeadingDigits(body);
    if whole == [] {
      assert body[|whole|..] == body;
      if |body| > 1 && body[0] == '.' && IsDigit(body[1]) {
        assert LeadingDigits(body[1..]) != [];
      }
    }
  }

  /** Typing the numeral of `n`, followed by anything that does not continue it, reads back as `n`. */
  lemma ParseIntOfNumeral(n: nat, rest: string)
    requires rest == [] || !IsDigit(rest[0])
    ensures ParseInt(NatString(n) + rest) == Some(n)
  {
    var s := NatString(n) + rest;
    assert s[0] == NatString(n)[0];
    assert TrimStart(s) == s;
    assert SplitSign(s) == (false, s);
    LeadingDigitsOfNumeral(NatString(n), rest);
    NatStringValue(n);
  }

  /** A minus sign in front of a numeral gives its negation: `"-5"` reads as −5. */
  lemma ParseIntOfNegativeNumeral(n: nat, rest: string)
    requires rest == [] || !IsDigit(rest[0])
    ensures ParseInt("-" + NatString(n) + rest) == Some(-(n as int))
  {
    var s := "-" + NatString(n) + rest;
    assert s[0] == '-' && s[1..] == NatString(n) + rest;
    assert TrimStart(s) == s;
    assert SplitSign(s) == (true, NatString(n) + rest);
    LeadingDigitsOfNumeral(NatString(n), rest);
    NatStringValue(n);
  }

  /** White space in front of the number is skipped: `" 25"` reads as 25. */
  lemma ParseIntSkipsSpace(c: char, s: string)
    requires IsSpace(c)
    ensures ParseInt([c] + s) == ParseInt(s)
  {
    assert ([c] + s)[1..] == s;
  }

  lemma ParseFloatOfNumeral(n: nat, rest: string)
    requires rest == [] || (!IsDigit(rest[0]) && rest[0] != '.' && rest[0] != 'e' && rest[0] != 'E')
    ensures ParseFloat(NatString(n) + rest) == Some(n as real)
  {
    var s := NatString(n) + rest;
    assert s[0] == NatString(n)[0];
    assert TrimStart(s) == s;
    assert SplitSign(s) == (false, s);
    LeadingDigitsOfNumeral(NatString(n), rest);
    assert s[|NatString(n)|..] == rest;
    NatStringValue(n);
  }

  /** A text whose first character can neither start a number nor be skipped reads as `NaN`. */
  lemma ParseFloatRefusesLeading(c: char, rest: string)
    requires !IsSpace(c) && !IsDigit(c) && c != '+' && c != '-' && c != '.'
    ensures ParseFloat([c] + rest) == None
  {
    var s := [c] + rest;
    assert TrimStart(s) == s;
    assert SplitSign(s) == (false, s);
    assert LeadingDigits(s) == [];
  }
}

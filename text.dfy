/** String operations of the JavaScript standard library, as the handlers use them. */
module Text {
  import opened Js

  /** `toLowerCase` on one character: the ASCII capitals map to their small letters. */
  function LowerChar(c: char): char
  {
    if 'A' <= c <= 'Z' then (c as int + 32) as char else c
  }

  /** `s.toLowerCase()`. */
  function Lower(s: string): (r: string)
    ensures |r| == |s|
    ensures forall i :: 0 <= i < |s| ==> r[i] == LowerChar(s[i])
  {
    if s == [] then [] else [LowerChar(s[0])] + Lower(s[1..])
  }

  /** Lower-casing leaves a string without capitals as it is. */
  lemma LowerKeeps(s: string)
    requires forall i :: 0 <= i < |s| ==> !('A' <= s[i] <= 'Z')
    ensures Lower(s) == s
  {
    assert forall i :: 0 <= i < |s| ==> Lower(s)[i] == s[i];
  }

  predicate StartsWith(s: string, prefix: string)
  {
    |prefix| <= |s| && s[..|prefix|] == prefix
  }

  predicate OccursAt(s: string, sub: string, i: int)
  {
    0 <= i <= |s| - |sub| && s[i..i + |sub|] == sub
  }

  /** `s.includes(sub)`. */
  predicate Contains(s: string, sub: string)
    decreases |s|
  {
    StartsWith(s, sub) || (s != [] && Contains(s[1..], sub))
  }

  /** A string in which some character of `sub` never appears does not
      include `sub`. */
  lemma {:induction false} ContainsNeedsChar(s: string, sub: string, j: nat)
    requires j < |sub| && forall i :: 0 <= i < |s| ==> s[i] != sub[j]
    ensures !Contains(s, sub)
    decreases |s|
  {
    if s != [] {
      if |sub| <= |s| {
        assert s[..|sub|][j] == s[j];
      }
      ContainsNeedsChar(s[1..], sub, j);
    }
  }

  /** `includes` holds exactly when `sub` occurs at some position of `s`. */
  lemma {:induction false} ContainsIff(s: string, sub: string)
    ensures Contains(s, sub) <==> exists i :: OccursAt(s, sub, i)
  {
    if s == [] {
      if Contains(s, sub) {
        assert OccursAt(s, sub, 0);
      }
      if exists i :: OccursAt(s, sub, i) {
        var i :| OccursAt(s, sub, i);
        assert i == 0 && StartsWith(s, sub);
      }
    } else {
      ContainsIff(s[1..], sub);
      if Contains(s, sub) {
        if StartsWith(s, sub) {
          assert OccursAt(s, sub, 0);
        } else {
          var i :| OccursAt(s[1..], sub, i);
          assert s[1..][i..i + |sub|] == s[i + 1..i + 1 + |sub|];
          assert OccursAt(s, sub, i + 1);
        }
      }
      if exists i :: OccursAt(s, sub, i) {
        var i :| OccursAt(s, sub, i);
        if i == 0 {
          assert StartsWith(s, sub);
        } else {
          assert s[1..][i - 1..i - 1 + |sub|] == s[i..i + |sub|];
          assert OccursAt(s[1..], sub, i - 1);
        }
      }
    }
  }

  /** Every string includes the empty string. */
  lemma ContainsEmpty(s: string)
    ensures Contains(s, "")
  {
    assert StartsWith(s, "");
  }

  predicate IsDigit(c: char)
  {
    '0' <= c <= '9'
  }

  predicate AllDigits(s: string)
  {
    forall i :: 0 <= i < |s| ==> IsDigit(s[i])
  }

  /** The white space of ECMAScript (`WhiteSpace` and `LineTerminator`), which
      `trim`, `parseInt`, `Number` and the regular-expression class `\s` share. */
  predicate IsSpace(c: char)
  {
    || c == ' ' || c == '\t' || c == '\n' || c == '\r' || c == '\U{000B}' || c == '\U{000C}'
    || c == '\U{00A0}' || c == '\U{1680}' || ('\U{2000}' <= c <= '\U{200A}')
    || c == '\U{2028}' || c == '\U{2029}' || c == '\U{202F}' || c == '\U{205F}'
    || c == '\U{3000}' || c == '\U{FEFF}'
  }

  predicate IsBlank(s: string)
  {
    forall i :: 0 <= i < |s| ==> IsSpace(s[i])
  }

  /** `s.trimStart()`: what is left after the longest blank prefix. */
  function TrimStart(s: string): (r: string)
    ensures |r| <= |s| && r == s[|s| - |r|..]
    ensures IsBlank(s[..|s| - |r|])
    ensures r == [] || !IsSpace(r[0])
    decreases |s|
  {
    if s != [] && IsSpace(s[0]) then
      var r := TrimStart(s[1..]);
      assert s[..|s| - |r|] == [s[0]] + s[1..][..|s| - 1 - |r|];
      r
    else s
  }

  /** `s.trimEnd()`: what is left before the longest blank suffix. */
  function TrimEnd(s: string): (r: string)
    ensures |r| <= |s| && r == s[..|r|]
    ensures IsBlank(s[|r|..])
    ensures r == [] || !IsSpace(r[|r| - 1])
    decreases |s|
  {
    if s != [] && IsSpace(s[|s| - 1]) then
      var r := TrimEnd(s[..|s| - 1]);
      assert s[|r|..] == s[..|s| - 1][|r|..] + [s[|s| - 1]];
      r
    else s
  }

  /** `s.trim()`. */
  function Trim(s: string): string
  {
    TrimEnd(TrimStart(s))
  }

  /** A string is empty after trimming exactly when it is all white space. */
  lemma TrimEmptyIffBlank(s: string)
    ensures Trim(s) == "" <==> IsBlank(s)
  {
    var t := TrimStart(s);
    assert t == [] ==> s[..|s| - |t|] == s;
    assert t != [] ==> t[0] == s[|s| - |t|];
    assert TrimEnd(t) == [] ==> t[|TrimEnd(t)|..] == t;
  }

  /** Trimming leaves alone a string that starts and ends with a visible character. */
  lemma TrimStartKeeps(s: string)
    requires s != [] && !IsSpace(s[0])
    ensures TrimStart(s) == s
  {
  }

  /** Trimming leaves alone a string that starts and ends with a visible character. */
  lemma TrimKeeps(s: string)
    requires s != [] && !IsSpace(s[0]) && !IsSpace(s[|s| - 1])
    ensures Trim(s) == s
  {
    TrimStartKeeps(s);
  }

  function DigitValue(c: char): nat
    requires IsDigit(c)
  {
    c as int - '0' as int
  }

  function DigitChar(d: nat): (c: char)
    requires d < 10
    ensures IsDigit(c) && DigitValue(c) == d
  {
    ('0' as int + d) as char
  }

  /** The number a run of decimal digits denotes. */
  function DigitsValue(d: string): nat
    requires AllDigits(d)
    decreases |d|
  {
    if d == [] then 0 else DigitsValue(d[..|d| - 1]) * 10 + DigitValue(d[|d| - 1])
  }

  /** `String(n)`: the decimal numeral of a natural number. */
  function Decimal(n: nat): (r: string)
    ensures r != [] && AllDigits(r)
    decreases n
  {
    if n < 10 then [DigitChar(n)] else Decimal(n / 10) + [DigitChar(n % 10)]
  }

  /** Reading a numeral back gives the number it was written from. */
  lemma {:induction false} DecimalValue(n: nat)
    ensures DigitsValue(Decimal(n)) == n
    decreases n
  {
    if n >= 10 {
      DecimalValue(n / 10);
      var d := Decimal(n);
      assert d[..|d| - 1] == Decimal(n / 10);
    }
  }

  /** The longest run of digits at the front of `s`. */
  function DigitPrefix(s: string): (r: string)
    ensures AllDigits(r) && StartsWith(s, r)
    ensures |r| == |s| || !IsDigit(s[|r|])
    decreases |s|
  {
    if s != [] && IsDigit(s[0]) then [s[0]] + DigitPrefix(s[1..]) else []
  }

  /** `parseInt(s, 10)`: leading white space, an optional sign, then the longest
      run of digits; `None` stands for `NaN`, when there is no digit at all. */
  function ParseInt(s: string): Option<int>
  {
    ParseSigned(TrimStart(s))
  }

  /** Text that starts with a visible character other than a sign or a
      digit is not a number. */
  lemma ParseIntNoDigit(s: string)
    requires s != [] && !IsSpace(s[0]) && !IsDigit(s[0]) && s[0] != '-' && s[0] != '+'
    ensures ParseInt(s).None?
  {
    TrimStartKeeps(s);
    assert DigitPrefix(s) == [];
  }

  function ParseSigned(t: string): Option<int>
  {
    if t != [] && t[0] == '-' then Negate(ParseDigits(t[1..]))
    else if t != [] && t[0] == '+' then ParseDigits(t[1..])
    else ParseDigits(t)
  }

  function ParseDigits(t: string): Option<int>
  {
    var digits := DigitPrefix(t);
    if digits == [] then None else Some(DigitsValue(digits))
  }

  function Negate(v: Option<int>): Option<int>
  {
    match v
    case None => None
    case Some(x) => Some(-x)
  }

  /** The digit run at the front of a numeral followed by a non-digit is the numeral. */
  lemma {:induction false} DigitPrefixOfNumeral(d: string, rest: string)
    requires AllDigits(d)
    requires rest == [] || !IsDigit(rest[0])
    ensures DigitPrefix(d + rest) == d
    decreases |d|
  {
    if d != [] {
      assert (d + rest)[1..] == d[1..] + rest;
      DigitPrefixOfNumeral(d[1..], rest);
    }
  }

  lemma DigitIsNotSpace(c: char)
    requires IsDigit(c)
    ensures !IsSpace(c) && c != '-' && c != '+'
  {
  }

  /** The digits of a string that starts with one are read with no sign. */
  lemma ParseIntUnsigned(s: string)
    requires s != [] && IsDigit(s[0])
    ensures ParseInt(s) == ParseDigits(s)
  {
    DigitIsNotSpace(s[0]);
    TrimStartKeeps(s);
  }

  /** A minus sign in front negates what follows. */
  lemma ParseIntMinus(s: string, v: int)
    requires ParseDigits(s) == Some(v)
    ensures ParseInt("-" + s) == Some(-v)
  {
    var m := "-" + s;
    TrimStartKeeps(m);
    assert m[1..] == s;
  }

  /** The digits in front of a non-digit are read as their value. */
  lemma ParseDigitsNumeral(d: string, rest: string)
    requires d != [] && AllDigits(d)
    requires rest == [] || !IsDigit(rest[0])
    ensures ParseDigits(d + rest) == Some(DigitsValue(d) as int)
  {
    DigitPrefixOfNumeral(d, rest);
  }

  /** `parseInt` reads the numeral at the front and ignores what follows the digits,
      so `parseInt("12abc")` and `parseInt("1.5")` give 12 and 1. */
  lemma ParseIntReadsNumeral(n: nat, rest: string)
    requires rest == [] || !IsDigit(rest[0])
    ensures ParseInt(Decimal(n) + rest) == Some(n)
  {
    var d := Decimal(n);
    DecimalValue(n);
    ParseDigitsNumeral(d, rest);
    assert (d + rest)[0] == d[0];
    ParseIntUnsigned(d + rest);
  }

  /** The same with a minus sign in front: `parseInt("-3")` is -3. */
  lemma ParseIntReadsNegativeNumeral(n: nat, rest: string)
    requires rest == [] || !IsDigit(rest[0])
    ensures ParseInt("-" + (Decimal(n) + rest)) == Some(-(n as int))
  {
    var d := Decimal(n);
    DecimalValue(n);
    ParseDigitsNumeral(d, rest);
    ParseIntMinus(d + rest, n as int);
  }

  /** `Number(s)` for integer numerals: surrounding white space is ignored, the
      empty string is 0, an optional sign followed by digits is that integer;
      `None` stands for `NaN`. */
  function ToNumber(s: string): Option<int>
  {
    var t := Trim(s);
    if t == [] then Some(0)
    else if (t[0] == '-' || t[0] == '+') && |t| > 1 && AllDigits(t[1..]) then
      var value: int := DigitsValue(t[1..]);
      if t[0] == '-' then Some(-value) else Some(value)
    else if AllDigits(t) then Some(DigitsValue(t))
    else None
  }

  /** `Number` of a run of digits is the value of the digits. */
  lemma ToNumberDigits(d: string)
    requires d != [] && AllDigits(d)
    ensures ToNumber(d) == Some(DigitsValue(d) as int)
  {
    DigitIsNotSpace(d[0]);
    DigitIsNotSpace(d[|d| - 1]);
    TrimKeeps(d);
  }

  /** `Number` reads back a numeral written by `String`. */
  lemma ToNumberNumeral(n: nat)
    ensures ToNumber(Decimal(n)) == Some(n)
  {
    ToNumberDigits(Decimal(n));
    DecimalValue(n);
  }

  /** One position of an anchored regular expression without repetition. */
  datatype CharClass = Exactly(c: char) | OneOf(chars: set<char>) | Digit
  {
    predicate Accepts(x: char)
    {
      match this
      case Exactly(c) => x == c
      case OneOf(chars) => x in chars
      case Digit => IsDigit(x)
    }
  }

  /** `/^c1c2...cn$/.test(s)` for a pattern of single-character classes. */
  predicate MatchesPattern(pattern: seq<CharClass>, s: string)
    decreases |pattern|
  {
    if pattern == [] then s == []
    else s != [] && pattern[0].Accepts(s[0]) && MatchesPattern(pattern[1..], s[1..])
  }

  /** A pattern of classes matches exactly the strings of its length whose every
      character its class at that position accepts. */
  lemma {:induction false} MatchesPatternIff(pattern: seq<CharClass>, s: string)
    ensures MatchesPattern(pattern, s)
        <==> |s| == |pattern| && forall i :: 0 <= i < |s| ==> pattern[i].Accepts(s[i])
    decreases |pattern|
  {
    if pattern != [] && s != [] {
      MatchesPatternIff(pattern[1..], s[1..]);
      if |s| == |pattern| && forall i :: 0 <= i < |s| ==> pattern[i].Accepts(s[i]) {
        assert forall i :: 0 <= i < |s[1..]| ==> pattern[1..][i].Accepts(s[1..][i]) by {
          forall i | 0 <= i < |s[1..]| ensures pattern[1..][i].Accepts(s[1..][i]) {
            assert pattern[1..][i] == pattern[i + 1] && s[1..][i] == s[i + 1];
          }
        }
      }
      if MatchesPattern(pattern, s) {
        forall i | 0 <= i < |s| ensures pattern[i].Accepts(s[i]) {
          if i > 0 {
            assert pattern[1..][i - 1] == pattern[i] && s[1..][i - 1] == s[i];
          }
        }
      }
    }
  }
}

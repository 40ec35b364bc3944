/**
 * The JavaScript string built-ins the screens rely on, written out:
 * `String.prototype.trim`, `Number.prototype.toString()` for non-negative
 * integers, `padStart(2, '0')`, `parseInt` without a radix and
 * `String.prototype.split` with a one-character separator.
 */
module Text {
  import opened Basics

  /** ECMAScript WhiteSpace and LineTerminator code points: what `trim` and `parseInt` skip. */
  predicate IsSpace(c: char)
  {
    || c == '\t' || c == '\n' || c == '\U{000B}' || c == '\U{000C}' || c == '\r'
    || c == ' ' || c == '\U{00A0}' || c == '\U{1680}'
    || ('\U{2000}' <= c <= '\U{200A}')
    || c == '\U{2028}' || c == '\U{2029}' || c == '\U{202F}' || c == '\U{205F}'
    || c == '\U{3000}' || c == '\U{FEFF}'
  }

  /** Every character is white space (the empty string included). */
  predicate IsBlank(s: string)
  {
    forall i | 0 <= i < |s| :: IsSpace(s[i])
  }

  /** The first position at or after `i` holding no white space, or `|s|` when there is none. */
  function SkipForward(s: string, i: nat): (j: nat)
    requires i <= |s|
    ensures i <= j <= |s|
    ensures forall k | i <= k < j :: IsSpace(s[k])
    ensures j == |s| || !IsSpace(s[j])
    decreases |s| - i
  {
    if i == |s| || !IsSpace(s[i]) then i else SkipForward(s, i + 1)
  }

  /** The position just behind the last character before `j` that is no white space, or 0 when there is none. */
  function SkipBackward(s: string, j: nat): (i: nat)
    requires j <= |s|
    ensures i <= j
    ensures forall k | i <= k < j :: IsSpace(s[k])
    ensures i == 0 || !IsSpace(s[i - 1])
  {
    if j == 0 || !IsSpace(s[j - 1]) then j else SkipBackward(s, j - 1)
  }

  /** `trimStart`: the longest suffix that does not begin with white space. */
  function TrimStart(s: string): (r: string)
    ensures |r| <= |s| && r == s[|s| - |r|..]
    ensures IsBlank(s[..|s| - |r|])
    ensures r == [] || !IsSpace(r[0])
  {
    s[SkipForward(s, 0)..]
  }

  /** `trim`: white space removed from both ends. */
  function Trim(s: string): (r: string)
    ensures r == [] || (!IsSpace(r[0]) && !IsSpace(r[|r| - 1]))
  {
    var start := SkipForward(s, 0);
    if start < |s| then s[start..SkipBackward(s, |s|)] else []
  }

  /** What `trim` keeps is a piece of the input with only white space around it. */
  lemma TrimIsInfix(s: string) returns (i: nat)
    ensures i + |Trim(s)| <= |s| && Trim(s) == s[i..i + |Trim(s)|]
    ensures IsBlank(s[..i]) && IsBlank(s[i + |Trim(s)|..])
  {
    i := SkipForward(s, 0);
    if i < |s| {
      var j := SkipBackward(s, |s|);
      assert !IsSpace(s[i]);
      assert i < j;
      assert |Trim(s)| == j - i;
    }
  }

  /** The test `if (x.trim())` of every add handler: trimming gives the empty string exactly on blank input. */
  lemma TrimEmptyIffBlank(s: string)
    ensures Trim(s) == [] <==> IsBlank(s)
  {
    var i := TrimIsInfix(s);
    if Trim(s) == [] {
      forall k | 0 <= k < |s| ensures IsSpace(s[k]) {
        if k < i { assert s[k] == s[..i][k]; } else { assert s[k] == s[i..][k - i]; }
      }
    } else {
      assert s[i] == Trim(s)[0];
    }
  }

  /** Trimming twice is trimming once. */
  lemma TrimIdempotent(s: string)
    ensures Trim(Trim(s)) == Trim(s)
  {
    var r := Trim(s);
    if r != [] {
      assert SkipForward(r, 0) == 0;
      assert SkipBackward(r, |r|) == |r|;
      assert r[0..|r|] == r;
    }
  }

  // ---------------------------------------------------------------------------
  // Digits and numbers

  /** The digit value JavaScript gives a character in `parseInt` (36 for a non-digit). */
  function DigitValue(c: char): (d: nat)
    ensures d <= 36
  {
    if '0' <= c <= '9' then c as int - '0' as int
    else if 'a' <= c <= 'z' then c as int - 'a' as int + 10
    else if 'A' <= c <= 'Z' then c as int - 'A' as int + 10
    else 36
  }

  predicate IsRadixDigit(c: char, radix: nat)
  {
    DigitValue(c) < radix
  }

  /** The number a run of digits denotes, most significant digit first. */
  function Value(ds: string, radix: nat): nat
  {
    if ds == [] then 0
    else Value(ds[..|ds| - 1], radix) * radix + (if IsRadixDigit(ds[|ds| - 1], radix) then DigitValue(ds[|ds| - 1]) else 0)
  }

  function DigitChar(d: nat): (c: char)
    requires d < 10
    ensures IsRadixDigit(c, 10) && DigitValue(c) == d
  {
    (d + '0' as int) as char
  }

  /** `n.toString()`: decimal digits without leading zeros. */
  function NatToString(n: nat): (r: string)
    ensures 1 <= |r|
    ensures forall i | 0 <= i < |r| :: IsRadixDigit(r[i], 10)
    ensures Value(r, 10) == n
    ensures |r| == 1 <==> n < 10
    ensures |r| == 2 <==> 10 <= n < 100
    ensures r[0] != '0' || r == "0"
  {
    if n < 10 then [DigitChar(n)]
    else
      var r := NatToString(n / 10) + [DigitChar(n % 10)];
      assert r[..|r| - 1] == NatToString(n / 10);
      r
  }

  /** `n.toString().padStart(2, '0')`. */
  function Pad2(n: nat): (r: string)
    ensures forall i | 0 <= i < |r| :: IsRadixDigit(r[i], 10)
    ensures n < 100 ==> |r| == 2
    ensures Value(r, 10) == n
  {
    var s := NatToString(n);
    if |s| < 2 then
      var r := ['0'] + s;
      assert r[..1] == "0";
      r
    else s
  }

  /** The longest prefix made of digits of the given radix. */
  function DigitPrefix(s: string, radix: nat): (r: string)
    ensures |r| <= |s| && r == s[..|r|]
    ensures forall i | 0 <= i < |r| :: IsRadixDigit(r[i], radix)
    ensures |r| == |s| || !IsRadixDigit(s[|r|], radix)
  {
    if s == [] || !IsRadixDigit(s[0], radix) then []
    else [s[0]] + DigitPrefix(s[1..], radix)
  }

  /** The number at the start of `u`, read after the sign: base 16 behind `0x`/`0X`, else base 10. */
  function ParseMagnitude(u: string): Option<int>
  {
    if |u| >= 2 && u[0] == '0' && (u[1] == 'x' || u[1] == 'X') then
      var ds := DigitPrefix(u[2..], 16);
      if ds == [] then None else Some(Value(ds, 16))
    else
      var ds := DigitPrefix(u, 10);
      if ds == [] then None else Some(Value(ds, 10))
  }

  /**
   * `parseInt(s)` with no radix: leading white space skipped, an optional sign,
   * a `0x`/`0X` prefix switching to base 16, then the longest run of digits.
   * `None` stands for `NaN` (no digit at all).
   */
  function ParseInt(s: string): Option<int>
  {
    var t := TrimStart(s);
    if t != [] && t[0] == '-' then
      match ParseMagnitude(t[1..])
      case Some(v) => Some(-v)
      case None => None
    else if t != [] && t[0] == '+' then ParseMagnitude(t[1..])
    else ParseMagnitude(t)
  }

  /** A run of decimal digits followed by no digit of any radix reads as the run's value. */
  lemma ParseMagnitudeOfRun(ds: string, rest: string)
    requires 1 <= |ds| && forall i | 0 <= i < |ds| :: IsRadixDigit(ds[i], 10)
    requires rest == [] || DigitValue(rest[0]) == 36
    ensures ParseMagnitude(ds + rest) == Some(Value(ds, 10))
  {
    var u := ds + rest;
    assert u[0] == ds[0];
    assert !(|u| >= 2 && (u[1] == 'x' || u[1] == 'X')) by {
      if |u| >= 2 {
        if |ds| >= 2 {
          assert u[1] == ds[1] && IsRadixDigit(ds[1], 10);
        } else {
          assert u[1] == rest[0];
        }
      }
    }
    DigitPrefixStops(ds, rest, 10);
  }

  /** Behind no white space and no sign `parseInt` reads the magnitude. */
  lemma ParseIntUnsigned(u: string)
    requires u != [] && !IsSpace(u[0]) && u[0] != '-' && u[0] != '+'
    ensures ParseInt(u) == ParseMagnitude(u)
  {
    assert TrimStart(u) == u;
  }

  /** Behind a `+` (and no white space) `parseInt` reads the magnitude that follows it. */
  lemma ParseIntPlus(u: string)
    ensures ParseInt("+" + u) == ParseMagnitude(u)
  {
    var p := "+" + u;
    assert p[0] == '+' && !IsSpace(p[0]);
    assert TrimStart(p) == p;
    assert p[1..] == u;
  }

  /**
   * A run of decimal digits, followed by nothing or by a character that is no digit,
   * reads as its value, with or without a leading `+`.
   */
  lemma ParseIntOfRun(ds: string, rest: string)
    requires 1 <= |ds| && forall i | 0 <= i < |ds| :: IsRadixDigit(ds[i], 10)
    requires rest == [] || DigitValue(rest[0]) == 36
    ensures ParseInt(ds + rest) == Some(Value(ds, 10))
    ensures ParseInt("+" + ds + rest) == Some(Value(ds, 10))
  {
    var u := ds + rest;
    RunStartsUnsigned(ds, rest);
    ParseIntUnsigned(u);
    ParseIntPlus(u);
    ParseMagnitudeOfRun(ds, rest);
    PrefixAssociates("+", ds, rest);
  }

  lemma PrefixAssociates(a: string, b: string, c: string)
    ensures a + b + c == a + (b + c)
  {
  }

  /** A run of digits begins with neither white space nor a sign. */
  lemma RunStartsUnsigned(ds: string, rest: string)
    requires 1 <= |ds| && IsRadixDigit(ds[0], 10)
    ensures var u := ds + rest; u != [] && !IsSpace(u[0]) && u[0] != '-' && u[0] != '+'
  {
    assert (ds + rest)[0] == ds[0];
  }

  /** `parseInt` inverts `toString` and `padStart(2, '0')` on non-negative integers. */
  lemma ParseIntOfPad2(n: nat)
    ensures ParseInt(NatToString(n)) == Some(n)
    ensures ParseInt(Pad2(n)) == Some(n)
  {
    assert NatToString(n) + [] == NatToString(n);
    assert Pad2(n) + [] == Pad2(n);
    ParseIntOfRun(NatToString(n), []);
    ParseIntOfRun(Pad2(n), []);
  }

  /**
   * `parseInt` reads the leading count of a label such as `"3 more"` or `"+3 more"`:
   * the number, optionally signed `+`, followed by a character that is no digit.
   */
  lemma ParseIntLeadingCount(n: nat, rest: string)
    requires rest == [] || DigitValue(rest[0]) == 36
    ensures ParseInt(NatToString(n) + rest) == Some(n)
    ensures ParseInt("+" + NatToString(n) + rest) == Some(n)
  {
    ParseIntOfRun(NatToString(n), rest);
  }

  // ---------------------------------------------------------------------------
  // Splitting

  /** `s.split(sep)` for a one-character separator: always at least one piece. */
  function Split(s: string, sep: char): (parts: seq<string>)
    ensures 1 <= |parts|
  {
    if s == [] then [[]]
    else if s[0] == sep then [[]] + Split(s[1..], sep)
    else
      var rest := Split(s[1..], sep);
      [[s[0]] + rest[0]] + rest[1..]
  }

  /** `parts.join(sep)`. */
  function Join(parts: seq<string>, sep: char): string
  {
    if parts == [] then []
    else if |parts| == 1 then parts[0]
    else parts[0] + [sep] + Join(parts[1..], sep)
  }

  /** Joining the pieces with the separator gives back the string that was split. */
  lemma {:induction false} JoinSplit(s: string, sep: char)
    ensures Join(Split(s, sep), sep) == s
  {
    if s == [] {
    } else if s[0] == sep {
      JoinSplit(s[1..], sep);
      assert s == [sep] + s[1..];
    } else {
      var rest := Split(s[1..], sep);
      JoinSplit(s[1..], sep);
      var a := [s[0]] + rest[0];
      assert Split(s, sep) == [a] + rest[1..];
      if |rest| == 1 {
        assert s == [s[0]] + rest[0];
      } else {
        JoinCons(a, rest[1..], sep);
        JoinCons(rest[0], rest[1..], sep);
        assert rest == [rest[0]] + rest[1..];
        assert s == [s[0]] + (rest[0] + [sep] + Join(rest[1..], sep));
      }
    }
  }

  /** A word joined in front of at least one more word is followed by the separator. */
  lemma JoinCons(a: string, rest: seq<string>, sep: char)
    requires 1 <= |rest|
    ensures Join([a] + rest, sep) == a + [sep] + Join(rest, sep)
  {
    assert ([a] + rest)[1..] == rest;
  }

  /** A string without the separator splits into itself alone. */
  lemma {:induction false} SplitWithoutSeparator(s: string, sep: char)
    requires sep !in s
    ensures Split(s, sep) == [s]
  {
    if s != [] {
      assert s[0] != sep;
      assert sep !in s[1..];
      SplitWithoutSeparator(s[1..], sep);
      assert s == [s[0]] + s[1..];
    }
  }

  /** A separator-free first piece followed by the separator splits off as the first part. */
  lemma {:induction false} SplitCons(a: string, b: string, sep: char)
    requires sep !in a
    ensures Split(a + [sep] + b, sep) == [a] + Split(b, sep)
  {
    var s := a + [sep] + b;
    if a == [] {
      assert s == [sep] + b;
      assert s[1..] == b;
    } else {
      assert s[0] == a[0] && a[0] != sep;
      assert s[1..] == a[1..] + [sep] + b;
      assert sep !in a[1..];
      SplitCons(a[1..], b, sep);
      assert [a[0]] + a[1..] == a;
    }
  }

  /** Two separator-free pieces joined by one separator split back into exactly those two. */
  lemma SplitTwo(a: string, b: string, sep: char)
    requires sep !in a && sep !in b
    ensures Split(a + [sep] + b, sep) == [a, b]
  {
    SplitCons(a, b, sep);
    SplitWithoutSeparator(b, sep);
  }

  /** Words free of the separator, joined by it, split back into exactly those words. */
  lemma {:induction false} SplitJoin(words: seq<string>, sep: char)
    requires 1 <= |words|
    requires forall i | 0 <= i < |words| :: sep !in words[i]
    ensures Split(Join(words, sep), sep) == words
  {
    if |words| == 1 {
      SplitWithoutSeparator(words[0], sep);
    } else {
      SplitJoin(words[1..], sep);
      SplitCons(words[0], Join(words[1..], sep), sep);
      assert words == [words[0]] + words[1..];
    }
  }

  /** Decimal digits are never white space, separators or letters. */
  lemma DigitsAreNotSpace(ds: string)
    requires forall i | 0 <= i < |ds| :: IsRadixDigit(ds[i], 10)
    ensures ' ' !in ds && ':' !in ds && '/' !in ds && '%' !in ds
  {
    assert forall i | 0 <= i < |ds| :: ds[i] != ' ' && ds[i] != ':' && ds[i] != '/' && ds[i] != '%' by {
      forall i | 0 <= i < |ds| ensures ds[i] != ' ' && ds[i] != ':' && ds[i] != '/' && ds[i] != '%' {
        assert IsRadixDigit(ds[i], 10);
      }
    }
  }

  /** The digit run stops at the first character that is no digit in any radix. */
  lemma {:induction false} DigitPrefixStops(ds: string, rest: string, radix: nat)
    requires forall i | 0 <= i < |ds| :: IsRadixDigit(ds[i], radix)
    requires radix <= 36
    requires rest == [] || DigitValue(rest[0]) == 36
    ensures DigitPrefix(ds + rest, radix) == ds
  {
    if ds == [] {
      assert ds + rest == rest;
    } else {
      assert (ds + rest)[0] == ds[0];
      assert (ds + rest)[1..] == ds[1..] + rest;
      DigitPrefixStops(ds[1..], rest, radix);
    }
  }

}

/**
 * String helpers shared by the model: JavaScript's whitespace class and `trim`,
 * ASCII case mapping, substring tests, decimal rendering and reading of integers,
 * and `split` / `join` on a separator.
 */
module Text {
  import opened Wrappers

  /** JavaScript's `\s` class, which is also what `String.prototype.trim` strips. */
  predicate IsSpace(c: char) {
    c == ' ' || c == '\t' || c == '\n' || c == '\r' || c == '\U{0B}' || c == '\U{0C}' ||
    c == '\U{A0}' || c == '\U{1680}' || ('\U{2000}' <= c <= '\U{200A}') ||
    c == '\U{2028}' || c == '\U{2029}' || c == '\U{202F}' || c == '\U{205F}' ||
    c == '\U{3000}' || c == '\U{FEFF}'
  }

  /** `s.trimStart()`. */
  function TrimStart(s: string): string {
    if s != [] && IsSpace(s[0]) then TrimStart(s[1..]) else s
  }

  lemma {:induction false} TrimStartFacts(s: string)
    ensures var r := TrimStart(s);
      && |r| <= |s| && r == s[|s| - |r|..]
      && (r == [] || !IsSpace(r[0]))
      && (forall i :: 0 <= i < |s| - |r| ==> IsSpace(s[i]))
  {
    if s != [] && IsSpace(s[0]) {
      var t := s[1..];
      TrimStartFacts(t);
      var r := TrimStart(t);
      assert TrimStart(s) == r;
      assert s[|s| - |r|..] == t[|t| - |r|..];
      forall i | 0 <= i < |s| - |r| ensures IsSpace(s[i]) {
        if i > 0 {
          assert s[i] == t[i - 1];
        }
      }
    }
  }

  /** `s.trimEnd()`. */
  function TrimEnd(s: string): string {
    if s != [] && IsSpace(s[|s| - 1]) then TrimEnd(s[..|s| - 1]) else s
  }

  lemma {:induction false} TrimEndFacts(s: string)
    ensures var r := TrimEnd(s);
      && |r| <= |s| && r == s[..|r|]
      && (r == [] || !IsSpace(r[|r| - 1]))
      && (forall i :: |r| <= i < |s| ==> IsSpace(s[i]))
  {
    if s != [] && IsSpace(s[|s| - 1]) {
      var t := s[..|s| - 1];
      TrimEndFacts(t);
      var r := TrimEnd(t);
      assert TrimEnd(s) == r;
      assert s[..|r|] == t[..|r|];
      forall i | |r| <= i < |s| ensures IsSpace(s[i]) {
        if i < |t| {
          assert s[i] == t[i];
        }
      }
    }
  }

  /** `s.trim()`: white space removed from both ends. */
  function Trim(s: string): (r: string)
    ensures r == [] || (!IsSpace(r[0]) && !IsSpace(r[|r| - 1]))
  {
    TrimStartFacts(s);
    TrimEndFacts(TrimStart(s));
    TrimEnd(TrimStart(s))
  }

  /**
   * The trim of a string is an infix of it with only white space before and after it,
   * and it is empty only when the whole string is white space.
   */
  lemma TrimInfix(s: string)
    ensures exists i ::
      && InfixAt(s, Trim(s), i)
      && (forall j :: 0 <= j < i ==> IsSpace(s[j]))
      && (forall j :: i + |Trim(s)| <= j < |s| ==> IsSpace(s[j]))
    ensures forall i :: 0 <= i < |s| && !IsSpace(s[i]) ==> |Trim(s)| > 0
  {
    var t := TrimStart(s);
    TrimStartFacts(s);
    TrimEndFacts(t);
    var i, r := |s| - |t|, Trim(s);
    assert InfixAt(s, r, i);
    forall j | i + |r| <= j < |s|
      ensures IsSpace(s[j])
    {
      assert s[j] == t[j - i];
    }
  }

  /** A string with no white space at either end is its own trim. */
  lemma TrimUnpadded(s: string)
    requires s == [] || (!IsSpace(s[0]) && !IsSpace(s[|s| - 1]))
    ensures Trim(s) == s
  {
  }

  lemma TrimIdempotent(s: string)
    ensures Trim(Trim(s)) == Trim(s)
  {
    TrimUnpadded(Trim(s));
  }

  function LowerChar(c: char): char {
    if 'A' <= c <= 'Z' then (c as int + 32) as char else c
  }

  function UpperChar(c: char): char {
    if 'a' <= c <= 'z' then (c as int - 32) as char else c
  }

  /** `s.toLowerCase()` on the ASCII letters. */
  function ToLower(s: string): (r: string)
    ensures |r| == |s|
    ensures forall i :: 0 <= i < |s| ==> r[i] == LowerChar(s[i])
  {
    seq(|s|, i requires 0 <= i < |s| => LowerChar(s[i]))
  }

  /** `s.toUpperCase()` on the ASCII letters. */
  function ToUpper(s: string): (r: string)
    ensures |r| == |s|
    ensures forall i :: 0 <= i < |s| ==> r[i] == UpperChar(s[i])
  {
    seq(|s|, i requires 0 <= i < |s| => UpperChar(s[i]))
  }

  predicate HasUpper(s: string) {
    exists i :: 0 <= i < |s| && 'A' <= s[i] <= 'Z'
  }

  predicate HasLower(s: string) {
    exists i :: 0 <= i < |s| && 'a' <= s[i] <= 'z'
  }

  /**
   * Lower-casing leaves no upper-case letter, changes nothing in a string without
   * one, and ignores the case the input was in.
   */
  lemma LowerFacts(s: string)
    ensures !HasUpper(ToLower(s))
    ensures !HasUpper(s) ==> ToLower(s) == s
    ensures ToLower(ToLower(s)) == ToLower(s)
    ensures ToLower(ToUpper(s)) == ToLower(s)
  {
    var l, u := ToLower(s), ToUpper(s);
    forall i | 0 <= i < |s|
      ensures !('A' <= l[i] <= 'Z') && LowerChar(u[i]) == l[i]
    {
      assert u[i] == UpperChar(s[i]) && l[i] == LowerChar(s[i]);
    }
    assert ToLower(u) == l;
    LowerNoUpper(l);
  }

  lemma LowerNoUpper(s: string)
    requires !HasUpper(s)
    ensures ToLower(s) == s
  {
    forall i | 0 <= i < |s|
      ensures ToLower(s)[i] == s[i]
    {
      assert !('A' <= s[i] <= 'Z');
    }
  }

  /**
   * Upper-casing leaves no lower-case letter, changes nothing in a string without
   * one, and ignores the case the input was in.
   */
  lemma UpperFacts(s: string)
    ensures !HasLower(ToUpper(s))
    ensures !HasLower(s) ==> ToUpper(s) == s
    ensures ToUpper(ToUpper(s)) == ToUpper(s)
    ensures ToUpper(ToLower(s)) == ToUpper(s)
  {
    var l, u := ToLower(s), ToUpper(s);
    forall i | 0 <= i < |s|
      ensures !('a' <= u[i] <= 'z') && UpperChar(l[i]) == u[i]
    {
      assert u[i] == UpperChar(s[i]) && l[i] == LowerChar(s[i]);
    }
    assert ToUpper(l) == u;
    UpperNoLower(u);
  }

  lemma UpperNoLower(s: string)
    requires !HasLower(s)
    ensures ToUpper(s) == s
  {
    forall i | 0 <= i < |s|
      ensures ToUpper(s)[i] == s[i]
    {
      assert !('a' <= s[i] <= 'z');
    }
  }

  /** `t` occurs in `s` at offset `i`. */
  predicate InfixAt(s: string, t: string, i: int) {
    0 <= i <= |s| - |t| && s[i..i + |t|] == t
  }

  /** `s.includes(t)`. */
  predicate Contains(s: string, t: string) {
    exists i | 0 <= i <= |s| - |t| :: InfixAt(s, t, i)
  }

  /** `s.startsWith(p)`. */
  predicate StartsWith(s: string, p: string) {
    |p| <= |s| && s[..|p|] == p
  }

  predicate IsDigit(c: char) {
    '0' <= c <= '9'
  }

  predicate AllDigits(s: string) {
    forall i :: 0 <= i < |s| ==> IsDigit(s[i])
  }

  /** The value of a string of decimal digits. */
  function DigitsValue(s: string): nat
    requires AllDigits(s)
  {
    if s == [] then 0 else DigitsValue(s[..|s| - 1]) * 10 + (s[|s| - 1] as int - '0' as int)
  }

  function DigitChar(d: nat): (c: char)
    requires d < 10
    ensures IsDigit(c) && c as int - '0' as int == d
  {
    ('0' as int + d) as char
  }

  /** `String(n)` for a non-negative integer. */
  function NatToString(n: nat): (r: string)
    ensures |r| > 0 && AllDigits(r)
  {
    if n < 10 then [DigitChar(n)] else NatToString(n / 10) + [DigitChar(n % 10)]
  }

  /** `String(i)` for an integer. */
  function IntToString(i: int): string {
    if i < 0 then "-" + NatToString(-i) else NatToString(i)
  }

  /** Reading back a rendered number gives the number. */
  lemma {:induction false} NatToStringRoundTrip(n: nat)
    ensures DigitsValue(NatToString(n)) == n
  {
    if n >= 10 {
      NatToStringRoundTrip(n / 10);
      var s := NatToString(n);
      assert s[..|s| - 1] == NatToString(n / 10);
    }
  }

  /** Number of leading decimal digits of `s`. */
  function DigitRun(s: string): (n: nat)
    ensures n <= |s| && AllDigits(s[..n])
    ensures n < |s| ==> !IsDigit(s[n])
  {
    if s != [] && IsDigit(s[0]) then
      var m := DigitRun(s[1..]);
      assert s[..m + 1] == [s[0]] + s[1..][..m];
      m + 1
    else 0
  }

  /** Splits an optional leading sign off: (negative?, rest). */
  function SignOff(t: string): (bool, string) {
    if |t| > 0 && (t[0] == '-' || t[0] == '+') then (t[0] == '-', t[1..]) else (false, t)
  }

  /** The text starts with a dot and a digit, as in `.5`. */
  predicate DotDigit(t: string) {
    |t| >= 2 && t[0] == '.' && IsDigit(t[1])
  }

  /**
   * `parseFloat(s)` restricted to its integer part: leading white space, an optional
   * sign and a run of digits, or a fraction such as `.5` whose integer part is 0;
   * `None` stands for NaN (no digit where one is needed).
   */
  function ParseFloatInt(s: string): (r: Option<int>)
    ensures r.None? <==> DigitRun(SignOff(TrimStart(s)).1) == 0 && !DotDigit(SignOff(TrimStart(s)).1)
  {
    var (neg, body) := SignOff(TrimStart(s));
    var n := DigitRun(body);
    if n == 0 then
      if DotDigit(body) then Some(0) else None
    else
      var v: int := DigitsValue(body[..n]);
      Some(if neg then -v else v)
  }

  /** A string of digits is one digit run. */
  lemma {:induction false} DigitRunAll(a: string, b: string)
    requires AllDigits(a) && (b == [] || !IsDigit(b[0]))
    ensures DigitRun(a + b) == |a| && (a + b)[..|a|] == a
  {
    if a != [] {
      assert (a + b)[1..] == a[1..] + b;
      DigitRunAll(a[1..], b);
    }
  }

  /** How a rendered integer splits into its sign and its digits. */
  lemma IntToStringParts(n: int, t: string)
    ensures var s := IntToString(n) + t;
      |s| > 0 && !IsSpace(s[0]) &&
      SignOff(s) == (n < 0, NatToString(if n < 0 then -n else n) + t)
  {
    var d := NatToString(if n < 0 then -n else n);
    assert IsDigit(d[0]);
    if n < 0 {
      assert IntToString(n) + t == "-" + (d + t);
    }
  }

  /**
   * `parseFloat` reads a rendered integer back, whatever non-digit text follows it
   * (a fraction, a unit, a space).
   */
  lemma ParseFloatReads(n: int, t: string)
    requires t == [] || !IsDigit(t[0])
    ensures ParseFloatInt(IntToString(n) + t) == Some(n)
  {
    var m: nat := if n < 0 then -n else n;
    var d := NatToString(m);
    IntToStringParts(n, t);
    var s := IntToString(n) + t;
    assert TrimStart(s) == s;
    DigitRunAll(d, t);
    NatToStringRoundTrip(m);
  }

  /** Leading white space does not change what `parseFloat` reads. */
  lemma {:induction false} ParseFloatSkipsSpace(p: string, s: string)
    requires forall i :: 0 <= i < |p| ==> IsSpace(p[i])
    ensures ParseFloatInt(p + s) == ParseFloatInt(s)
  {
    TrimStartSkips(p, s);
  }

  lemma {:induction false} TrimStartSkips(p: string, s: string)
    requires forall i :: 0 <= i < |p| ==> IsSpace(p[i])
    ensures TrimStart(p + s) == TrimStart(s)
  {
    if p != [] {
      assert (p + s)[0] == p[0] && IsSpace(p[0]);
      assert (p + s)[1..] == p[1..] + s;
      assert forall i :: 0 <= i < |p[1..]| ==> p[1..][i] == p[i + 1];
      TrimStartSkips(p[1..], s);
      assert TrimStart(p + s) == TrimStart(p[1..] + s);
    } else {
      assert p + s == s;
    }
  }

  /**
   * `Number(s)` restricted to decimal literals, truncated to the integer part: the
   * trimmed text must be empty (0) or a whole signed decimal with optional fraction;
   * anything else is NaN (`None`).
   */
  function StringToNumber(s: string): (r: Option<int>)
    ensures Trim(s) == "" ==> r == Some(0)
  {
    var t := Trim(s);
    if t == "" then Some(0)
    else
      var (neg, body) := SignOff(t);
      var n := DigitRun(body);
      var rest := body[n..];
      var whole := rest == "" && n > 0;
      var fraction := |rest| >= 1 && rest[0] == '.' && AllDigits(rest[1..]) && (n > 0 || |rest| > 1);
      if whole || fraction then
        var v: int := DigitsValue(body[..n]);
        Some(if neg then -v else v)
      else None
  }

  /**
   * `Number` reads a rendered integer back, and a decimal with a fraction as its
   * integer part; blank text reads as 0.
   */
  lemma StringToNumberReads(n: int, f: string)
    ensures StringToNumber(IntToString(n)) == Some(n)
    ensures AllDigits(f) ==> StringToNumber(IntToString(n) + "." + f) == Some(n)
    ensures StringToNumber("") == Some(0)
  {
    NumberReads(n, "");
    assert IntToString(n) + "" == IntToString(n);
    if AllDigits(f) {
      NumberReads(n, "." + f);
      assert IntToString(n) + "." + f == IntToString(n) + ("." + f);
    }
  }

  lemma NumberReads(n: int, t: string)
    requires t == [] || (t[0] == '.' && AllDigits(t[1..]))
    ensures StringToNumber(IntToString(n) + t) == Some(n)
  {
    var m: nat := if n < 0 then -n else n;
    var s := IntToString(n) + t;
    IntToStringParts(n, t);
    assert s[|s| - 1] == '.' || IsDigit(s[|s| - 1]);
    TrimUnpadded(s);
    NatToStringRoundTrip(m);
    NumberOfParts(s, n < 0, NatToString(m), t);
  }

  /** `Number` of an unpadded sign, digits and an optional fraction. */
  lemma NumberOfParts(s: string, neg: bool, d: string, t: string)
    requires s != "" && Trim(s) == s && SignOff(s) == (neg, d + t)
    requires |d| > 0 && AllDigits(d)
    requires t == [] || (t[0] == '.' && AllDigits(t[1..]))
    ensures StringToNumber(s) == Some(if neg then -(DigitsValue(d) as int) else DigitsValue(d) as int)
  {
    DigitRunAll(d, t);
    assert (d + t)[|d|..] == t;
  }

  /** `[c + ps[0]] + ps[1..]`: puts a character in front of the first piece. */
  function Prepend(c: char, ps: seq<string>): (r: seq<string>)
    requires |ps| >= 1
    ensures |r| == |ps| && r[0] == [c] + ps[0] && r[1..] == ps[1..]
  {
    [[c] + ps[0]] + ps[1..]
  }

  /** `s.split(sep)` for a one-character separator. */
  function Split(s: string, sep: char): (r: seq<string>)
    ensures |r| >= 1
    ensures forall k :: 0 <= k < |r| ==> sep !in r[k]
  {
    if s == [] then [""]
    else if s[0] == sep then [""] + Split(s[1..], sep)
    else Prepend(s[0], Split(s[1..], sep))
  }

  /** `parts.join(sep)`. */
  function Join(parts: seq<string>, sep: string): string {
    if parts == [] then ""
    else if |parts| == 1 then parts[0]
    else parts[0] + sep + Join(parts[1..], sep)
  }

  lemma {:induction false} JoinPrepend(c: char, ps: seq<string>, sep: string)
    requires |ps| >= 1
    ensures Join(Prepend(c, ps), sep) == [c] + Join(ps, sep)
  {
    var r := Prepend(c, ps);
    if |ps| > 1 {
      assert r[1..] == ps[1..];
    }
  }

  /** Splitting and joining on the same separator gives back the text. */
  lemma {:induction false} SplitJoin(s: string, sep: char)
    ensures Join(Split(s, sep), [sep]) == s
  {
    if s != [] {
      SplitJoin(s[1..], sep);
      if s[0] == sep {
        assert Split(s, sep)[1..] == Split(s[1..], sep);
      } else {
        JoinPrepend(s[0], Split(s[1..], sep), [sep]);
      }
    }
  }

  /** A separator-free text is a single piece. */
  lemma {:induction false} SplitNone(s: string, sep: char)
    requires sep !in s
    ensures Split(s, sep) == [s]
  {
    if s != [] {
      assert sep !in s[1..] by {
        assert forall c :: c in s[1..] ==> c in s;
      }
      SplitNone(s[1..], sep);
      assert [s[0]] + s[1..] == s;
    }
  }

  /** A separator-free text followed by the separator is the first piece. */
  lemma {:induction false} SplitAfter(a: string, sep: char, b: string)
    requires sep !in a
    ensures Split(a + [sep] + b, sep) == [a] + Split(b, sep)
  {
    var s := a + [sep] + b;
    if a == [] {
      assert s == [sep] + b;
      assert s[1..] == b;
    } else {
      assert s[0] == a[0] && s[1..] == a[1..] + [sep] + b;
      assert sep !in a[1..] by {
        assert forall c :: c in a[1..] ==> c in a;
      }
      SplitAfter(a[1..], sep, b);
      assert [a[0]] + a[1..] == a;
    }
  }

  /** Leading zeros do not change the value of a digit string. */
  lemma {:induction false} LeadingZero(s: string)
    requires AllDigits(s)
    ensures AllDigits("0" + s) && DigitsValue("0" + s) == DigitsValue(s)
  {
    var t := "0" + s;
    if s != [] {
      assert t[..|t| - 1] == "0" + s[..|s| - 1];
      LeadingZero(s[..|s| - 1]);
    }
  }

  /** `String(n).padStart(2, '0')`. */
  function Pad2(n: nat): (r: string)
    ensures |r| >= 2 && AllDigits(r) && DigitsValue(r) == n
    ensures n < 100 ==> |r| == 2
  {
    NatToStringRoundTrip(n);
    if n < 10 then
      LeadingZero(NatToString(n));
      "0" + NatToString(n)
    else
      assert |NatToString(n)| >= 2 by {
        assert NatToString(n) == NatToString(n / 10) + [DigitChar(n % 10)];
      }
      assert n < 100 ==> |NatToString(n)| == 2 by {
        if n < 100 {
          assert NatToString(n) == NatToString(n / 10) + [DigitChar(n % 10)];
        }
      }
      NatToString(n)
  }
}

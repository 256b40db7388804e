/** Text helpers shared by the settings codec, the result tables and the
    path and command builders: Python's `str(n)` and `int(s)` on natural
    numbers, the rendering of booleans by the csv writer, `os.path.join`
    with `/` as separator, and the whitespace tokenizer that Java's
    `Runtime.exec(String)` applies to a command line. */
module Text {

  datatype Option<T> = None | Some(value: T)

  predicate IsDigit(c: char) { '0' <= c <= '9' }

  function DigitChar(d: nat): (c: char)
    requires d < 10
    ensures IsDigit(c) && (c as int) - ('0' as int) == d
  {
    (('0' as int) + d) as char
  }

  function DigitValue(c: char): nat
    requires IsDigit(c)
  {
    (c as int) - ('0' as int)
  }

  /** Python's `str(n)` for a natural number: decimal, no leading zeros. */
  function NatToString(n: nat): (s: string)
    ensures |s| > 0
    ensures forall i :: 0 <= i < |s| ==> IsDigit(s[i])
    ensures n < 10 <==> |s| == 1
    ensures n >= 10 ==> s[0] != '0'
    decreases n
  {
    if n < 10 then [DigitChar(n)] else NatToString(n / 10) + [DigitChar(n % 10)]
  }

  predicate AllDigits(s: string) { forall i :: 0 <= i < |s| ==> IsDigit(s[i]) }

  /** Value of a non-empty run of decimal digits, read left to right. */
  function DigitsValue(s: string): nat
    requires AllDigits(s)
  {
    if |s| == 0 then 0 else DigitsValue(s[..|s| - 1]) * 10 + DigitValue(s[|s| - 1])
  }

  /** Python's `int(s)` restricted to plain digit strings (leading zeros accepted). */
  function ParseNat(s: string): (r: Option<nat>)
    ensures r.Some? <==> |s| > 0 && AllDigits(s)
  {
    if |s| > 0 && AllDigits(s) then Some(DigitsValue(s)) else None
  }

  lemma {:induction false} DigitsValueOfNatToString(n: nat)
    ensures AllDigits(NatToString(n)) && DigitsValue(NatToString(n)) == n
    decreases n
  {
    if n >= 10 {
      var p := NatToString(n / 10);
      var s := NatToString(n);
      DigitsValueOfNatToString(n / 10);
      assert s == p + [DigitChar(n % 10)];
      assert s[..|s| - 1] == p;
    }
  }

  /** `int(str(n)) == n`: rendering a number and reading it back is lossless. */
  lemma ParseNatOfNatToString(n: nat)
    ensures ParseNat(NatToString(n)) == Some(n)
  {
    DigitsValueOfNatToString(n);
  }

  /** The rendering of `n` is the text "0" exactly when `n` is zero, so the
      source's tests `field != "0"` on a written number mean `n != 0`. */
  lemma NatToStringIsZero(n: nat)
    ensures NatToString(n) == "0" <==> n == 0
  {
    if n != 0 && n < 10 {
      assert NatToString(n)[0] == DigitChar(n);
    }
  }

  /** The characters Python's `str.strip()` removes by default. */
  predicate IsPyWhitespace(c: char)
  {
    c == ' ' || c == '\t' || c == '\n' || c == '\r' || c == '\U{000B}' || c == '\U{000C}'
  }

  function TrimLeft(s: string): (t: string)
    ensures |t| <= |s|
    ensures |t| > 0 ==> !IsPyWhitespace(t[0])
    decreases |s|
  {
    if |s| > 0 && IsPyWhitespace(s[0]) then TrimLeft(s[1..]) else s
  }

  function TrimRight(s: string): (t: string)
    ensures |t| <= |s|
    ensures |t| > 0 ==> !IsPyWhitespace(t[|t| - 1])
    decreases |s|
  {
    if |s| > 0 && IsPyWhitespace(s[|s| - 1]) then TrimRight(s[..|s| - 1]) else s
  }

  /** The text Python's `int(s)` reads: `s` without surrounding whitespace. */
  function Strip(s: string): string { TrimRight(TrimLeft(s)) }

  /** `int(s)` succeeds on `s`: after stripping, an optional sign and at
      least one decimal digit. */
  predicate IsPyInt(s: string)
    ensures IsPyInt(s) ==> |Strip(s)| > 0 && (IsDigit(Strip(s)[0]) || Strip(s)[0] == '+' || Strip(s)[0] == '-')
  {
    var t := Strip(s);
    var d := if |t| > 0 && (t[0] == '+' || t[0] == '-') then t[1..] else t;
    |d| > 0 && AllDigits(d)
  }

  /** Every digit string `ParseNat` reads, `int` reads as well. */
  lemma PyIntOfDigits(s: string)
    requires ParseNat(s).Some?
    ensures IsPyInt(s)
  {
    assert !IsPyWhitespace(s[0]) && TrimLeft(s) == s;
    assert !IsPyWhitespace(s[|s| - 1]) && TrimRight(s) == s;
  }

  /** `int` accepts the rendering of any natural number and reads it back. */
  lemma PyIntOfNatToString(n: nat)
    ensures IsPyInt(NatToString(n)) && PyIntValue(NatToString(n)) == n
  {
    ParseNatOfNatToString(n);
    PyIntValueOfDigits(NatToString(n));
  }

  /** The value `int(s)` returns: the digits after the optional sign. */
  function PyIntValue(s: string): (v: int)
    requires IsPyInt(s)
    ensures v < 0 ==> Strip(s)[0] == '-'
    ensures Strip(s)[0] == '-' ==> v <= 0
  {
    var t := Strip(s);
    if t[0] == '-' then -(DigitsValue(t[1..]) as int)
    else if t[0] == '+' then DigitsValue(t[1..]) as int
    else DigitsValue(t) as int
  }

  /** On a plain digit string `int` returns the number the digits spell. */
  lemma PyIntValueOfDigits(s: string)
    requires ParseNat(s).Some?
    ensures IsPyInt(s) && PyIntValue(s) == ParseNat(s).value
  {
    PyIntOfDigits(s);
    assert Strip(s) == s;
  }

  /** The csv writer renders a Python bool with `str`. */
  function BoolToString(b: bool): (s: string)
    ensures s == "True" <==> b
    ensures s == "False" <==> !b
  {
    if b then "True" else "False"
  }

  predicate EndsWithSlash(s: string) { |s| > 0 && s[|s| - 1] == '/' }

  predicate EndsWith(s: string, suffix: string)
  {
    |suffix| <= |s| && s[|s| - |suffix|..] == suffix
  }

  /** `os.path.join(a, b)` on POSIX paths. */
  function PathJoin(a: string, b: string): string
  {
    if |b| > 0 && b[0] == '/' then b
    else if a == "" || EndsWithSlash(a) then a + b
    else a + "/" + b
  }

  /** An absolute second part replaces the first; otherwise the result
      starts with the first part, ends with the second, and has a single
      `/` between them unless the first is empty or already ends in one. */
  lemma PathJoinShape(a: string, b: string)
    ensures |b| > 0 && b[0] == '/' ==> PathJoin(a, b) == b
    ensures !(|b| > 0 && b[0] == '/') ==>
              |a| <= |PathJoin(a, b)| && PathJoin(a, b)[..|a|] == a && EndsWith(PathJoin(a, b), b)
    ensures !(|b| > 0 && b[0] == '/') && (a == "" || EndsWithSlash(a)) ==> |PathJoin(a, b)| == |a| + |b|
    ensures !(|b| > 0 && b[0] == '/') && !(a == "" || EndsWithSlash(a)) ==>
              |PathJoin(a, b)| == |a| + 1 + |b| && PathJoin(a, b)[|a|] == '/'
  {
  }

  /** The characters java.util.StringTokenizer treats as delimiters by default. */
  predicate IsSpace(c: char) { c == ' ' || c == '\t' || c == '\n' || c == '\r' || c == '\U{000C}' }

  predicate NoSpace(s: string) { forall i :: 0 <= i < |s| ==> !IsSpace(s[i]) }

  /** Whitespace-separated tokens of `s`, as `Runtime.exec(String)` splits
      a command line into an argument vector; `cur` is the token being read. */
  function TokensFrom(s: string, cur: string): (ts: seq<string>)
    requires NoSpace(cur)
    ensures forall k :: 0 <= k < |ts| ==> |ts[k]| > 0 && NoSpace(ts[k])
    decreases |s|
  {
    if |s| == 0 then (if cur == [] then [] else [cur])
    else if IsSpace(s[0]) then (if cur == [] then [] else [cur]) + TokensFrom(s[1..], [])
    else TokensFrom(s[1..], cur + [s[0]])
  }

  function Tokens(s: string): (ts: seq<string>)
    ensures forall k :: 0 <= k < |ts| ==> |ts[k]| > 0 && NoSpace(ts[k])
  {
    TokensFrom(s, [])
  }

  /** Reading a space-free word continues the current token. */
  lemma {:induction false} TokensFromWord(w: string, rest: string, cur: string)
    requires NoSpace(w) && NoSpace(cur)
    ensures NoSpace(cur + w)
    ensures TokensFrom(w + rest, cur) == TokensFrom(rest, cur + w)
    decreases |w|
  {
    if |w| == 0 {
      assert w + rest == rest && cur + w == cur;
    } else {
      assert (w + rest)[0] == w[0];
      assert (w + rest)[1..] == w[1..] + rest;
      TokensFromWord(w[1..], rest, cur + [w[0]]);
      assert cur + [w[0]] + w[1..] == cur + w;
    }
  }

  /** Words separated by single spaces. */
  function JoinSpaced(ws: seq<string>): string
  {
    if |ws| == 0 then "" else if |ws| == 1 then ws[0] else ws[0] + " " + JoinSpaced(ws[1..])
  }

  /** Non-empty words without whitespace, joined by single spaces, tokenize
      back to the words. */
  lemma {:induction false} TokensOfJoin(ws: seq<string>)
    requires forall k :: 0 <= k < |ws| ==> |ws[k]| > 0 && NoSpace(ws[k])
    ensures Tokens(JoinSpaced(ws)) == ws
  {
    if |ws| == 1 {
      TokensFromWord(ws[0], [], []);
      assert ws[0] + [] == ws[0] && [] + ws[0] == ws[0];
    } else if |ws| > 1 {
      var w, rest := ws[0], JoinSpaced(ws[1..]);
      assert JoinSpaced(ws) == w + (" " + rest);
      TokensFromWord(w, " " + rest, []);
      assert [] + w == w;
      assert (" " + rest)[1..] == rest;
      TokensOfJoin(ws[1..]);
      assert ws == [w] + ws[1..];
    }
  }
}

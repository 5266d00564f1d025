/** The string operations of Python's `str` that the shell relies on:
    `strip()`, `split()` with no separator, `" ".join`, `isdigit()`, `int()`
    and `startswith`. Whitespace and digits are restricted to ASCII. */
module Text {

  /** `str.isspace` on ASCII: tab, line feed, vertical tab, form feed,
      carriage return (9-13), the four information separators (28-31) and
      the space (32). */
  predicate IsSpace(c: char) {
    9 <= c as int <= 13 || 28 <= c as int <= 32
  }

  predicate AllSpace(s: string) {
    forall k :: 0 <= k < |s| ==> IsSpace(s[k])
  }

  predicate NoSpace(s: string) {
    forall k :: 0 <= k < |s| ==> !IsSpace(s[k])
  }

  /** A token of `split()`: a non-empty run of non-whitespace characters. */
  predicate IsToken(t: string) {
    t != [] && NoSpace(t)
  }

  predicate StartsWith(s: string, prefix: string) {
    |prefix| <= |s| && s[..|prefix|] == prefix
  }

  /** `s` occurs somewhere inside `m`. */
  predicate Mentions(m: string, s: string) {
    exists i :: 0 <= i <= |m| - |s| && m[i..][..|s|] == s
  }

  // ---------------------------------------------------------------- strip

  /** Drops leading whitespace: the result is the suffix of `s` left after
      a whitespace-only prefix, and it does not start with whitespace. */
  function LStrip(s: string): (r: string)
    ensures |r| <= |s| && r == s[|s| - |r|..]
    ensures AllSpace(s[..|s| - |r|])
    ensures r == [] || !IsSpace(r[0])
  {
    if s != [] && IsSpace(s[0]) then
      var r := LStrip(s[1..]);
      assert s[..|s| - |r|] == [s[0]] + s[1..][..|s| - 1 - |r|];
      r
    else
      s
  }

  /** Drops trailing whitespace: the result is the prefix of `s` left before
      a whitespace-only suffix, and it does not end with whitespace. */
  function RStrip(s: string): (r: string)
    ensures |r| <= |s| && r == s[..|r|]
    ensures AllSpace(s[|r|..])
    ensures r == [] || !IsSpace(r[|r| - 1])
  {
    if s != [] && IsSpace(s[|s| - 1]) then
      var r := RStrip(s[..|s| - 1]);
      assert s[|r|..] == s[..|s| - 1][|r|..] + [s[|s| - 1]];
      r
    else
      s
  }

  /** `str.strip()`. */
  function Strip(s: string): (r: string)
    ensures r == [] || (!IsSpace(r[0]) && !IsSpace(r[|r| - 1]))
  {
    RStrip(LStrip(s))
  }

  // ---------------------------------------------------------------- split

  /** The longest whitespace-free prefix of `s`. */
  function Word(s: string): (w: string)
    ensures |w| <= |s| && w == s[..|w|]
    ensures NoSpace(w)
    ensures |w| == |s| || IsSpace(s[|w|])
  {
    if s == [] || IsSpace(s[0]) then [] else [s[0]] + Word(s[1..])
  }

  /** `str.split()` with no separator: the maximal runs of non-whitespace
      characters of `s`, in order. */
  function Split(s: string): (parts: seq<string>)
    ensures forall k :: 0 <= k < |parts| ==> IsToken(parts[k])
    decreases |s|
  {
    if s == [] then []
    else if IsSpace(s[0]) then Split(s[1..])
    else
      var w := Word(s);
      [w] + Split(s[|w|..])
  }

  /** `sep.join(xs)`. */
  function Join(sep: string, xs: seq<string>): string {
    if xs == [] then ""
    else if |xs| == 1 then xs[0]
    else xs[0] + sep + Join(sep, xs[1..])
  }

  /** The concatenation of all strings of `xs`. */
  function Concat(xs: seq<string>): string {
    if xs == [] then "" else xs[0] + Concat(xs[1..])
  }

  /** `s` with every whitespace character removed. */
  function Squeeze(s: string): string {
    if s == [] then ""
    else (if IsSpace(s[0]) then "" else [s[0]]) + Squeeze(s[1..])
  }

  lemma {:induction false} SplitEmptyIffAllSpace(s: string)
    ensures Split(s) == [] <==> AllSpace(s)
    decreases |s|
  {
    if s != [] {
      if IsSpace(s[0]) {
        SplitEmptyIffAllSpace(s[1..]);
        if AllSpace(s[1..]) {
          assert forall k :: 1 <= k < |s| ==> s[k] == s[1..][k - 1];
        }
      }
    }
  }

  lemma {:induction false} SqueezeAppend(a: string, b: string)
    ensures Squeeze(a + b) == Squeeze(a) + Squeeze(b)
    decreases |a|
  {
    if a != [] {
      var head := if IsSpace(a[0]) then "" else [a[0]];
      assert (a + b)[0] == a[0] && (a + b)[1..] == a[1..] + b;
      SqueezeAppend(a[1..], b);
      assert Squeeze(a + b) == head + Squeeze(a[1..] + b);
      assert Squeeze(a) == head + Squeeze(a[1..]);
    } else {
      assert a + b == b;
    }
  }

  lemma {:induction false} SqueezeNoSpace(w: string)
    requires NoSpace(w)
    ensures Squeeze(w) == w
    decreases |w|
  {
    if w != [] {
      SqueezeNoSpace(w[1..]);
    }
  }

  /** Splitting loses no character but whitespace and keeps their order:
      the tokens put back together are `s` with its whitespace removed. */
  lemma {:induction false} SplitKeepsText(s: string)
    ensures Concat(Split(s)) == Squeeze(s)
    decreases |s|
  {
    if s != [] {
      if IsSpace(s[0]) {
        SplitKeepsText(s[1..]);
      } else {
        var w := Word(s);
        var rest := s[|w|..];
        SplitKeepsText(rest);
        assert s == w + rest;
        SqueezeAppend(w, rest);
        SqueezeNoSpace(w);
        assert Split(s) == [w] + Split(rest);
      }
    }
  }

  lemma {:induction false} WordOfToken(w: string, s: string)
    requires NoSpace(w)
    requires s == [] || IsSpace(s[0])
    ensures Word(w + s) == w
    decreases |w|
  {
    if w != [] {
      assert (w + s)[1..] == w[1..] + s;
      WordOfToken(w[1..], s);
    }
  }

  /** A token followed by whitespace, or by nothing, is split off whole. */
  lemma SplitToken(w: string, s: string)
    requires IsToken(w)
    requires s == [] || IsSpace(s[0])
    ensures Split(w + s) == [w] + Split(s)
  {
    WordOfToken(w, s);
    assert (w + s)[0] == w[0];
    assert (w + s)[|w|..] == s;
  }

  /** A token, a run of whitespace, and the rest: the token is split off
      whole and the whitespace is dropped. */
  lemma SplitTokenThenSpace(w: string, sep: string, s: string)
    requires IsToken(w) && sep != [] && AllSpace(sep)
    ensures Split(w + sep + s) == [w] + Split(s)
  {
    assert w + sep + s == w + (sep + s);
    SplitToken(w, sep + s);
    SplitPrependSpace(sep, s);
  }

  /** `"echo a  b   c".strip().split()` is `["echo", "a", "b", "c"]`, for
      any three tokens in the places of a, b and c. */
  lemma SplitSpacedWords(a: string, b: string, c: string)
    requires IsToken(a) && IsToken(b) && IsToken(c)
    ensures Split(Strip("echo " + a + "  " + b + "   " + c)) == ["echo", a, b, c]
  {
    var line := "echo " + a + "  " + b + "   " + c;
    SplitStrip(line);
    EchoLiterals();
    Regroup("echo", " ", a, "  ", b, "   ", c);
    SplitSpaced("echo", " ", a, "  ", b, "   ", c);
  }

  lemma EchoLiterals()
    ensures "echo " == "echo" + " "
    ensures IsToken("echo") && AllSpace(" ") && AllSpace("  ") && AllSpace("   ")
  {
  }

  lemma Regroup(w: string, s1: string, a: string, s2: string, b: string, s3: string, c: string)
    ensures w + s1 + a + s2 + b + s3 + c == w + s1 + (a + s2 + (b + s3 + c))
  {
    assert w + s1 + a + s2 + b + s3 + c == (w + s1 + a + s2) + (b + s3 + c);
    assert w + s1 + a + s2 == (w + s1) + (a + s2);
  }

  /** Four tokens separated by runs of whitespace split into the four. */
  lemma SplitSpaced(w: string, s1: string, a: string, s2: string, b: string, s3: string, c: string)
    requires IsToken(w) && IsToken(a) && IsToken(b) && IsToken(c)
    requires s1 != [] && AllSpace(s1) && s2 != [] && AllSpace(s2) && s3 != [] && AllSpace(s3)
    ensures Split(w + s1 + (a + s2 + (b + s3 + c))) == [w, a, b, c]
  {
    SplitTokenThenSpace(w, s1, a + s2 + (b + s3 + c));
    SplitTokenThenSpace(a, s2, b + s3 + c);
    SplitTokenThenSpace(b, s3, c);
    assert c == c + "";
    SplitToken(c, "");
  }

  lemma {:induction false} WordAppendSpace(s: string, t: string)
    requires t == [] || IsSpace(t[0])
    ensures Word(s + t) == Word(s)
    decreases |s|
  {
    if s != [] && !IsSpace(s[0]) {
      assert (s + t)[1..] == s[1..] + t;
      WordAppendSpace(s[1..], t);
    }
  }

  /** Joining tokens with single spaces and splitting again gives the tokens
      back. */
  lemma {:induction false} SplitJoin(ws: seq<string>)
    requires forall k :: 0 <= k < |ws| ==> IsToken(ws[k])
    ensures Split(Join(" ", ws)) == ws
    decreases |ws|
  {
    if |ws| == 1 {
      WordOfToken(ws[0], "");
      assert ws[0] + "" == ws[0];
      assert ws[0][|ws[0]|..] == "";
    } else if |ws| > 1 {
      var w, tail := ws[0], " " + Join(" ", ws[1..]);
      assert Join(" ", ws) == w + tail;
      WordOfToken(w, tail);
      assert (w + tail)[|w|..] == tail;
      assert tail[1..] == Join(" ", ws[1..]);
      SplitJoin(ws[1..]);
    }
  }

  lemma {:induction false} SplitPrependSpace(ws: string, s: string)
    requires AllSpace(ws)
    ensures Split(ws + s) == Split(s)
    decreases |ws|
  {
    if ws != [] {
      assert (ws + s)[0] == ws[0] && (ws + s)[1..] == ws[1..] + s;
      assert IsSpace(ws[0]);
      SplitPrependSpace(ws[1..], s);
      assert Split(ws + s) == Split(ws[1..] + s);
    } else {
      assert ws + s == s;
    }
  }

  lemma {:induction false} SplitAppendSpace(s: string, ws: string)
    requires AllSpace(ws)
    ensures Split(s + ws) == Split(s)
    decreases |s|
  {
    if s == [] {
      assert s + ws == ws;
      SplitEmptyIffAllSpace(ws);
    } else if IsSpace(s[0]) {
      assert (s + ws)[1..] == s[1..] + ws;
      SplitAppendSpace(s[1..], ws);
    } else {
      var w := Word(s);
      WordAppendSpace(s, ws);
      assert (s + ws)[|w|..] == s[|w|..] + ws;
      SplitAppendSpace(s[|w|..], ws);
    }
  }

  /** Stripping before splitting, as the shell does, changes nothing. */
  lemma SplitStrip(s: string)
    ensures Split(Strip(s)) == Split(s)
  {
    SplitLStrip(s);
    SplitRStrip(LStrip(s));
  }

  lemma SplitLStrip(s: string)
    ensures Split(LStrip(s)) == Split(s)
  {
    SplitDropLeading(s, LStrip(s));
  }

  lemma SplitRStrip(s: string)
    ensures Split(RStrip(s)) == Split(s)
  {
    SplitDropTrailing(s, RStrip(s));
  }

  /** Dropping a whitespace-only prefix does not change the tokens. */
  lemma SplitDropLeading(s: string, l: string)
    requires |l| <= |s| && l == s[|s| - |l|..] && AllSpace(s[..|s| - |l|])
    ensures Split(l) == Split(s)
  {
    var p := s[..|s| - |l|];
    assert s == p + l;
    SplitPrependSpace(p, l);
  }

  /** Dropping a whitespace-only suffix does not change the tokens. */
  lemma SplitDropTrailing(s: string, r: string)
    requires |r| <= |s| && r == s[..|r|] && AllSpace(s[|r|..])
    ensures Split(r) == Split(s)
  {
    var q := s[|r|..];
    assert s == r + q;
    SplitAppendSpace(r, q);
  }

  // --------------------------------------------------------------- digits

  predicate IsDigit(c: char) {
    '0' <= c <= '9'
  }

  predicate AllDigits(s: string) {
    forall k :: 0 <= k < |s| ==> IsDigit(s[k])
  }

  /** `str.isdigit()` on ASCII: non-empty and made of decimal digits. */
  predicate IsDigits(s: string) {
    s != [] && AllDigits(s)
  }

  function DigitValue(c: char): (d: nat)
    requires IsDigit(c)
    ensures d < 10
  {
    c as int - '0' as int
  }

  function DigitChar(d: nat): (c: char)
    requires d < 10
    ensures IsDigit(c) && DigitValue(c) == d
  {
    ('0' as int + d) as char
  }

  /** `int(s)` for a string of decimal digits. */
  function DecimalValue(s: string): nat
    requires AllDigits(s)
  {
    if s == [] then 0 else 10 * DecimalValue(s[..|s| - 1]) + DigitValue(s[|s| - 1])
  }

  /** The decimal numeral of `n`, as `str(n)` writes it: no leading zero
      unless `n` is zero. */
  function Decimal(n: nat): (s: string)
    ensures IsDigits(s)
    ensures s[0] == '0' ==> s == "0"
  {
    if n < 10 then [DigitChar(n)] else Decimal(n / 10) + [DigitChar(n % 10)]
  }

  lemma {:induction false} DecimalRoundTrip(n: nat)
    ensures DecimalValue(Decimal(n)) == n
  {
    if n >= 10 {
      var s := Decimal(n);
      assert s[..|s| - 1] == Decimal(n / 10);
      DecimalRoundTrip(n / 10);
    }
  }

  /** `int` ignores leading zeros: `int("007") == 7`. */
  lemma {:induction false} LeadingZero(s: string)
    requires AllDigits(s)
    ensures AllDigits("0" + s) && DecimalValue("0" + s) == DecimalValue(s)
    decreases |s|
  {
    if s != [] {
      var z := "0" + s;
      assert z[..|z| - 1] == "0" + s[..|s| - 1];
      LeadingZero(s[..|s| - 1]);
    }
  }
}

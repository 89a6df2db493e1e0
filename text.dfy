/**
 * The operations of Rust's `str` that the scanner and the plugin manager rely
 * on, over `string` (`seq<char>`, one element per Unicode scalar value):
 * `starts_with`, `contains`, `trim`, `split_whitespace`, `lines`, and the
 * decimal `Display` of an unsigned integer.
 */
module Text {

  /**
   * The characters with the Unicode White_Space property: U+0009..U+000D,
   * U+0020, U+0085, U+00A0, U+1680, U+2000..U+200A, U+2028, U+2029, U+202F,
   * U+205F and U+3000.
   */
  const WhiteSpaceChars: set<char> := {
    '\U{0009}', '\U{000A}', '\U{000B}', '\U{000C}', '\U{000D}', '\U{0020}', '\U{0085}', '\U{00A0}',
    '\U{1680}', '\U{2000}', '\U{2001}', '\U{2002}', '\U{2003}', '\U{2004}', '\U{2005}', '\U{2006}',
    '\U{2007}', '\U{2008}', '\U{2009}', '\U{200A}', '\U{2028}', '\U{2029}', '\U{202F}', '\U{205F}',
    '\U{3000}'
  }

  /** `char::is_whitespace` */
  predicate IsWhitespace(c: char) {
    c in WhiteSpaceChars
  }

  predicate AllWhitespace(s: string) {
    forall k :: 0 <= k < |s| ==> IsWhitespace(s[k])
  }

  predicate NoWhitespace(s: string) {
    forall k :: 0 <= k < |s| ==> !IsWhitespace(s[k])
  }

  /** `str::starts_with` with a string pattern: `s` is `prefix` followed by something. */
  function StartsWith(s: string, prefix: string): (b: bool)
    ensures b <==> exists rest :: s == prefix + rest
  {
    assert |prefix| <= |s| && s[..|prefix|] == prefix ==> s == prefix + s[|prefix|..];
    |prefix| <= |s| && s[..|prefix|] == prefix
  }

  /** `pattern` occurs in `s` starting at index `i`. */
  predicate OccursAt(s: string, pattern: string, i: nat) {
    i + |pattern| <= |s| && s[i..i + |pattern|] == pattern
  }

  lemma OccursAtTail(s: string, pattern: string)
    requires s != []
    ensures forall i: nat :: OccursAt(s[1..], pattern, i) ==> OccursAt(s, pattern, i + 1)
    ensures forall j: nat :: j >= 1 && OccursAt(s, pattern, j) ==> OccursAt(s[1..], pattern, j - 1)
  {
    forall j: nat | j >= 1
      ensures OccursAt(s, pattern, j) <==> OccursAt(s[1..], pattern, j - 1)
    {
      if j + |pattern| <= |s| {
        assert s[1..][j - 1..j - 1 + |pattern|] == s[j..j + |pattern|];
      }
    }
  }

  /** `str::contains` with a string pattern: true iff `pattern` occurs somewhere in `s`. */
  function Contains(s: string, pattern: string): (b: bool)
    ensures b <==> exists i: nat :: OccursAt(s, pattern, i)
    decreases |s|
  {
    if StartsWith(s, pattern) then
      assert OccursAt(s, pattern, 0);
      true
    else if s == [] then
      false
    else
      OccursAtTail(s, pattern);
      assert !OccursAt(s, pattern, 0);
      Contains(s[1..], pattern)
  }

  /** Every string contains the empty pattern (`"abc".contains("")` is true). */
  lemma ContainsEmpty(s: string)
    ensures Contains(s, "")
  {
    assert OccursAt(s, "", 0);
  }

  /**
   * The length of the longest prefix of `s` whose characters are all
   * whitespace (when `white`) or all non-whitespace (when `!white`).
   */
  function Run(s: string, white: bool): (n: nat)
    ensures n <= |s|
    ensures forall k :: 0 <= k < n ==> IsWhitespace(s[k]) == white
    ensures n < |s| ==> IsWhitespace(s[n]) != white
  {
    if s == [] || IsWhitespace(s[0]) != white then 0 else 1 + Run(s[1..], white)
  }

  /** The index just past the last non-whitespace character of `s` (0 if there is none). */
  function TrimEndIndex(s: string): (j: nat)
    ensures j <= |s|
    ensures forall k :: j <= k < |s| ==> IsWhitespace(s[k])
    ensures j > 0 ==> !IsWhitespace(s[j - 1])
  {
    if s == [] || !IsWhitespace(s[|s| - 1]) then |s| else TrimEndIndex(s[..|s| - 1])
  }

  /**
   * `str::trim`: the slice of `s` left after removing leading and trailing
   * whitespace. The two ensures clauses determine the result uniquely.
   */
  function Trim(s: string): (r: string)
    ensures exists i, j :: 0 <= i <= j <= |s| && r == s[i..j] && AllWhitespace(s[..i]) && AllWhitespace(s[j..])
    ensures r != [] ==> !IsWhitespace(r[0]) && !IsWhitespace(r[|r| - 1])
  {
    var i := Run(s, true);
    var j := if TrimEndIndex(s) <= i then i else TrimEndIndex(s);
    assert AllWhitespace(s[..i]) by {
      forall k | 0 <= k < i
        ensures IsWhitespace(s[..i][k])
      {
        assert s[..i][k] == s[k];
      }
    }
    assert AllWhitespace(s[j..]) by {
      forall k | 0 <= k < |s| - j
        ensures IsWhitespace(s[j..][k])
      {
        assert s[j..][k] == s[j + k];
      }
    }
    s[i..j]
  }

  /**
   * `str::split_whitespace`: the maximal runs of non-whitespace characters of
   * `s`, in order.
   */
  function SplitWhitespace(s: string): (tokens: seq<string>)
    ensures forall t :: t in tokens ==> t != [] && NoWhitespace(t)
    decreases |s|
  {
    var i := Run(s, true);
    if i == |s| then []
    else
      var rest := s[i..];
      var k := Run(rest, false);
      assert k > 0 by { assert rest[0] == s[i]; }
      [rest[..k]] + SplitWhitespace(rest[k..])
  }

  /** The characters of `s` that are not whitespace, in order. */
  function RemoveWhitespace(s: string): string {
    if s == [] then [] else (if IsWhitespace(s[0]) then [] else [s[0]]) + RemoveWhitespace(s[1..])
  }

  /** The concatenation of a sequence of strings. */
  function Concat(ss: seq<string>): string {
    if ss == [] then [] else ss[0] + Concat(ss[1..])
  }

  lemma {:induction false} RemoveWhitespaceAppend(a: string, b: string)
    ensures RemoveWhitespace(a + b) == RemoveWhitespace(a) + RemoveWhitespace(b)
  {
    if a != [] {
      assert (a + b)[1..] == a[1..] + b;
      RemoveWhitespaceAppend(a[1..], b);
    } else {
      assert a + b == b;
    }
  }

  lemma {:induction false} RemoveWhitespaceOfWhitespace(s: string)
    requires AllWhitespace(s)
    ensures RemoveWhitespace(s) == []
  {
    if s != [] {
      RemoveWhitespaceOfWhitespace(s[1..]);
    }
  }

  lemma {:induction false} RemoveWhitespaceOfToken(s: string)
    requires NoWhitespace(s)
    ensures RemoveWhitespace(s) == s
  {
    if s != [] {
      RemoveWhitespaceOfToken(s[1..]);
    }
  }

  /** Removing the whitespace of leading whitespace, a token and the rest. */
  lemma RemoveWhitespaceAroundToken(w: string, token: string, after: string)
    requires AllWhitespace(w) && NoWhitespace(token)
    ensures RemoveWhitespace(w + (token + after)) == token + RemoveWhitespace(after)
  {
    RemoveWhitespaceAppend(w, token + after);
    RemoveWhitespaceAppend(token, after);
    RemoveWhitespaceOfWhitespace(w);
    RemoveWhitespaceOfToken(token);
  }

  /**
   * `split_whitespace` loses nothing but whitespace: gluing the tokens back
   * together gives `s` with its whitespace removed.
   */
  lemma {:induction false} SplitWhitespaceKeepsText(s: string)
    ensures Concat(SplitWhitespace(s)) == RemoveWhitespace(s)
    decreases |s|
  {
    var i := Run(s, true);
    if i < |s| {
      var rest := s[i..];
      var k := Run(rest, false);
      assert k > 0 by { assert rest[0] == s[i]; }
      var token, after := rest[..k], rest[k..];
      var tokens := [token] + SplitWhitespace(after);
      assert SplitWhitespace(s) == tokens;
      assert tokens[1..] == SplitWhitespace(after);
      SplitWhitespaceKeepsText(after);
      assert rest == token + after;
      assert s == s[..i] + rest;
      RemoveWhitespaceAroundToken(s[..i], token, after);
    } else {
      assert s == s[..i] + [];
      RemoveWhitespaceAppend(s[..i], []);
      RemoveWhitespaceOfWhitespace(s[..i]);
    }
  }

  lemma {:induction false} RunOfWhitespacePrefix(w: string, rest: string)
    requires AllWhitespace(w)
    ensures Run(w + rest, true) == |w| + Run(rest, true)
  {
    if w != [] {
      assert (w + rest)[1..] == w[1..] + rest;
      RunOfWhitespacePrefix(w[1..], rest);
    } else {
      assert w + rest == rest;
    }
  }

  lemma {:induction false} RunOfTokenPrefix(t: string, rest: string)
    requires NoWhitespace(t)
    requires rest == [] || IsWhitespace(rest[0])
    ensures Run(t + rest, false) == |t|
  {
    if t != [] {
      assert (t + rest)[1..] == t[1..] + rest;
      RunOfTokenPrefix(t[1..], rest);
    } else {
      assert t + rest == rest;
    }
  }

  /** The tokens of `s` are the tokens of `s` without its leading whitespace. */
  lemma SplitWhitespaceDropLeading(s: string)
    ensures SplitWhitespace(s) == SplitWhitespace(s[Run(s, true)..])
  {
    var i := Run(s, true);
    var t := s[i..];
    if i < |s| {
      assert t[0] == s[i];
      assert Run(t, true) == 0;
      assert t[0..] == t;
    }
  }

  /** Leading whitespace does not change the tokens. */
  lemma SplitWhitespaceSkip(w: string, rest: string)
    requires AllWhitespace(w)
    ensures SplitWhitespace(w + rest) == SplitWhitespace(rest)
  {
    var s := w + rest;
    RunOfWhitespacePrefix(w, rest);
    var i := Run(rest, true);
    assert s[|w| + i..] == rest[i..];
    SplitWhitespaceDropLeading(s);
    SplitWhitespaceDropLeading(rest);
  }

  /** A token followed by whitespace or by nothing is the first token. */
  lemma SplitWhitespaceToken(t: string, rest: string)
    requires t != [] && NoWhitespace(t)
    requires rest == [] || IsWhitespace(rest[0])
    ensures SplitWhitespace(t + rest) == [t] + SplitWhitespace(rest)
  {
    var s := t + rest;
    assert Run(s, true) == 0;
    assert s[0..] == s;
    RunOfTokenPrefix(t, rest);
    assert s[..|t|] == t;
    assert s[|t|..] == rest;
  }

  /** A token, whitespace, and then the rest. */
  lemma SplitWhitespaceCons(t: string, w: string, rest: string)
    requires t != [] && NoWhitespace(t)
    requires w != [] && AllWhitespace(w)
    ensures SplitWhitespace(t + w + rest) == [t] + SplitWhitespace(rest)
  {
    assert t + w + rest == t + (w + rest);
    SplitWhitespaceToken(t, w + rest);
    SplitWhitespaceSkip(w, rest);
  }

  /**
   * `split_whitespace` undoes writing whitespace-free tokens each followed by
   * a whitespace separator.
   */
  lemma {:induction false} SplitWhitespaceOfJoined(tokens: seq<string>, separator: string)
    requires separator != [] && AllWhitespace(separator)
    requires forall t :: t in tokens ==> t != [] && NoWhitespace(t)
    ensures SplitWhitespace(JoinTerminated(tokens, separator)) == tokens
  {
    if tokens == [] {
      assert Run([], true) == 0;
    } else {
      assert tokens[0] in tokens;
      SplitWhitespaceCons(tokens[0], separator, JoinTerminated(tokens[1..], separator));
      assert forall t :: t in tokens[1..] ==> t in tokens;
      SplitWhitespaceOfJoined(tokens[1..], separator);
    }
  }

  /**
   * Trimming never cuts into an occurrence of a pattern that begins and ends
   * with non-whitespace.
   */
  lemma OccurrenceInsideSlice(s: string, pattern: string, k: nat, i: nat, j: nat)
    requires pattern != [] && !IsWhitespace(pattern[0]) && !IsWhitespace(pattern[|pattern| - 1])
    requires OccursAt(s, pattern, k)
    requires i <= j <= |s| && AllWhitespace(s[..i]) && AllWhitespace(s[j..])
    ensures i <= k && OccursAt(s[i..j], pattern, k - i)
  {
    assert s[k] == pattern[0];
    assert i <= k by {
      assert forall m :: 0 <= m < i ==> s[..i][m] == s[m];
    }
    var last := k + |pattern| - 1;
    assert s[last] == pattern[|pattern| - 1];
    assert last < j by {
      assert forall m :: j <= m < |s| ==> s[j..][m - j] == s[m];
    }
    var r := s[i..j];
    forall m | 0 <= m < |pattern|
      ensures r[k - i..k - i + |pattern|][m] == pattern[m]
    {
      assert r[k - i + m] == s[k + m];
      assert s[k..k + |pattern|][m] == s[k + m];
    }
    assert r[k - i..k - i + |pattern|] == pattern;
  }

  /**
   * Trimming never cuts into an occurrence of a pattern that begins and ends
   * with non-whitespace.
   */
  lemma TrimKeepsOccurrence(s: string, pattern: string)
    requires pattern != [] && !IsWhitespace(pattern[0]) && !IsWhitespace(pattern[|pattern| - 1])
    requires Contains(s, pattern)
    ensures Contains(Trim(s), pattern)
  {
    var k: nat :| OccursAt(s, pattern, k);
    var i, j :| 0 <= i <= j <= |s| && Trim(s) == s[i..j] && AllWhitespace(s[..i]) && AllWhitespace(s[j..]);
    OccurrenceInsideSlice(s, pattern, k, i, j);
  }

  /** The index of the first line feed in `s`, or `|s|` when there is none. */
  function NewlineIndex(s: string): (k: nat)
    ensures k <= |s|
    ensures forall m :: 0 <= m < k ==> s[m] != '\n'
    ensures k < |s| ==> s[k] == '\n'
  {
    if s == [] || s[0] == '\n' then 0 else 1 + NewlineIndex(s[1..])
  }

  /** Removes one trailing carriage return, if there is one. */
  function StripCr(line: string): (r: string)
    ensures line != [] && line[|line| - 1] == '\r' ==> line == r + "\r"
    ensures !(line != [] && line[|line| - 1] == '\r') ==> r == line
  {
    if line != [] && line[|line| - 1] == '\r' then line[..|line| - 1] else line
  }

  predicate NoNewline(s: string) {
    forall m :: 0 <= m < |s| ==> s[m] != '\n'
  }

  /**
   * `str::lines`: splits `s` after every line feed; a line that ended with a
   * line feed loses it and then one carriage return before it, if any; an
   * empty text has no lines and a final line feed does not start another.
   */
  function Lines(s: string): (lines: seq<string>)
    ensures forall l :: l in lines ==> NoNewline(l)
    decreases |s|
  {
    if s == [] then []
    else
      var k := NewlineIndex(s);
      if k == |s| then [s]
      else
        var line := StripCr(s[..k]);
        assert NoNewline(line) by {
          assert forall m :: 0 <= m < |line| ==> line[m] == s[m];
        }
        [line] + Lines(s[k + 1..])
  }

  /** Writes every part followed by `terminator`: the text that `Lines` and `SplitWhitespace` take apart. */
  function JoinTerminated(parts: seq<string>, terminator: string): string {
    if parts == [] then [] else parts[0] + terminator + JoinTerminated(parts[1..], terminator)
  }

  lemma {:induction false} NewlineIndexAfter(a: string, b: string)
    requires NoNewline(a)
    requires b != [] && b[0] == '\n'
    ensures NewlineIndex(a + b) == |a|
  {
    if a != [] {
      assert (a + b)[1..] == a[1..] + b;
      NewlineIndexAfter(a[1..], b);
    }
  }

  predicate EndsWithCr(s: string) {
    s != [] && s[|s| - 1] == '\r'
  }

  /**
   * A last line with no line feed comes out of `lines` whole: a bare trailing
   * '\r' is kept, since only a line ended by a line feed loses its '\r'.
   */
  lemma LinesLast(l: string)
    requires l != [] && NoNewline(l)
    ensures Lines(l) == [l]
  {
  }

  /** One line followed by its terminator comes back out of `lines` as that line. */
  lemma LinesStep(l: string, terminator: string, rest: string)
    requires NoNewline(l)
    requires terminator == "\r\n" || (terminator == "\n" && !EndsWithCr(l))
    ensures Lines(l + terminator + rest) == [l] + Lines(rest)
  {
    var s := l + terminator + rest;
    var body := l + terminator[..|terminator| - 1];
    assert s == body + ("\n" + rest);
    assert NoNewline(body);
    NewlineIndexAfter(body, "\n" + rest);
    assert s[..|body|] == body;
    assert StripCr(body) == l by {
      if terminator == "\r\n" {
        assert body[..|body| - 1] == l;
      }
    }
    assert s[|body| + 1..] == rest;
  }

  /**
   * `lines` undoes writing each line followed by "\r\n", and, for lines that
   * do not end in '\r', followed by "\n".
   */
  lemma {:induction false} LinesOfJoinTerminated(lines: seq<string>, terminator: string)
    requires terminator == "\r\n" || terminator == "\n"
    requires forall l :: l in lines ==> NoNewline(l)
    requires terminator == "\n" ==> forall l :: l in lines ==> !EndsWithCr(l)
    ensures Lines(JoinTerminated(lines, terminator)) == lines
  {
    if lines != [] {
      assert lines[0] in lines;
      LinesStep(lines[0], terminator, JoinTerminated(lines[1..], terminator));
      LinesOfJoinTerminated(lines[1..], terminator);
    }
  }

  predicate IsDigits(s: string) {
    forall k :: 0 <= k < |s| ==> '0' <= s[k] <= '9'
  }

  function DigitChar(d: nat): char
    requires d < 10
  {
    ('0' as int + d) as char
  }

  /**
   * The `Display` of an unsigned integer (as in `format!("{}", n)`): its
   * decimal digits, with no leading zero.
   */
  function Decimal(n: nat): (s: string)
    ensures |s| >= 1 && IsDigits(s)
    ensures s[0] == '0' ==> n == 0
  {
    if n < 10 then [DigitChar(n)] else Decimal(n / 10) + [DigitChar(n % 10)]
  }

  /** The number a string of decimal digits denotes. */
  function DecimalValue(s: string): nat
    requires IsDigits(s)
  {
    if s == [] then 0 else 10 * DecimalValue(s[..|s| - 1]) + (s[|s| - 1] as int - '0' as int)
  }

  /** Reading back the decimal rendering of `n` gives `n`. */
  lemma {:induction false} DecimalRoundTrip(n: nat)
    ensures DecimalValue(Decimal(n)) == n
  {
    if n >= 10 {
      var s := Decimal(n);
      assert s[..|s| - 1] == Decimal(n / 10);
      DecimalRoundTrip(n / 10);
    }
  }

  /** Distinct numbers render differently. */
  lemma DecimalInjective(m: nat, n: nat)
    requires Decimal(m) == Decimal(n)
    ensures m == n
  {
    DecimalRoundTrip(m);
    DecimalRoundTrip(n);
  }
}

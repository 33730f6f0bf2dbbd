/** The one-line, UTF-8-safe rendering of a captured body (UTF-8 as in section 3 of RFC 3629). */
module LogFormat {
  import opened Bytes

  const MARKER: char := '\U{2026}'

  // ----------------------------------------------------------------- UTF-8

  /** A character is a Unicode scalar value. */
  function EncodeChar(c: char): (bytes: Bytes)
    ensures 1 <= |bytes| <= 4
    ensures !Continuation(bytes[0])
    ensures forall i | 1 <= i < |bytes| :: Continuation(bytes[i])
  {
    var n := c as int;
    if n < 0x80 then [n as byte]
    else if n < 0x800 then [(0xC0 + n / 0x40) as byte, (0x80 + n % 0x40) as byte]
    else if n < 0x1_0000 then
      [(0xE0 + n / 0x1000) as byte, (0x80 + n / 0x40 % 0x40) as byte, (0x80 + n % 0x40) as byte]
    else
      [(0xF0 + n / 0x4_0000) as byte, (0x80 + n / 0x1000 % 0x40) as byte,
       (0x80 + n / 0x40 % 0x40) as byte, (0x80 + n % 0x40) as byte]
  }

  function Encode(s: string): Bytes {
    if s == "" then [] else EncodeChar(s[0]) + Encode(s[1..])
  }

  predicate Continuation(b: byte) {
    0x80 <= b < 0xC0
  }

  predicate IsCharBoundary(bytes: Bytes, i: nat) {
    i == 0 || i == |bytes| || (i < |bytes| && !Continuation(bytes[i]))
  }

  lemma {:induction false} EncodeConcat(s: string, t: string)
    ensures Encode(s + t) == Encode(s) + Encode(t)
  {
    if s == "" {
      assert s + t == t;
    } else {
      assert (s + t)[1..] == s[1..] + t;
      EncodeConcat(s[1..], t);
    }
  }

  /** A boundary of the bytes is the start of a character. */
  lemma {:induction false} BoundaryIsStart(s: string, i: nat) returns (k: nat)
    requires i <= |Encode(s)| && IsCharBoundary(Encode(s), i)
    ensures k <= |s| && i == |Encode(s[..k])| && Encode(s)[..i] == Encode(s[..k])
  {
    if i == 0 {
      k := 0;
    } else {
      var n := |EncodeChar(s[0])|;
      assert i >= n;
      assert i < |Encode(s)| ==> Encode(s)[i] == Encode(s[1..])[i - n];
      var j := BoundaryIsStart(s[1..], i - n);
      k := j + 1;
      assert s[..k][1..] == s[1..][..j] && s[..k][0] == s[0];
    }
  }

  /** The start of a character is a boundary of the bytes. */
  lemma StartIsBoundary(s: string, k: nat)
    requires k <= |s|
    ensures |Encode(s[..k])| <= |Encode(s)| && IsCharBoundary(Encode(s), |Encode(s[..k])|)
  {
    assert s == s[..k] + s[k..];
    EncodeConcat(s[..k], s[k..]);
    if k < |s| {
      assert Encode(s)[|Encode(s[..k])|] == Encode(s[k..])[0] == EncodeChar(s[k])[0];
    }
  }

  lemma NextStart(s: string, k: nat)
    requires k < |s|
    ensures |Encode(s[..k])| < |Encode(s[..k + 1])| <= |Encode(s[..k])| + 4
  {
    assert s[..k + 1] == s[..k] + [s[k]];
    EncodeConcat(s[..k], [s[k]]);
    assert Encode([s[k]]) == EncodeChar(s[k]) + Encode([s[k]][1..]);
  }

  // ------------------------------------------------------------ whitespace

  /** The Unicode `White_Space` characters. */
  predicate IsWhitespace(c: char) {
    var n := c as int;
    || 0x09 <= n <= 0x0D || n == 0x20 || n == 0x85 || n == 0xA0 || n == 0x1680
    || 0x2000 <= n <= 0x200A || n == 0x2028 || n == 0x2029 || n == 0x202F || n == 0x205F || n == 0x3000
  }

  function TrimStart(s: string): string {
    if s != "" && IsWhitespace(s[0]) then TrimStart(s[1..]) else s
  }

  function TrimEnd(s: string): string {
    if s != "" && IsWhitespace(s[|s| - 1]) then TrimEnd(s[..|s| - 1]) else s
  }

  function Trim(s: string): string {
    TrimEnd(TrimStart(s))
  }

  /** The collapsing loop as a function: one space for each run of whitespace. */
  function Squeeze(s: string, inWhitespace: bool): string {
    if s == "" then ""
    else if IsWhitespace(s[0]) then (if inWhitespace then "" else " ") + Squeeze(s[1..], true)
    else [s[0]] + Squeeze(s[1..], false)
  }

  // What the collapsed line is, said without the loop: the words, with one space between.

  function WordsFrom(s: string, word: string): seq<string> {
    var done := if word == "" then [] else [word];
    if s == "" then done
    else if IsWhitespace(s[0]) then done + WordsFrom(s[1..], "")
    else WordsFrom(s[1..], word + [s[0]])
  }

  function Words(s: string): seq<string> {
    WordsFrom(s, "")
  }

  function Join(words: seq<string>): string {
    if words == [] then ""
    else if |words| == 1 then words[0]
    else words[0] + " " + Join(words[1..])
  }

  predicate EndsInWord(s: string) {
    s == "" || !IsWhitespace(s[|s| - 1])
  }

  lemma {:induction false} SqueezeIsJoin(s: string, word: string)
    requires EndsInWord(s)
    ensures word + Squeeze(s, word == "") == Join(WordsFrom(s, word))
    decreases |s|
  {
    if s != "" {
      assert EndsInWord(s[1..]);
      if IsWhitespace(s[0]) {
        SqueezeIsJoin(s[1..], "");
        SomeWord(s[1..], "");
        SqueezeAtSpace(s, word);
      } else {
        SqueezeIsJoin(s[1..], word + [s[0]]);
        SqueezeInWord(s, word);
      }
    }
  }

  lemma SqueezeAtSpace(s: string, word: string)
    requires s != "" && IsWhitespace(s[0])
    requires "" + Squeeze(s[1..], true) == Join(WordsFrom(s[1..], "")) && WordsFrom(s[1..], "") != []
    ensures word + Squeeze(s, word == "") == Join(WordsFrom(s, word))
  {
    var squeezed, words := Squeeze(s[1..], true), WordsFrom(s[1..], "");
    assert "" + squeezed == squeezed;
    if word == "" {
      assert Squeeze(s, true) == "" + squeezed && WordsFrom(s, "") == [] + words;
      NothingBefore(word, squeezed, words);
    } else {
      assert Squeeze(s, false) == " " + squeezed && WordsFrom(s, word) == [word] + words;
      JoinOneMore(word, squeezed, words);
    }
  }

  lemma NothingBefore(word: string, squeezed: string, words: seq<string>)
    requires word == ""
    ensures word + ("" + squeezed) == squeezed && [] + words == words
  {
  }

  lemma JoinOneMore(word: string, squeezed: string, words: seq<string>)
    requires words != [] && squeezed == Join(words)
    ensures word + (" " + squeezed) == Join([word] + words)
  {
    assert ([word] + words)[1..] == words;
    Regroup(word, " ", squeezed);
  }

  lemma SqueezeInWord(s: string, word: string)
    requires s != "" && !IsWhitespace(s[0])
    requires (word + [s[0]]) + Squeeze(s[1..], false) == Join(WordsFrom(s[1..], word + [s[0]]))
    ensures word + Squeeze(s, word == "") == Join(WordsFrom(s, word))
  {
    assert WordsFrom(s, word) == WordsFrom(s[1..], word + [s[0]]);
    assert Squeeze(s, word == "") == [s[0]] + Squeeze(s[1..], false);
    Regroup(word, [s[0]], Squeeze(s[1..], false));
  }

  lemma Regroup(a: string, b: string, c: string)
    ensures (a + b) + c == a + (b + c)
  {
  }

  lemma {:induction false} SomeWord(s: string, word: string)
    requires EndsInWord(s) && (s != "" || word != "")
    ensures WordsFrom(s, word) != []
    decreases |s|
  {
    if s != "" {
      var rest := s[1..];
      assert EndsInWord(rest);
      if IsWhitespace(s[0]) {
        assert rest != "";
        SomeWord(rest, "");
      } else {
        SomeWord(rest, word + [s[0]]);
      }
    }
  }

  lemma {:induction false} TrimStartKeepsWords(s: string)
    ensures Words(TrimStart(s)) == Words(s)
    ensures TrimStart(s) == "" || !IsWhitespace(TrimStart(s)[0])
  {
    if s != "" && IsWhitespace(s[0]) {
      TrimStartKeepsWords(s[1..]);
      assert [] + WordsFrom(s[1..], "") == WordsFrom(s[1..], "");
    }
  }

  lemma {:induction false} SpaceAtEndAddsNoWord(s: string, word: string, space: char)
    requires IsWhitespace(space)
    ensures WordsFrom(s + [space], word) == WordsFrom(s, word)
    decreases |s|
  {
    var t := s + [space];
    if s == "" {
      assert t[0] == space && t[1..] == "";
    } else {
      assert t[0] == s[0] && t[1..] == s[1..] + [space];
      SpaceAtEndAddsNoWord(s[1..], if IsWhitespace(s[0]) then "" else word + [s[0]], space);
    }
  }

  lemma {:induction false} TrimEndKeepsWords(s: string)
    ensures Words(TrimEnd(s)) == Words(s) && EndsInWord(TrimEnd(s))
    ensures TrimEnd(s) <= s
  {
    if s != "" && IsWhitespace(s[|s| - 1]) {
      var init := s[..|s| - 1];
      TrimEndKeepsWords(init);
      SpaceAtEndAddsNoWord(init, "", s[|s| - 1]);
      assert init + [s[|s| - 1]] == s;
    }
  }

  /** Trimming and collapsing leaves exactly the words, one space apart. */
  lemma CollapsedIsWords(text: string)
    ensures Squeeze(Trim(text), false) == Join(Words(text))
  {
    TrimStartKeepsWords(text);
    TrimEndKeepsWords(TrimStart(text));
    var t := Trim(text);
    SqueezeIsJoin(t, "");
    assert "" + Squeeze(t, true) == Squeeze(t, true);
    if t != "" { assert t[0] == TrimStart(text)[0]; }
  }

  // -------------------------------------------------------- what a line is

  predicate IsWord(w: string) {
    w != "" && forall i | 0 <= i < |w| :: !IsWhitespace(w[i])
  }

  /** No whitespace but single spaces, each between two words. */
  ghost predicate OneLine(s: string) {
    && (forall i | 0 <= i < |s| :: IsWhitespace(s[i]) ==> s[i] == ' ')
    && (forall i | 0 <= i < |s| - 1 :: !(s[i] == ' ' && s[i + 1] == ' '))
    && (s != "" ==> s[0] != ' ')
  }

  /** A line with no space at either end. */
  ghost predicate TrimmedLine(s: string) {
    OneLine(s) && (s != "" ==> s[|s| - 1] != ' ')
  }

  lemma {:induction false} WordsAreWords(s: string, word: string)
    requires word == "" || IsWord(word)
    ensures forall i | 0 <= i < |WordsFrom(s, word)| :: IsWord(WordsFrom(s, word)[i])
    decreases |s|
  {
    if s != "" {
      WordsAreWords(s[1..], if IsWhitespace(s[0]) then "" else word + [s[0]]);
    }
  }

  lemma {:induction false} JoinIsOneLine(words: seq<string>)
    requires forall i | 0 <= i < |words| :: IsWord(words[i])
    ensures TrimmedLine(Join(words)) && (Join(words) == "" <==> words == [])
  {
    if |words| == 1 {
      WordIsOneLine(words[0]);
    } else if words != [] {
      JoinIsOneLine(words[1..]);
      WordIsOneLine(words[0]);
      ConsIsOneLine(words[0], Join(words[1..]));
    }
  }

  lemma WordIsOneLine(w: string)
    requires IsWord(w)
    ensures TrimmedLine(w)
  {
    forall i | 0 <= i < |w| ensures w[i] != ' ' { assert !IsWhitespace(w[i]); }
  }

  lemma ConsIsOneLine(w: string, rest: string)
    requires IsWord(w) && OneLine(w) && TrimmedLine(rest) && rest != ""
    ensures TrimmedLine(w + " " + rest)
  {
    var s := w + " " + rest;
    var n := |w|;
    assert !IsWhitespace(w[n - 1]);
    forall i | 0 <= i < |s| ensures IsWhitespace(s[i]) ==> s[i] == ' ' {
      if i > n { assert s[i] == rest[i - n - 1]; }
    }
    forall i | 0 <= i < |s| - 1 ensures !(s[i] == ' ' && s[i + 1] == ' ') {
      if i > n { assert s[i] == rest[i - n - 1] && s[i + 1] == rest[i - n]; }
    }
    assert !IsWhitespace(w[0]);
  }

  lemma LineIsOneLine(text: string)
    ensures TrimmedLine(Join(Words(text)))
  {
    WordsAreWords(text, "");
    JoinIsOneLine(Words(text));
  }

  // ------------------------------------------------------------ the method

  /** One line for the log: the words of `text`, cut to `kept` if they do not fit, and the marker if this or an earlier
      stage lost anything. */
  method FormatBody(text: string, cap: nat, sourceTruncated: bool) returns (line: Bytes, ghost kept: string)
    ensures |line| <= cap + |Encode([MARKER])|
    ensures !sourceTruncated && |Encode(Join(Words(text)))| <= cap ==> line == Encode(Join(Words(text)))
    ensures line == Encode(kept)
                    + if sourceTruncated || |Encode(Join(Words(text)))| > cap then Encode([MARKER]) else []
    ensures kept <= Join(Words(text)) && |Encode(kept)| <= cap && OneLine(kept)
    ensures |Encode(Join(Words(text)))| <= cap ==> kept == Join(Words(text))
    ensures |Encode(Join(Words(text)))| > cap ==>
              cap - |Encode(kept)| <= 3 && |kept| < |Join(Words(text))|
              && |Encode(Join(Words(text))[..|kept| + 1])| > cap
  {
    var collapsed := CollapseLine(text);
    LineIsOneLine(text);
    line := Encode(collapsed);
    kept := collapsed;
    var truncated := sourceTruncated;
    if |line| > cap {
      var end := cap;
      while !IsCharBoundary(line, end)
        invariant 0 <= end <= cap
        invariant forall i | end < i <= cap :: !IsCharBoundary(line, i)
        decreases end
      {
        end := end - 1;
      }
      ghost var k := LastWholeCharacter(collapsed, end, cap);
      line := line[..end];
      kept := collapsed[..k];
      truncated := true;
    }
    assert kept <= collapsed;
    if truncated {
      line := line + Encode([MARKER]);
    } else {
      assert line + [] == line;
    }
  }

  /** The trimming and collapsing loop. */
  method CollapseLine(text: string) returns (line: string)
    ensures line == Join(Words(text))
  {
    var trimmed := Trim(text);
    line := "";
    var inWhitespace := false;
    var i := 0;
    while i < |trimmed|
      invariant 0 <= i <= |trimmed|
      invariant line + Squeeze(trimmed[i..], inWhitespace) == Squeeze(trimmed, false)
    {
      var ch := trimmed[i];
      assert trimmed[i..][1..] == trimmed[i + 1..];
      ghost var before := line;
      if IsWhitespace(ch) {
        if !inWhitespace {
          line := line + " ";
          assert before + (" " + Squeeze(trimmed[i + 1..], true)) == line + Squeeze(trimmed[i + 1..], true);
        } else {
          assert "" + Squeeze(trimmed[i + 1..], true) == Squeeze(trimmed[i + 1..], true);
        }
        inWhitespace := true;
      } else {
        line := line + [ch];
        assert before + ([ch] + Squeeze(trimmed[i + 1..], false)) == line + Squeeze(trimmed[i + 1..], false);
        inWhitespace := false;
      }
      i := i + 1;
    }
    assert line + "" == line;
    CollapsedIsWords(text);
  }

  /** Cutting the bytes at the last boundary up to `cap` cuts whole characters, and as few as can be. */
  lemma LastWholeCharacter(line: string, end: nat, cap: nat) returns (k: nat)
    requires end <= cap < |Encode(line)| && IsCharBoundary(Encode(line), end)
    requires forall i | end < i <= cap :: !IsCharBoundary(Encode(line), i)
    ensures k < |line| && Encode(line)[..end] == Encode(line[..k])
    ensures cap - end <= 3 && |Encode(line[..k + 1])| > cap
  {
    k := BoundaryIsStart(line, end);
    assert line[..|line|] == line;
    NextStart(line, k);
    StartIsBoundary(line, k + 1);
  }

  /** A line that fits comes through a second rendering unchanged. */
  lemma {:induction false} JoinedWordsAgain(words: seq<string>)
    requires forall i | 0 <= i < |words| :: IsWord(words[i])
    ensures Words(Join(words)) == words
  {
    if |words| == 1 {
      ScanWord(words[0], "", "");
      assert words[0] + "" == words[0];
      assert "" + words[0] == words[0];
      assert words == [words[0]];
    } else if words != [] {
      JoinedWordsAgain(words[1..]);
      var rest := " " + Join(words[1..]);
      ScanWord(words[0], rest, "");
      assert words[0] + rest == Join(words);
      assert "" + words[0] == words[0];
      assert rest[0] == ' ' && rest[1..] == Join(words[1..]);
      assert words == [words[0]] + words[1..];
    }
  }

  lemma {:induction false} ScanWord(w: string, rest: string, word: string)
    requires forall i | 0 <= i < |w| :: !IsWhitespace(w[i])
    ensures WordsFrom(w + rest, word) == WordsFrom(rest, word + w)
    decreases |w|
  {
    if w == "" {
      assert w + rest == rest && word + w == word;
    } else {
      assert (w + rest)[0] == w[0] && (w + rest)[1..] == w[1..] + rest;
      ScanWord(w[1..], rest, word + [w[0]]);
      assert word + [w[0]] + w[1..] == word + w;
    }
  }

  /** Collapsing is idempotent. */
  lemma CollapseTwice(text: string)
    ensures Join(Words(Join(Words(text)))) == Join(Words(text))
  {
    WordsAreWords(text, "");
    JoinedWordsAgain(Words(text));
  }
}

/**
 * Word counting as the chunker performs it: Python's argument-less
 * `str.split()` (maximal runs of non-whitespace), `str.strip()` and
 * `" ".join(...)` over strings of Unicode characters.
 */
module Words {

  /** The characters for which Python 3's `str.isspace()` holds (U+0009 to
      U+000D, U+001C to U+0020, U+0085, U+00A0, U+1680, U+2000 to U+200A,
      U+2028, U+2029, U+202F, U+205F and U+3000); these are the separators
      of an argument-less `str.split()` and what `str.strip()` removes. */
  predicate IsSpace(c: char) {
    || '\t' <= c <= '\r'
    || '\U{1C}' <= c <= ' '
    || c == '\U{85}' || c == '\U{A0}' || c == '\U{1680}'
    || '\U{2000}' <= c <= '\U{200A}'
    || c == '\U{2028}' || c == '\U{2029}' || c == '\U{202F}' || c == '\U{205F}' || c == '\U{3000}'
  }

  /** A word: a non-empty string without whitespace. */
  predicate IsWord(w: string) {
    w != [] && forall i :: 0 <= i < |w| ==> !IsSpace(w[i])
  }

  /** `s.split()`: the maximal runs of non-whitespace characters of `s`, in order. */
  function Split(s: string): (ws: seq<string>)
    ensures s != [] && !IsSpace(s[0]) ==> ws != []
    decreases |s|
  {
    if s == [] then []
    else if IsSpace(s[0]) then Split(s[1..])
    else
      var rest := Split(s[1..]);
      if |s| > 1 && !IsSpace(s[1]) then [[s[0]] + rest[0]] + rest[1..]
      else [[s[0]]] + rest
  }

  /** Each element of `s.split()` is a word. */
  lemma {:induction false} WordsAreWords(s: string)
    ensures forall k :: 0 <= k < |Split(s)| ==> IsWord(Split(s)[k])
    decreases |s|
  {
    if s != [] && !IsSpace(s[0]) {
      var rest := Split(s[1..]);
      WordsAreWords(s[1..]);
      if |s| > 1 && !IsSpace(s[1]) {
        var w := [s[0]] + rest[0];
        assert IsWord(rest[0]);
        assert forall i :: 1 <= i < |w| ==> w[i] == rest[0][i - 1];
        assert IsWord(w);
        assert Split(s) == [w] + rest[1..];
      } else {
        assert Split(s) == [[s[0]]] + rest;
      }
    } else if s != [] {
      WordsAreWords(s[1..]);
    }
  }

  /** `len(s.split())`. */
  function WordCount(s: string): nat {
    |Split(s)|
  }

  /** A leading whitespace character is skipped. */
  lemma WordsConsSpace(x: char, t: string)
    requires IsSpace(x)
    ensures Split([x] + t) == Split(t)
  {
    assert ([x] + t)[1..] == t;
  }

  /** A non-whitespace character before whitespace (or the end) is a word of its own. */
  lemma WordsConsAlone(x: char, t: string)
    requires !IsSpace(x) && (t == [] || IsSpace(t[0]))
    ensures Split([x] + t) == [[x]] + Split(t)
  {
    assert ([x] + t)[1..] == t;
  }

  /** A non-whitespace character before a word joins that word. */
  lemma WordsConsJoin(x: char, t: string)
    requires !IsSpace(x) && t != [] && !IsSpace(t[0])
    ensures Split(t) != [] && Split([x] + t) == [[x] + Split(t)[0]] + Split(t)[1..]
  {
    assert ([x] + t)[1..] == t;
  }

  /** The inductive step of `WordsAroundSpace`, one lemma per way `Words`
      treats the new first character `x`. */
  lemma StepSpace(x: char, a: string, c: char, b: string)
    requires IsSpace(c) && IsSpace(x)
    requires Split(a + [c] + b) == Split(a) + Split(b)
    ensures Split([x] + (a + [c] + b)) == Split([x] + a) + Split(b)
  {
    WordsConsSpace(x, a + [c] + b);
    WordsConsSpace(x, a);
  }

  lemma StepJoin(x: char, a: string, c: char, b: string)
    requires IsSpace(c) && !IsSpace(x) && a != [] && !IsSpace(a[0])
    requires Split(a + [c] + b) == Split(a) + Split(b)
    ensures Split([x] + (a + [c] + b)) == Split([x] + a) + Split(b)
  {
    var t := a + [c] + b;
    assert t[0] == a[0];
    WordsConsJoin(x, t);
    WordsConsJoin(x, a);
    HeadTail([x] + Split(a)[0], Split(a), Split(b));
  }

  /** Replacing the first element of a non-empty `u` commutes with appending `v`. */
  lemma HeadTail<X>(w: X, u: seq<X>, v: seq<X>)
    requires u != []
    ensures (u + v)[0] == u[0] && [w] + (u + v)[1..] == ([w] + u[1..]) + v
  {
    assert (u + v)[1..] == u[1..] + v;
  }

  lemma StepAlone(x: char, a: string, c: char, b: string)
    requires IsSpace(c) && !IsSpace(x) && (a == [] || IsSpace(a[0]))
    requires Split(a + [c] + b) == Split(a) + Split(b)
    ensures Split([x] + (a + [c] + b)) == Split([x] + a) + Split(b)
  {
    var t := a + [c] + b;
    assert t[0] == if a == [] then c else a[0];
    WordsConsAlone(x, t);
    WordsConsAlone(x, a);
    assert [[x]] + (Split(a) + Split(b)) == ([[x]] + Split(a)) + Split(b);
  }

  /** A whitespace character separates: the words of `a + [c] + b` are those
      of `a` followed by those of `b`. */
  lemma {:induction false} WordsAroundSpace(a: string, c: char, b: string)
    requires IsSpace(c)
    ensures Split(a + [c] + b) == Split(a) + Split(b)
    decreases |a|
  {
    if a == [] {
      assert a + [c] + b == [c] + b;
      WordsConsSpace(c, b);
    } else {
      var x, a' := a[0], a[1..];
      WordsAroundSpace(a', c, b);
      if IsSpace(x) {
        StepSpace(x, a', c, b);
      } else if a' != [] && !IsSpace(a'[0]) {
        StepJoin(x, a', c, b);
      } else {
        StepAlone(x, a', c, b);
      }
      assert [x] + a' == a;
      assert [x] + (a' + [c] + b) == a + [c] + b;
    }
  }

  /** `s.lstrip()`. */
  function LStrip(s: string): (t: string)
    ensures |t| <= |s| && t == s[|s| - |t|..]
    ensures t != [] ==> !IsSpace(t[0])
    ensures forall i :: 0 <= i < |s| - |t| ==> IsSpace(s[i])
    decreases |s|
  {
    if s != [] && IsSpace(s[0]) then LStrip(s[1..]) else s
  }

  /** `s.rstrip()`. */
  function RStrip(s: string): (t: string)
    ensures |t| <= |s| && t == s[..|t|]
    ensures t != [] ==> !IsSpace(t[|t| - 1])
    ensures forall i :: |t| <= i < |s| ==> IsSpace(s[i])
    decreases |s|
  {
    if s != [] && IsSpace(s[|s| - 1]) then RStrip(s[..|s| - 1]) else s
  }

  /** `s.strip()`. */
  function Strip(s: string): string {
    LStrip(RStrip(s))
  }

  lemma {:induction false} LStripKeepsWords(s: string)
    ensures Split(LStrip(s)) == Split(s)
    decreases |s|
  {
    if s != [] && IsSpace(s[0]) {
      LStripKeepsWords(s[1..]);
    }
  }

  lemma {:induction false} RStripKeepsWords(s: string)
    ensures Split(RStrip(s)) == Split(s)
    decreases |s|
  {
    if s != [] && IsSpace(s[|s| - 1]) {
      var u := s[..|s| - 1];
      assert s == u + [s[|s| - 1]] + [];
      WordsAroundSpace(u, s[|s| - 1], []);
      RStripKeepsWords(u);
    }
  }

  /** Stripping never changes the words, so `len(s.strip().split())` equals
      `len(s.split())`. */
  lemma StripKeepsWords(s: string)
    ensures Split(Strip(s)) == Split(s)
  {
    LStripKeepsWords(RStrip(s));
    RStripKeepsWords(s);
  }

  /** `" ".join(lines)`. */
  function Join(lines: seq<string>): string
    decreases |lines|
  {
    if |lines| == 0 then ""
    else if |lines| == 1 then lines[0]
    else Join(lines[..|lines| - 1]) + " " + lines[|lines| - 1]
  }

  /** `sum(len(line.split()) for line in lines)`. */
  function SumWords(lines: seq<string>): nat
    decreases |lines|
  {
    if lines == [] then 0
    else SumWords(lines[..|lines| - 1]) + WordCount(lines[|lines| - 1])
  }

  lemma {:induction false} SumWordsAppend(a: seq<string>, b: seq<string>)
    ensures SumWords(a + b) == SumWords(a) + SumWords(b)
    decreases |b|
  {
    if b != [] {
      var last := b[|b| - 1];
      assert (a + b)[..|a + b| - 1] == a + b[..|b| - 1];
      SumWordsAppend(a, b[..|b| - 1]);
    } else {
      assert a + b == a;
    }
  }

  /** The word count of a space-joined block is the sum of the word counts
      of its lines. */
  lemma {:induction false} JoinWordCount(lines: seq<string>)
    ensures WordCount(Join(lines)) == SumWords(lines)
    decreases |lines|
  {
    if |lines| == 1 {
      assert lines[..0] == [];
    } else if |lines| > 1 {
      var init := lines[..|lines| - 1];
      JoinWordCount(init);
      WordsAroundSpace(Join(init), ' ', lines[|lines| - 1]);
      assert Join(init) + " " + lines[|lines| - 1] == Join(init) + [' '] + lines[|lines| - 1];
    }
  }
}

/** The lexer's tokenizer: `re.findall(r"\s+|\w+|\W", text)`.  At each position
    the three alternatives are tried in order: a maximal run of whitespace, a
    maximal run of word characters, or one character that is not a word
    character.  Python's Unicode definitions of `\s` and `\w` are not spelled
    out; they are the two predicates of a `CharClasses` value, constrained by
    `Wf` to what Python's `re` module guarantees of them. */
module Tokenizer {

  /** The character classes `\s` (space) and `\w` (word). */
  datatype CharClasses = CharClasses(space: char -> bool, word: char -> bool)

  predicate Disjoint(k: CharClasses)
  {
    forall c :: !(k.space(c) && k.word(c))
  }

  /** Space, tab, line feed, vertical tab, form feed, carriage return. */
  predicate IsAsciiWhitespace(c: char)
  {
    c == ' ' || '\t' <= c <= '\r'
  }

  /** The printable ASCII characters other than letters, digits, `_` and space. */
  predicate IsAsciiPunctuation(c: char)
  {
    || '!' <= c <= '/'
    || ':' <= c <= '@'
    || ('[' <= c <= '`' && c != '_')
    || '{' <= c <= '~'
  }

  predicate IsAsciiWordChar(c: char)
  {
    'a' <= c <= 'z' || 'A' <= c <= 'Z' || '0' <= c <= '9' || c == '_'
  }

  /** What Python guarantees of `\s` and `\w` on str patterns: no character is
      both; ASCII letters, digits and `_` are word characters; the six ASCII
      whitespace characters are spaces; ASCII punctuation is neither. */
  predicate Wf(k: CharClasses)
  {
    && Disjoint(k)
    && (forall c :: IsAsciiWordChar(c) ==> k.word(c))
    && (forall c :: IsAsciiWhitespace(c) ==> k.space(c))
    && (forall c :: IsAsciiPunctuation(c) ==> !k.space(c) && !k.word(c))
  }

  /** Length of the longest prefix of `s` whose characters all satisfy `p`. */
  function RunLen(p: char -> bool, s: string): (n: nat)
    ensures n <= |s|
    ensures forall i :: 0 <= i < n ==> p(s[i])
    ensures n < |s| ==> !p(s[n])
  {
    if s == [] || !p(s[0]) then 0 else 1 + RunLen(p, s[1..])
  }

  /** Length of the token the regular expression matches at the start of `s`. */
  function TokenLen(k: CharClasses, s: string): (n: nat)
    requires s != []
    ensures 1 <= n <= |s|
  {
    if k.space(s[0]) then RunLen(k.space, s)
    else if k.word(s[0]) then RunLen(k.word, s)
    else 1
  }

  /** Concatenation of a token list. */
  function Flatten(ts: seq<string>): string
  {
    if ts == [] then [] else ts[0] + Flatten(ts[1..])
  }

  /** `findall(r"\s+|\w+|\W", s)`: the tokens, left to right, reproduce `s`;
      only the empty text has no tokens. */
  function Tokenize(k: CharClasses, s: string): (ts: seq<string>)
    ensures Flatten(ts) == s
    ensures ts == [] <==> s == []
    decreases |s|
  {
    if s == [] then []
    else
      var n := TokenLen(k, s);
      assert s == s[..n] + s[n..];
      [s[..n]] + Tokenize(k, s[n..])
  }

  predicate IsSpaceRun(k: CharClasses, t: string)
  {
    |t| > 0 && forall i :: 0 <= i < |t| ==> k.space(t[i])
  }

  predicate IsWordRun(k: CharClasses, t: string)
  {
    |t| > 0 && forall i :: 0 <= i < |t| ==> k.word(t[i])
  }

  predicate IsOtherChar(k: CharClasses, t: string)
  {
    |t| == 1 && !k.space(t[0]) && !k.word(t[0])
  }

  /** The three shapes a match of `\s+|\w+|\W` can take. */
  predicate IsToken(k: CharClasses, t: string)
  {
    IsSpaceRun(k, t) || IsWordRun(k, t) || IsOtherChar(k, t)
  }

  /** `b` cannot continue the run `a` ends. */
  predicate Separated(k: CharClasses, a: string, b: string)
  {
    && |b| > 0
    && (IsSpaceRun(k, a) ==> !k.space(b[0]))
    && (IsWordRun(k, a) ==> !k.word(b[0]))
  }

  /** No two neighbouring tokens are runs of the same class. */
  predicate Maximal(k: CharClasses, ts: seq<string>)
    decreases |ts|
  {
    |ts| <= 1 || (Separated(k, ts[0], ts[1]) && Maximal(k, ts[1..]))
  }

  /** A split of `s` into well-shaped tokens none of which could be longer. */
  predicate IsTokenization(k: CharClasses, s: string, ts: seq<string>)
  {
    && Flatten(ts) == s
    && (forall t :: t in ts ==> IsToken(k, t))
    && Maximal(k, ts)
  }

  /** The tokenizer's output is such a split. */
  lemma {:induction false} TokenizeIsTokenization(k: CharClasses, s: string)
    requires Disjoint(k)
    ensures IsTokenization(k, s, Tokenize(k, s))
    decreases |s|
  {
    if s != [] {
      var n := TokenLen(k, s);
      var t, rest := s[..n], s[n..];
      TokenizeIsTokenization(k, rest);
      var ts := Tokenize(k, s);
      assert ts == [t] + Tokenize(k, rest);
      assert IsToken(k, t) by {
        if k.space(s[0]) {
          assert IsSpaceRun(k, t);
        } else if k.word(s[0]) {
          assert IsWordRun(k, t);
        } else {
          assert IsOtherChar(k, t);
        }
      }
      if rest != [] {
        var next := Tokenize(k, rest);
        assert next[0] == rest[..TokenLen(k, rest)];
        assert ts[1] == next[0] && next[0][0] == s[n];
        assert Separated(k, t, ts[1]);
        assert ts[1..] == next;
      }
    }
  }

  /** A prefix of `s` that satisfies `p` throughout and cannot be extended is the run. */
  lemma RunLenUnique(p: char -> bool, s: string, n: nat)
    requires n <= |s|
    requires forall i :: 0 <= i < n ==> p(s[i])
    requires n < |s| ==> !p(s[n])
    ensures RunLen(p, s) == n
  {
  }

  /** The split is unique: the tokenizer's output is the only tokenization. */
  lemma {:induction false} TokenizationUnique(k: CharClasses, s: string, ts: seq<string>)
    requires Disjoint(k)
    requires IsTokenization(k, s, ts)
    ensures ts == Tokenize(k, s)
    decreases |ts|
  {
    if ts != [] {
      var t, more := ts[0], ts[1..];
      assert IsToken(k, t);
      assert s == t + Flatten(more);
      var m := |t|;
      assert s[..m] == t && s[m..] == Flatten(more);
      assert m < |s| ==> more != [] && more[0][0] == s[m] by {
        if m < |s| {
          assert Flatten(more) != [];
          assert Flatten(more) == more[0] + Flatten(more[1..]);
          assert |more[0]| > 0 by { assert IsToken(k, more[0]); }
        }
      }
      assert m < |s| ==> Separated(k, t, more[0]);
      if IsSpaceRun(k, t) {
        assert k.space(s[0]);
        RunLenUnique(k.space, s, m);
      } else if IsWordRun(k, t) {
        assert k.word(s[0]) && !k.space(s[0]);
        RunLenUnique(k.word, s, m);
      }
      assert TokenLen(k, s) == m;
      assert IsTokenization(k, s[m..], more);
      TokenizationUnique(k, s[m..], more);
    }
  }

  /** A token containing an ASCII punctuation character is that one character. */
  lemma {:induction false} PunctuationStandsAlone(k: CharClasses, s: string, t: string, i: int)
    requires Wf(k)
    requires t in Tokenize(k, s)
    requires 0 <= i < |t| && IsAsciiPunctuation(t[i])
    ensures t == [t[i]]
  {
    TokenizeIsTokenization(k, s);
    assert IsToken(k, t);
  }
}

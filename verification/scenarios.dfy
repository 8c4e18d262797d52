/** Worked styling passes on small spans, for any character classes with the
    properties Python guarantees and any category lists that agree with the
    stated memberships. */
module Scenarios {
  import opened Utf8
  import opened Tokenizer
  import opened Classifier
  import opened Lexer

  /** `w` is in none of the environment-supplied lists. */
  predicate Unlisted(tables: Tables, w: string)
  {
    w !in tables.keywords && w !in tables.modules && w !in tables.builtins
  }

  /** The character facts the scenarios use, all implied by `Wf`. */
  lemma AsciiFacts(k: CharClasses)
    requires Wf(k)
    ensures k.word('i') && k.word('f') && k.word('x') && k.word('o') && k.word('s')
    ensures !k.space('i') && !k.space('x') && !k.space('o')
    ensures k.space(' ') && !k.word(' ')
    ensures !k.space('=') && !k.word('=')
    ensures !k.space('(') && !k.word('(') && !k.space(')') && !k.word(')')
  {
    assert IsAsciiWordChar('i') && IsAsciiWordChar('f') && IsAsciiWordChar('x');
    assert IsAsciiWordChar('o') && IsAsciiWordChar('s');
    assert IsAsciiWhitespace(' ');
    assert IsAsciiPunctuation('=');
    assert IsAsciiPunctuation('(') && IsAsciiPunctuation(')');
  }

  /** One step of the tokenizer on a concrete span. */
  lemma Step(k: CharClasses, s: string, n: nat, t: string, rest: string)
    requires s != [] && TokenLen(k, s) == n
    requires s[..n] == t && s[n..] == rest
    ensures Tokenize(k, s) == [t] + Tokenize(k, rest)
  {
  }

  /** `==` is two `=` tokens, each styled as an operator: the two-character
      spelling in the operator list is never looked up. */
  lemma DoubleEquals(k: CharClasses, tables: Tables)
    requires Wf(k)
    requires "=" !in tables.keywords
    ensures Tokenize(k, "==") == ["=", "="]
    ensures Runs(k, tables, "==") == [Run(1, OperatorStyle), Run(1, OperatorStyle)]
  {
    AsciiFacts(k);
    Step(k, "==", 1, "=", "=");
    Step(k, "=", 1, "=", "");
  }

  lemma IfNameTokens(k: CharClasses)
    requires k.word('i') && k.word('f') && k.word('x') && !k.space('i') && !k.space('x')
    requires k.space(' ') && !k.word(' ')
    ensures Tokenize(k, "if x") == ["if", " ", "x"]
  {
    RunLenUnique(k.word, "if x", 2);
    Step(k, "if x", 2, "if", " x");
    RunLenUnique(k.space, " x", 1);
    Step(k, " x", 1, " ", "x");
    RunLenUnique(k.word, "x", 1);
    Step(k, "x", 1, "x", "");
  }

  /** `if x`: keyword, then a regular space and a regular name. */
  lemma IfName(k: CharClasses, tables: Tables)
    requires Wf(k)
    requires "if" in tables.keywords
    requires Unlisted(tables, " ") && Unlisted(tables, "x")
    ensures Runs(k, tables, "if x") == [Run(2, KeywordStyle), Run(1, RegularStyle), Run(1, RegularStyle)]
  {
    AsciiFacts(k);
    IfNameTokens(k);
    IfNameRuns(tables);
  }

  lemma IfNameRuns(tables: Tables)
    requires "if" in tables.keywords
    requires Unlisted(tables, " ") && Unlisted(tables, "x")
    ensures RunsOf(tables, Measure(["if", " ", "x"])) ==
      [Run(2, KeywordStyle), Run(1, RegularStyle), Run(1, RegularStyle)]
  {
    assert " " !in AllOperations && " " !in Brackets && !CommentMatch(" ");
    assert "x" !in AllOperations && "x" !in Brackets && !CommentMatch("x");
    assert ByteLen("if") == 2;
  }

  /** A four-byte character is one token whose run is four bytes long. */
  lemma Emoji(k: CharClasses, tables: Tables)
    ensures |Runs(k, tables, "\U{1F600}")| == 1
    ensures Runs(k, tables, "\U{1F600}")[0].length == 4
  {
    Step(k, "\U{1F600}", 1, "\U{1F600}", "");
  }

  lemma ParenthesisedTokens(k: CharClasses)
    requires k.word('x') && !k.space('x')
    requires !k.space('(') && !k.word('(') && !k.space(')') && !k.word(')')
    ensures Tokenize(k, "(x)") == ["(", "x", ")"]
  {
    Step(k, "(x)", 1, "(", "x)");
    RunLenUnique(k.word, "x)", 1);
    Step(k, "x)", 1, "x", ")");
    Step(k, ")", 1, ")", "");
  }

  /** `(x)`: bracket, regular, bracket. */
  lemma Parenthesised(k: CharClasses, tables: Tables)
    requires Wf(k)
    requires Unlisted(tables, "(") && Unlisted(tables, "x") && Unlisted(tables, ")")
    ensures Runs(k, tables, "(x)") == [Run(1, BracketsStyle), Run(1, RegularStyle), Run(1, BracketsStyle)]
  {
    AsciiFacts(k);
    ParenthesisedTokens(k);
    ParenthesisedRuns(tables);
  }

  lemma ParenthesisedRuns(tables: Tables)
    requires Unlisted(tables, "(") && Unlisted(tables, "x") && Unlisted(tables, ")")
    ensures RunsOf(tables, Measure(["(", "x", ")"])) ==
      [Run(1, BracketsStyle), Run(1, RegularStyle), Run(1, BracketsStyle)]
  {
    assert "x" !in AllOperations && "x" !in Brackets && !CommentMatch("x");
    assert "(" !in AllOperations && ")" !in AllOperations;
    assert ByteLen("(") == 1 && ByteLen("x") == 1 && ByteLen(")") == 1;
  }

  /** `os`, both an installed module and a builtin, is styled as a module. */
  lemma ModuleNamedLikeBuiltin(k: CharClasses, tables: Tables)
    requires Wf(k)
    requires "os" in tables.modules && "os" in tables.builtins && "os" !in tables.keywords
    ensures Runs(k, tables, "os") == [Run(2, ModuleStyle)]
  {
    AsciiFacts(k);
    RunLenUnique(k.word, "os", 2);
    Step(k, "os", 2, "os", "");
  }
}

/** The lexer's style ids, its category lists and the first-match chain that
    gives each token a style. */
module Classifier {
  import opened Tokenizer

  const RegularStyle := 0
  const KeywordStyle := 1
  const FunctionStyle := 2
  const CommentStyle := 3
  const OperatorStyle := 4
  const BracketsStyle := 5
  const ModuleStyle := 6

  const ArithmeticOperators: seq<string> := ["+", "-", "*", "/", "//", "**", "%", "="]
  const BitwiseOperators: seq<string> := ["&", "|", "^", "~", "<<", ">>"]
  const ConditionalOperators: seq<string> := ["==", "!=", "<=", ">="]
  const AllOperations: seq<string> := ArithmeticOperators + ConditionalOperators + BitwiseOperators
  const Brackets: seq<string> := ["(", ")", "{", "}", "[", "]"]

  /** The lists the lexer takes from its environment: the language keywords,
      the names of installed modules and the names of the builtins. */
  datatype Tables = Tables(keywords: seq<string>, modules: seq<string>, builtins: seq<string>)

  /** The name of a style, "" for an integer that is not a style id. */
  function Description(style: int): (name: string)
    ensures name == "" <==> !(RegularStyle <= style <= ModuleStyle)
  {
    if style == RegularStyle then "regular_style"
    else if style == KeywordStyle then "keyword_style"
    else if style == FunctionStyle then "function_style"
    else if style == CommentStyle then "comment_style"
    else if style == OperatorStyle then "operator_style"
    else if style == BracketsStyle then "brackets_style"
    else if style == ModuleStyle then "module_style"
    else ""
  }

  /** Each style has its own name. */
  lemma DescriptionInjective(a: int, b: int)
    requires RegularStyle <= a <= ModuleStyle && RegularStyle <= b <= ModuleStyle
    requires a != b
    ensures Description(a) != Description(b)
  {
  }

  /** `re.search(r"#.+", t)`: a `#` followed by a character other than a
      newline (without `re.DOTALL`, `.` does not match `\n`).  Only a text of
      at least two characters that contains `#` can match. */
  predicate CommentMatch(t: string)
    ensures CommentMatch(t) ==> 2 <= |t| && '#' in t
  {
    exists i :: 0 <= i < |t| - 1 && t[i] == '#' && t[i + 1] != '\n'
  }

  /** `#.+` needs one character after the `#`, and a newline is not one. */
  lemma CommentMatchCases()
    ensures CommentMatch("#a") && CommentMatch("x# ") && CommentMatch("#\n#\t")
    ensures !CommentMatch("#") && !CommentMatch("#\n") && !CommentMatch("ab\n")
  {
    assert "#a"[0] == '#' && "#a"[1] != '\n';
    assert "x# "[1] == '#' && "x# "[2] != '\n';
    assert "#\n#\t"[2] == '#' && "#\n#\t"[3] != '\n';
  }

  /** Whether the category of style `id` accepts the token `t`. */
  predicate Matches(tables: Tables, id: int, t: string)
  {
    if id == KeywordStyle then t in tables.keywords
    else if id == OperatorStyle then t in AllOperations
    else if id == BracketsStyle then t in Brackets
    else if id == ModuleStyle then t in tables.modules
    else if id == FunctionStyle then t in tables.builtins
    else if id == CommentStyle then CommentMatch(t)
    else false
  }

  /** The categories in the order the lexer tries them. */
  const Priority: seq<int> := [KeywordStyle, OperatorStyle, BracketsStyle, ModuleStyle, FunctionStyle, CommentStyle]

  /** Table-driven reference: the first rule whose category accepts `t`, or the
      regular style when none does. */
  function FirstMatch(tables: Tables, rules: seq<int>, t: string): int
  {
    if rules == [] then RegularStyle
    else if Matches(tables, rules[0], t) then rules[0]
    else FirstMatch(tables, rules[1..], t)
  }

  /** `FirstMatch` picks a rule that accepts `t` and that no earlier rule
      pre-empts, and falls back to the regular style exactly when no rule accepts. */
  lemma {:induction false} FirstMatchIsFirst(tables: Tables, rules: seq<int>, t: string)
    requires RegularStyle !in rules
    ensures var r := FirstMatch(tables, rules, t);
      && (r == RegularStyle <==> forall j :: 0 <= j < |rules| ==> !Matches(tables, rules[j], t))
      && (r != RegularStyle ==>
            exists j :: (0 <= j < |rules| && rules[j] == r && Matches(tables, r, t)
                         && forall i :: 0 <= i < j ==> !Matches(tables, rules[i], t)))
  {
    if rules != [] && !Matches(tables, rules[0], t) {
      FirstMatchIsFirst(tables, rules[1..], t);
      var r := FirstMatch(tables, rules, t);
      if r != RegularStyle {
        var j :| 0 <= j < |rules[1..]| && rules[1..][j] == r && Matches(tables, r, t)
            && forall i :: 0 <= i < j ==> !Matches(tables, rules[1..][i], t);
        assert rules[j + 1] == r;
        assert forall i :: 0 <= i < j + 1 ==> !Matches(tables, rules[i], t) by {
          forall i | 0 <= i < j + 1 ensures !Matches(tables, rules[i], t) {
            if i > 0 { assert rules[i] == rules[1..][i - 1]; }
          }
        }
      } else {
        forall j | 0 <= j < |rules| ensures !Matches(tables, rules[j], t) {
          if j > 0 { assert rules[j] == rules[1..][j - 1]; }
        }
      }
    }
  }

  /** The classification chain: keyword, operator, bracket, module, builtin,
      comment, otherwise regular. */
  function Classify(tables: Tables, t: string): (style: int)
    ensures RegularStyle <= style <= ModuleStyle
  {
    if t in tables.keywords then KeywordStyle
    else if t in AllOperations then OperatorStyle
    else if t in Brackets then BracketsStyle
    else if t in tables.modules then ModuleStyle
    else if t in tables.builtins then FunctionStyle
    else if CommentMatch(t) then CommentStyle
    else RegularStyle
  }

  /** The chain is the first match over `Priority`. */
  lemma ClassifyIsFirstMatch(tables: Tables, t: string)
    ensures Classify(tables, t) == FirstMatch(tables, Priority, t)
  {
    var p := Priority;
    assert FirstMatch(tables, p, t) == if Matches(tables, p[0], t) then p[0] else FirstMatch(tables, p[1..], t);
    assert FirstMatch(tables, p[1..], t) == if Matches(tables, p[1], t) then p[1] else FirstMatch(tables, p[2..], t);
    assert FirstMatch(tables, p[2..], t) == if Matches(tables, p[2], t) then p[2] else FirstMatch(tables, p[3..], t);
    assert FirstMatch(tables, p[3..], t) == if Matches(tables, p[3], t) then p[3] else FirstMatch(tables, p[4..], t);
    assert FirstMatch(tables, p[4..], t) == if Matches(tables, p[4], t) then p[4] else FirstMatch(tables, p[5..], t);
    assert FirstMatch(tables, p[5..], t) == if Matches(tables, p[5], t) then p[5] else FirstMatch(tables, p[6..], t);
    assert p[6..] == [];
  }

  /** A name that is both an installed module and a builtin gets the module style. */
  lemma ModuleBeatsBuiltin(tables: Tables, t: string)
    requires t in tables.modules && t in tables.builtins
    requires t !in tables.keywords && t !in AllOperations && t !in Brackets
    ensures Classify(tables, t) == ModuleStyle
    ensures Classify(tables, t) != FunctionStyle
  {
  }

  /** No token of the tokenizer matches `#.+`: the comment style is never chosen. */
  lemma {:induction false} TokenNeverComment(k: CharClasses, tables: Tables, s: string, t: string)
    requires Wf(k)
    requires t in Tokenize(k, s)
    ensures !CommentMatch(t)
    ensures Classify(tables, t) != CommentStyle
  {
    if CommentMatch(t) {
      var i :| 0 <= i < |t| - 1 && t[i] == '#' && t[i + 1] != '\n';
      assert IsAsciiPunctuation(t[i]);
      PunctuationStandsAlone(k, s, t, i);
      assert false;
    }
  }

  /** Only the one-character operator spellings can be tokens; `//`, `**`,
      `==`, `!=`, `<=`, `>=`, `<<` and `>>` never are. */
  lemma {:induction false} OperatorTokensAreSingleChars(k: CharClasses, s: string, t: string)
    requires Wf(k)
    requires t in Tokenize(k, s)
    requires t in AllOperations
    ensures |t| == 1
    ensures t in ["+", "-", "*", "/", "%", "=", "&", "|", "^", "~"]
  {
    OperatorSpellings(t);
    PunctuationStandsAlone(k, s, t, 0);
  }

  /** Every operator spelling starts with ASCII punctuation, and the
      one-character spellings are the ten listed. */
  lemma OperatorSpellings(op: string)
    requires op in AllOperations
    ensures |op| >= 1 && IsAsciiPunctuation(op[0])
    ensures |op| == 1 ==> op in ["+", "-", "*", "/", "%", "=", "&", "|", "^", "~"]
  {
    var j :| 0 <= j < |AllOperations| && AllOperations[j] == op;
  }

  /** A whitespace run that no category list names gets the regular style. */
  lemma WhitespaceIsRegular(k: CharClasses, tables: Tables, t: string)
    requires Wf(k)
    requires IsSpaceRun(k, t)
    requires t !in tables.keywords && t !in tables.modules && t !in tables.builtins
    ensures Classify(tables, t) == RegularStyle
  {
    assert !IsAsciiPunctuation(t[0]);
    assert t !in AllOperations && t !in Brackets;
  }
}

# Syntax-highlighting lexer of the py_see editor, in Dafny

The editor repaints a span of its document through a custom QScintilla lexer,
`PythonLexer` in `utilities/lexers/lexer_ide.py`. Each call to `styleText` does four things:

1. It splits the span with `re.findall(r"\s+|\w+|\W", text)` into maximal whitespace runs,
   maximal word-character runs and single other characters.
2. It pairs every token with the length of its UTF-8 encoding
   (`len(bytearray(token, "utf-8"))`, section 3 of RFC 3629).
3. It gives every token one of seven style ids through a first-match chain:
   keyword, operator, bracket, installed module, builtin, `#.+` comment, regular.
4. It calls `setStyling(byteLength, styleId)` once per token. The host editor
   advances its byte cursor by `byteLength` on each call.

Afterwards `assertion_check_for_syntax_highlighting` sums the byte lengths and compares
the sum with the UTF-8 length of the span.

The model has five modules:

- `Utf8` (`utf8.dfy`): the RFC 3629 encoding of one scalar value, its length, and
  the byte length of a text.
- `Tokenizer` (`tokenizer.dfy`): the `findall` tokenizer over abstract `\s`/`\w` classes
  (`CharClasses`). It also gives an independent characterisation of its output
  (`IsTokenization`: the tokens concatenate to the text, each has one of the three
  shapes, and no two neighbours are runs of the same class). The proofs show that the
  output meets this characterisation and that only one split does.
- `Classifier` (`classifier.dfy`): the style ids, the operator and bracket lists,
  `description`, and the classification chain. The chain is proved equal to a
  table-driven first match over the priority list.
- `Lexer` (`lexer.dfy`): the measured tokens, the runs a pass emits, the byte-sum check
  (a loop, as in the source), and the `PythonLexer` class. Its `runs` sequence and
  byte `cursor` are updated by `SetStyling` inside the loop of `StyleText`.
- `Scenarios` (`scenarios.dfy`): worked passes on small spans.

Some of what the code does is easy to misread:

- `#` is not a word character, so it is always a token of its own. No token can
  match `#.+`, and the comment style is never emitted (`Classifier.TokenNeverComment`).
- The two-character operator spellings (`//`, `**`, `==`, `!=`, `<=`, `>=`, `<<`, `>>`)
  can never be tokens. `==` styles as two one-character `=` operator tokens, not as one
  `==` token (`Scenarios.DoubleEquals`). The model follows the code here, not a reading
  of the operator list as a list of tokens.
- The source only prints the result of its byte-sum comparison. The model returns it
  from `AssertionCheck`, and `PythonLexer.StyleText` proves that the comparison always holds.

## Model

| member | source | states |
|---|---|---|
| `Utf8.Utf8Len` | utilities/lexers/lexer_ide.py:109 | a scalar value takes 1 to 4 bytes, and exactly 1 when it is ASCII |
| `Utf8.EncodeChar` | utilities/lexers/lexer_ide.py:109 | the encoding has `Utf8Len` bytes; its lead byte announces that length; the other bytes are continuation bytes |
| `Utf8.DecodeEncodeChar` | utilities/lexers/lexer_ide.py:109 | decoding the encoding of a character gives back its scalar value |
| `Utf8.Encode` | utilities/lexers/lexer_ide.py:109 | `bytearray(s, "utf-8")` has one to four bytes per character, and its first byte announces the length of the first character's encoding |
| `Utf8.ByteLen` | utilities/lexers/lexer_ide.py:109 | a text of n characters has between n and 4n bytes, and exactly n only when it is all ASCII |
| `Utf8.EncodeLength` | utilities/lexers/lexer_ide.py:132 | the byte length is the length of the encoded byte array |
| `Utf8.EncodeConcat` | utilities/lexers/lexer_ide.py:109-132 | the encoding of a text is the encodings of its tokens, concatenated in order |
| `Utf8.ByteLenConcat` | utilities/lexers/lexer_ide.py:132-137 | byte lengths add over concatenation |
| `Tokenizer.RunLen` | utilities/lexers/lexer_ide.py:98 | `\s+` / `\w+` match the longest prefix whose characters are all in the class: every character before it is in the class, the next one is not |
| `Tokenizer.TokenLen` | utilities/lexers/lexer_ide.py:98 | the match at a non-empty position is non-empty and stays within the text |
| `Tokenizer.Tokenize` | utilities/lexers/lexer_ide.py:98-110 | the tokens concatenate back to the text; the empty text, and only it, has no tokens |
| `Tokenizer.TokenizeIsTokenization` | utilities/lexers/lexer_ide.py:98 | every token is a whitespace run, a word run or one character in neither class, and no token could be extended into its neighbour |
| `Tokenizer.TokenizationUnique` | utilities/lexers/lexer_ide.py:98 | any split with those properties is the tokenizer's output |
| `Tokenizer.PunctuationStandsAlone` | utilities/lexers/lexer_ide.py:98 | a token containing an ASCII punctuation character is that single character |
| `Classifier.Description` | utilities/lexers/lexer_ide.py:74-90 | the name is empty exactly for integers outside the style ids 0..6 |
| `Classifier.CommentMatch` | utilities/lexers/lexer_ide.py:124 | `re.search(r"#.+", t)` read as a `#` followed by a character other than a newline (`.` without `re.DOTALL`); only a text of two or more characters containing `#` can match |
| `Classifier.CommentMatchCases` | utilities/lexers/lexer_ide.py:124 | `#a`, `x# ` and `#\n#\t` match; `#`, `#\n` and `ab\n` do not: the character after `#` must exist and must not be a newline |
| `Classifier.DescriptionInjective` | utilities/lexers/lexer_ide.py:74-90 | two different style ids have different names |
| `Classifier.Classify` | utilities/lexers/lexer_ide.py:113-127 | every token gets one of the style ids 0..6 |
| `Classifier.FirstMatchIsFirst` | utilities/lexers/lexer_ide.py:113-127 | a first-match table returns a rule that accepts the token and that no earlier rule pre-empts; it returns the regular style exactly when no rule accepts |
| `Classifier.ClassifyIsFirstMatch` | utilities/lexers/lexer_ide.py:113-127 | the if-chain equals the first match over keyword, operator, bracket, module, builtin, comment |
| `Classifier.ModuleBeatsBuiltin` | utilities/lexers/lexer_ide.py:120-123 | a name that is both an installed module and a builtin gets the module style, never the function style |
| `Classifier.OperatorSpellings` | utilities/lexers/lexer_ide.py:40-48 | every operator spelling starts with ASCII punctuation, and the one-character spellings are the ten listed |
| `Classifier.TokenNeverComment` | utilities/lexers/lexer_ide.py:124-125 | no token matches `#.+`, so no token gets the comment style |
| `Classifier.OperatorTokensAreSingleChars` | utilities/lexers/lexer_ide.py:116-117 | a token found in the operator list is one of its ten one-character spellings |
| `Classifier.WhitespaceIsRegular` | utilities/lexers/lexer_ide.py:113-127 | a whitespace run that no environment list names gets the regular style |
| `Lexer.Measure` | utilities/lexers/lexer_ide.py:108-111 | one pair per token, in order, each token kept with a size between its character count and four times that |
| `Lexer.SumSizes` | utilities/lexers/lexer_ide.py:134-137 | the accumulated `sum_of_tokens`; no single size exceeds it (`SumSizesAppend` and `MeasuredTotal` prove it adds over concatenation and equals the byte length of the tokens) |
| `Lexer.MeasuredTotal` | utilities/lexers/lexer_ide.py:134-137 | the sizes of a token list add up to the byte length of the tokens' concatenation |
| `Lexer.RunsTotal` | utilities/lexers/lexer_ide.py:113-127 | the lengths handed to `setStyling` add up to the summed sizes |
| `Lexer.RunsOf` | utilities/lexers/lexer_ide.py:113-127 | one `setStyling` run per measured token, in order, with the token's size as its length and a style id in 0..6 (`RunsTotal` proves the lengths sum to the sizes) |
| `Lexer.Runs` | utilities/lexers/lexer_ide.py:108-127 | the runs of one pass: one per token, each between the token's character count and four times it in length, each with a style id (`Conservation`, `RunPerToken` and `RunStyles` prove their total, exact lengths and styles; `PythonLexer.StyleText` emits exactly these) |
| `Lexer.Conservation` | utilities/lexers/lexer_ide.py:129-141 | the lengths a pass emits add up to the UTF-8 byte length of the span |
| `Lexer.RunPerToken` | utilities/lexers/lexer_ide.py:108-127 | a pass emits exactly one run per token, in token order; the run's length is the token's byte length (1 to 4 bytes per character) and its style is the token's class, in 0..6 |
| `Lexer.TokenStyle` | utilities/lexers/lexer_ide.py:113-127 | a token is never styled as a comment, and is styled as an operator only when it is one character |
| `Lexer.RunStyles` | utilities/lexers/lexer_ide.py:113-127 | no run of a pass carries the comment style, and operator runs are one-character tokens |
| `Lexer.AssertionCheck` | utilities/lexers/lexer_ide.py:131-141 | returns the span's byte length, the sum of the token sizes, and whether they are equal |
| `Lexer.PythonLexer.constructor` | utilities/lexers/lexer_ide.py:25-52 | the lexer keeps the given character classes and category lists, with no runs emitted and the cursor at 0 |
| `Lexer.PythonLexer.StartStyling` | utilities/lexers/lexer_ide.py:93 | moves the cursor to `start` and emits nothing |
| `Lexer.PythonLexer.SetStyling` | utilities/lexers/lexer_ide.py:115 | appends one run and advances the cursor by its length |
| `Lexer.PythonLexer.StyleText` | utilities/lexers/lexer_ide.py:92-129 | appends exactly the pass's runs, leaves the cursor at `start` plus the span's byte length, and the closing byte-sum comparison holds |
| `Scenarios.DoubleEquals` | utilities/lexers/lexer_ide.py:98 | `==` is the two tokens `=`, `=`, both styled as operators |
| `Scenarios.IfName` | utilities/lexers/lexer_ide.py:113-127 | `if x` styles as keyword (2 bytes), regular, regular |
| `Scenarios.Emoji` | utilities/lexers/lexer_ide.py:108-111 | a single U+1F600 is one run of 4 bytes |
| `Scenarios.Parenthesised` | utilities/lexers/lexer_ide.py:118-119 | `(x)` styles as bracket, regular, bracket |
| `Scenarios.ModuleNamedLikeBuiltin` | utilities/lexers/lexer_ide.py:120-123 | `os`, both a module and a builtin, is one 2-byte run in the module style |

## Left out

- Qt colour, paper and font registration (`utilities/lexers/lexer_ide.py:28-30`, `54-68`): presentation only, with no effect on runs.
- `logging` output (`console_debug`) and the `print` of the byte-sum comparison: output only. `AssertionCheck` returns the printed values instead.
- Building the keyword, module and builtin lists from `keyword.kwlist`, `pkgutil.iter_modules()` and `dir(builtins)`. This is environment introspection; the lists are the `Tables` passed to the constructor.
- Reading the span with `self.parent().document.text()[start:end]` (`utilities/lexers/lexer_ide.py:96`): it reaches into the host widget, so `StyleText` takes the span's byte offset `start` and its text directly. This hides a mismatch of units in the source. The slice indexes a Python `str` by code point, while `start` (line 93) and the run lengths (lines 109, 115) are UTF-8 byte counts. The model's `cursor == start + ByteLen(text)` therefore equals `end` only when the document has no non-ASCII character before `end`. For the document `ééé` (6 bytes), `styleText(0, 3)` gets all of `ééé` and styles 6 bytes, past `end`; for `éab` (4 bytes), `styleText(2, 4)` gets only `b` and paints one byte, the `a`, with the style of `b`, leaving the `b` itself unstyled. The model does not capture which text a given byte range selects.
- The host editor's painting: only what the lexer hands it is modelled, as the `runs` sequence and the byte `cursor`.
- Python's full Unicode definitions of `\s` and `\w`. They are the two predicates of `CharClasses`. `Wf` assumes only what Python guarantees: no character is in both; ASCII letters, digits and `_` are word characters; the six ASCII whitespace characters are whitespace; ASCII punctuation is in neither class.
- Lone surrogates, on which Python's UTF-8 encoder raises: a Dafny `char` is a Unicode scalar value, so they cannot occur.
- The commented-out regular expressions for strings, functions, comments and decorators (`utilities/lexers/lexer_ide.py:100-106`): they are not part of the running code.
- A worked pass over the whole line `if x == 1:`: the two scenarios `IfName` and `DoubleEquals` cover its parts.

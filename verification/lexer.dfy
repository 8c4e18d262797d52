/** The styling pass of `PythonLexer`: the text span is tokenized, every token
    is paired with its UTF-8 byte length and classified, and one styling run is
    handed to the host editor per token, advancing its byte cursor.  Afterwards
    the byte lengths are summed and compared with the byte length of the span. */
module Lexer {
  import opened Utf8
  import opened Tokenizer
  import opened Classifier

  /** One `setStyling(length, style)` call: `length` bytes painted with `style`. */
  datatype Run = Run(length: nat, style: int)

  /** A token paired with `len(bytearray(token, "utf-8"))`. */
  datatype Measured = Measured(text: string, size: nat)

  /** The list comprehension pairing every token with its byte length. */
  function Measure(ts: seq<string>): (ms: seq<Measured>)
    ensures |ms| == |ts|
    ensures forall i :: 0 <= i < |ts| ==> ms[i].text == ts[i] && |ts[i]| <= ms[i].size <= 4 * |ts[i]|
  {
    seq(|ts|, i requires 0 <= i < |ts| => Measured(ts[i], ByteLen(ts[i])))
  }

  /** The sum of the measured sizes; no single size exceeds it. */
  function SumSizes(ms: seq<Measured>): (n: nat)
    ensures forall i :: 0 <= i < |ms| ==> ms[i].size <= n
  {
    if ms == [] then 0 else ms[0].size + SumSizes(ms[1..])
  }

  lemma {:induction false} SumSizesAppend(a: seq<Measured>, b: seq<Measured>)
    ensures SumSizes(a + b) == SumSizes(a) + SumSizes(b)
  {
    if a == [] {
      assert a + b == b;
    } else {
      assert (a + b)[1..] == a[1..] + b;
      SumSizesAppend(a[1..], b);
    }
  }

  /** Extending a prefix of the measured tokens by one token adds its size. */
  lemma SumSizesStep(ms: seq<Measured>, i: nat)
    requires i < |ms|
    ensures SumSizes(ms[..i + 1]) == SumSizes(ms[..i]) + ms[i].size
  {
    assert ms[..i + 1] == ms[..i] + [ms[i]];
    SumSizesAppend(ms[..i], [ms[i]]);
  }

  /** The measured sizes of a token list add up to the byte length of its concatenation. */
  lemma {:induction false} MeasuredTotal(ts: seq<string>)
    ensures SumSizes(Measure(ts)) == ByteLen(Flatten(ts))
  {
    if ts != [] {
      assert Measure(ts)[1..] == Measure(ts[1..]);
      MeasuredTotal(ts[1..]);
      ByteLenConcat(ts[0], Flatten(ts[1..]));
    }
  }

  /** The run emitted for each measured token, in order. */
  function RunsOf(tables: Tables, ms: seq<Measured>): (rs: seq<Run>)
    ensures |rs| == |ms|
    ensures forall i :: 0 <= i < |ms| ==>
      && rs[i].length == ms[i].size
      && RegularStyle <= rs[i].style <= ModuleStyle
  {
    seq(|ms|, i requires 0 <= i < |ms| => Run(ms[i].size, Classify(tables, ms[i].text)))
  }

  /** Sum of the lengths handed to `setStyling`. */
  function TotalLength(rs: seq<Run>): nat
  {
    if rs == [] then 0 else rs[0].length + TotalLength(rs[1..])
  }

  /** The runs' lengths are the measured sizes. */
  lemma {:induction false} RunsTotal(tables: Tables, ms: seq<Measured>)
    ensures TotalLength(RunsOf(tables, ms)) == SumSizes(ms)
  {
    if ms != [] {
      assert RunsOf(tables, ms)[1..] == RunsOf(tables, ms[1..]);
      RunsTotal(tables, ms[1..]);
    }
  }

  /** Extending a prefix of the measured tokens by one token adds its run. */
  lemma RunsOfStep(tables: Tables, ms: seq<Measured>, i: nat)
    requires i < |ms|
    ensures RunsOf(tables, ms[..i + 1]) == RunsOf(tables, ms[..i]) + [Run(ms[i].size, Classify(tables, ms[i].text))]
  {
    assert ms[..i + 1] == ms[..i] + [ms[i]];
  }

  /** The runs one styling pass emits for `text`: one per token, one to four
      bytes per character of the token, each with a style id. */
  function Runs(k: CharClasses, tables: Tables, text: string): (rs: seq<Run>)
    ensures var ts := Tokenize(k, text);
      && |rs| == |ts|
      && forall i :: 0 <= i < |ts| ==>
           && |ts[i]| <= rs[i].length <= 4 * |ts[i]|
           && RegularStyle <= rs[i].style <= ModuleStyle
  {
    RunsOf(tables, Measure(Tokenize(k, text)))
  }

  /** Conservation: the emitted lengths add up to the UTF-8 byte length of the span. */
  lemma {:induction false} Conservation(k: CharClasses, tables: Tables, text: string)
    ensures TotalLength(Runs(k, tables, text)) == ByteLen(text)
  {
    var ts := Tokenize(k, text);
    RunsTotal(tables, Measure(ts));
    MeasuredTotal(ts);
  }

  /** One run per token, in token order: its length is the token's byte length,
      one to four bytes per character, and its style is the token's class. */
  lemma {:induction false} RunPerToken(k: CharClasses, tables: Tables, text: string)
    ensures var ts, rs := Tokenize(k, text), Runs(k, tables, text);
      && |rs| == |ts|
      && forall i :: 0 <= i < |ts| ==>
           && rs[i].length == ByteLen(ts[i])
           && |ts[i]| <= rs[i].length <= 4 * |ts[i]|
           && rs[i].style == Classify(tables, ts[i])
           && RegularStyle <= rs[i].style <= ModuleStyle
  {
  }

  /** No run ever carries the comment style, and the operator style only
      one-character tokens. */
  lemma {:induction false} RunStyles(k: CharClasses, tables: Tables, text: string)
    requires Wf(k)
    ensures var ts, rs := Tokenize(k, text), Runs(k, tables, text);
      forall i :: 0 <= i < |ts| ==>
        && rs[i].style != CommentStyle
        && (rs[i].style == OperatorStyle ==> |ts[i]| == 1)
  {
    var ts, rs := Tokenize(k, text), Runs(k, tables, text);
    forall i | 0 <= i < |ts|
      ensures rs[i].style != CommentStyle
      ensures rs[i].style == OperatorStyle ==> |ts[i]| == 1
    {
      assert ts[i] in ts;
      assert rs[i].style == Classify(tables, ts[i]);
      TokenStyle(k, tables, text, ts[i]);
    }
  }

  lemma {:induction false} TokenStyle(k: CharClasses, tables: Tables, text: string, t: string)
    requires Wf(k)
    requires t in Tokenize(k, text)
    ensures Classify(tables, t) != CommentStyle
    ensures Classify(tables, t) == OperatorStyle ==> |t| == 1
  {
    TokenNeverComment(k, tables, text, t);
    if Classify(tables, t) == OperatorStyle {
      OperatorTokensAreSingleChars(k, text, t);
    }
  }

  /** `assertion_check_for_syntax_highlighting`: sums the measured sizes and
      compares the sum with the byte length of the text. */
  method AssertionCheck(text: string, ms: seq<Measured>) returns (holds: bool, textBytes: nat, total: nat)
    ensures textBytes == ByteLen(text)
    ensures total == SumSizes(ms)
    ensures holds <==> textBytes == total
  {
    textBytes := ByteLen(text);
    total := 0;
    var i := 0;
    while i < |ms|
      invariant 0 <= i <= |ms|
      invariant total == SumSizes(ms[..i])
    {
      SumSizesStep(ms, i);
      total := total + ms[i].size;
      i := i + 1;
    }
    assert ms[..i] == ms;
    holds := textBytes == total;
  }

  /** The lexer as the host editor sees it: fixed character classes and
      category lists, and the runs it has handed to the editor together with
      the editor's styling cursor (a byte offset into the document). */
  class PythonLexer {
    const classes: CharClasses
    const tables: Tables
    var runs: seq<Run>
    var cursor: nat

    constructor (classes: CharClasses, tables: Tables)
      ensures this.classes == classes && this.tables == tables
      ensures runs == [] && cursor == 0
    {
      this.classes := classes;
      this.tables := tables;
      runs := [];
      cursor := 0;
    }

    /** `startStyling(start)`: moves the styling cursor to `start`. */
    method StartStyling(start: nat)
      modifies this
      ensures cursor == start && runs == old(runs)
    {
      cursor := start;
    }

    /** `setStyling(length, style)`: paints `length` bytes from the cursor and
      advances the cursor past them. */
    method SetStyling(length: nat, style: int)
      modifies this
      ensures runs == old(runs) + [Run(length, style)]
      ensures cursor == old(cursor) + length
    {
      runs := runs + [Run(length, style)];
      cursor := cursor + length;
    }

    /** `styleText` on the span `text` starting at byte offset `start`: one run
        per token, in order, ending with the cursor exactly at the end of the
        span; the closing byte-length check always holds. */
    method StyleText(start: nat, text: string) returns (holds: bool)
      modifies this
      ensures runs == old(runs) + Runs(classes, tables, text)
      ensures cursor == start + ByteLen(text)
      ensures holds
    {
      StartStyling(start);
      var tokens := Measure(Tokenize(classes, text));
      var i := 0;
      while i < |tokens|
        invariant 0 <= i <= |tokens|
        invariant runs == old(runs) + RunsOf(tables, tokens[..i])
        invariant cursor == start + SumSizes(tokens[..i])
      {
        var style := Classify(tables, tokens[i].text);
        SetStyling(tokens[i].size, style);
        RunsOfStep(tables, tokens, i);
        SumSizesStep(tokens, i);
        i := i + 1;
      }
      assert tokens[..i] == tokens;
      MeasuredTotal(Tokenize(classes, text));
      var textBytes, total;
      holds, textBytes, total := AssertionCheck(text, tokens);
    }
  }
}

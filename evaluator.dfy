/**
 * The heuristic evaluator (backend/evaluation/evaluator.py). A code answer
 * is scored on structure keywords and four style patterns; a prose answer on
 * its word overlap with the retrieved chunks, citations and layout. The
 * regular-expression searches are not modelled character by character: their
 * outcomes for the text being scored arrive as `Signals`.
 */
module Evaluator {
  import opened Text

  /** Outcomes of the regular-expression searches on one text. */
  datatype Signals = Signals(
    comments: bool,       // `#...`, `//...` or `/* ... */`
    docstrings: bool,     // a triple-quoted block
    errorHandling: bool,  // `try:`, `except:` or `catch (`
    typeHints: bool,      // `def f(x: T`
    imports: bool,        // a line starting with `import ` or `from `
    citation: bool,       // `[...]`, `(...)`, `source`, `document` or `according` in the lower-cased answer
    markdown: bool)       // `**...**` or a `#` heading
  {
    /** The four style patterns, in the order the evaluator tries them. */
    function PatternHits(): seq<bool> {
      [comments, docstrings, errorHandling, typeHints]
    }
  }

  /** The score dictionaries: one shape for code, one for prose answers. */
  datatype Scores =
    | CodeScores(correctness: real, quality: real, completeness: real, total: real)
    | AnswerScores(grounding: real, clarity: real, completeness: real, total: real)

  function RMin(a: real, b: real): real { if a <= b then a else b }

  function Hits(bs: seq<bool>): (n: nat)
    ensures n <= |bs|
  {
    if bs == [] then 0 else (if bs[0] then 1 else 0) + Hits(bs[1..])
  }

  lemma HitsOfFour(a: bool, b: bool, c: bool, d: bool)
    ensures Hits([a, b, c, d]) == (if a then 1 else 0) + (if b then 1 else 0)
                                 + (if c then 1 else 0) + (if d then 1 else 0)
  {
    assert [a, b, c, d][1..] == [b, c, d];
    assert [b, c, d][1..] == [c, d];
    assert [c, d][1..] == [d];
    assert [d][1..] == [];
    assert Hits([d]) == (if d then 1 else 0);
    assert Hits([c, d]) == (if c then 1 else 0) + Hits([d]);
    assert Hits([b, c, d]) == (if b then 1 else 0) + Hits([c, d]);
  }

  lemma HitsSnoc(bs: seq<bool>, b: bool)
    ensures Hits(bs + [b]) == Hits(bs) + (if b then 1 else 0)
  {
    if bs != [] {
      assert (bs + [b])[1..] == bs[1..] + [b];
    }
  }

  /** The structure test: `"def "`, `"function "` or `"class "` occurs in the code. */
  predicate Structural(code: string) {
    Contains(code, "def ") || Contains(code, "function ") || Contains(code, "class ")
  }

  /**
   * The code score. Correctness stays at its base 0.5, completeness earns
   * 0.2 for structure, quality 0.1 per style pattern and 0.1 for imports, and
   * the total is the 0.4/0.3/0.3 weighted average; so it lies between 0.5 and
   * 0.71 and is 0.5 exactly when nothing was found.
   */
  function CodeEvaluation(code: string, sig: Signals): (s: Scores)
    ensures s.CodeScores? && s.correctness == 0.5
    ensures 0.5 <= s.quality <= 1.0 && 0.5 <= s.completeness <= 0.7
    ensures s.total == 0.4 * s.correctness + 0.3 * s.quality + 0.3 * s.completeness
    ensures 0.5 <= s.total <= 0.71
    ensures s.total == 0.5 <==> !Structural(code) && Hits(sig.PatternHits()) == 0 && !sig.imports
  {
    var completeness := 0.5 + (if Structural(code) then 0.2 else 0.0);
    var quality := 0.5 + 0.1 * (Hits(sig.PatternHits()) as real) + (if sig.imports then 0.1 else 0.0);
    var c := RMin(1.0, 0.5);
    var q := RMin(1.0, quality);
    var m := RMin(1.0, completeness);
    CodeScores(c, q, m, c * 0.4 + q * 0.3 + m * 0.3)
  }

  /** The loop over the style patterns: 0.1 of quality per pattern found. */
  method AddPatternHits(quality0: real, patterns: seq<bool>) returns (quality: real)
    ensures quality == quality0 + 0.1 * (Hits(patterns) as real)
  {
    quality := quality0;
    for k := 0 to |patterns|
      invariant quality == quality0 + 0.1 * (Hits(patterns[..k]) as real)
    {
      HitsSnoc(patterns[..k], patterns[k]);
      assert patterns[..k + 1] == patterns[..k] + [patterns[k]];
      if patterns[k] {
        quality := quality + 0.1;
      }
    }
    assert patterns[..|patterns|] == patterns;
  }

  /** `evaluate_code`, with its loop over the style patterns. */
  method EvaluateCode(code: string, sig: Signals) returns (scores: Scores)
    ensures scores == CodeEvaluation(code, sig)
  {
    var correctness := 0.5;
    var quality := 0.5;
    var completeness := 0.5;
    if Structural(code) {
      completeness := completeness + 0.2;
    }
    quality := AddPatternHits(quality, sig.PatternHits());
    if sig.imports {
      quality := quality + 0.1;
    }
    correctness := RMin(1.0, correctness);
    quality := RMin(1.0, quality);
    completeness := RMin(1.0, completeness);
    scores := CodeScores(correctness, quality, completeness,
                         correctness * 0.4 + quality * 0.3 + completeness * 0.3);
  }

  /** Every style pattern, and the import test, found in `a` is also found in `b`. */
  predicate CodeSignalsWeaker(a: Signals, b: Signals) {
    (a.comments ==> b.comments) && (a.docstrings ==> b.docstrings)
    && (a.errorHandling ==> b.errorHandling) && (a.typeHints ==> b.typeHints)
    && (a.imports ==> b.imports)
  }

  /** Finding more style patterns never lowers a code score. */
  lemma CodeScoreMonotone(code: string, a: Signals, b: Signals)
    requires CodeSignalsWeaker(a, b)
    ensures CodeEvaluation(code, a).total <= CodeEvaluation(code, b).total
  {
    HitsOfFour(a.comments, a.docstrings, a.errorHandling, a.typeHints);
    HitsOfFour(b.comments, b.docstrings, b.errorHandling, b.typeHints);
  }

  /** The number of lines, `len(answer.split("\n"))`. */
  function LineCount(answer: string): nat {
    |SplitOn(answer, "\n")|
  }

  /**
   * The prose score. Without chunks every component keeps its base 0.5.
   * Otherwise grounding is twice the Jaccard overlap of the answer's and the
   * chunks' lower-cased word sets (capped at 1, left at 0.5 when both sets are
   * empty) plus 0.2 for a citation, clarity earns 0.2 for more than three
   * lines and 0.1 for markdown, and the total is the 0.5/0.3/0.2 weighted
   * average, which lies between 0.25 and 0.84.
   */
  function AnswerEvaluation(answer: string, chunks: seq<string>, sig: Signals): (s: Scores)
    ensures s.AnswerScores? && s.completeness == 0.5
    ensures chunks == [] ==> s == AnswerScores(0.5, 0.5, 0.5, 0.5)
    ensures 0.0 <= s.grounding <= 1.0 && 0.5 <= s.clarity <= 0.8
    ensures s.total == 0.5 * s.grounding + 0.3 * s.clarity + 0.2 * s.completeness
    ensures 0.25 <= s.total <= 0.84
  {
    if chunks == [] then AnswerScores(0.5, 0.5, 0.5, 0.5)
    else
      var a := WordSet(answer);
      var c := WordSet(Join(" ", chunks));
      var grounding := if |a + c| > 0 then RMin(1.0, Jaccard(a, c) * 2.0) else 0.5;
      var grounding' := grounding + (if sig.citation then 0.2 else 0.0);
      var clarity := 0.5 + (if LineCount(answer) > 3 then 0.2 else 0.0)
                         + (if sig.markdown then 0.1 else 0.0);
      var g := RMin(1.0, grounding');
      var cl := RMin(1.0, clarity);
      var co := RMin(1.0, 0.5);
      AnswerScores(g, cl, co, g * 0.5 + cl * 0.3 + co * 0.2)
  }

  /** An answer that shares no word with non-empty chunks, and cites nothing, has no grounding. */
  lemma UngroundedAnswer(answer: string, chunks: seq<string>, sig: Signals)
    requires chunks != [] && !sig.citation
    requires WordSet(answer) * WordSet(Join(" ", chunks)) == {}
    requires WordSet(answer) + WordSet(Join(" ", chunks)) != {}
    ensures AnswerEvaluation(answer, chunks, sig).grounding == 0.0
  {
  }

  /** An answer whose words are exactly the chunks' words is fully grounded. */
  lemma FullyGroundedAnswer(answer: string, chunks: seq<string>, sig: Signals)
    requires chunks != [] && WordSet(answer) == WordSet(Join(" ", chunks)) != {}
    ensures AnswerEvaluation(answer, chunks, sig).grounding == 1.0
  {
    var a := WordSet(answer);
    assert a * a == a && a + a == a;
  }

  /** `evaluate`: the code score for code, the prose score otherwise. */
  function Evaluation(solution: string, isCode: bool, chunks: seq<string>, sig: Signals): (s: Scores)
    ensures isCode ==> s.CodeScores? && 0.5 <= s.total <= 0.71
    ensures !isCode ==> s.AnswerScores? && 0.25 <= s.total <= 0.84
    ensures !isCode && chunks == [] ==> s.total == 0.5
  {
    if isCode then CodeEvaluation(solution, sig) else AnswerEvaluation(solution, chunks, sig)
  }

  method Evaluate(solution: string, isCode: bool, chunks: seq<string>, sig: Signals) returns (s: Scores)
    ensures s == Evaluation(solution, isCode, chunks, sig)
  {
    if isCode {
      s := EvaluateCode(solution, sig);
    } else {
      s := AnswerEvaluation(solution, chunks, sig);
    }
  }

  /** Every total the evaluator produces lies in [0.25, 0.84]; code totals never fall below 0.5. */
  lemma TotalInUnitRange(solution: string, isCode: bool, chunks: seq<string>, sig: Signals)
    ensures 0.25 <= Evaluation(solution, isCode, chunks, sig).total <= 0.84
  {
  }
}

/**
 The two decisions the handler takes on the model's (stripped) output and
 the user's question: which of the three response shapes the output has,
 and whether the question asks for a chart.
 */
module Classifier {
  import opened Text
  import opened Fence

  /** The marker of unfenced plotting code. */
  const PlotMarker: string := "plt."

  /** The chart-intent vocabulary, matched as substrings of the lower-cased
      question. */
  const ChartWords: seq<string> := ["chart", "plot", "graph", "visual"]

  /** The shape of a model response, decided first match wins. */
  datatype Shape =
    | FencedCode(code: string)
    | UnfencedPlot(code: string)
    | PlainAnswer(text: string)

  /** Response classification: a fenced block wins over the plotting marker,
      which wins over a plain answer. Fenced code is group 1 of the search,
      stripped; the other shapes carry the whole output. */
  function Classify(output: string): (r: Shape)
    ensures r.FencedCode? <==> HasFence(output)
    ensures r.UnfencedPlot? <==> !HasFence(output) && Contains(output, PlotMarker)
    ensures r.FencedCode? ==> Bare(r.code) && !Occurs(r.code, Backticks)
    ensures r.UnfencedPlot? ==> r.code == output
    ensures r.PlainAnswer? ==> r.text == output
  {
    match Search(output)
    case Some(m) =>
      var code := Strip(Group(output, m));
      assert !Occurs(code, Backticks) by {
        GroupHasNoFence(output, m);
        if Occurs(code, Backticks) {
          StripKeepsOccurrences(Group(output, m), Backticks);
        }
      }
      FencedCode(code)
    case None =>
      if Contains(output, PlotMarker) then UnfencedPlot(output) else PlainAnswer(output)
  }

  /** Python's `any(word in text for word in words)`. */
  function MentionsAny(text: string, words: seq<string>): (r: bool)
    ensures r <==> exists i :: 0 <= i < |words| && Occurs(text, words[i])
  {
    if |words| == 0 then false
    else
      var rest := MentionsAny(text, words[1..]);
      assert forall i :: 1 <= i < |words| ==> words[i] == words[1..][i - 1];
      Contains(text, words[0]) || rest
  }

  /** The intent gate: the lower-cased question contains a chart word. */
  function ChartIntent(query: string): (r: bool)
    ensures r <==> exists i :: 0 <= i < |ChartWords| && Occurs(Lower(query), ChartWords[i])
  {
    MentionsAny(Lower(query), ChartWords)
  }

  /** The gate ignores letter case. */
  lemma ChartIntentIgnoresCase(query: string)
    ensures ChartIntent(Lower(query)) == ChartIntent(query)
  {
    LowerLaws(query, "");
  }

  /** Adding words to a question never withdraws the gate's approval. */
  lemma ChartIntentMonotone(before: string, query: string, after: string)
    requires ChartIntent(query)
    ensures ChartIntent(before + query + after)
  {
    var i :| 0 <= i < |ChartWords| && Occurs(Lower(query), ChartWords[i]);
    LowerLaws(before, query);
    LowerLaws(before + query, after);
    OccursWithin(Lower(before), Lower(query), Lower(after), ChartWords[i]);
  }

  /** The gate is a substring test, so a chart word inside a longer word
      counts, and upper case counts. The capitalised word is a separate
      piece so that the proof lower-cases only that piece instead of
      unrolling the whole literal. */
  lemma ChartIntentExamples()
    ensures ChartIntent("paragraph")
    ensures ChartIntent("Show me a bar " + "CHART" + " of Sales by Region.")
  {
    assert OccursAt(Lower("paragraph"), "graph", 4);
    var upper := "CHART";
    var q := Lower(upper);
    assert q[0] == LowerChar('C') == 'c' && q[1] == LowerChar('H') == 'h';
    assert q[2] == LowerChar('A') == 'a' && q[3] == LowerChar('R') == 'r' && q[4] == LowerChar('T') == 't';
    assert OccursAt(q, ChartWords[0], 0);
    ChartIntentMonotone("Show me a bar ", upper, " of Sales by Region.");
  }
}

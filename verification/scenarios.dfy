/**
 The reply shapes the prompt asks for, run through the routing decision:
 a block of code fenced with a `python` tag, and the two worked questions
 "Show me a bar chart of Sales by Region." and "List the columns.".
 */
module Scenarios {
  import opened Wrappers
  import opened Text
  import opened Fence
  import opened Classifier
  import opened Chat

  /** The reply the prompt asks for: code on its own lines between a
      tagged opening fence and a closing fence. */
  function TaggedBlock(code: string): (s: string)
    ensures |s| == |code| + 14
  {
    Backticks + Tag + "\n" + code + "\n" + Backticks
  }

  /** `s` holds no backtick. */
  predicate NoBacktick(s: string) {
    forall i :: 0 <= i < |s| ==> s[i] != '`'
  }

  /** A tagged block whose code holds no backtick is matched as a whole:
      the tag is taken and the fence closes at the end. */
  lemma TaggedBlockMatch(code: string)
    requires NoBacktick(code)
    ensures Search(TaggedBlock(code)) == Some(FenceMatch(0, 6, |code| + 11))
  {
    var s, n := TaggedBlock(code), |code|;
    var m := FenceMatch(0, 6, n + 11);
    assert s[0..3] == Backticks && s[3..9] == Tag && s[n + 11..n + 14] == Backticks;
    forall i | 9 <= i < n + 11
      ensures s[i] != '`'
    {
      if 10 <= i < n + 10 {
        assert s[i] == code[i - 10];
      }
    }
    NoStartNoOccurrence(s, Backticks, 9, n + 11);
    assert FirstMatch(s, m);
    FirstMatchUnique(s, m);
  }

  /** Group 1 of a tagged block is the code with its two line breaks;
      stripping gives back the code when it is bare. */
  lemma TaggedBlockGroup(code: string)
    requires NoBacktick(code) && Bare(code)
    ensures Viable(TaggedBlock(code), FenceMatch(0, 6, |code| + 11))
    ensures Strip(Group(TaggedBlock(code), FenceMatch(0, 6, |code| + 11))) == code
  {
    TaggedBlockMatch(code);
    var s, n := TaggedBlock(code), |code|;
    var g := Group(s, FenceMatch(0, 6, n + 11));
    assert g == "\n" + code + "\n";
    StripPadded("\n", code, "\n");
  }

  /** A chart question answered with a tagged block runs exactly the
      code inside it; any other question gets the block shown, not run. */
  lemma TaggedBlockRouting(query: string, code: string)
    requires NoBacktick(code) && Bare(code)
    ensures ChartIntent(query) ==> Decide(query, TaggedBlock(code)) == Exec(code, true)
    ensures !ChartIntent(query) ==> Decide(query, TaggedBlock(code)) == Denied(TaggedBlock(code))
  {
    var s, m := TaggedBlock(code), FenceMatch(0, 6, |code| + 11);
    TaggedBlockGroup(code);
    TaggedBlockMatch(code);
    FencedDecision(query, s, m);
  }

  // Literals below are split at the words the proofs look at, so the
  // solver finds them without unrolling the whole string.
  const BarQuestion: string := "Show me a bar " + "chart" + " of Sales by Region."
  const BarCode: string := "plt.bar(df['Region'], df['Sales'])"

  /** "chart" in the question passes the gate. */
  lemma BarQuestionAsksForChart()
    ensures ChartIntent(BarQuestion)
  {
    var chart := "chart";
    assert Lower(chart) == chart;
    assert OccursAt(chart, ChartWords[0], 0);
    ChartIntentMonotone("Show me a bar ", chart, " of Sales by Region.");
  }

  /** The bar-chart question, answered with the bar call in a tagged
      block, runs the bar call. */
  lemma ChartRequestRunsFencedCode()
    ensures Decide(BarQuestion, TaggedBlock(BarCode)) == Exec(BarCode, true)
  {
    assert NoBacktick(BarCode) && Bare(BarCode);
    BarQuestionAsksForChart();
    TaggedBlockRouting(BarQuestion, BarCode);
  }

  // Split after the only letter that lower-casing changes.
  const ColumnsQuestion: string := "List" + " the columns."

  /** Lower-casing the columns question touches only its first letter. */
  lemma ColumnsQuestionLowered()
    ensures Lower(ColumnsQuestion) == "list" + " the columns."
  {
    var rest := " the columns.";
    assert Lower("List") == "list" by {
      assert Lower("List")[0] == LowerChar('L') == 'l';
    }
    assert Lower(rest) == rest by {
      assert forall i :: 0 <= i < |rest| ==> !IsUpper(rest[i]);
    }
    LowerLaws("List", rest);
  }

  /** No chart word occurs in `s` when no two adjacent characters of `s`
      open one. */
  lemma NoChartWordIn(s: string)
    requires forall i :: 0 <= i < |s| - 1 ==> !(s[i] == 'c' && s[i + 1] == 'h')
    requires forall i :: 0 <= i < |s| - 1 ==> !(s[i] == 'p' && s[i + 1] == 'l')
    requires forall i :: 0 <= i < |s| - 1 ==> !(s[i] == 'g' && s[i + 1] == 'r')
    requires forall i :: 0 <= i < |s| - 1 ==> !(s[i] == 'v' && s[i + 1] == 'i')
    ensures forall w :: w in ChartWords ==> !Occurs(s, w)
  {
    NoStartNoOccurrence(s, "chart", 0, |s|);
    NoStartNoOccurrence(s, "plot", 0, |s|);
    NoStartNoOccurrence(s, "graph", 0, |s|);
    NoStartNoOccurrence(s, "visual", 0, |s|);
  }

  /** None of the chart words appears in the columns question. */
  lemma ColumnsQuestionHasNoChartWord()
    ensures !ChartIntent(ColumnsQuestion)
  {
    ColumnsQuestionLowered();
    var lq := "list" + " the columns.";
    NoChartWordIn(lq);
    assert forall i :: 0 <= i < |ChartWords| ==> ChartWords[i] in ChartWords;
  }

  /** The columns question, answered with plotting code in a tagged
      block, gets the block shown and nothing run. */
  lemma NoChartWordDeniesFence()
    ensures Decide(ColumnsQuestion, TaggedBlock(BarCode)) == Denied(TaggedBlock(BarCode))
  {
    assert NoBacktick(BarCode) && Bare(BarCode);
    ColumnsQuestionHasNoChartWord();
    TaggedBlockRouting(ColumnsQuestion, BarCode);
  }

  /** Plotting code returned without a fence runs whole, whatever the
      question: `plt.hist(df['Age'])` is one such reply. */
  lemma UnfencedCallRuns(query: string, output: string)
    requires NoBacktick(output)
    requires |PlotMarker| <= |output| && output[..|PlotMarker|] == PlotMarker
    ensures Decide(query, output) == Exec(output, false)
  {
    NoStartNoOccurrence(output, Backticks, 0, |output|);
    HasFenceIffTwoRuns(output);
    assert OccursAt(output, PlotMarker, 0);
  }

  /** The histogram reply, split after the plot marker it starts with. */
  lemma HistogramRuns(query: string)
    ensures Decide(query, "plt." + "hist(df['Age'])") == Exec("plt." + "hist(df['Age'])", false)
  {
    var output := "plt." + "hist(df['Age'])";
    assert NoBacktick(output);
    assert output[..4] == PlotMarker;
    UnfencedCallRuns(query, output);
  }
}

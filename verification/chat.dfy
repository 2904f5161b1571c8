/**
 The question handler of the CSV chat application (`CSVChatApp.ask_question`
 and `CSVChatApp.safe_exec`) as a pure function.

 The loaded table is reduced to its column names (`None` when nothing is
 loaded). The model process and the execution of generated code are
 outside the model and enter as inputs: `reply` is what the process
 returned for the prompt the handler built, `outcome` is what executing
 the code the handler chose, then showing the figure, did. The text the
 handler writes into the answer box is returned as the list of fragments
 in the order they are inserted.
 */
module Chat {
  import opened Wrappers
  import opened Text
  import opened Fence
  import opened Prompt
  import opened Classifier

  /** What one run of the model process gives back. */
  datatype Reply =
    | Completed(stdout: string)     // exit status zero
    | ProcessFailed(stderr: string) // non-zero exit status
    | Raised(message: string)       // any other `Exception`, e.g. the runtime cannot be started

  /** What executing generated code, then showing the figure, did. */
  datatype ExecOutcome = Rendered | Failed(message: string)

  /** Where one question ended up. */
  datatype Route =
    | Abort                         // no dataset is loaded
    | Ignore                        // the question is blank
    | ModelError                    // the model process failed
    | Plain(text: string)           // plain answer, shown as is
    | Denied(output: string)        // fenced code, but no chart was asked for
    | Exec(code: string, fenced: bool)

  /** One fragment inserted into the answer box. */
  datatype Line =
    | QuestionLine(query: string)
    | RawOutput(output: string)
    | GeneratedCode(code: string)
    | PlottingChart
    | AvailableColumns(columns: seq<string>)
    | NotAChart
    | Answer(text: string)
    | RawCodeDetected
    | ChartError(message: string)
    | SubprocessError(stderr: string)
    | ExceptionReport(message: string)

  /** The effects of one question: the route taken, the prompt built for the
      model (if any), the code handed to execution (if any) and the
      fragments written to the answer box. */
  datatype Exchange = Exchange(route: Route, prompt: Option<string>, executed: Option<string>, transcript: seq<Line>)

  /** Each column name in single quotes, in order. */
  function Quoted(columns: seq<string>): (q: seq<string>)
    ensures |q| == |columns|
    ensures forall i :: 0 <= i < |q| ==> q[i] == "'" + columns[i] + "'"
  {
    seq(|columns|, i requires 0 <= i < |columns| => "'" + columns[i] + "'")
  }

  /** `str(list(df.columns))` for string column names: `['a', 'b']`, the
      quoted names in order, separated by a comma and a space, in brackets. */
  function ColumnsRepr(columns: seq<string>): (s: string)
    ensures |s| >= 2 && s[0] == '[' && s[|s| - 1] == ']'
    ensures s[1..|s| - 1] == Join(Quoted(columns), ", ")
    ensures |columns| == 0 ==> s == "[]"
  {
    "[" + Join(Quoted(columns), ", ") + "]"
  }

  /** Every column name appears in the list, in single quotes. */
  lemma ColumnsReprNamesEach(columns: seq<string>, i: int)
    requires 0 <= i < |columns|
    ensures Occurs(ColumnsRepr(columns), "'" + columns[i] + "'")
  {
    var quoted := Quoted(columns);
    JoinContainsEach(quoted, ", ", i);
    OccursWithin("[", Join(quoted, ", "), "]", quoted[i]);
  }

  /** The text a fragment carries from its input: the question, the
      output, the code, the column list, an error message; empty for the
      fixed notes. */
  function Payload(line: Line): string {
    match line
    case QuestionLine(query) => query
    case RawOutput(output) => output
    case GeneratedCode(code) => code
    case AvailableColumns(columns) => ColumnsRepr(columns)
    case Answer(text) => text
    case ChartError(message) => message
    case SubprocessError(stderr) => Strip(stderr)
    case ExceptionReport(message) => message
    case _ => ""
  }

  /** The exact text each fragment puts in the answer box. Every fragment
      ends a line, and an answer starts its fragment unchanged. */
  function Render(line: Line): (s: string)
    ensures |s| > 0 && s[|s| - 1] == '\n'
    ensures line.Answer? ==> |line.text| <= |s| && s[..|line.text|] == line.text
  {
    match line
    case QuestionLine(query) => "\nQuestion: " + query + "\n"
    case RawOutput(output) => "Raw output:\n" + output + "\n\n"
    case GeneratedCode(code) => "Generated code:\n" + code + "\n\n"
    case PlottingChart => "Plotting chart...\n"
    case AvailableColumns(columns) => "Available columns: " + ColumnsRepr(columns) + "\n\n"
    case NotAChart => "Code was returned but user did not ask for a chart.\n"
    case Answer(text) => text + "\n\n"
    case RawCodeDetected => "Detected raw matplotlib code \U{2014} trying to run...\n"
    case ChartError(message) => "Chart error: " + message + "\n\n"
    case SubprocessError(stderr) => "Subprocess error: " + Strip(stderr) + "\n\n"
    case ExceptionReport(message) => "Exception: " + message + "\n\n"
  }

  /** Each fragment shows the text it carries verbatim. */
  lemma RenderShowsPayload(line: Line)
    ensures Occurs(Render(line), Payload(line))
  {
    var s, p := Render(line), Payload(line);
    var offset := match line
      case QuestionLine(_) => 11
      case RawOutput(_) => 12
      case GeneratedCode(_) => 16
      case AvailableColumns(_) => 19
      case ChartError(_) => 13
      case SubprocessError(_) => 18
      case ExceptionReport(_) => 11
      case _ => 0;
    assert s[offset..offset + |p|] == p;
    assert OccursAt(s, p, offset);
  }

  /** The routing decision on the stripped output: fenced code runs only
      when the question asks for a chart, unfenced plotting code always
      runs, anything else is shown as text. */
  function Decide(query: string, output: string): (r: Route)
    ensures r.Plain? || r.Denied? || r.Exec?
    ensures (r.Exec? && r.fenced) <==> HasFence(output) && ChartIntent(query)
    ensures r.Denied? <==> HasFence(output) && !ChartIntent(query)
    ensures (r.Exec? && !r.fenced) <==> !HasFence(output) && Contains(output, PlotMarker)
    ensures r.Exec? && r.fenced ==> Bare(r.code) && !Occurs(r.code, Backticks)
    ensures r.Exec? && !r.fenced ==> r.code == output
    ensures r.Denied? ==> r.output == output
    ensures r.Plain? ==> r.text == output
  {
    match Classify(output)
    case FencedCode(code) => if ChartIntent(query) then Exec(code, true) else Denied(output)
    case UnfencedPlot(code) => Exec(code, false)
    case PlainAnswer(text) => Plain(text)
  }

  /** `safe_exec`: a failure is caught and reported with the message and
      the column list; success writes nothing. */
  function SafeExec(code: string, columns: seq<string>, outcome: ExecOutcome): (lines: seq<Line>)
    ensures |lines| == 0 <==> outcome.Rendered?
    ensures outcome.Failed? ==> lines == [ChartError(outcome.message), AvailableColumns(columns)]
  {
    match outcome
    case Rendered => []
    case Failed(message) => [ChartError(message), AvailableColumns(columns)]
  }

  /** The fragments written after the raw output for each route. Routes
      that end before the model's output is seen write nothing; a shown
      answer or denial ends with the text unchanged; code is announced
      before anything else. */
  function Report(route: Route, columns: seq<string>, outcome: ExecOutcome): (lines: seq<Line>)
    ensures route.Abort? || route.Ignore? || route.ModelError? ==> lines == []
    ensures route.Plain? ==> |lines| >= 1 && lines[|lines| - 1] == Answer(route.text)
    ensures route.Denied? ==> lines == [NotAChart, Answer(route.output)]
    ensures route.Exec? ==> |lines| >= 1 && lines[0] == (if route.fenced then GeneratedCode(route.code) else RawCodeDetected)
    ensures route.Exec? && route.fenced ==> |lines| >= 3 && lines[1] == PlottingChart && lines[2] == AvailableColumns(columns)
  {
    match route
    case Plain(text) => [Answer(text)]
    case Denied(output) => [NotAChart, Answer(output)]
    case Exec(code, fenced) =>
      if fenced then [GeneratedCode(code), PlottingChart, AvailableColumns(columns)] + SafeExec(code, columns, outcome)
      else [RawCodeDetected] + SafeExec(code, columns, outcome)
    case _ => []
  }

  /** What the handler does once the model process has returned: the
      route, the code handed to execution and the fragments written after
      the question line. */
  datatype Response = Response(route: Route, executed: Option<string>, lines: seq<Line>)

  /** A fragment put in front of a non-empty list is its first element and
      leaves the last element where it was. */
  lemma ConsEnds(x: Line, rest: seq<Line>)
    requires |rest| >= 1
    ensures |[x] + rest| == |rest| + 1
    ensures ([x] + rest)[0] == x && ([x] + rest)[|rest|] == rest[|rest| - 1]
  {
  }

  /** The handler's reaction to the model's stripped output: write it,
      then act on the routing decision. */
  function Interpret(query: string, columns: seq<string>, output: string, outcome: ExecOutcome): (r: Response)
    ensures |r.lines| >= 2 && r.lines[0] == RawOutput(output)
    ensures r.executed.Some? <==> r.route.Exec?
    ensures r.executed.Some? <==>
      (HasFence(output) && ChartIntent(query)) || (!HasFence(output) && Contains(output, PlotMarker))
    ensures r.executed.Some? && HasFence(output) ==>
      Bare(r.executed.value) && !Occurs(r.executed.value, Backticks)
    ensures r.executed.Some? && !HasFence(output) ==> r.executed.value == output
    ensures r.executed.None? ==> r.lines[|r.lines| - 1] == Answer(output)
  {
    var route := Decide(query, output);
    var rest := Report(route, columns, outcome);
    ConsEnds(RawOutput(output), rest);
    Response(route, if route.Exec? then Some(route.code) else None, [RawOutput(output)] + rest)
  }

  /** The handler's reaction to the model process's reply. */
  function Respond(query: string, columns: seq<string>, reply: Reply, outcome: ExecOutcome): (r: Response)
    ensures r.executed.Some? <==> r.route.Exec?
    ensures r.route.Exec? ==> r.executed == Some(r.route.code)
    ensures reply.Completed? ==> r == Interpret(query, columns, Strip(reply.stdout), outcome)
    ensures !reply.Completed? ==> r.route == ModelError
    ensures reply.ProcessFailed? ==> r.lines == [SubprocessError(reply.stderr)]
    ensures reply.Raised? ==> r.lines == [ExceptionReport(reply.message)]
  {
    match reply
    case ProcessFailed(stderr) => Response(ModelError, None, [SubprocessError(stderr)])
    case Raised(message) => Response(ModelError, None, [ExceptionReport(message)])
    case Completed(stdout) => Interpret(query, columns, Strip(stdout), outcome)
  }

  /** `ask_question`: no dataset aborts and a blank question is ignored,
      both before any prompt is built; otherwise the stripped question is
      written, sent to the model inside the prompt, and the reply handled. */
  function AskQuestion(dataset: Option<seq<string>>, entry: string,
                       reply: Reply, outcome: ExecOutcome): (r: Exchange)
    ensures dataset.None? ==> r == Exchange(Abort, None, None, [])
    ensures dataset.Some? && Strip(entry) == "" ==> r == Exchange(Ignore, None, None, [])
    ensures dataset.Some? && Strip(entry) != "" ==>
      var prompt := BuildPrompt(dataset.value, Strip(entry));
      var response := Respond(Strip(entry), dataset.value, reply, outcome);
      && r.prompt == Some(prompt)
      && r.transcript == [QuestionLine(Strip(entry))] + response.lines
      && r.route == response.route
      && r.executed == response.executed
    ensures r.executed.Some? <==> r.route.Exec?
  {
    match dataset
    case None => Exchange(Abort, None, None, [])
    case Some(columns) =>
      var query := Strip(entry);
      if query == "" then Exchange(Ignore, None, None, [])
      else
        var prompt := BuildPrompt(columns, query);
        var response := Respond(query, columns, reply, outcome);
        Exchange(response.route, Some(prompt), response.executed, [QuestionLine(query)] + response.lines)
  }

  /** The handler sees the question only through its stripped form:
      surrounding whitespace in the entry changes nothing. */
  lemma StrippedQuestionUsed(dataset: Option<seq<string>>, entry: string,
                             reply: Reply, outcome: ExecOutcome)
    ensures AskQuestion(dataset, entry, reply, outcome) == AskQuestion(dataset, Strip(entry), reply, outcome)
  {
    StripIdempotent(entry);
  }

  /** A question that reaches the model is written first, then the
      model's stripped output, before anything classification decides. */
  lemma RawOutputFirst(dataset: Option<seq<string>>, entry: string, stdout: string, outcome: ExecOutcome)
    requires dataset.Some? && Strip(entry) != ""
    ensures var r := AskQuestion(dataset, entry, Completed(stdout), outcome);
      && |r.transcript| >= 3
      && r.transcript[0] == QuestionLine(Strip(entry))
      && r.transcript[1] == RawOutput(Strip(stdout))
  {
    var response := Respond(Strip(entry), dataset.value, Completed(stdout), outcome);
    assert response.lines[0] == RawOutput(Strip(stdout));
  }

  /** Fenced code runs exactly when the question asks for a chart, and what
      runs is stripped group 1 of the first fenced block. */
  lemma FencedRunsIffChartWord(query: string, columns: seq<string>, output: string,
                               outcome: ExecOutcome, m: FenceMatch)
    requires FirstMatch(output, m)
    ensures var r := Interpret(query, columns, output, outcome);
      && (r.executed.Some? <==> ChartIntent(query))
      && (r.executed.Some? ==> r.executed.value == Strip(Group(output, m)))
  {
    FirstMatchUnique(output, m);
  }

  /** On output with a fenced block the decision depends on the question
      alone: stripped group 1 for a chart question, the whole output shown
      for any other. */
  lemma FencedDecision(query: string, output: string, m: FenceMatch)
    requires FirstMatch(output, m)
    ensures Decide(query, output) ==
      if ChartIntent(query) then Exec(Strip(Group(output, m)), true) else Denied(output)
  {
    FirstMatchUnique(output, m);
  }

  /** A fenced response to a question without a chart word is shown, never
      run, even when it also holds plotting calls outside the fence. */
  lemma DeniedFenceNeverRuns(query: string, columns: seq<string>, output: string,
                             outcome: ExecOutcome, m: FenceMatch)
    requires Viable(output, m)
    requires !ChartIntent(query)
    ensures var r := Interpret(query, columns, output, outcome);
      && r.executed.None?
      && r.route == Denied(output)
      && r.lines == [RawOutput(output), NotAChart, Answer(output)]
  {
    HasFenceIffViable(output);
  }

  /** Without a fence, a response holding the plotting marker runs whole,
      whatever the question says. */
  lemma UnfencedPlotRuns(query: string, columns: seq<string>, output: string, outcome: ExecOutcome)
    requires forall m :: !Viable(output, m)
    requires Occurs(output, PlotMarker)
    ensures var r := Interpret(query, columns, output, outcome);
      && r.executed == Some(output)
      && r.lines[1] == RawCodeDetected
  {
    HasFenceIffViable(output);
  }

  /** A response with neither a fence nor the marker is written back
      unchanged and nothing runs. */
  lemma PlainAnswerShown(query: string, columns: seq<string>, output: string, outcome: ExecOutcome)
    requires forall m :: !Viable(output, m)
    requires !Occurs(output, PlotMarker)
    ensures var r := Interpret(query, columns, output, outcome);
      && r.executed.None?
      && r.lines == [RawOutput(output), Answer(output)]
  {
    HasFenceIffViable(output);
  }

  /** Once code is handed to execution, a failure ends the report with the
      error and the column list, and a success adds nothing after the
      announcement. Either way the handler returns normally: the handler
      catches every `Exception` raised while running the code. */
  lemma ExecutionFailureContained(route: Route, columns: seq<string>, outcome: ExecOutcome)
    requires route.Exec?
    ensures var t := Report(route, columns, outcome);
      && (outcome.Failed? ==> |t| >= 3 && t[|t| - 2..] == [ChartError(outcome.message), AvailableColumns(columns)])
      && (outcome.Failed? ==> |t| == if route.fenced then 5 else 3)
      && (outcome.Rendered? ==> |t| >= 1 && (t[|t| - 1] == AvailableColumns(columns) || t[|t| - 1] == RawCodeDetected))
  {
    var head := if route.fenced then [GeneratedCode(route.code), PlottingChart, AvailableColumns(columns)] else [RawCodeDetected];
    assert Report(route, columns, outcome) == head + SafeExec(route.code, columns, outcome);
  }

  /** On the `Exec` route the raw output is followed by the announcement
      of the code: for fenced code its text, the chart note and the column
      list. A failed execution ends the transcript with the error and the
      column list; a successful one adds nothing after the announcement. */
  lemma ExecTranscript(query: string, columns: seq<string>, output: string, outcome: ExecOutcome)
    ensures var r := Interpret(query, columns, output, outcome);
      && (r.route.Exec? && r.route.fenced ==>
            |r.lines| >= 4 && r.lines[1..4] == [GeneratedCode(r.route.code), PlottingChart, AvailableColumns(columns)])
      && (r.route.Exec? && !r.route.fenced ==> r.lines[1] == RawCodeDetected)
      && (r.route.Exec? && outcome.Failed? ==>
            |r.lines| >= 3 && r.lines[|r.lines| - 2..] == [ChartError(outcome.message), AvailableColumns(columns)])
      && (r.route.Exec? && outcome.Failed? ==> |r.lines| == if r.route.fenced then 6 else 4)
      && (r.route.Exec? && outcome.Rendered? ==> |r.lines| == if r.route.fenced then 4 else 2)
  {
    var r := Interpret(query, columns, output, outcome);
    InterpretLines(query, columns, output, outcome);
    if r.route.Exec? {
      ExecReport(r.route, columns, outcome);
      AfterHead(RawOutput(output), Report(r.route, columns, outcome), r.lines);
    }
  }

  /** The transcript after the model's output is the raw output followed by
      the report of the route taken. */
  lemma InterpretLines(query: string, columns: seq<string>, output: string, outcome: ExecOutcome)
    ensures var r := Interpret(query, columns, output, outcome);
      r.lines == [RawOutput(output)] + Report(r.route, columns, outcome)
  {
  }

  /** The report of an `Exec` route: the announcement of the code, then
      nothing on success and the error and the column list on failure. */
  lemma ExecReport(route: Route, columns: seq<string>, outcome: ExecOutcome)
    requires route.Exec?
    ensures var t := Report(route, columns, outcome);
      && (route.fenced ==> |t| >= 3 && t[..3] == [GeneratedCode(route.code), PlottingChart, AvailableColumns(columns)])
      && (!route.fenced ==> |t| >= 1 && t[0] == RawCodeDetected)
      && (outcome.Failed? ==> |t| >= 3 && t[|t| - 2..] == [ChartError(outcome.message), AvailableColumns(columns)])
      && (outcome.Failed? ==> |t| == if route.fenced then 5 else 3)
      && (outcome.Rendered? ==> |t| == if route.fenced then 3 else 1)
  {
    ExecutionFailureContained(route, columns, outcome);
  }

  /** Putting one fragment in front keeps every slice of the rest, one
      place further on. */
  lemma AfterHead(x: Line, t: seq<Line>, l: seq<Line>)
    requires l == [x] + t
    ensures |l| == |t| + 1 && l[1..] == t
    ensures |t| >= 1 ==> l[1] == t[0]
    ensures |t| >= 3 ==> l[1..4] == t[..3]
    ensures |t| >= 2 ==> l[|l| - 2..] == t[|t| - 2..]
  {
    assert l[1..] == t;
  }

  /** A failing model process, or any other `Exception` raised while
      asking the model, is reported in one fragment and nothing runs. */
  lemma ModelFailureReported(query: string, columns: seq<string>, stderr: string, message: string,
                             outcome: ExecOutcome)
    ensures var r := Respond(query, columns, ProcessFailed(stderr), outcome);
      && r.executed.None?
      && r.lines == [SubprocessError(stderr)]
    ensures var r := Respond(query, columns, Raised(message), outcome);
      && r.executed.None?
      && r.lines == [ExceptionReport(message)]
  {
  }
}

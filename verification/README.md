# CSV chat question handler — a Dafny model

This project models the question handler of the CSV chat application in
`inventory_reader.py`: `CSVChatApp.ask_question` and its helper
`CSVChatApp.safe_exec`. The user types a question about a loaded CSV table,
and the handler:

1. refuses when no table is loaded, and ignores a question that is blank
   after `strip()`;
2. writes the stripped question into the answer box;
3. builds a prompt from the table's column names and the question, and
   sends it to a local language model;
4. writes the model's stripped output;
5. classifies that output. A fenced block
   (`re.search(r"```(?:python)?(.*?)```", output, re.DOTALL)`) wins over
   the literal `plt.`, which wins over a plain answer;
6. runs fenced code only when the lower-cased question contains "chart",
   "plot", "graph" or "visual". It always runs unfenced plotting code, and
   never runs a plain answer;
7. reports an execution that raises any `Exception` with the error and the
   column list, and returns normally.

The model is functional. The loaded table is reduced to its column names,
`Option<seq<string>>`. The model process's reply (`Chat.Reply`) and the
outcome of executing generated code (`Chat.ExecOutcome`) are inputs. The
handler's effects are returned as an `Exchange`:

- the route taken (`Abort`, `Ignore`, `ModelError`, `Plain`, `Denied` or
  `Exec`);
- the prompt built, if any;
- the code handed to execution, if any;
- the fragments written to the answer box, in order. `Chat.Render` gives
  each fragment's exact text.

Modules:

- `Wrappers` holds `Option`.
- `Text` holds ASCII `strip`, `lower`, substring search and `join`.
- `Fence` models the regular expression by its backtracking order. A
  reference definition, `FirstMatch`, describes the first viable candidate
  in that order, and the search is proved to find exactly it.
- `Prompt` builds the prompt.
- `Classifier` holds the response shape and the chart-word gate.
- `Chat` holds routing, the transcript and `safe_exec`.
- `Scenarios` covers the reply shapes the prompt asks for, plus worked
  questions.

Two details of the fenced-code path:

- Group 1 is stripped before it is shown and run (line 79), so the code is
  not the verbatim fence contents.
- Only the tag `python` is consumed. Any other tag, e.g. ```` ```py ````,
  stays in the captured text.

## Model

| member | source | states |
|---|---|---|
| Text.TrimStart | inventory_reader.py:45 | the result is a suffix of the input; everything removed is whitespace; the result does not start with whitespace |
| Text.TrimEnd | inventory_reader.py:45 | the result is a prefix of the input; everything removed is whitespace; the result does not end with whitespace |
| Text.Strip | inventory_reader.py:45 | the stripped text is no longer than the input and neither starts nor ends with whitespace |
| Text.StripFramed | inventory_reader.py:73 | the stripped text sits inside the input with only whitespace before and after it |
| Text.StripUnique | inventory_reader.py:79 | any bare string surrounded only by whitespace in the input is exactly what `strip()` returns |
| Text.StripPadded | inventory_reader.py:79 | a bare string padded on both sides with whitespace strips back to itself |
| Text.StripBare | inventory_reader.py:45 | a string with no surrounding whitespace is its own strip |
| Text.StripIdempotent | inventory_reader.py:45-46 | stripping twice equals stripping once; a string equals its strip exactly when it has no surrounding whitespace |
| Text.LowerChar | inventory_reader.py:78 | the result is never an upper-case letter; an upper-case letter moves up by 32 and everything else is kept |
| Text.Lower | inventory_reader.py:78 | `lower()` keeps the length and changes each character as `LowerChar` does |
| Text.LowerLaws | inventory_reader.py:78 | lower-casing is idempotent and distributes over concatenation |
| Text.FindFrom | inventory_reader.py:78 | the result is the leftmost occurrence at or after the start index, or none exists |
| Text.Contains | inventory_reader.py:87 | `pat in s` is true exactly when the pattern occurs somewhere in `s` |
| Text.StripKeepsOccurrences | inventory_reader.py:79 | whatever occurs in the stripped text occurs in the original |
| Text.OccursWithin | inventory_reader.py:78 | an occurrence survives embedding in a longer text |
| Text.Join | inventory_reader.py:56 | no parts join to the empty string and one part to itself; otherwise the joined string starts with the first part and ends with the last |
| Text.JoinSplit | inventory_reader.py:56 | joining splits at any inner boundary into the two joined halves with one separator between them |
| Text.JoinContainsEach | inventory_reader.py:56 | every part occurs in the joined string |
| Fence.Search | inventory_reader.py:76 | a found match is the first viable candidate in backtracking order; no match means no candidate fits |
| Fence.FirstMatchUnique | inventory_reader.py:76 | the first candidate in backtracking order is the one the search returns |
| Fence.Group | inventory_reader.py:79 | group 1 is the text between the end of the tag (or of the opening fence) and the closing fence |
| Fence.HasFenceIffViable | inventory_reader.py:76-77 | a match exists exactly when some candidate fits |
| Fence.HasFenceIffTwoRuns | inventory_reader.py:76-77 | a match exists exactly when two non-overlapping runs of three backticks occur |
| Fence.MatchShape | inventory_reader.py:76 | the match opens at the first run of backticks, takes the tag exactly when it follows, and closes at the nearest later run |
| Fence.GroupHasNoFence | inventory_reader.py:76 | the captured text never contains three backticks |
| Prompt.PreambleFrame | inventory_reader.py:55-60 | the column-dependent part opens with the analyst role and the column lead and closes with the answering rules and the question lead |
| Prompt.BuildPrompt | inventory_reader.py:54-62 | the prompt is the column-dependent preamble, then the question, then a closing double quote |
| Prompt.PromptKeepsQuestion | inventory_reader.py:61 | the question can be read back from the prompt, so different questions give different prompts |
| Prompt.RulesMentionFences | inventory_reader.py:60 | the answering rules ask for chart code in triple backticks |
| Prompt.PromptNamesColumns | inventory_reader.py:56 | every column name occurs in the prompt |
| Prompt.PromptFramesQuestion | inventory_reader.py:54-62 | the prompt asks for triple backticks and ends with `Question: "` followed by the question and `"` |
| Classifier.Classify | inventory_reader.py:76-93 | fenced code exactly when a fence matches; unfenced plot exactly when there is no fence and `plt.` occurs; fenced code has no surrounding whitespace and no fence; the other shapes carry the whole output |
| Classifier.MentionsAny | inventory_reader.py:78 | `any(word in text ...)` holds exactly when some word of the list occurs |
| Classifier.ChartIntent | inventory_reader.py:78 | the gate opens exactly when a chart word occurs in the lower-cased question |
| Classifier.ChartIntentIgnoresCase | inventory_reader.py:78 | lower-casing the question first does not change the verdict |
| Classifier.ChartIntentMonotone | inventory_reader.py:78 | adding text around an approved question keeps it approved |
| Classifier.ChartIntentExamples | inventory_reader.py:78 | "paragraph" and a question with "CHART" in capitals both pass the gate |
| Chat.Decide | inventory_reader.py:76-93 | fenced code runs exactly when a fence matches and the question asks for a chart; denial happens exactly on a fence without a chart word; unfenced code runs exactly when there is no fence and `plt.` occurs; what runs unfenced is the whole output |
| Chat.ColumnsRepr | inventory_reader.py:82 | the column list is the quoted names in order, joined by a comma and a space, inside brackets; `[]` for a table without columns |
| Chat.ColumnsReprNamesEach | inventory_reader.py:82 | every column name appears in the list in single quotes |
| Chat.Render | inventory_reader.py:50-109 | the insert texts of lines 50, 74, 80-82, 85-86, 89, 93, 96, 98 and 108-109: every fragment ends a line, and an answer starts its fragment unchanged |
| Chat.RenderShowsPayload | inventory_reader.py:50-109 | each fragment shows verbatim the text it carries: the question, the output, the code, the column list, the stripped error output or the message |
| Chat.Report | inventory_reader.py:78-93 | a plain answer ends with the output unchanged; a denial is the not-a-chart note, then the output unchanged; code is announced first, as generated code when fenced and as the raw-code note otherwise; fenced code is followed by the chart note and the column list |
| Chat.SafeExec | inventory_reader.py:103-110 | success writes nothing; failure writes the error, then the column list |
| Chat.Interpret | inventory_reader.py:73-93 | the raw output is written first and something follows it; code runs exactly when a fence matches and a chart is asked for, or there is no fence and `plt.` occurs; fenced code has no surrounding whitespace and no fence, unfenced code is the whole output; when nothing runs the output is the last fragment |
| Chat.ExecTranscript | inventory_reader.py:73-109 | when code runs, the raw output is followed by the generated code, the chart note and the column list (fenced) or by the raw-code note (unfenced); a failure adds exactly the error and the column list (lines 108-109), six fragments in all for fenced code and four for unfenced; a success adds nothing more |
| Chat.Respond | inventory_reader.py:64-98 | a completed process is handled on its stripped output; a failed process writes only the `Subprocess error` fragment, another exception only the `Exception` fragment, and then the route is a model error and nothing runs |
| Chat.AskQuestion | inventory_reader.py:40-101 | no table: abort with no prompt and no output; blank question: ignore with no prompt and no output; otherwise the stripped question is written and sent inside the prompt, and code runs only on an `Exec` route |
| Chat.StrippedQuestionUsed | inventory_reader.py:45-50 | surrounding whitespace in the entry changes nothing the handler does |
| Chat.RawOutputFirst | inventory_reader.py:50-74 | a question that reaches the model writes the question, then the raw output, then at least one more fragment |
| Chat.FencedRunsIffChartWord | inventory_reader.py:76-83 | on output with a fence, code runs exactly when the question asks for a chart, and what runs is stripped group 1 |
| Chat.FencedDecision | inventory_reader.py:76-86 | on output with a fence, the route is stripped group 1 for a chart question and a denial otherwise |
| Chat.DeniedFenceNeverRuns | inventory_reader.py:84-87 | fenced output to a question without a chart word is written with the note and never runs, even when it holds `plt.` |
| Chat.UnfencedPlotRuns | inventory_reader.py:87-90 | without a fence, output holding `plt.` runs whole, after the raw-code note |
| Chat.PlainAnswerShown | inventory_reader.py:91-93 | with neither a fence nor `plt.`, the output is written back unchanged and nothing runs |
| Chat.ExecutionFailureContained | inventory_reader.py:103-110 | after code is handed over, a failure adds exactly two fragments after the announcement, the error and then the column list; a success ends the report with the announcement |
| Chat.ModelFailureReported | inventory_reader.py:95-98 | a failing model process is reported with its error output alone, any other exception with its message alone, and in both cases nothing runs |
| Scenarios.TaggedBlockMatch | inventory_reader.py:76 | a tagged block whose code has no backtick is matched whole, with the tag taken |
| Scenarios.TaggedBlockGroup | inventory_reader.py:79 | stripping group 1 of such a block gives back the code |
| Scenarios.TaggedBlockRouting | inventory_reader.py:76-86 | such a block runs exactly its code for a chart question and is shown, not run, otherwise |
| Scenarios.BarQuestionAsksForChart | inventory_reader.py:78 | "Show me a bar chart of Sales by Region." passes the gate |
| Scenarios.ChartRequestRunsFencedCode | inventory_reader.py:76-83 | that question, answered with the bar call in a tagged block, runs the bar call |
| Scenarios.ColumnsQuestionLowered | inventory_reader.py:78 | lower-casing "List the columns." changes only its first letter |
| Scenarios.NoChartWordIn | inventory_reader.py:78 | no chart word occurs where no two adjacent characters could start one |
| Scenarios.ColumnsQuestionHasNoChartWord | inventory_reader.py:78 | "List the columns." does not pass the gate |
| Scenarios.NoChartWordDeniesFence | inventory_reader.py:84-86 | that question, answered with plotting code in a tagged block, is denied |
| Scenarios.UnfencedCallRuns | inventory_reader.py:87-90 | a backtick-free reply starting with `plt.` runs whole, whatever the question |
| Scenarios.HistogramRuns | inventory_reader.py:87-90 | the reply `plt.hist(df['Age'])` runs whole |

## Left out

- The tkinter window, buttons, entry binding, `see`, `delete` and every
  `messagebox` call (lines 9-27, 42, 51, 100-101, 110) are user interface
  plumbing. Only the text written into the answer box is modelled.
- `load_csv` and `pd.read_csv` (lines 29-37) are not modelled. The table
  enters as an optional list of column names.
- The `subprocess.run` call to the model runtime (lines 64-71) is external.
  Its result is the input `Chat.Reply`: completed with its standard output,
  failed with its error output, or another exception with its message.
- `exec` and `plt.show()` (lines 105-106) run arbitrary code. Their effect
  is the input `Chat.ExecOutcome`: rendered, or failed with a message. Any
  effect the code has on the table or the figure is not modelled. `exec`
  gets the table itself (line 105), so code that changes its columns and
  then fails makes line 109 list the changed columns; the model lists the
  columns as they were before the code ran.
- Other exceptions raised inside the `try` block are not modelled, e.g.
  `join` over non-string column names. Column names are strings here.
- Text.Strip: covers ASCII whitespace only (tab to carriage return, the
  four separators `\x1c`-`\x1f`, and space). Python's `strip()` also
  removes Unicode whitespace.
- Text.Lower: covers ASCII letters only. Python's `lower()` also maps other
  scripts, and it can change the length of a string.
- Chat.ColumnsRepr: writes each column name in single quotes without
  Python's `repr` escaping. Names holding single quotes or backslashes
  render differently, and so do names holding non-printable characters, which
  `repr` escapes: a tab as `\t`, a newline as `\n`, U+00A0 as `\xa0`.
- Chat.SafeExec: only `Exception` is caught (lines 97 and 107).
  `SystemExit` and `KeyboardInterrupt`, raised for example by `exit()` or
  `quit()` in generated code, escape `safe_exec` and `ask_question` and
  skip lines 100-101. Neither the model process (no timeout, line 64) nor
  `exec` has to return. `ExecOutcome` and `Reply` cannot express these
  cases, so every modelled question ends.
- Fence.Search: covers this single pattern only. The general regular
  expression engine is not modelled.
- Chat.Respond: the model runtime's own name and model tag (line 65) are
  not part of the model.

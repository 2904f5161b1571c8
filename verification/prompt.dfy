/**
 The instruction text the handler sends to the language model: its role,
 the dataset's column names, the answering rules and the quoted question.
 */
module Prompt {
  import opened Text

  const Role: string := "You are a helpful data analyst working with a pandas DataFrame named `df`.\n\n"
  const ColumnsLead: string := "The columns in the DataFrame are: "
  const ColumnSeparator: string := ", "

  /** The instruction to fence chart code, the last of the answering rules. */
  // The quoted phrase is a separate piece so that proofs can find it
  // without unrolling the whole literal.
  const FenceRule: string :=
    "If you do generate a chart, return only the code wrapped in " + "triple backticks" + ".\n\n"

  /** Everything between the column list and the question. */
  const Rules: string :=
    ".\n\n"
    + "Answer the following question using plain English. Do not return any Python code unless the user explicitly asks for code or a chart.\n"
    + "Just give the answer without explaining how to get the answer.\n"
    + "Only include matplotlib code if the user specifically asks for a chart or visualization.\n"
    + FenceRule

  const QuestionLead: string := "Question: \""
  const QuestionClose: string := "\""

  /** The part of the prompt that depends on the columns only. */
  function Preamble(columns: seq<string>): string {
    Role + ColumnsLead + Join(columns, ColumnSeparator) + Rules + QuestionLead
  }

  /** The preamble opens with the role and the column lead and closes with
      the answering rules and the question lead, so the column list sits
      between them. */
  lemma PreambleFrame(columns: seq<string>)
    ensures var p, head, tail := Preamble(columns), Role + ColumnsLead, Rules + QuestionLead;
      && |head| + |tail| <= |p|
      && p[..|head|] == head
      && p[|p| - |tail|..] == tail
  {
    Affixes(Role + ColumnsLead, Join(columns, ColumnSeparator), Rules, QuestionLead, Preamble(columns));
  }

  /** A string made of a head, a middle and a two-piece tail starts with
      the head and ends with the tail. */
  lemma Affixes(h: string, j: string, r: string, q: string, p: string)
    requires p == h + j + r + q
    ensures |h| + |r + q| <= |p|
    ensures p[..|h|] == h
    ensures p[|p| - |r + q|..] == r + q
  {
    assert p == h + j + (r + q);
  }

  /** The prompt for `query` over a dataset with these columns. */
  function BuildPrompt(columns: seq<string>, query: string): (p: string)
    ensures |p| == |Preamble(columns)| + |query| + 1
    ensures p[..|Preamble(columns)|] == Preamble(columns)
    ensures p[|Preamble(columns)|..|p| - 1] == query
    ensures p[|p| - 1] == '"'
  {
    Preamble(columns) + query + QuestionClose
  }

  /** Reads the question back out of a prompt built for these columns. */
  function QuestionOf(columns: seq<string>, p: string): (q: string)
    requires |Preamble(columns)| < |p|
  {
    p[|Preamble(columns)|..|p| - 1]
  }

  /** The question is recoverable from the prompt, so two different
      questions over the same columns never produce the same prompt. */
  lemma PromptKeepsQuestion(columns: seq<string>, query: string, other: string)
    ensures QuestionOf(columns, BuildPrompt(columns, query)) == query
    ensures BuildPrompt(columns, query) == BuildPrompt(columns, other) ==> query == other
  {
  }

  /** The answering rules ask for fenced chart code. */
  lemma RulesMentionFences()
    ensures Occurs(Rules, "triple backticks")
  {
    var lead := "If you do generate a chart, return only the code wrapped in ";
    var phrase := "triple backticks";
    assert OccursAt(phrase, phrase, 0);
    OccursWithin(lead, phrase, ".\n\n", phrase);
    var head := Rules[..|Rules| - |FenceRule|];
    assert Rules == head + FenceRule + "";
    OccursWithin(head, FenceRule, "", phrase);
  }

  /** The prompt names every column of the dataset. */
  lemma PromptNamesColumns(columns: seq<string>, query: string, i: int)
    requires 0 <= i < |columns|
    ensures Occurs(BuildPrompt(columns, query), columns[i])
  {
    var joined := Join(columns, ColumnSeparator);
    JoinContainsEach(columns, ColumnSeparator, i);
    OccursWithin(Role + ColumnsLead, joined, Rules + QuestionLead + query + QuestionClose, columns[i]);
    assert Role + ColumnsLead + joined + (Rules + QuestionLead + query + QuestionClose) == BuildPrompt(columns, query);
  }

  /** The prompt tells the model to fence chart code and ends with the
      question in double quotes after `Question: `. */
  lemma PromptFramesQuestion(columns: seq<string>, query: string)
    ensures Occurs(BuildPrompt(columns, query), "triple backticks")
    ensures var p, tail := BuildPrompt(columns, query), QuestionLead + query + QuestionClose;
      |tail| <= |p| && p[|p| - |tail|..] == tail
  {
    var p := BuildPrompt(columns, query);
    var head := Role + ColumnsLead + Join(columns, ColumnSeparator);
    var tail := QuestionLead + query + QuestionClose;
    assert head + Rules + tail == p;
    RulesMentionFences();
    OccursWithin(head, Rules, tail, "triple backticks");
    assert p[|p| - |tail|..] == tail;
  }
}

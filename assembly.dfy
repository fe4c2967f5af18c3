/**
  The pure steps of answer_query between retrieval and generation: the
  context string (row contents joined by newlines), the parallel list of
  source tags, and the prompt template.
*/
module Assembly {
  import opened Interfaces

  const PromptHead: string := "Context:\n"
  const QuestionHead: string := "\n\nQuestion: "
  const PromptTail: string := "\nAnswer based only on the context above."

  /** `[row[0] for row in rows]` */
  function Contents(rows: seq<Row>): (parts: seq<string>)
    ensures |parts| == |rows|
    ensures forall i :: 0 <= i < |rows| ==> parts[i] == rows[i].content
  {
    if rows == [] then [] else [rows[0].content] + Contents(rows[1..])
  }

  /** `[row[1] for row in rows]`: one tag per row, in row order, duplicates kept. */
  function Sources(rows: seq<Row>): (sources: seq<string>)
    ensures |sources| == |rows|
    ensures forall i :: 0 <= i < |rows| ==> sources[i] == rows[i].source
  {
    if rows == [] then [] else [rows[0].source] + Sources(rows[1..])
  }

  /**
    `"\n".join(parts)`: empty for no parts, otherwise exactly as long as the
    parts with one newline between each pair.
  */
  function JoinLines(parts: seq<string>): (joined: string)
    ensures parts == [] ==> joined == ""
    ensures parts != [] ==> |joined| + 1 == LineStart(parts, |parts|)
  {
    if |parts| == 0 then ""
    else if |parts| == 1 then parts[0]
    else parts[0] + "\n" + JoinLines(parts[1..])
  }

  /** Where `parts[i]` begins inside `JoinLines(parts)`: the earlier parts and one newline after each. */
  function LineStart(parts: seq<string>, i: nat): nat
    requires i <= |parts|
  {
    if i == 0 then 0 else |parts[0]| + 1 + LineStart(parts[1..], i - 1)
  }

  /** Each part sits, unchanged, at its start position, and is followed by a newline unless it is the last. */
  lemma {:induction false} JoinLinesLayout(parts: seq<string>, i: nat)
    requires i < |parts|
    ensures LineStart(parts, i) + |parts[i]| <= |JoinLines(parts)|
    ensures JoinLines(parts)[LineStart(parts, i)..LineStart(parts, i) + |parts[i]|] == parts[i]
    ensures i + 1 < |parts| ==>
      LineStart(parts, i) + |parts[i]| < |JoinLines(parts)| && JoinLines(parts)[LineStart(parts, i) + |parts[i]|] == '\n'
  {
    if |parts| > 1 {
      var rest := JoinLines(parts[1..]);
      assert JoinLines(parts) == parts[0] + "\n" + rest;
      if i == 0 {
        assert JoinLines(parts)[..|parts[0]|] == parts[0];
      } else {
        JoinLinesLayout(parts[1..], i - 1);
        var s := LineStart(parts[1..], i - 1);
        assert LineStart(parts, i) == |parts[0]| + 1 + s;
        assert JoinLines(parts)[|parts[0]| + 1..] == rest;
      }
    }
  }

  /** Later parts start strictly after earlier ones, so the joined text keeps the order of the list. */
  lemma {:induction false} LineStartIncreasing(parts: seq<string>, i: nat, j: nat)
    requires i < j <= |parts|
    ensures LineStart(parts, i) + |parts[i]| < LineStart(parts, j)
  {
    if i > 0 {
      LineStartIncreasing(parts[1..], i - 1, j - 1);
    } else if j > 1 {
      LineStartIncreasing(parts[1..], 0, j - 1);
    }
  }

  /** The context block: the retrieved contents, one per line, in retrieval order; empty when nothing was retrieved. */
  function Context(rows: seq<Row>): (context: string)
    ensures rows == [] ==> context == ""
    ensures rows != [] ==> |context| + 1 == LineStart(Contents(rows), |rows|)
  {
    JoinLines(Contents(rows))
  }

  /** Row i's content appears verbatim in the context, after every earlier row's content. */
  lemma ContextLayout(rows: seq<Row>, i: nat)
    requires i < |rows|
    ensures var at := LineStart(Contents(rows), i);
      && at + |rows[i].content| <= |Context(rows)|
      && Context(rows)[at..at + |rows[i].content|] == rows[i].content
      && (i + 1 < |rows| ==> at + |rows[i].content| < |Context(rows)| && Context(rows)[at + |rows[i].content|] == '\n')
      && (i + 1 < |rows| ==> at + |rows[i].content| < LineStart(Contents(rows), i + 1))
  {
    JoinLinesLayout(Contents(rows), i);
    if i + 1 < |rows| {
      LineStartIncreasing(Contents(rows), i, i + 1);
    }
  }

  /** The f-string handed to the language model. */
  function Prompt(context: string, question: string): (prompt: string)
    ensures |prompt| == |PromptHead| + |context| + |QuestionHead| + |question| + |PromptTail|
  {
    PromptHead + context + QuestionHead + question + PromptTail
  }

  /**
    The template is fixed around its two holes: the prompt starts with the
    context header and the context, and ends with the question and the
    instruction to answer from the context only.
  */
  lemma PromptFrame(context: string, question: string)
    ensures var p := Prompt(context, question);
      && p[..|PromptHead|] == PromptHead
      && p[|PromptHead|..|PromptHead| + |context|] == context
      && p[|PromptHead| + |context|..|PromptHead| + |context| + |QuestionHead|] == QuestionHead
      && p[|p| - |PromptTail| - |question|..|p| - |PromptTail|] == question
      && p[|p| - |PromptTail|..] == PromptTail
  {
    var p := Prompt(context, question);
    var a := PromptHead + context;
    var b := a + QuestionHead;
    var c := b + question;
    assert p == c + PromptTail;
    assert p[..|c|] == c;
    assert c[..|b|] == b;
    assert b[..|a|] == a;
  }

  /** Hence the prompt determines the context and the question once the context's length is known. */
  lemma PromptInjective(c1: string, q1: string, c2: string, q2: string)
    requires Prompt(c1, q1) == Prompt(c2, q2)
    requires |c1| == |c2|
    ensures c1 == c2 && q1 == q2
  {
    PromptFrame(c1, q1);
    PromptFrame(c2, q2);
  }
}

/**
 * `generate_answer` of app.py: the empty-result guard, the prompt sent to the
 * generative model, and the pass-through of the model's text.
 */
module Answers {
  import opened Strings
  import opened Context

  /** The fixed reply when the search found nothing ("⚠️ No relevant records found."). */
  const NoRecordsMessage := "\U{26A0}\U{FE0F} No relevant records found."

  const Instructions :=
    "Instructions:\n"
    + "- Rank results clearly.\n"
    + "- Present in professional trade intelligence style.\n"
    + "- Explain briefly why each match is relevant.\n"
    + "- Keep answer structured and readable.\n"

  /** One titled section of the prompt. */
  function Section(title: string, body: string): string {
    "\n" + title + ":\n" + body + "\n"
  }

  /** The prompt layout: three titled sections, a blank line, then the instructions. */
  function FillTemplate(userQuery: string, recordType: string, context: string,
                        instructions: string): string {
    Section("User Query", userQuery)
    + Section("Record Type", recordType)
    + Section("Retrieved Data", context)
    + "\n" + instructions
  }

  /** The prompt sent to the model, filled with the query, the record type and the context. */
  function Prompt(userQuery: string, recordType: string, context: string): string {
    FillTemplate(userQuery, recordType, context, Instructions)
  }

  /** Where each of four concatenated parts lies in the whole. */
  lemma FourParts(a: string, b: string, c: string, d: string)
    ensures StartsWith(a + b + c + d, a)
    ensures Occurs(a + b + c + d, b) && Occurs(a + b + c + d, c)
    ensures (a + b + c + d)[|a + b + c|..] == d
  {
    var p := a + b + c + d;
    assert p[..|a|] == a;
    assert p[|a|..|a| + |b|] == b;
    assert OccursAt(p, b, |a|);
    assert p[|a| + |b|..|a| + |b| + |c|] == c;
    assert OccursAt(p, c, |a| + |b|);
  }

  /** Whatever occurs in a section's body occurs in every text holding that section. */
  lemma OccursThroughSection(p: string, title: string, body: string)
    requires Occurs(p, Section(title, body))
    ensures Occurs(p, body)
  {
    var i :| OccursAt(p, Section(title, body), i);
    var j := i + |"\n" + title + ":\n"|;
    assert Section(title, body)[|"\n" + title + ":\n"|..][..|body|] == body;
    assert p[j..j + |body|] == body;
    assert OccursAt(p, body, j);
  }

  /** A filled template opens with the query's section and closes with the instructions. */
  lemma TemplateFrame(userQuery: string, recordType: string, context: string,
                      instructions: string)
    ensures var p := FillTemplate(userQuery, recordType, context, instructions);
      && StartsWith(p, Section("User Query", userQuery))
      && p[|p| - |instructions|..] == instructions
  {
    var head := Section("User Query", userQuery);
    var kind := Section("Record Type", recordType);
    var data := Section("Retrieved Data", context);
    var tail := "\n" + instructions;
    FourParts(head, kind, data, tail);
    var p := head + kind + data + tail;
    assert p[|head + kind + data|..] == tail;
    assert p[|p| - |instructions|..] == tail[1..];
  }

  /** A filled template holds the user's query. */
  lemma TemplateHoldsQuery(userQuery: string, recordType: string, context: string,
                           instructions: string)
    ensures Occurs(FillTemplate(userQuery, recordType, context, instructions), userQuery)
  {
    var rest := "\n" + Section("Record Type", recordType) + Section("Retrieved Data", context)
      + "\n" + instructions;
    assert FillTemplate(userQuery, recordType, context, instructions)
      == "\nUser Query:\n" + userQuery + rest;
    OccursInMiddle("\nUser Query:\n", userQuery, rest);
  }

  /** A filled template holds the record type's section. */
  lemma TemplateHoldsRecordType(userQuery: string, recordType: string, context: string,
                                instructions: string)
    ensures Occurs(FillTemplate(userQuery, recordType, context, instructions),
                   Section("Record Type", recordType))
  {
    var rest := Section("Retrieved Data", context) + "\n" + instructions;
    assert FillTemplate(userQuery, recordType, context, instructions)
      == Section("User Query", userQuery) + Section("Record Type", recordType) + rest;
    OccursInMiddle(Section("User Query", userQuery), Section("Record Type", recordType), rest);
  }

  /** A filled template holds the context's section. */
  lemma TemplateHoldsContext(userQuery: string, recordType: string, context: string,
                             instructions: string)
    ensures Occurs(FillTemplate(userQuery, recordType, context, instructions),
                   Section("Retrieved Data", context))
  {
    var before := Section("User Query", userQuery) + Section("Record Type", recordType);
    assert FillTemplate(userQuery, recordType, context, instructions)
      == before + Section("Retrieved Data", context) + ("\n" + instructions);
    OccursInMiddle(before, Section("Retrieved Data", context), "\n" + instructions);
  }

  /** A filled template holds the record type's and the context's sections, and all three inputs. */
  lemma TemplateEmbedsInputs(userQuery: string, recordType: string, context: string,
                             instructions: string)
    ensures var p := FillTemplate(userQuery, recordType, context, instructions);
      && Occurs(p, Section("Record Type", recordType))
      && Occurs(p, Section("Retrieved Data", context))
      && Occurs(p, userQuery) && Occurs(p, recordType) && Occurs(p, context)
  {
    var p := FillTemplate(userQuery, recordType, context, instructions);
    TemplateHoldsQuery(userQuery, recordType, context, instructions);
    TemplateHoldsRecordType(userQuery, recordType, context, instructions);
    TemplateHoldsContext(userQuery, recordType, context, instructions);
    OccursThroughSection(p, "Record Type", recordType);
    OccursThroughSection(p, "Retrieved Data", context);
  }

  /** The prompt carries the query, the record type and the context, then the fixed instructions. */
  lemma PromptEmbedsInputs(userQuery: string, recordType: string, context: string)
    ensures var p := Prompt(userQuery, recordType, context);
      && StartsWith(p, Section("User Query", userQuery))
      && Occurs(p, Section("Record Type", recordType))
      && Occurs(p, Section("Retrieved Data", context))
      && Occurs(p, userQuery) && Occurs(p, recordType) && Occurs(p, context)
      && p[|p| - |Instructions|..] == Instructions
  {
    TemplateFrame(userQuery, recordType, context, Instructions);
    TemplateEmbedsInputs(userQuery, recordType, context, Instructions);
  }

  /**
   * What answering one query produced: the text shown to the user and the
   * prompts the generative model was called on, in call order.
   */
  datatype Answer = Answer(text: string, prompts: seq<string>)

  /**
   * `generate_answer`, with the generative model given as the function
   * `model` from prompt to response text. With no hits it answers with the
   * fixed message and never calls the model; otherwise it calls the model
   * once and returns its text untouched.
   */
  function GenerateAnswer(userQuery: string, results: seq<Hit>, recordType: string,
                          show: Show, model: string -> string): (a: Answer)
    ensures a.prompts == [] <==> results == []
    ensures |a.prompts| <= 1
    ensures results == [] ==> a.text == NoRecordsMessage
    ensures results != [] ==>
      && a.text == model(a.prompts[0])
      && a.prompts[0] == Prompt(userQuery, recordType, BuildContext(results, show))
      && Occurs(a.prompts[0], userQuery)
      && Occurs(a.prompts[0], recordType)
      && Occurs(a.prompts[0], BuildContext(results, show))
  {
    PromptEmbedsInputs(userQuery, recordType, BuildContext(results, show));
    if results == [] then
      Answer(NoRecordsMessage, [])
    else
      var context := BuildContext(results, show);
      var prompt := Prompt(userQuery, recordType, context);
      Answer(model(prompt), [prompt])
  }

  /** The model's text reaches the user unmodified, whatever the model says. */
  lemma AnswerIsModelText(userQuery: string, results: seq<Hit>, recordType: string,
                          show: Show, model: string -> string)
    requires results != []
    ensures GenerateAnswer(userQuery, results, recordType, show, model).text ==
      model(Prompt(userQuery, recordType, BuildContext(results, show)))
  {
  }

  /** With no hits the answer does not depend on the query, the record type or the model. */
  lemma EmptyResultsIgnoreModel(userQuery: string, recordType: string, show: Show,
                                model1: string -> string, model2: string -> string)
    ensures GenerateAnswer(userQuery, [], recordType, show, model1) ==
      GenerateAnswer("", [], "", show, model2)
  {
  }
}

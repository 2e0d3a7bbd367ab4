/** The AI tutor (lib/ai-tutor.ts): the subject personality table, the system prompt it
    builds for a study room, and how a processed document comes back as a parsed value or
    `null`. The language model is a parameter, a function from the system text and the
    prompt to the generated text or a thrown error; JSON parsing is another. */
module AITutor {
  import opened Wrappers
  import opened Strings
  import opened Json

  // ---------------------------------------------------------------------------
  // Personalities

  const DefaultPersonality := "You adapt your teaching style to the subject matter, always focusing on clarity and student engagement."

  /** The eight subjects with a personality of their own, keyed in lower case. */
  const Personalities: map<string, string> := map[
    "mathematics" := "You have a logical, step-by-step approach. You love breaking down complex problems into manageable parts and showing multiple solution methods.",
    "physics" := "You're enthusiastic about real-world applications and love connecting abstract concepts to everyday phenomena.",
    "chemistry" := "You're detail-oriented and safety-conscious, always explaining the 'why' behind chemical reactions and processes.",
    "biology" := "You're fascinated by life processes and enjoy using analogies to explain complex biological systems.",
    "history" := "You're a storyteller who brings historical events to life and helps students understand cause-and-effect relationships.",
    "literature" := "You're thoughtful and analytical, helping students explore themes, symbolism, and the human condition in texts.",
    "computer science" := "You're practical and project-oriented, focusing on problem-solving and real-world applications of programming concepts.",
    "psychology" := "You're empathetic and curious about human behavior, using case studies and examples to illustrate psychological principles."]

  /** What a plain object literal also answers for, through its prototype, among the keys
      a lower-cased string can be: the `Object` constructor and `Object.prototype`, as a
      template string prints them. */
  const InheritedKeys: map<string, string> := map[
    "constructor" := "function Object() { [native code] }",
    "__proto__" := "[object Object]"]

  /** `getSubjectPersonality` as written: the lookup `personalities[subject.toLowerCase()]`
      also finds the keys the object inherits. */
  function PersonalityAsWritten(subject: string): (p: string)
    ensures Lower(subject) in Personalities ==> p == Personalities[Lower(subject)]
    ensures Lower(subject) in InheritedKeys ==> p == InheritedKeys[Lower(subject)]
    ensures Lower(subject) !in Personalities && Lower(subject) !in InheritedKeys ==> p == DefaultPersonality
  {
    var key := Lower(subject);
    if key in Personalities then Personalities[key]
    else if key in InheritedKeys then InheritedKeys[key]
    else DefaultPersonality
  }

  /** No inherited key is one of the table's own subjects. */
  lemma InheritedKeysOutsideTable()
    ensures forall k :: k in InheritedKeys ==> k !in Personalities
  {
    assert Personalities.Keys == {"mathematics", "physics", "chemistry", "biology", "history",
                                  "literature", "computer science", "psychology"};
    assert InheritedKeys.Keys == {"constructor", "__proto__"};
    assert "constructor"[1] == 'o' && "__proto__"[0] == '_';
  }

  /** The personality lookup as intended: only the table's own eight subjects, in any
      capitalisation, and the default sentence for every other subject. */
  function Personality(subject: string): (p: string)
    ensures Lower(subject) in Personalities ==> p == Personalities[Lower(subject)]
    ensures p == DefaultPersonality <==> Lower(subject) !in Personalities
  {
    var key := Lower(subject);
    if key in Personalities then Personalities[key] else DefaultPersonality
  }

  /** The lookup ignores case. */
  lemma PersonalityIgnoresCase(subject: string)
    ensures Personality(Lower(subject)) == Personality(subject)
  {
    LowerIdempotent(subject);
  }

  /** The code as written and as intended differ only on the inherited keys. */
  lemma PersonalityAgreesOffPrototype(subject: string)
    requires Lower(subject) !in InheritedKeys
    ensures PersonalityAsWritten(subject) == Personality(subject)
  {
  }

  // ---------------------------------------------------------------------------
  // System prompt

  datatype TutorContext = TutorContext(
    subject: string,
    roomId: string,
    recentMessages: seq<string>,
    documentContext: Option<string>)

  /** `documentContext` is set and not empty. */
  predicate HasDocumentContext(context: TutorContext)
  {
    context.documentContext.Some? && context.documentContext.value != ""
  }

  /** The opening sentence: the subject, then the personality found for it. */
  function Opening(context: TutorContext, personality: string): string
  {
    "You are an AI tutor specializing in " + context.subject + ". " + personality
  }

  /** The line with the recent messages, one per line. */
  function ConversationLine(context: TutorContext): string
  {
    "- Recent conversation: " + Join(context.recentMessages, "\n") + "\n"
  }

  const ContextHeading := "\n\nContext:\n- You are helping students in a collaborative study room\n"

  /** The document-context line, or nothing. */
  function DocumentLine(context: TutorContext): string
  {
    if HasDocumentContext(context) then "- Document context: " + context.documentContext.value else ""
  }

  const Guidelines := "\n\nGuidelines:\n"
    + "- Be encouraging and supportive\n"
    + "- Explain concepts clearly with examples\n"
    + "- Ask follow-up questions to ensure understanding\n"
    + "- Suggest practice problems when appropriate\n"
    + "- Keep responses concise but thorough\n"
    + "- Use analogies and real-world examples\n"
    + "- If students seem stuck, break down problems into smaller steps\n"
    + "\nRemember: You're not just answering questions, you're facilitating learning and understanding."

  /** The prompt template, filled with the context and a personality. */
  function PromptWith(context: TutorContext, personality: string): string
  {
    Opening(context, personality) + (ContextHeading + ConversationLine(context)) + (DocumentLine(context) + Guidelines)
  }

  /** `buildSystemPrompt` as written: the personality comes from the object lookup. */
  function BuildSystemPromptAsWritten(context: TutorContext): string
  {
    PromptWith(context, PersonalityAsWritten(context.subject))
  }

  /** `buildSystemPrompt` as intended: the personality comes from the table's own subjects. */
  function BuildSystemPrompt(context: TutorContext): string
  {
    PromptWith(context, Personality(context.subject))
  }

  /** Both prompts open with the subject and the personality their lookup finds. */
  lemma PromptOpensWithPersonality(context: TutorContext)
    ensures StartsWith(BuildSystemPromptAsWritten(context),
                       "You are an AI tutor specializing in " + context.subject + ". " + PersonalityAsWritten(context.subject))
    ensures StartsWith(BuildSystemPrompt(context),
                       "You are an AI tutor specializing in " + context.subject + ". " + Personality(context.subject))
  {
    var rest := (ContextHeading + ConversationLine(context)) + (DocumentLine(context) + Guidelines);
    var asWritten := Opening(context, PersonalityAsWritten(context.subject));
    var intended := Opening(context, Personality(context.subject));
    assert (asWritten + rest)[..|asWritten|] == asWritten;
    assert (intended + rest)[..|intended|] == intended;
  }

  /** What the two lookups give the subject "Constructor". */
  lemma ConstructorPersonalities()
    ensures PersonalityAsWritten("Constructor") == "function Object() { [native code] }"
    ensures Personality("Constructor") == DefaultPersonality
  {
    assert Lower("Constructor") == "constructor";
    InheritedKeysOutsideTable();
  }

  /** Personalities of different lengths give different prompts. */
  lemma PromptsDifferWithPersonality(context: TutorContext, p1: string, p2: string)
    requires |p1| != |p2|
    ensures PromptWith(context, p1) != PromptWith(context, p2)
  {
    var rest := (ContextHeading + ConversationLine(context)) + (DocumentLine(context) + Guidelines);
    assert |PromptWith(context, p1)| == |Opening(context, p1)| + |rest|;
    assert |PromptWith(context, p2)| == |Opening(context, p2)| + |rest|;
  }

  /** For the subject "Constructor" the prompt as written opens with the printed `Object`
      constructor as the tutor's personality, so it is not the intended prompt. */
  lemma InheritedKeyLeaksIntoPrompt(context: TutorContext)
    requires context.subject == "Constructor"
    ensures StartsWith(BuildSystemPromptAsWritten(context),
                       "You are an AI tutor specializing in " + "Constructor" + ". " + "function Object() { [native code] }")
    ensures BuildSystemPromptAsWritten(context) != BuildSystemPrompt(context)
  {
    ConstructorPersonalities();
    PromptOpensWithPersonality(context);
    PromptsDifferWithPersonality(context, PersonalityAsWritten(context.subject), DefaultPersonality);
  }

  /** Away from the inherited keys the prompt as written is the intended one. */
  lemma PromptAgreesOffPrototype(context: TutorContext)
    requires Lower(context.subject) !in InheritedKeys
    ensures BuildSystemPromptAsWritten(context) == BuildSystemPrompt(context)
  {
    PersonalityAgreesOffPrototype(context.subject);
  }

  /** Whichever lookup supplies the personality, the recent messages appear in the
      conversation line. */
  lemma PromptShowsConversation(context: TutorContext, personality: string)
    ensures Contains(PromptWith(context, personality), ConversationLine(context))
  {
    ContainsSpliced(Opening(context, personality), ContextHeading, ConversationLine(context),
                    DocumentLine(context) + Guidelines);
  }

  /** The conversation line lists the recent messages in the given order, one per line:
      splitting it at line breaks gives them back, as long as no message holds a line
      break itself. With no messages the line is empty after its label. */
  lemma ConversationReadsBack(context: TutorContext)
    requires forall i :: 0 <= i < |context.recentMessages| ==> '\n' !in context.recentMessages[i]
    ensures |context.recentMessages| > 0 ==>
      var line := ConversationLine(context);
      Split(line[|"- Recent conversation: "|..|line| - 1], '\n') == context.recentMessages
    ensures |context.recentMessages| == 0 ==> ConversationLine(context) == "- Recent conversation: \n"
  {
    var line := ConversationLine(context);
    var joined := Join(context.recentMessages, "\n");
    assert line[|"- Recent conversation: "|..|line| - 1] == joined;
    if |context.recentMessages| > 0 {
      SplitJoin(context.recentMessages, '\n');
    }
  }

  /** The document-context line is there exactly when the context is set and not empty:
      then it shows the context, and otherwise the prompt is the one without context.
      This holds whichever lookup supplies the personality. */
  lemma PromptShowsDocumentContext(context: TutorContext, personality: string)
    ensures HasDocumentContext(context) ==>
      Contains(PromptWith(context, personality), "- Document context: " + context.documentContext.value)
    ensures !HasDocumentContext(context) ==>
      PromptWith(context, personality) == PromptWith(context.(documentContext := None), personality)
    ensures HasDocumentContext(context) ==>
      |PromptWith(context, personality)| == |PromptWith(context.(documentContext := None), personality)|
                                            + |"- Document context: "| + |context.documentContext.value|
  {
    if HasDocumentContext(context) {
      ContainsLeading(Opening(context, personality) + (ContextHeading + ConversationLine(context)),
                      DocumentLine(context), Guidelines);
    }
  }

  // ---------------------------------------------------------------------------
  // Document processing

  /** The language model: system text and prompt to the generated text or an error. */
  type Generate = (string, string) -> Result<string, string>

  /** `JSON.parse`: a value, or `None` when the text does not parse. */
  type Parse = string -> Option<Json>

  function DocumentSystem(subject: string): string
  {
    "You are an AI that processes educational documents for " + subject
    + ". Extract key information and create learning materials."
  }

  const AnalysisRequest := "Analyze this document and provide:\n"
    + "1. A comprehensive summary (2-3 paragraphs)\n"
    + "2. 10-15 key concepts/terms with definitions\n"
    + "3. 5-8 potential quiz questions with answers\n"
    + "4. 8-12 flashcard pairs (question/answer)\n"
    + "\nDocument content:\n"

  const ResponseFormat := "\n\nFormat your response as JSON with the structure:\n{\n"
    + "  \"summary\": \"...\",\n"
    + "  \"keyTopics\": [\"topic1\", \"topic2\", ...],\n"
    + "  \"quizQuestions\": [{\"question\": \"...\", \"options\": [\"a\", \"b\", \"c\", \"d\"], \"correct\": 0, \"explanation\": \"...\"}],\n"
    + "  \"flashcards\": [{\"front\": \"...\", \"back\": \"...\"}]\n"
    + "}"

  function DocumentPrompt(fileContent: string): string
  {
    AnalysisRequest + fileContent + ResponseFormat
  }

  /** The document prompt carries the whole file content, between the request and the
      response format, so different contents never give the same prompt. */
  lemma DocumentPromptCarriesContent(fileContent: string, other: string)
    ensures Contains(DocumentPrompt(fileContent), fileContent)
    ensures DocumentPrompt(fileContent)[|AnalysisRequest|..|DocumentPrompt(fileContent)| - |ResponseFormat|] == fileContent
    ensures DocumentPrompt(fileContent) == DocumentPrompt(other) ==> fileContent == other
  {
    ContainsMiddle(AnalysisRequest, fileContent, ResponseFormat);
    var prompt := DocumentPrompt(fileContent);
    assert prompt[|AnalysisRequest|..|prompt| - |ResponseFormat|] == fileContent;
    var otherPrompt := DocumentPrompt(other);
    assert otherPrompt[|AnalysisRequest|..|otherPrompt| - |ResponseFormat|] == other;
  }

  /** `processDocument`: an error of the model propagates; otherwise the parsed text, or
      `None` (`null`) when it does not parse. */
  function ProcessDocument(fileContent: string, subject: string, generate: Generate, parse: Parse)
    : (r: Result<Option<Json>, string>)
    ensures generate(DocumentSystem(subject), DocumentPrompt(fileContent)).Err? ==>
      r == Err(generate(DocumentSystem(subject), DocumentPrompt(fileContent)).error)
    ensures generate(DocumentSystem(subject), DocumentPrompt(fileContent)).Ok? ==>
      r == Ok(parse(generate(DocumentSystem(subject), DocumentPrompt(fileContent)).value))
  {
    var generated := generate(DocumentSystem(subject), DocumentPrompt(fileContent));
    if generated.Err? then Err(generated.error) else Ok(parse(generated.value))
  }

  /** The result is JavaScript `null` in two ways: `None` exactly when the model answered
      with text that does not parse, and a parsed `null` exactly when the text parses to it. */
  lemma ProcessDocumentNullWhenUnparsable(fileContent: string, subject: string, generate: Generate, parse: Parse)
    ensures ProcessDocument(fileContent, subject, generate, parse) == Ok(None) <==>
      var generated := generate(DocumentSystem(subject), DocumentPrompt(fileContent));
      generated.Ok? && parse(generated.value).None?
    ensures ProcessDocument(fileContent, subject, generate, parse) == Ok(Some(JNull)) <==>
      var generated := generate(DocumentSystem(subject), DocumentPrompt(fileContent));
      generated.Ok? && parse(generated.value) == Some(JNull)
  {
  }
}

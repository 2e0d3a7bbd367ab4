/** The document processing route (app/api/documents/process/route.ts): it marks the
    document as processing, asks the AI tutor to process it, and records the outcome. The
    `documents` table is the one piece of state, a class whose rows the route updates; the
    language model and JSON parsing are parameters. */
module ProcessRoute {
  import opened Wrappers
  import opened Json
  import opened AITutor

  const Processing := "processing"
  const Completed := "completed"
  const Failed := "failed"
  const ProcessingFailed := "Processing failed"

  /** One `documents` row, as far as the route touches it. */
  datatype Document = Document(processingStatus: string, aiResults: Option<Json>)

  /** The request body. */
  datatype Body = Body(documentId: string, fileUrl: string, subject: string)

  datatype Payload = Success(results: Json) | Failure(error: string)

  /** `NextResponse.json(payload, { status })`. */
  datatype Response = Response(status: nat, payload: Payload)

  /** The stand-in content the route hands to the tutor. */
  function MockContent(subject: string): string
  {
    "This is a " + subject + " document with educational content about various topics."
  }

  /** The `ai_results` stored for a parsed result: two summaries, the flashcard count or
      12, the quiz count or 5, and the key topics or none. */
  function AiResults(results: Json): Json
  {
    JObject(map[
      "summaries" := JNumber(2),
      "flashcards" := OrElse(LengthOf(Field(results, "flashcards")), JNumber(12)),
      "quizzes" := OrElse(LengthOf(Field(results, "quizQuestions")), JNumber(5)),
      "key_topics" := OrElse(Field(results, "keyTopics"), JArray([]))])
  }

  /** The counts stored for a result with list-valued fields: the real lengths when the
      lists are not empty, and 12 flashcards, 5 quizzes and no topics when they are
      missing or empty. */
  lemma AiResultsCounts(results: Json)
    ensures Field(AiResults(results), "summaries") == Some(JNumber(2))
    ensures (match Field(results, "flashcards")
             case Some(JArray(cards)) => |cards| > 0
             case _ => false)
      ==> Field(AiResults(results), "flashcards") == Some(JNumber(|Field(results, "flashcards").value.items|))
    ensures (match Field(results, "flashcards")
             case None => true
             case Some(JArray(cards)) => cards == []
             case _ => false)
      ==> Field(AiResults(results), "flashcards") == Some(JNumber(12))
    ensures (match Field(results, "quizQuestions")
             case Some(JArray(quizzes)) => |quizzes| > 0
             case _ => false)
      ==> Field(AiResults(results), "quizzes") == Some(JNumber(|Field(results, "quizQuestions").value.items|))
    ensures (match Field(results, "quizQuestions")
             case None => true
             case Some(JArray(quizzes)) => quizzes == []
             case _ => false)
      ==> Field(AiResults(results), "quizzes") == Some(JNumber(5))
    ensures Field(results, "keyTopics").None? ==> Field(AiResults(results), "key_topics") == Some(JArray([]))
  {
  }

  class DocumentsTable {
    var rows: map<string, Document>

    constructor(initial: map<string, Document>)
      ensures rows == initial
    {
      rows := initial;
    }

    /** `.update({ processing_status }).eq("id", id)`: changes the row with that id, if any. */
    method SetStatus(id: string, status: string)
      modifies this
      ensures id in old(rows) ==> rows == old(rows)[id := old(rows)[id].(processingStatus := status)]
      ensures id !in old(rows) ==> rows == old(rows)
    {
      if id in rows {
        rows := rows[id := rows[id].(processingStatus := status)];
      }
    }

    /** `.update({ processing_status: "completed", ai_results }).eq("id", id)`. */
    method Complete(id: string, results: Json)
      modifies this
      ensures id in old(rows) ==> rows == old(rows)[id := Document(Completed, Some(AiResults(results)))]
      ensures id !in old(rows) ==> rows == old(rows)
    {
      if id in rows {
        rows := rows[id := Document(Completed, Some(AiResults(results)))];
      }
    }
  }

  /** What one request leaves in a table: marked processing first, then completed with
      the counts for a truthy result, failed for a falsy one, and still processing when
      the tutor threw. A body that does not parse changes nothing. */
  function RowsAfter(rows: map<string, Document>, body: Option<Body>, outcome: Result<Option<Json>, string>)
    : (after: map<string, Document>)
    ensures body.None? ==> after == rows
    ensures body.Some? && body.value.documentId !in rows ==> after == rows
    ensures after.Keys == rows.Keys
  {
    if body.None? || body.value.documentId !in rows then rows
    else
      var id := body.value.documentId;
      var marked := rows[id := rows[id].(processingStatus := Processing)];
      if outcome.Err? then marked
      else if TruthyOption(outcome.value) then marked[id := Document(Completed, Some(AiResults(outcome.value.value)))]
      else marked[id := marked[id].(processingStatus := Failed)]
  }

  /** The status a request leaves on its document. */
  lemma StatusAfter(rows: map<string, Document>, body: Body, outcome: Result<Option<Json>, string>)
    requires body.documentId in rows
    ensures var after := RowsAfter(rows, Some(body), outcome)[body.documentId];
      && (outcome.Err? ==> after.processingStatus == Processing && after.aiResults == rows[body.documentId].aiResults)
      && (outcome.Ok? && !TruthyOption(outcome.value) ==> after.processingStatus == Failed)
      && (outcome.Ok? && TruthyOption(outcome.value) ==>
            after == Document(Completed, Some(AiResults(outcome.value.value))))
    ensures forall other :: other in rows && other != body.documentId ==>
      RowsAfter(rows, Some(body), outcome)[other] == rows[other]
  {
  }

  /** `POST`: `body` is `None` when the request's JSON does not parse. */
  method Post(table: DocumentsTable, body: Option<Body>, generate: Generate, parse: Parse)
    returns (response: Response)
    modifies table
    ensures body.None? ==> table.rows == old(table.rows) && response == Response(500, Failure(ProcessingFailed))
    ensures body.Some? ==>
      var outcome := ProcessDocument(MockContent(body.value.subject), body.value.subject, generate, parse);
      && table.rows == RowsAfter(old(table.rows), body, outcome)
      && (outcome.Ok? && TruthyOption(outcome.value) ==> response == Response(200, Success(outcome.value.value)))
      && (!(outcome.Ok? && TruthyOption(outcome.value)) ==> response == Response(500, Failure(ProcessingFailed)))
  {
    if body.None? {
      return Response(500, Failure(ProcessingFailed));
    }
    var request := body.value;
    table.SetStatus(request.documentId, Processing);
    var mockContent := MockContent(request.subject);
    var results := ProcessDocument(mockContent, request.subject, generate, parse);
    if results.Err? {
      return Response(500, Failure(ProcessingFailed));
    }
    if TruthyOption(results.value) {
      table.Complete(request.documentId, results.value.value);
      response := Response(200, Success(results.value.value));
    } else {
      table.SetStatus(request.documentId, Failed);
      response := Response(500, Failure(ProcessingFailed));
    }
  }
}

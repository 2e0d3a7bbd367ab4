/** The document upload page (app/documents/upload/page.tsx): the PDF file list, the drag
    flag, and the processing run with its progress steps and result counts. The page's
    React state is the fields of `UploadPage`; every setter call assigns one field. Blob
    storage, the database insert and the request to the processing route are parameters. */
module UploadPage {
  import opened Wrappers
  import opened BlobStorage

  const PdfType := "application/pdf"

  predicate IsPdf(file: File)
  {
    file.fileType == PdfType
  }

  /** `filter((file) => file.type === "application/pdf")`, kept in order. */
  function PdfOnly(files: seq<File>): (pdfs: seq<File>)
    ensures |pdfs| <= |files|
    ensures forall i :: 0 <= i < |pdfs| ==> IsPdf(pdfs[i])
  {
    if |files| == 0 then []
    else
      var front := PdfOnly(files[..|files| - 1]);
      if IsPdf(files[|files| - 1]) then front + [files[|files| - 1]] else front
  }

  /** One file is kept exactly when it is a PDF. */
  lemma PdfOnlyOfFile(file: File)
    ensures PdfOnly([file]) == if IsPdf(file) then [file] else []
  {
    assert [file][..0] == [];
  }

  /** The filter distributes over concatenation: it keeps the order of the files. */
  lemma {:induction false} PdfOnlyAppend(a: seq<File>, b: seq<File>)
    ensures PdfOnly(a + b) == PdfOnly(a) + PdfOnly(b)
  {
    if |b| > 0 {
      var front := b[..|b| - 1];
      assert (a + b)[..|a + b| - 1] == a + front;
      PdfOnlyAppend(a, front);
    } else {
      assert a + b == a;
    }
  }

  /** A list of PDFs passes the filter unchanged. */
  lemma {:induction false} PdfOnlyKeepsPdfs(files: seq<File>)
    requires forall i :: 0 <= i < |files| ==> IsPdf(files[i])
    ensures PdfOnly(files) == files
  {
    if |files| > 0 {
      PdfOnlyKeepsPdfs(files[..|files| - 1]);
    }
  }

  /** `filter((_, i) => i !== index)`. */
  function RemoveIndex<T>(s: seq<T>, index: int): (r: seq<T>)
    ensures |r| <= |s|
  {
    if |s| == 0 then []
    else
      var front := RemoveIndex(s[..|s| - 1], index);
      if |s| - 1 == index then front else front + [s[|s| - 1]]
  }

  /** Removing an index drops exactly that element and keeps the rest in order; an index
      out of range leaves the list as it was. */
  lemma {:induction false} RemoveIndexSpec<T>(s: seq<T>, index: int)
    ensures 0 <= index < |s| ==> RemoveIndex(s, index) == s[..index] + s[index + 1..]
    ensures !(0 <= index < |s|) ==> RemoveIndex(s, index) == s
  {
    if |s| > 0 {
      var front := s[..|s| - 1];
      RemoveIndexSpec(front, index);
      if 0 <= index < |s| - 1 {
        assert front[..index] == s[..index];
        assert front[index + 1..] + [s[|s| - 1]] == s[index + 1..];
      } else if index == |s| - 1 {
        assert s[index + 1..] == [];
      } else {
        assert front + [s[|s| - 1]] == s;
      }
    }
  }

  /** One `documents` row to insert for an uploaded file. */
  datatype Draft = Draft(name: string, fileUrl: string, subject: string, userId: string, processingStatus: string)

  /** The inserted row, as `.select().single()` returns it. */
  datatype Row = Row(id: string, fileUrl: string)

  /** The body of one request to the processing route. */
  datatype ProcessRequest = ProcessRequest(documentId: string, fileUrl: string, subject: string)

  /** The shown results. */
  datatype Results = Results(summaries: nat, flashcards: nat, quizzes: nat, keyTopics: seq<string>)

  const Pending := "pending"
  const DemoTopics := ["Derivatives", "Chain Rule", "Integration", "Limits", "Continuity"]

  /** The database insert: the stored row, or the error it reports. */
  type Insert = Draft -> Result<Row, string>

  /** The request to the processing route: whether the promise `fetch` returns resolves. */
  type Send = ProcessRequest -> bool

  /** The results shown for `n` processed files. */
  function ResultsFor(n: nat): (r: Results)
    ensures r.summaries == 2 * n && r.flashcards == 15 * n && r.quizzes == 3 * n
    ensures r.keyTopics == DemoTopics
  {
    Results(n * 2, n * 15, n * 3, DemoTopics)
  }

  /** The URL the i-th upload returned. */
  function UploadedUrls(files: seq<File>, clock: seq<nat>, put: Put): (urls: seq<string>)
    requires |clock| == |files| && AllStored(files, DefaultFolder, clock, put)
    ensures |urls| == |files|
  {
    seq(|files|, i requires 0 <= i < |files| => put(UploadPath(DefaultFolder, clock[i], files[i].name), files[i]).value)
  }

  /** URLs that agree with every upload one by one are the uploaded URLs. */
  lemma UploadedUrlsPointwise(files: seq<File>, clock: seq<nat>, put: Put, urls: seq<string>)
    requires |clock| == |files| && AllStored(files, DefaultFolder, clock, put)
    requires |urls| == |files|
    requires forall i :: 0 <= i < |files| ==>
      urls[i] == put(UploadPath(DefaultFolder, clock[i], files[i].name), files[i]).value
    ensures urls == UploadedUrls(files, clock, put)
  {
  }

  /** The rows inserted for the uploaded files. */
  function Drafts(files: seq<File>, urls: seq<string>, subject: string, userId: string): (drafts: seq<Draft>)
    requires |urls| == |files|
    ensures |drafts| == |files|
    ensures forall i :: 0 <= i < |files| ==> drafts[i] == Draft(files[i].name, urls[i], subject, userId, Pending)
  {
    seq(|files|, i requires 0 <= i < |files| => Draft(files[i].name, urls[i], subject, userId, Pending))
  }

  predicate AllInserted(drafts: seq<Draft>, insert: Insert)
  {
    forall i :: 0 <= i < |drafts| ==> insert(drafts[i]).Ok?
  }

  /** The requests sent for the inserted rows, in file order. */
  function Requests(drafts: seq<Draft>, insert: Insert, subject: string): (requests: seq<ProcessRequest>)
    requires AllInserted(drafts, insert)
    ensures |requests| == |drafts|
    ensures forall i :: 0 <= i < |drafts| ==>
      requests[i] == ProcessRequest(insert(drafts[i]).value.id, insert(drafts[i]).value.fileUrl, subject)
  {
    seq(|drafts|, i requires 0 <= i < |drafts| =>
      ProcessRequest(insert(drafts[i]).value.id, insert(drafts[i]).value.fileUrl, subject))
  }

  predicate AllSent(requests: seq<ProcessRequest>, send: Send)
  {
    forall i :: 0 <= i < |requests| ==> send(requests[i])
  }

  /** `files.map(insert)` under `Promise.all`: every insert is made, and the rows come back
      only when none failed. */
  method InsertAll(drafts: seq<Draft>, insert: Insert) returns (rows: Option<seq<Row>>)
    ensures rows.Some? <==> AllInserted(drafts, insert)
    ensures rows.Some? ==> |rows.value| == |drafts|
    ensures rows.Some? ==> forall i :: 0 <= i < |drafts| ==> rows.value[i] == insert(drafts[i]).value
  {
    var found: seq<Row> := [];
    var failed := false;
    for i := 0 to |drafts|
      invariant |found| == i
      invariant !failed <==> forall j :: 0 <= j < i ==> insert(drafts[j]).Ok?
      invariant forall j :: 0 <= j < i && !failed ==> found[j] == insert(drafts[j]).value
    {
      var r := insert(drafts[i]);
      if r.Ok? {
        found := found + [r.value];
      } else {
        found := found + [Row("", "")];
        failed := true;
      }
    }
    rows := if failed then None else Some(found);
  }

  /** What one processing run leaves behind: the progress values set, the requests sent
      and the results shown. */
  datatype Run = Run(progress: seq<nat>, requests: seq<ProcessRequest>, results: Option<Results>)

  const ProgressSteps: seq<nat> := [0, 20, 40, 60, 100]

  /** The part of a run after the uploads: sign-in, inserts and requests in turn,
      stopping at the first failure. */
  function AfterUpload(files: seq<File>, urls: seq<string>, subject: string,
                       user: Option<string>, insert: Insert, send: Send): Run
    requires |urls| == |files|
  {
    if user.None? then Run([40], [], None)
    else
      var drafts := Drafts(files, urls, subject, user.value);
      if !AllInserted(drafts, insert) then Run([40], [], None)
      else
        var requests := Requests(drafts, insert, subject);
        if !AllSent(requests, send) then Run([40, 60], requests, None)
        else Run([40, 60, 100], requests, Some(ResultsFor(|files|)))
  }

  /** The run of `processDocuments`: the guard, then upload, sign-in, inserts and requests
      in turn, stopping at the first failure. */
  function ProcessingRun(files: seq<File>, subject: string, clock: seq<nat>, put: Put,
                         user: Option<string>, insert: Insert, send: Send): Run
    requires |clock| == |files|
  {
    if |files| == 0 || subject == "" then Run([], [], None)
    else if !AllStored(files, DefaultFolder, clock, put) then Run([0, 20], [], None)
    else
      var rest := AfterUpload(files, UploadedUrls(files, clock, put), subject, user, insert, send);
      Run([0, 20] + rest.progress, rest.requests, rest.results)
  }

  /** A run does nothing without files or a subject. Otherwise its progress climbs through
      a prefix of 0, 20, 40, 60, 100, and the run reaches 100 exactly when every step
      succeeds. Only then are results shown: 2, 15 and 3 per file. Requests are sent, one
      per file, once every row is inserted. */
  lemma ProcessingRunShape(files: seq<File>, subject: string, clock: seq<nat>, put: Put,
                           user: Option<string>, insert: Insert, send: Send)
    requires |clock| == |files|
    ensures var run := ProcessingRun(files, subject, clock, put, user, insert, send);
      && (|files| == 0 || subject == "" ==> run == Run([], [], None))
      && (|files| > 0 && subject != "" ==> 2 <= |run.progress| <= 5 && run.progress == ProgressSteps[..|run.progress|])
      && (run.results.Some? <==> |run.progress| == 5)
      && (run.results.Some? ==> run.results == Some(ResultsFor(|files|)))
      && (|run.requests| == 0 || |run.requests| == |files|)
      && (run.results.Some? <==>
            && |files| > 0 && subject != "" && AllStored(files, DefaultFolder, clock, put) && user.Some?
            && var drafts := Drafts(files, UploadedUrls(files, clock, put), subject, user.value);
               AllInserted(drafts, insert) && AllSent(Requests(drafts, insert, subject), send))
  {
  }

  class UploadPage {
    var dragActive: bool
    var files: seq<File>
    var subject: string
    var isProcessing: bool
    var processingProgress: nat
    /** Every value `setProcessingProgress` was given, in order. */
    var progressLog: seq<nat>
    var processedResults: Option<Results>
    /** The requests sent to the processing route, in order. */
    var sent: seq<ProcessRequest>

    constructor()
      ensures !dragActive && files == [] && subject == "" && !isProcessing
      ensures processingProgress == 0 && progressLog == [] && processedResults == None && sent == []
    {
      dragActive := false;
      files := [];
      subject := "";
      isProcessing := false;
      processingProgress := 0;
      progressLog := [];
      processedResults := None;
      sent := [];
    }

    /** `handleDrag`: entering or moving over sets the flag, leaving clears it, others
        leave it alone. */
    method HandleDrag(eventType: string)
      modifies this`dragActive
      ensures eventType == "dragenter" || eventType == "dragover" ==> dragActive
      ensures eventType == "dragleave" ==> !dragActive
      ensures eventType !in {"dragenter", "dragover", "dragleave"} ==> dragActive == old(dragActive)
    {
      if eventType == "dragenter" || eventType == "dragover" {
        dragActive := true;
      } else if eventType == "dragleave" {
        dragActive := false;
      }
    }

    /** `handleDrop`: clears the flag and appends the dropped PDFs. */
    method HandleDrop(dropped: seq<File>)
      modifies this`dragActive, this`files
      ensures !dragActive
      ensures files == old(files) + PdfOnly(dropped)
    {
      dragActive := false;
      var droppedFiles := PdfOnly(dropped);
      files := files + droppedFiles;
    }

    /** `handleFileSelect`: appends the selected PDFs; no selection changes nothing. */
    method HandleFileSelect(selected: Option<seq<File>>)
      modifies this`files
      ensures selected.None? ==> files == old(files)
      ensures selected.Some? ==> files == old(files) + PdfOnly(selected.value)
    {
      if selected.Some? {
        var selectedFiles := PdfOnly(selected.value);
        files := files + selectedFiles;
      }
    }

    /** `removeFile`. */
    method RemoveFile(index: int)
      modifies this`files
      ensures files == RemoveIndex(old(files), index)
      ensures 0 <= index < |old(files)| ==> files == old(files)[..index] + old(files)[index + 1..]
      ensures !(0 <= index < |old(files)|) ==> files == old(files)
    {
      RemoveIndexSpec(files, index);
      files := RemoveIndex(files, index);
    }

    method SetSubject(s: string)
      modifies this`subject
      ensures subject == s
    {
      subject := s;
    }

    /** `setProcessingProgress`. */
    method SetProgress(p: nat)
      modifies this`processingProgress, this`progressLog
      ensures processingProgress == p && progressLog == old(progressLog) + [p]
    {
      processingProgress := p;
      progressLog := progressLog + [p];
    }

    /** Sends one request per row under `Promise.all`: all are sent, and the run goes on
        only when every one resolved. */
    method SendAll(requests: seq<ProcessRequest>, send: Send) returns (allSent: bool)
      modifies this`sent
      ensures sent == old(sent) + requests
      ensures allSent <==> AllSent(requests, send)
    {
      allSent := true;
      for i := 0 to |requests|
        invariant sent == old(sent) + requests[..i]
        invariant allSent <==> forall j :: 0 <= j < i ==> send(requests[j])
      {
        sent := sent + [requests[i]];
        allSent := allSent && send(requests[i]);
      }
      assert requests[..|requests|] == requests;
    }

    /** `processDocuments`: it runs as `ProcessingRun` says. The processing flag is
        raised only for a run that passes the guard, and it is down at the end of every
        such run; progress then shows the last value set. `clock[i]` is the time stamp of
        the i-th upload, `user` the signed-in user. */
    method ProcessDocuments(put: Put, clock: seq<nat>, user: Option<string>, insert: Insert, send: Send)
      requires |clock| == |files|
      modifies this`isProcessing, this`processingProgress, this`progressLog, this`processedResults, this`sent
      ensures var run := ProcessingRun(files, subject, clock, put, user, insert, send);
        && progressLog == old(progressLog) + run.progress
        && sent == old(sent) + run.requests
        && processedResults == (if run.results.Some? then run.results else old(processedResults))
      ensures |files| == 0 || subject == "" ==>
        isProcessing == old(isProcessing) && processingProgress == old(processingProgress)
      ensures |files| > 0 && subject != "" ==>
        !isProcessing && |progressLog| > 0 && processingProgress == progressLog[|progressLog| - 1]
    {
      var chosen, picked := files, subject;
      if |chosen| == 0 || picked == "" {
        return;
      }
      isProcessing := true;
      var uploaded := Upload(clock, put);
      if uploaded.None? {
        assert ProcessingRun(chosen, picked, clock, put, user, insert, send) == Run([0, 20], [], None);
        isProcessing := false;
        return;
      }
      ghost var rest := AfterUpload(chosen, uploaded.value, picked, user, insert, send);
      assert ProcessingRun(chosen, picked, clock, put, user, insert, send)
        == Run([0, 20] + rest.progress, rest.requests, rest.results);
      RecordAndRequest(uploaded.value, user, insert, send);
      assert progressLog == old(progressLog) + [0, 20] + rest.progress;
      isProcessing := false;
    }

    /** The first steps of `processDocuments`: progress 0 and 20, then every file is
        uploaded under the documents folder; the URLs, when all uploads succeed. */
    method Upload(clock: seq<nat>, put: Put) returns (urls: Option<seq<string>>)
      requires |clock| == |files|
      modifies this`processingProgress, this`progressLog
      ensures progressLog == old(progressLog) + [0, 20] && processingProgress == 20
      ensures urls.Some? <==> AllStored(files, DefaultFolder, clock, put)
      ensures urls.Some? ==> urls.value == UploadedUrls(files, clock, put)
    {
      SetProgress(0);
      SetProgress(20);
      var uploaded := UploadMultipleFiles(files, DefaultFolder, clock, put);
      if uploaded.Err? {
        return None;
      }
      UploadedUrlsPointwise(files, clock, put, uploaded.value);
      return Some(uploaded.value);
    }

    /** The steps of `processDocuments` after the uploads: sign in, insert one row per
        file, send one processing request per row, then show the results. */
    method RecordAndRequest(urls: seq<string>, user: Option<string>, insert: Insert, send: Send)
      requires |urls| == |files|
      modifies this`processingProgress, this`progressLog, this`processedResults, this`sent
      ensures var run := AfterUpload(files, urls, subject, user, insert, send);
        && progressLog == old(progressLog) + run.progress
        && sent == old(sent) + run.requests
        && processedResults == (if run.results.Some? then run.results else old(processedResults))
      ensures processingProgress == progressLog[|progressLog| - 1]
    {
      SetProgress(40);
      if user.None? {
        return;
      }
      var drafts := Drafts(files, urls, subject, user.value);
      var rows := InsertAll(drafts, insert);
      if rows.None? {
        return;
      }
      SetProgress(60);
      var docs, chosen := rows.value, subject;
      var requests := seq(|docs|, i requires 0 <= i < |docs| =>
        ProcessRequest(docs[i].id, docs[i].fileUrl, chosen));
      assert requests == Requests(drafts, insert, subject);
      var delivered := SendAll(requests, send);
      if !delivered {
        return;
      }
      SetProgress(100);
      processedResults := Some(ResultsFor(|files|));
    }
  }
}

/**
 * The database the handlers share: the documents collection, the
 * embeddings collection and the question history. Each handler method
 * performs its writes in the order the endpoint does, and its contract ties
 * the new state to the step function that describes the endpoint.
 */
module Store {
  import opened Wrappers
  import opened Models
  import opened Upload
  import opened DocumentAi
  import opened VertexAi
  import opened Rag
  import opened Qa
  import opened Records
  import opened Pipeline

  /** One `processing_status` write, for the ghost log of status writes. */
  datatype StatusWrite = StatusWrite(documentId: string, status: ProcessingStatus)

  /** The log entries of a run of status writes to one document. */
  function Log(documentId: string, statuses: seq<ProcessingStatus>): (r: seq<StatusWrite>)
    ensures |r| == |statuses|
  {
    if statuses == [] then [] else [StatusWrite(documentId, statuses[0])] + Log(documentId, statuses[1..])
  }

  /** The log of two writes. */
  lemma LogTwo(documentId: string, a: ProcessingStatus, b: ProcessingStatus)
    ensures Log(documentId, [a, b]) == [StatusWrite(documentId, a), StatusWrite(documentId, b)]
  {
    assert [a, b][1..] == [b];
  }

  /** Every embedding record is stored under its own chunk identifier. */
  predicate KeyedByChunk(embeddings: map<string, StoredEmbedding>) {
    forall k | k in embeddings :: embeddings[k].record.chunkId == k
  }

  /** Storing records under their chunk identifiers keeps the collection keyed by chunk. */
  lemma {:induction false} StoreRecordsKeyed(embeddings: map<string, StoredEmbedding>, records: seq<EmbeddingRecord>)
    requires KeyedByChunk(embeddings)
    ensures KeyedByChunk(StoreRecords(embeddings, records))
    ensures forall i | 0 <= i < |records| :: StoreRecords(embeddings, records)[records[i].chunkId].record.chunkId == records[i].chunkId
  {
    if records != [] {
      StoreRecordsKeyed(embeddings, records[..|records| - 1]);
    }
  }

  /** Writing a key twice leaves the second value. */
  lemma OverwriteKey<K, V>(m: map<K, V>, k: K, a: V, b: V)
    ensures m[k := a][k := b] == m[k := b]
  {
  }

  class DocumentStore {
    var docs: map<string, DocRecord>
    var embeddings: map<string, StoredEmbedding>
    var qaHistory: seq<QaRecord>
    /** Every status write so far, in order. */
    ghost var statusLog: seq<StatusWrite>

    /** Each record sits under its own identifier and is consistent; each embedding under its chunk identifier. */
    ghost predicate Valid()
      reads this
    {
      && (forall k | k in docs :: docs[k].documentId == k && Consistent(docs[k]))
      && KeyedByChunk(embeddings)
    }

    constructor()
      ensures Valid()
      ensures docs == map[] && embeddings == map[] && qaHistory == [] && statusLog == []
    {
      docs := map[];
      embeddings := map[];
      qaHistory := [];
      statusLog := [];
    }

    /** The record with this identifier, if any. */
    function Lookup(documentId: string): (r: Option<DocRecord>)
      reads this
      ensures r.Some? <==> documentId in docs
      ensures r.Some? ==> r.value == docs[documentId]
    {
      if documentId in docs then Some(docs[documentId]) else None
    }

    /** One document write that sets a status: the record is replaced and the write is logged. */
    method Put(documentId: string, record: DocRecord)
      requires Valid()
      requires record.documentId == documentId && Consistent(record)
      modifies this
      ensures Valid()
      ensures docs == old(docs)[documentId := record]
      ensures statusLog == old(statusLog) + [StatusWrite(documentId, record.status)]
      ensures embeddings == old(embeddings) && qaHistory == old(qaHistory)
    {
      docs := docs[documentId := record];
      statusLog := statusLog + [StatusWrite(documentId, record.status)];
    }

    /** `upload_document`: validate, store the file, then write the new record with status `uploaded`. */
    method UploadDocument(documentId: string, fileName: string, contentType: string, size: nat, user: Option<string>, storage: Reply<()>)
      returns (response: Result<string, ApiError>)
      requires Valid()
      modifies this
      ensures Valid()
      ensures var outcome := UploadOutcome(documentId, fileName, contentType, size, user, storage);
        && (outcome.Ok? ==> (
          && response == Ok(documentId)
          && docs == old(docs)[documentId := outcome.value]
          && statusLog == old(statusLog) + [StatusWrite(documentId, Uploaded)]))
        && (outcome.Err? ==> response == Err(outcome.error) && docs == old(docs) && statusLog == old(statusLog))
      ensures embeddings == old(embeddings) && qaHistory == old(qaHistory)
    {
      var rejection := ValidateUpload(contentType, size);
      if rejection.Some? {
        return Err(BadRequest);
      }
      if storage.Raised? {
        return Err(ServerError(EngineRaised(storage.message)));
      }
      Put(documentId, NewRecord(documentId, fileName, contentType, size, user));
      response := Ok(documentId);
    }

    /**
     * `process_document_ocr`, from any status. Its body either finishes or raises; the handler catches a
     * raise and writes `failed` with its note. A missing record makes that
     * failure update raise in turn, so nothing is written.
     */
    method ProcessOcr(documentId: string, user: Option<string>, fileExists: bool, engine: Reply<OcrDocument>)
      returns (response: Result<OcrSummary, ApiError>)
      requires Valid()
      modifies this
      ensures Valid()
      ensures documentId !in old(docs) ==> response == Err(MissingRecord) && docs == old(docs) && statusLog == old(statusLog)
      ensures documentId in old(docs) ==>
        var t := OcrStep(old(docs)[documentId], user, fileExists, engine);
        && response == t.response
        && docs == old(docs)[documentId := t.after]
        && statusLog == old(statusLog) + Log(documentId, t.writes)
      ensures embeddings == old(embeddings) && qaHistory == old(qaHistory)
    {
      if documentId !in docs {
        return Err(MissingRecord);
      }
      var doc := docs[documentId];
      if Denied(doc.metadata.userId, user) {
        var raised := HttpRaise(AccessDenied);
        Put(documentId, Fail(doc, raised.Note(OcrFailedNote)));
        return Err(raised.Error());
      }
      response := OcrAllowed(documentId, doc, user, fileExists, engine);
      LogTwo(documentId, Processing, OcrStep(doc, user, fileExists, engine).after.status);
    }

    /** The part of `process_document_ocr` past its access check: the `processing` write, the storage and engine calls, and the final write. */
    method OcrAllowed(documentId: string, doc: DocRecord, user: Option<string>, fileExists: bool, engine: Reply<OcrDocument>)
      returns (response: Result<OcrSummary, ApiError>)
      requires Valid() && documentId in docs && docs[documentId] == doc
      requires !Denied(doc.metadata.userId, user)
      modifies this
      ensures Valid()
      ensures var t := OcrStep(doc, user, fileExists, engine);
        && response == t.response
        && docs == old(docs)[documentId := t.after]
        && statusLog == old(statusLog) + [StatusWrite(documentId, Processing), StatusWrite(documentId, t.after.status)]
      ensures embeddings == old(embeddings) && qaHistory == old(qaHistory)
    {
      Put(documentId, doc.(status := Processing));
      var run := OcrRun(doc, fileExists, engine);
      if run.Err? {
        Put(documentId, Fail(docs[documentId], run.error.Note(OcrFailedNote)));
        response := Err(run.error.Error());
      } else {
        var data := Extract(run.value);
        Put(documentId, docs[documentId].(status := OcrComplete, extracted := Some(data), ocrConfidence := Some(OcrConfidence(run.value))));
        response := Ok(OcrSummary(|data.rawText|, |data.pages|, |data.entities|, |data.tables|));
      }
      OverwriteKey(old(docs), documentId, doc.(status := Processing), docs[documentId]);
    }

    /**
     * `classify_document_clauses`, only from `ocr_complete`. Its body either finishes or raises; the handler catches a
     * raise and writes `failed` with its note. A missing record makes that
     * failure update raise in turn, so nothing is written.
     */
    method ClassifyClauses(documentId: string, user: Option<string>, typeReply: Reply<string>, clauseReply: Reply<ClauseReply>)
      returns (response: Result<ClassifySummary, ApiError>)
      requires Valid()
      modifies this
      ensures Valid()
      ensures documentId !in old(docs) ==> response == Err(MissingRecord) && docs == old(docs) && statusLog == old(statusLog)
      ensures documentId in old(docs) ==>
        var t := ClassifyStep(old(docs)[documentId], user, typeReply, clauseReply);
        && response == t.response
        && docs == old(docs)[documentId := t.after]
        && statusLog == old(statusLog) + Log(documentId, t.writes)
      ensures embeddings == old(embeddings) && qaHistory == old(qaHistory)
    {
      if documentId !in docs {
        return Err(MissingRecord);
      }
      var doc := docs[documentId];
      if Denied(doc.metadata.userId, user) || doc.status != OcrComplete {
        var raised := if Denied(doc.metadata.userId, user) then HttpRaise(AccessDenied) else HttpRaise(BadRequest);
        Put(documentId, Fail(doc, raised.Note(ClassifyFailedNote)));
        return Err(raised.Error());
      }
      response := ClassifyFromOcr(documentId, doc, user, typeReply, clauseReply);
      LogTwo(documentId, Processing, ClassifyStep(doc, user, typeReply, clauseReply).after.status);
    }

    /** The part of `classify_document_clauses` past its gates: the `processing` write, the engine calls, and the final write. */
    method ClassifyFromOcr(documentId: string, doc: DocRecord, user: Option<string>, typeReply: Reply<string>, clauseReply: Reply<ClauseReply>)
      returns (response: Result<ClassifySummary, ApiError>)
      requires Valid() && documentId in docs && docs[documentId] == doc
      requires !Denied(doc.metadata.userId, user) && doc.status == OcrComplete
      modifies this
      ensures Valid()
      ensures var t := ClassifyStep(doc, user, typeReply, clauseReply);
        && response == t.response
        && docs == old(docs)[documentId := t.after]
        && statusLog == old(statusLog) + [StatusWrite(documentId, Processing), StatusWrite(documentId, t.after.status)]
      ensures embeddings == old(embeddings) && qaHistory == old(qaHistory)
    {
      Put(documentId, doc.(status := Processing));
      var run := ClassifyRun(doc, typeReply, clauseReply);
      if run.Err? {
        Put(documentId, Fail(docs[documentId], run.error.Note(ClassifyFailedNote)));
        response := Err(run.error.Error());
      } else {
        var documentType := run.value.0;
        var clauses := run.value.1;
        Put(documentId, docs[documentId].(status := Classified, documentType := Some(documentType), clauses := Some(clauses)));
        response := Ok(ClassifySummary(documentType, |clauses|));
      }
      OverwriteKey(old(docs), documentId, doc.(status := Processing), docs[documentId]);
    }

    /**
     * `analyze_document`, only from `classified`. Its body either finishes or raises; the handler catches a
     * raise and writes `failed` with its note. A missing record makes that
     * failure update raise in turn, so nothing is written.
     */
    method AnalyzeDocument(documentId: string, user: Option<string>, summaryReply: Reply<SummaryReply>)
      returns (response: Result<AnalysisSummary, ApiError>)
      requires Valid()
      modifies this
      ensures Valid()
      ensures documentId !in old(docs) ==> response == Err(MissingRecord) && docs == old(docs) && statusLog == old(statusLog)
      ensures documentId in old(docs) ==>
        var t := AnalyzeStep(old(docs)[documentId], user, summaryReply);
        && response == t.response
        && docs == old(docs)[documentId := t.after]
        && statusLog == old(statusLog) + Log(documentId, t.writes)
      ensures embeddings == old(embeddings) && qaHistory == old(qaHistory)
    {
      if documentId !in docs {
        return Err(MissingRecord);
      }
      var doc := docs[documentId];
      if Denied(doc.metadata.userId, user) || doc.status != Classified {
        var raised := if Denied(doc.metadata.userId, user) then HttpRaise(AccessDenied) else HttpRaise(BadRequest);
        Put(documentId, Fail(doc, raised.Note(AnalysisFailedNote)));
        return Err(raised.Error());
      }
      response := AnalyzeClassified(documentId, doc, user, summaryReply);
      LogTwo(documentId, Processing, AnalyzeStep(doc, user, summaryReply).after.status);
    }

    /** The part of `analyze_document` past its gates: the `processing` write, the engine call, and the final write. */
    method AnalyzeClassified(documentId: string, doc: DocRecord, user: Option<string>, summaryReply: Reply<SummaryReply>)
      returns (response: Result<AnalysisSummary, ApiError>)
      requires Valid() && documentId in docs && docs[documentId] == doc
      requires !Denied(doc.metadata.userId, user) && doc.status == Classified
      modifies this
      ensures Valid()
      ensures var t := AnalyzeStep(doc, user, summaryReply);
        && response == t.response
        && docs == old(docs)[documentId := t.after]
        && statusLog == old(statusLog) + [StatusWrite(documentId, Processing), StatusWrite(documentId, t.after.status)]
      ensures embeddings == old(embeddings) && qaHistory == old(qaHistory)
    {
      Put(documentId, doc.(status := Processing));
      var run := AnalyzeRun(doc, summaryReply);
      if run.Err? {
        Put(documentId, Fail(docs[documentId], run.error.Note(AnalysisFailedNote)));
        response := Err(run.error.Error());
      } else {
        var clauses := StoredClauses(doc);
        var risk := OverallRisk(Levels(clauses));
        Put(documentId, docs[documentId].(status := Analyzed, overallRisk := Some(risk), summary := Some(run.value.summary), keyFindings := Some(run.value.keyFindings)));
        response := Ok(AnalysisSummary(risk, run.value.summary, run.value.keyFindings, |clauses|));
      }
      OverwriteKey(old(docs), documentId, doc.(status := Processing), docs[documentId]);
    }

    /**
     * `create_knowledge_base` with the flag update on the document itself,
     * as evidently intended (as written, the update goes to the last
     * embedding record; see `CreateKnowledgeBaseAsWritten`).
     */
    method CreateKnowledgeBase(documentId: string, user: Option<string>, outcomes: seq<Option<seq<real>>>)
      returns (response: Result<KnowledgeSummary, ApiError>)
      requires Valid()
      modifies this
      ensures Valid()
      ensures documentId !in old(docs) ==> response == Err(NotFound)
      ensures documentId in old(docs) && Denied(old(docs)[documentId].metadata.userId, user) ==> response == Err(AccessDenied)
      ensures documentId in old(docs) && !Denied(old(docs)[documentId].metadata.userId, user) && RawText(old(docs)[documentId]) == "" ==>
        response == Err(BadRequest)
      ensures response.Ok? <==>
        documentId in old(docs) && !Denied(old(docs)[documentId].metadata.userId, user) && RawText(old(docs)[documentId]) != ""
      ensures response.Err? ==> docs == old(docs) && embeddings == old(embeddings)
      ensures response.Ok? ==>
        && documentId in old(docs)
        && var records := Embedded(documentId, KnowledgeChunks(old(docs)[documentId]), outcomes);
        && Collections(docs, embeddings) == KnowledgeBaseIntended(Collections(old(docs), old(embeddings)), documentId, records)
        && response.value == KnowledgeSummary(|records|, |records|)
      ensures qaHistory == old(qaHistory) && statusLog == old(statusLog)
    {
      if documentId !in docs {
        return Err(NotFound);
      }
      var doc := docs[documentId];
      if Denied(doc.metadata.userId, user) {
        return Err(AccessDenied);
      }
      if RawText(doc) == "" {
        return Err(BadRequest);
      }
      var chunks := CreateTextChunks(RawText(doc), StoredParagraphs(doc), StoredClauses(doc));
      var records := EmbedChunks(documentId, chunks, outcomes);
      StoreRecordsKeyed(embeddings, records);
      embeddings := StoreRecords(embeddings, records);
      docs := docs[documentId := doc.(knowledgeBaseCreated := true, embeddingsCount := Some(|records|))];
      response := Ok(KnowledgeSummary(|records|, |records|));
    }

    /**
     * `create_knowledge_base` as written: the embedding records are stored,
     * and the flag update goes to `doc_ref`, which the batch loop has
     * rebound to the last embedding record whenever there is one.
     */
    method CreateKnowledgeBaseAsWritten(documentId: string, user: Option<string>, outcomes: seq<Option<seq<real>>>)
      returns (response: Result<KnowledgeSummary, ApiError>)
      requires Valid()
      modifies this
      ensures Valid()
      ensures documentId !in old(docs) ==> response == Err(NotFound)
      ensures documentId in old(docs) && Denied(old(docs)[documentId].metadata.userId, user) ==> response == Err(AccessDenied)
      ensures documentId in old(docs) && !Denied(old(docs)[documentId].metadata.userId, user) && RawText(old(docs)[documentId]) == "" ==>
        response == Err(BadRequest)
      ensures response.Ok? <==>
        documentId in old(docs) && !Denied(old(docs)[documentId].metadata.userId, user) && RawText(old(docs)[documentId]) != ""
      ensures response.Err? ==> docs == old(docs) && embeddings == old(embeddings)
      ensures response.Ok? ==>
        && documentId in old(docs)
        && var records := Embedded(documentId, KnowledgeChunks(old(docs)[documentId]), outcomes);
        && Collections(docs, embeddings) == KnowledgeBaseAsWritten(Collections(old(docs), old(embeddings)), documentId, records)
        && response.value == KnowledgeSummary(|records|, |records|)
      ensures qaHistory == old(qaHistory) && statusLog == old(statusLog)
    {
      if documentId !in docs {
        return Err(NotFound);
      }
      var doc := docs[documentId];
      if Denied(doc.metadata.userId, user) {
        return Err(AccessDenied);
      }
      if RawText(doc) == "" {
        return Err(BadRequest);
      }
      var chunks := CreateTextChunks(RawText(doc), StoredParagraphs(doc), StoredClauses(doc));
      var records := EmbedChunks(documentId, chunks, outcomes);
      StoreRecordsKeyed(embeddings, records);
      embeddings := StoreRecords(embeddings, records);
      if records == [] {
        docs := docs[documentId := doc.(knowledgeBaseCreated := true, embeddingsCount := Some(0))];
      } else {
        var lastId := records[|records| - 1].chunkId;
        embeddings := embeddings[lastId := embeddings[lastId].(flag := Some(|records|))];
      }
      response := Ok(KnowledgeSummary(|records|, |records|));
    }

    /** `search_knowledge_base`: read-only; the records are streamed in `order` and ranked. */
    method SearchKnowledgeBase(documentId: string, user: Option<string>, limit: int, queryVector: Reply<seq<real>>, order: seq<string>)
      returns (response: Result<SearchResponse, ApiError>)
      ensures response == Search(docs, embeddings, documentId, user, limit, queryVector, order)
    {
      if documentId !in docs {
        return Err(NotFound);
      }
      var doc := docs[documentId];
      if Denied(doc.metadata.userId, user) {
        return Err(AccessDenied);
      }
      if !doc.knowledgeBaseCreated {
        return Err(BadRequest);
      }
      if queryVector.Raised? {
        return Err(ServerError(EngineRaised(queryVector.message)));
      }
      var stream := Stream(embeddings, documentId, order);
      var hits, total := RankRecords(queryVector.value, stream, limit);
      response := Ok(SearchResponse(hits, total));
    }

    /** `get_upload_status`: read-only; the stored status and file name of an accessible record. */
    method GetUploadStatus(documentId: string, user: Option<string>) returns (response: Result<StatusView, ApiError>)
      ensures response == UploadStatus(documentId, Lookup(documentId), user)
    {
      if documentId !in docs {
        return Err(NotFound);
      }
      var doc := docs[documentId];
      if Denied(doc.metadata.userId, user) {
        return Err(AccessDenied);
      }
      response := Ok(StatusView(documentId, doc.status, doc.metadata.fileName));
    }

    /** `get_analysis_result`: read-only; refused unless the record is analysed or complete. */
    method GetAnalysisResult(documentId: string, user: Option<string>) returns (response: Result<AnalysisView, ApiError>)
      ensures response == AnalysisResult(documentId, Lookup(documentId), user)
    {
      if documentId !in docs {
        return Err(NotFound);
      }
      var doc := docs[documentId];
      if Denied(doc.metadata.userId, user) {
        return Err(AccessDenied);
      }
      if doc.status != Analyzed && doc.status != Complete {
        return Err(NotFound);
      }
      response := Ok(AnalysisView(documentId, doc.metadata.fileName, doc.documentType.GetOr("other"), doc.overallRisk.GetOr(Medium),
        doc.summary.GetOr(""), doc.keyFindings.GetOr([]), StoredClauses(doc), doc.status));
    }

    /** `get_suggested_questions`: read-only; the questions for the stored type and clause types. */
    method GetSuggestedQuestions(documentId: string, user: Option<string>) returns (response: Result<SuggestedView, ApiError>)
      ensures response == Suggested(documentId, Lookup(documentId), user)
    {
      if documentId !in docs {
        return Err(NotFound);
      }
      var doc := docs[documentId];
      if Denied(doc.metadata.userId, user) {
        return Err(AccessDenied);
      }
      var documentType := doc.documentType.GetOr("other");
      var questions := SuggestQuestions(documentType, ClauseTypeValues(StoredClauses(doc)));
      response := Ok(SuggestedView(documentId, documentType, questions));
    }

    /**
     * `answer_question`: answer from the knowledge-base context and the
     * legal context, then append the question to the history; an answer the
     * response model refuses is a server error and is not recorded.
     */
    method AnswerQuestion(documentId: string, user: Option<string>, requestUser: Option<string>, question: string,
                          queryVector: Reply<seq<real>>, order: seq<string>, legal: seq<LegalRef>, reply: AnswerReply)
      returns (response: Result<Answer, ApiError>)
      requires Valid()
      modifies this
      ensures Valid()
      ensures response == QuestionAnswer(old(docs), old(embeddings), documentId, user, queryVector, order, legal, reply)
      ensures response.Err? ==> qaHistory == old(qaHistory)
      ensures response.Ok? ==>
        qaHistory == old(qaHistory) + [QaRecord(documentId, requestUser, question, response.value.text, response.value.confidence, response.value.sources)]
      ensures docs == old(docs) && embeddings == old(embeddings) && statusLog == old(statusLog)
    {
      if documentId !in docs {
        return Err(NotFound);
      }
      var doc := docs[documentId];
      if Denied(doc.metadata.userId, user) {
        return Err(AccessDenied);
      }
      var context: seq<SearchHit> := [];
      if doc.knowledgeBaseCreated {
        var search := SearchKnowledgeBase(documentId, user, DocumentContextLimit, queryVector, order);
        if search.Ok? {
          context := search.value.results;
        }
      }
      var answer := GenerateAnswer(doc.documentType.GetOr(DefaultAnswerDocumentType), context, legal, reply);
      if answer.text.ListText? {
        return Err(ServerError(InvalidAnswer));
      }
      qaHistory := qaHistory + [QaRecord(documentId, requestUser, question, answer.text, answer.confidence, answer.sources)];
      response := Ok(answer);
    }
  }
}

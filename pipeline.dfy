/**
 * What each endpoint does to one stored document, as pure functions of the
 * record and the outcomes of the engine calls: the statuses it writes, in
 * order, the record it leaves behind, and its response. The store class
 * performs these steps one write at a time.
 */
module Pipeline {
  import opened Wrappers
  import opened Text
  import opened Models
  import opened Upload
  import opened DocumentAi
  import opened VertexAi
  import opened Rag
  import opened Qa
  import opened Records

  /** The effect of a handler on an existing record. */
  datatype Transition<T> = Transition(writes: seq<ProcessingStatus>, after: DocRecord, response: Result<T, ApiError>)

  /** The failure update: status `failed` and the error note; nothing else changes. */
  function Fail(doc: DocRecord, note: ErrorNote): (r: DocRecord)
    ensures r.status == Failed && r.errorMessage == Some(note)
  {
    doc.(status := Failed, errorMessage := Some(note))
  }

  // ---------------------------------------------------------------------
  // Upload
  // ---------------------------------------------------------------------

  /** The record written by a successful upload. */
  function NewRecord(documentId: string, fileName: string, contentType: string, size: nat, user: Option<string>): (r: DocRecord)
    ensures r.status == Uploaded
    ensures r.gcsPath == Some(BlobName(documentId, fileName))
    ensures r.metadata.fileSize == size && r.metadata.userId == user
    ensures r.documentId == documentId && !r.knowledgeBaseCreated
  {
    DocRecord(documentId, Metadata(fileName, size, contentType, user), Uploaded, Some(BlobName(documentId, fileName)),
      None, None, None, None, None, None, None, false, None, None)
  }

  /** The outcome of an upload: refused by the checks, failed in storage, or the new record. */
  function UploadOutcome(documentId: string, fileName: string, contentType: string, size: nat, user: Option<string>, storage: Reply<()>): (r: Result<DocRecord, ApiError>)
    ensures ValidateUpload(contentType, size).Some? ==> r == Err(BadRequest)
    ensures ValidateUpload(contentType, size).None? && storage.Raised? ==> r == Err(ServerError(EngineRaised(storage.message)))
    ensures r.Ok? <==> ValidateUpload(contentType, size).None? && storage.Returned?
    ensures r.Ok? ==> r.value == NewRecord(documentId, fileName, contentType, size, user)
  {
    if ValidateUpload(contentType, size).Some? then Err(BadRequest)
    else match storage
      case Raised(m) => Err(ServerError(EngineRaised(m)))
      case Returned(_) => Ok(NewRecord(documentId, fileName, contentType, size, user))
  }

  /** A handler's body raised: `failed` is written with the handler's note, and the error is the response. */
  function Failure<T>(writes: seq<ProcessingStatus>, doc: DocRecord, raised: Raise, handlerText: string): (r: Transition<T>)
    ensures r.after.status == Failed && r.response == Err(raised.Error())
  {
    Transition(writes, Fail(doc, raised.Note(handlerText)), Err(raised.Error()))
  }

  // ---------------------------------------------------------------------
  // OCR
  // ---------------------------------------------------------------------

  datatype OcrSummary = OcrSummary(textLength: nat, pagesProcessed: nat, entitiesFound: nat, tablesFound: nat)

  const OcrFailedNote := "OCR processing failed"

  /** The body of `process_document_ocr` after its `processing` write: the processed document, or what it raises. */
  function OcrRun(doc: DocRecord, fileExists: bool, engine: Reply<OcrDocument>): (r: Result<OcrDocument, Raise>)
    ensures r.Ok? <==> doc.gcsPath.Some? && doc.gcsPath.value != "" && fileExists && engine.Returned?
    ensures r.Ok? ==> r.value == engine.value
    ensures doc.gcsPath.None? || doc.gcsPath.value == "" ==> r == Err(HttpRaise(BadRequest))
  {
    if doc.gcsPath.None? || doc.gcsPath.value == "" then Err(HttpRaise(BadRequest))
    else if !fileExists then Err(HttpRaise(NotFound))
    else match engine
      case Raised(m) => Err(ExceptionRaise(EngineRaised(m)))
      case Returned(document) => Ok(document)
  }

  /**
   * `process_document_ocr` on an existing record: no status gate; `failed`
   * after a refused access, a missing storage path, a missing file or an
   * engine error; otherwise `processing` then `ocr_complete` with the
   * extracted data.
   */
  function OcrStep(doc: DocRecord, user: Option<string>, fileExists: bool, engine: Reply<OcrDocument>): Transition<OcrSummary> {
    if Denied(doc.metadata.userId, user) then Failure([Failed], doc, HttpRaise(AccessDenied), OcrFailedNote)
    else match OcrRun(doc, fileExists, engine)
      case Err(raised) => Failure([Processing, Failed], doc, raised, OcrFailedNote)
      case Ok(document) =>
        var data := Extraction(document);
        Transition([Processing, OcrComplete],
          doc.(status := OcrComplete, extracted := Some(data), ocrConfidence := Some(OcrConfidence(document))),
          Ok(OcrSummary(|data.rawText|, |data.pages|, |data.entities|, |data.tables|)))
  }

  // ---------------------------------------------------------------------
  // Classification
  // ---------------------------------------------------------------------

  datatype ClassifySummary = ClassifySummary(documentType: string, clausesFound: nat)

  const ClassifyFailedNote := "Clause classification failed"

  /** The body of `classify_document_clauses` after its `processing` write: the document type and clauses, or what it raises. */
  function ClassifyRun(doc: DocRecord, typeReply: Reply<string>, clauseReply: Reply<ClauseReply>): (r: Result<(string, seq<ClauseAnalysis>), Raise>)
    ensures RawText(doc) == "" ==> r == Err(HttpRaise(BadRequest))
    ensures r.Ok? ==> typeReply.Returned? && clauseReply.Returned? && r.value.0 in ValidTypes
  {
    if RawText(doc) == "" then Err(HttpRaise(BadRequest))
    else match typeReply
      case Raised(m) => Err(ExceptionRaise(EngineRaised(m)))
      case Returned(typeText) =>
        match clauseReply
        case Raised(m) => Err(ExceptionRaise(EngineRaised(m)))
        case Returned(reply) =>
          match SegmentClauses(reply)
          case Err(e) => Err(ExceptionRaise(ClauseFailure(e)))
          case Ok(clauses) => Ok((ClassifyDocumentType(typeText), clauses))
  }

  /**
   * `classify_document_clauses` on an existing record: a refused access or
   * a status other than `ocr_complete` writes `failed` at once; then
   * `processing`, and `failed` again for an empty text, an engine error or
   * a clause list that cannot be built; otherwise `classified` with the
   * document type and the clauses.
   */
  function ClassifyStep(doc: DocRecord, user: Option<string>, typeReply: Reply<string>, clauseReply: Reply<ClauseReply>): Transition<ClassifySummary> {
    if Denied(doc.metadata.userId, user) then Failure([Failed], doc, HttpRaise(AccessDenied), ClassifyFailedNote)
    else if doc.status != OcrComplete then Failure([Failed], doc, HttpRaise(BadRequest), ClassifyFailedNote)
    else match ClassifyRun(doc, typeReply, clauseReply)
      case Err(raised) => Failure([Processing, Failed], doc, raised, ClassifyFailedNote)
      case Ok((documentType, clauses)) =>
        Transition([Processing, Classified],
          doc.(status := Classified, documentType := Some(documentType), clauses := Some(clauses)),
          Ok(ClassifySummary(documentType, |clauses|)))
  }

  // ---------------------------------------------------------------------
  // Analysis
  // ---------------------------------------------------------------------

  datatype AnalysisSummary = AnalysisSummary(overallRisk: RiskLevel, summary: string, keyFindings: seq<string>, clausesAnalyzed: nat)

  const AnalysisFailedNote := "Document analysis failed"

  /** The body of `analyze_document` after its `processing` write: the summary and findings, or what it raises. */
  function AnalyzeRun(doc: DocRecord, summaryReply: Reply<SummaryReply>): (r: Result<Summary, Raise>)
    ensures StoredClauses(doc) == [] ==> r == Err(HttpRaise(BadRequest))
    ensures r.Ok? ==> StoredClauses(doc) != [] && summaryReply.Returned?
  {
    if StoredClauses(doc) == [] then Err(HttpRaise(BadRequest))
    else match summaryReply
      case Raised(m) => Err(ExceptionRaise(EngineRaised(m)))
      case Returned(reply) => Ok(SummaryAndFindings(reply, Levels(StoredClauses(doc)), doc.documentType.GetOr("other")))
  }

  /**
   * `analyze_document` on an existing record: a refused access or a status
   * other than `classified` writes `failed` at once; then `processing`, and
   * `failed` again for an empty clause list or an engine error; otherwise
   * `analyzed` with the overall risk, summary and findings.
   */
  function AnalyzeStep(doc: DocRecord, user: Option<string>, summaryReply: Reply<SummaryReply>): Transition<AnalysisSummary> {
    if Denied(doc.metadata.userId, user) then Failure([Failed], doc, HttpRaise(AccessDenied), AnalysisFailedNote)
    else if doc.status != Classified then Failure([Failed], doc, HttpRaise(BadRequest), AnalysisFailedNote)
    else match AnalyzeRun(doc, summaryReply)
      case Err(raised) => Failure([Processing, Failed], doc, raised, AnalysisFailedNote)
      case Ok(s) =>
        var risk := OverallRisk(Levels(StoredClauses(doc)));
        Transition([Processing, Analyzed],
          doc.(status := Analyzed, overallRisk := Some(risk), summary := Some(s.summary), keyFindings := Some(s.keyFindings)),
          Ok(AnalysisSummary(risk, s.summary, s.keyFindings, |StoredClauses(doc)|)))
  }

  // ---------------------------------------------------------------------
  // Read-only views
  // ---------------------------------------------------------------------

  datatype AnalysisView = AnalysisView(
    documentId: string,
    fileName: string,
    documentType: string,
    overallRisk: RiskLevel,
    summary: string,
    keyFindings: seq<string>,
    clauses: seq<ClauseAnalysis>,
    status: ProcessingStatus)

  /** `get_analysis_result`: the stored analysis with its defaults, for an analysed or complete record. */
  function AnalysisResult(documentId: string, doc: Option<DocRecord>, user: Option<string>): (r: Result<AnalysisView, ApiError>)
    ensures doc.None? ==> r == Err(NotFound)
    ensures doc.Some? && Denied(doc.value.metadata.userId, user) ==> r == Err(AccessDenied)
    ensures r.Ok? <==> doc.Some? && !Denied(doc.value.metadata.userId, user) && (doc.value.status == Analyzed || doc.value.status == Complete)
    ensures r.Ok? ==> r.value.status == doc.value.status && r.value.clauses == StoredClauses(doc.value)
    ensures r.Ok? ==> r.value.overallRisk == doc.value.overallRisk.GetOr(Medium)
  {
    if doc.None? then Err(NotFound)
    else
      var d := doc.value;
      if Denied(d.metadata.userId, user) then Err(AccessDenied)
      else if d.status != Analyzed && d.status != Complete then Err(NotFound)
      else Ok(AnalysisView(documentId, d.metadata.fileName, d.documentType.GetOr("other"), d.overallRisk.GetOr(Medium),
        d.summary.GetOr(""), d.keyFindings.GetOr([]), StoredClauses(d), d.status))
  }

  datatype StatusView = StatusView(documentId: string, status: ProcessingStatus, fileName: string)

  /** `get_upload_status`: the stored status and file name. */
  function UploadStatus(documentId: string, doc: Option<DocRecord>, user: Option<string>): (r: Result<StatusView, ApiError>)
    ensures doc.None? ==> r == Err(NotFound)
    ensures r.Ok? <==> doc.Some? && !Denied(doc.value.metadata.userId, user)
    ensures doc.Some? && Denied(doc.value.metadata.userId, user) ==> r == Err(AccessDenied)
    ensures r.Ok? ==> r.value == StatusView(documentId, doc.value.status, doc.value.metadata.fileName)
  {
    if doc.None? then Err(NotFound)
    else if Denied(doc.value.metadata.userId, user) then Err(AccessDenied)
    else Ok(StatusView(documentId, doc.value.status, doc.value.metadata.fileName))
  }

  datatype SuggestedView = SuggestedView(documentId: string, documentType: string, questions: seq<string>)

  /** The clause-type values of the stored clauses. */
  function ClauseTypeValues(clauses: seq<ClauseAnalysis>): (r: seq<string>)
    ensures |r| == |clauses|
    ensures forall k | 0 <= k < |clauses| :: r[k] == clauses[k].clauseType.Value()
  {
    seq(|clauses|, k requires 0 <= k < |clauses| => clauses[k].clauseType.Value())
  }

  /** `get_suggested_questions`: the questions for the stored type (default "other") and clauses. */
  function Suggested(documentId: string, doc: Option<DocRecord>, user: Option<string>): (r: Result<SuggestedView, ApiError>)
    ensures doc.None? ==> r == Err(NotFound)
    ensures r.Ok? <==> doc.Some? && !Denied(doc.value.metadata.userId, user)
    ensures r.Ok? ==> r.value.documentType == doc.value.documentType.GetOr("other")
    ensures r.Ok? ==> r.value.questions == SuggestedQuestions(r.value.documentType, ClauseTypeValues(StoredClauses(doc.value)))
  {
    if doc.None? then Err(NotFound)
    else if Denied(doc.value.metadata.userId, user) then Err(AccessDenied)
    else
      var documentType := doc.value.documentType.GetOr("other");
      Ok(SuggestedView(documentId, documentType, SuggestedQuestions(documentType, ClauseTypeValues(StoredClauses(doc.value)))))
  }

  // ---------------------------------------------------------------------
  // Knowledge base
  // ---------------------------------------------------------------------

  /** The chunks of a stored document. */
  function KnowledgeChunks(doc: DocRecord): seq<Chunk> {
    TextChunks(RawText(doc), StoredParagraphs(doc), StoredClauses(doc))
  }

  /** The chunk identifiers of a list of records. */
  function ChunkIds(records: seq<EmbeddingRecord>): (r: set<string>)
    ensures forall i | 0 <= i < |records| :: records[i].chunkId in r
  {
    set i | 0 <= i < |records| :: records[i].chunkId
  }

  /** No later record has the identifier of record `i`, so its `set` is the one that stays. */
  predicate LastWithId(records: seq<EmbeddingRecord>, i: int)
    requires 0 <= i < |records|
  {
    forall j | i < j < |records| :: records[j].chunkId != records[i].chunkId
  }

  /** The embeddings collection after the batch has set each record under its chunk identifier. */
  function StoreRecords(embeddings: map<string, StoredEmbedding>, records: seq<EmbeddingRecord>): (r: map<string, StoredEmbedding>)
    ensures forall k | k in r :: k in embeddings || exists i | 0 <= i < |records| :: records[i].chunkId == k
    ensures forall i | 0 <= i < |records| :: records[i].chunkId in r
  {
    if records == [] then embeddings
    else
      var last := records[|records| - 1];
      StoreRecords(embeddings, records[..|records| - 1])[last.chunkId := StoredEmbedding(last, None)]
  }

  /** The identifiers of a list are those of all but its last record, and the last one's. */
  lemma ChunkIdsSnoc(records: seq<EmbeddingRecord>)
    requires records != []
    ensures ChunkIds(records) == ChunkIds(records[..|records| - 1]) + {records[|records| - 1].chunkId}
  {
    var init := records[..|records| - 1];
    forall k | k in ChunkIds(records)
      ensures k in ChunkIds(init) + {records[|records| - 1].chunkId}
    {
      var i :| 0 <= i < |records| && records[i].chunkId == k;
      if i < |init| {
        assert init[i] == records[i];
      }
    }
    forall k | k in ChunkIds(init)
      ensures k in ChunkIds(records)
    {
      var i :| 0 <= i < |init| && init[i].chunkId == k;
      assert records[i] == init[i];
    }
  }

  /** The batch adds exactly the records' chunk identifiers as keys. */
  lemma {:induction false} StoreRecordsKeys(embeddings: map<string, StoredEmbedding>, records: seq<EmbeddingRecord>)
    ensures StoreRecords(embeddings, records).Keys == embeddings.Keys + ChunkIds(records)
  {
    if records != [] {
      var init := records[..|records| - 1];
      StoreRecordsKeys(embeddings, init);
      ChunkIdsSnoc(records);
    }
  }

  /** Under each chunk identifier the batch leaves the last record that has it. */
  lemma {:induction false} StoreRecordsLastWins(embeddings: map<string, StoredEmbedding>, records: seq<EmbeddingRecord>)
    ensures forall i | 0 <= i < |records| && LastWithId(records, i) ::
      StoreRecords(embeddings, records)[records[i].chunkId] == StoredEmbedding(records[i], None)
  {
    if records != [] {
      var init := records[..|records| - 1];
      StoreRecordsLastWins(embeddings, init);
      forall i | 0 <= i < |records| && LastWithId(records, i)
        ensures StoreRecords(embeddings, records)[records[i].chunkId] == StoredEmbedding(records[i], None)
      {
        if i < |init| {
          assert records[i] == init[i];
          assert LastWithId(init, i);
          assert records[|records| - 1].chunkId != records[i].chunkId;
        }
      }
    }
  }

  /** A key no record names keeps its value. */
  lemma {:induction false} StoreRecordsUntouched(embeddings: map<string, StoredEmbedding>, records: seq<EmbeddingRecord>, k: string)
    requires k in embeddings && k !in ChunkIds(records)
    ensures k in StoreRecords(embeddings, records) && StoreRecords(embeddings, records)[k] == embeddings[k]
  {
    if records != [] {
      var init := records[..|records| - 1];
      ChunkIdsSnoc(records);
      StoreRecordsUntouched(embeddings, init, k);
    }
  }

  datatype KnowledgeSummary = KnowledgeSummary(chunksCreated: nat, embeddingsGenerated: nat)

  /** The two collections after a knowledge-base creation. */
  datatype Collections = Collections(docs: map<string, DocRecord>, embeddings: map<string, StoredEmbedding>)

  /**
   * `create_knowledge_base` as written: the embedding records are stored;
   * then the flag update goes to `doc_ref`, which the batch loop has rebound
   * to the last embedding record whenever there is one, so the document
   * itself is flagged (with count 0) only when no embedding succeeded.
   */
  function KnowledgeBaseAsWritten(c: Collections, documentId: string, records: seq<EmbeddingRecord>): Collections
    requires documentId in c.docs
  {
    var stored := StoreRecords(c.embeddings, records);
    if records == [] then
      Collections(c.docs[documentId := c.docs[documentId].(knowledgeBaseCreated := true, embeddingsCount := Some(0))], stored)
    else
      var lastId := records[|records| - 1].chunkId;
      Collections(c.docs, stored[lastId := stored[lastId].(flag := Some(|records|))])
  }

  /** The evidently intended effect: the document is flagged with the number of stored embeddings. */
  function KnowledgeBaseIntended(c: Collections, documentId: string, records: seq<EmbeddingRecord>): Collections
    requires documentId in c.docs
  {
    Collections(c.docs[documentId := c.docs[documentId].(knowledgeBaseCreated := true, embeddingsCount := Some(|records|))],
      StoreRecords(c.embeddings, records))
  }

  /** The records of the embeddings collection that belong to a document, in the order the database streams them. */
  function Stream(embeddings: map<string, StoredEmbedding>, documentId: string, order: seq<string>): seq<EmbeddingRecord> {
    if order == [] then []
    else
      var k := order[|order| - 1];
      Stream(embeddings, documentId, order[..|order| - 1])
        + (if BelongsTo(embeddings, documentId, k) then [embeddings[k].record] else [])
  }

  /** The key holds a record of the document. */
  predicate BelongsTo(embeddings: map<string, StoredEmbedding>, documentId: string, k: string) {
    k in embeddings && embeddings[k].record.documentId == documentId
  }

  /** The keys of the embeddings collection whose record belongs to the document: what the `where` query selects. */
  function DocumentKeys(embeddings: map<string, StoredEmbedding>, documentId: string): set<string> {
    set k | k in embeddings && BelongsTo(embeddings, documentId, k)
  }

  /** The stream holds only the document's records, and the record of every selected key the order names. */
  lemma {:induction false} StreamMembers(embeddings: map<string, StoredEmbedding>, documentId: string, order: seq<string>)
    ensures forall x | x in Stream(embeddings, documentId, order) :: x.documentId == documentId
    ensures forall k | k in order && k in DocumentKeys(embeddings, documentId) :: embeddings[k].record in Stream(embeddings, documentId, order)
  {
    if order != [] {
      var init := order[..|order| - 1];
      StreamMembers(embeddings, documentId, init);
      assert order == init + [order[|order| - 1]];
    }
  }

  /** The keys an order names. */
  function Named(order: seq<string>): (r: set<string>)
    ensures forall k | k in r :: k in order
    ensures forall i | 0 <= i < |order| :: order[i] in r
  {
    if order == [] then {} else Named(order[..|order| - 1]) + {order[|order| - 1]}
  }

  /** The keys an order names that hold a record of the document. */
  function NamedOfDocument(embeddings: map<string, StoredEmbedding>, documentId: string, order: seq<string>): (r: set<string>)
    ensures r == DocumentKeys(embeddings, documentId) * Named(order)
  {
    if order == [] then {}
    else
      var last := order[|order| - 1];
      NamedOfDocument(embeddings, documentId, order[..|order| - 1]) + (if BelongsTo(embeddings, documentId, last) then {last} else {})
  }

  /** Streamed in an order that names each key at most once, the stream has one record per selected key the order names. */
  lemma {:induction false} StreamLength(embeddings: map<string, StoredEmbedding>, documentId: string, order: seq<string>)
    requires NoDuplicates(order)
    ensures |Stream(embeddings, documentId, order)| == |NamedOfDocument(embeddings, documentId, order)|
  {
    if order != [] {
      var init := order[..|order| - 1];
      var last := order[|order| - 1];
      assert forall i | 0 <= i < |init| :: init[i] == order[i];
      assert NoDuplicates(init);
      assert last !in Named(init);
      StreamLength(embeddings, documentId, init);
    }
  }

  /**
   * When the order names every key of the collection once, the search sees
   * every record of the document exactly once and no other record.
   */
  lemma StreamOncePerRecord(embeddings: map<string, StoredEmbedding>, documentId: string, order: seq<string>)
    requires NoDuplicates(order) && embeddings.Keys <= Named(order)
    ensures |Stream(embeddings, documentId, order)| == |DocumentKeys(embeddings, documentId)|
    ensures forall k | k in DocumentKeys(embeddings, documentId) :: embeddings[k].record in Stream(embeddings, documentId, order)
    ensures forall x | x in Stream(embeddings, documentId, order) :: x.documentId == documentId
  {
    StreamLength(embeddings, documentId, order);
    StreamMembers(embeddings, documentId, order);
    assert NamedOfDocument(embeddings, documentId, order) == DocumentKeys(embeddings, documentId);
  }

  datatype SearchResponse = SearchResponse(results: seq<SearchHit>, totalSearched: nat)

  /**
   * `search_knowledge_base`: refused for a missing or foreign record, or one
   * not flagged as having a knowledge base; a failed query embedding is a
   * server error; otherwise the ranking of the streamed records.
   */
  function Search(docs: map<string, DocRecord>, embeddings: map<string, StoredEmbedding>, documentId: string, user: Option<string>,
                  limit: int, queryVector: Reply<seq<real>>, order: seq<string>): (r: Result<SearchResponse, ApiError>)
    ensures documentId !in docs ==> r == Err(NotFound)
    ensures documentId in docs && !Denied(docs[documentId].metadata.userId, user) && !docs[documentId].knowledgeBaseCreated ==> r == Err(BadRequest)
    ensures documentId in docs && Denied(docs[documentId].metadata.userId, user) ==> r == Err(AccessDenied)
    ensures documentId in docs && !Denied(docs[documentId].metadata.userId, user) && docs[documentId].knowledgeBaseCreated && queryVector.Raised? ==>
      r == Err(ServerError(EngineRaised(queryVector.message)))
    ensures r.Ok? <==> documentId in docs && !Denied(docs[documentId].metadata.userId, user) && docs[documentId].knowledgeBaseCreated && queryVector.Returned?
    ensures r.Ok? ==> (r.value.results, r.value.totalSearched) == SearchRanking(queryVector.value, Stream(embeddings, documentId, order), limit)
  {
    if documentId !in docs then Err(NotFound)
    else if Denied(docs[documentId].metadata.userId, user) then Err(AccessDenied)
    else if !docs[documentId].knowledgeBaseCreated then Err(BadRequest)
    else match queryVector
      case Raised(m) => Err(ServerError(EngineRaised(m)))
      case Returned(q) =>
        var ranking := SearchRanking(q, Stream(embeddings, documentId, order), limit);
        Ok(SearchResponse(ranking.0, ranking.1))
  }

  // ---------------------------------------------------------------------
  // Question answering
  // ---------------------------------------------------------------------

  /** The legal context of a question: the mock corpus's three entries. */
  function LegalContext(question: string): (r: seq<LegalRef>)
    ensures |r| == 3
  {
    MockLegalKnowledgeShape(question);
    RefsOf(MockLegalKnowledge(question))
  }

  /**
   * With the mock's legal context, the source list ends in exactly three
   * legal sources, one per mock entry, and there are three citations.
   */
  lemma LegalContextSources(context: seq<SearchHit>, question: string)
    ensures var legal := LegalContext(question);
      && |Sources(context, legal)| == |context| + 3
      && (forall k | 0 <= k < 3 :: Sources(context, legal)[|context| + k] == LegalSource(legal[k].title))
      && |Citations(legal)| == 3
  {
    var legal := LegalContext(question);
    SourcesShape(context, legal);
    CitationsShape(legal);
  }

  /** The document context of a question: the top three knowledge-base hits when the search succeeds. */
  function QuestionContext(docs: map<string, DocRecord>, embeddings: map<string, StoredEmbedding>, documentId: string, user: Option<string>,
                           question: Reply<seq<real>>, order: seq<string>): seq<SearchHit>
    requires documentId in docs
  {
    var search := Search(docs, embeddings, documentId, user, DocumentContextLimit, question, order);
    DocumentContext(docs[documentId].knowledgeBaseCreated, if search.Ok? then Returned(search.value.results) else Raised(""))
  }

  /** One entry of the question history; the stored answer string is `Render(answer)`. */
  datatype QaRecord = QaRecord(documentId: string, userId: Option<string>, question: string, answer: AnswerText, confidence: real, sources: seq<Source>)

  /**
   * `answer_question`: refused for a missing or foreign record; otherwise
   * the answer generated from the knowledge-base context, the legal
   * context `legal` (what the legal-corpus search returned, or nothing when
   * it raised) and the stored document type (default "legal document").
   * An answer that is a list fails the response model's validation, which
   * the handler turns into a server error.
   */
  function QuestionAnswer(docs: map<string, DocRecord>, embeddings: map<string, StoredEmbedding>, documentId: string, user: Option<string>,
                          queryVector: Reply<seq<real>>, order: seq<string>, legal: seq<LegalRef>, reply: AnswerReply): (r: Result<Answer, ApiError>)
    ensures documentId !in docs ==> r == Err(NotFound)
    ensures documentId in docs && Denied(docs[documentId].metadata.userId, user) ==> r == Err(AccessDenied)
    ensures documentId in docs && !Denied(docs[documentId].metadata.userId, user) && ListReply(reply) ==> r == Err(ServerError(InvalidAnswer))
    ensures r.Ok? <==> documentId in docs && !Denied(docs[documentId].metadata.userId, user) && !ListReply(reply)
    ensures r.Ok? ==> 0.0 <= r.value.confidence <= 1.0 && !r.value.text.ListText?
    ensures r.Ok? ==> IsPrefix(r.value.sources, Sources(QuestionContext(docs, embeddings, documentId, user, queryVector, order), legal))
  {
    if documentId !in docs then Err(NotFound)
    else if Denied(docs[documentId].metadata.userId, user) then Err(AccessDenied)
    else
      var context := QuestionContext(docs, embeddings, documentId, user, queryVector, order);
      var documentType := docs[documentId].documentType.GetOr(DefaultAnswerDocumentType);
      AnswerProperties(reply, documentType, context, legal);
      var answer := AnswerFor(reply, documentType, Sources(context, legal), legal);
      if answer.text.ListText? then Err(ServerError(InvalidAnswer)) else Ok(answer)
  }

  // ---------------------------------------------------------------------
  // Lemmas
  // ---------------------------------------------------------------------

  /**
   * The OCR handler's writes: at least one, never `complete`, and the record
   * ends in the last one; it fails exactly when it ends in `failed`, and
   * succeeds exactly when it writes `processing` and then `ocr_complete`.
   */
  lemma OcrStepWrites(doc: DocRecord, user: Option<string>, fileExists: bool, engine: Reply<OcrDocument>)
    ensures var t := OcrStep(doc, user, fileExists, engine);
      && (t.writes == [Failed] || t.writes == [Processing, Failed] || t.writes == [Processing, OcrComplete])
      && |t.writes| > 0 && t.after.status == t.writes[|t.writes| - 1]
      && Complete !in t.writes
      && (t.response.Ok? <==> t.writes == [Processing, OcrComplete])
      && (t.response.Err? <==> t.after.status == Failed)
  {
    if !Denied(doc.metadata.userId, user) {
      match OcrRun(doc, fileExists, engine)
      case Err(raised) =>
      case Ok(document) =>
    }
  }

  /** The OCR handler never changes the document's owner, storage path or knowledge-base flag. */
  lemma OcrStepKeepsIdentity(doc: DocRecord, user: Option<string>, fileExists: bool, engine: Reply<OcrDocument>)
    ensures var a := OcrStep(doc, user, fileExists, engine).after;
      a.metadata == doc.metadata && a.gcsPath == doc.gcsPath && a.knowledgeBaseCreated == doc.knowledgeBaseCreated && a.clauses == doc.clauses
  {
    if !Denied(doc.metadata.userId, user) {
      match OcrRun(doc, fileExists, engine)
      case Err(raised) =>
      case Ok(document) =>
    }
  }

  /**
   * The classification handler's writes: at least one, never `complete`, and the record
   * ends in the last one; it fails exactly when it ends in `failed`, and
   * succeeds exactly when it writes `processing` and then `classified`.
   */
  lemma ClassifyStepWrites(doc: DocRecord, user: Option<string>, typeReply: Reply<string>, clauseReply: Reply<ClauseReply>)
    ensures var t := ClassifyStep(doc, user, typeReply, clauseReply);
      && (t.writes == [Failed] || t.writes == [Processing, Failed] || t.writes == [Processing, Classified])
      && |t.writes| > 0 && t.after.status == t.writes[|t.writes| - 1]
      && Complete !in t.writes
      && (t.response.Ok? <==> t.writes == [Processing, Classified])
      && (t.response.Err? <==> t.after.status == Failed)
  {
    if !Denied(doc.metadata.userId, user) && doc.status == OcrComplete {
      match ClassifyRun(doc, typeReply, clauseReply)
      case Err(raised) =>
      case Ok(_) =>
    }
  }

  /** The classification handler never changes the document's owner, storage path or knowledge-base flag. */
  lemma ClassifyStepKeepsIdentity(doc: DocRecord, user: Option<string>, typeReply: Reply<string>, clauseReply: Reply<ClauseReply>)
    ensures var a := ClassifyStep(doc, user, typeReply, clauseReply).after;
      a.metadata == doc.metadata && a.gcsPath == doc.gcsPath && a.knowledgeBaseCreated == doc.knowledgeBaseCreated && a.extracted == doc.extracted
  {
    if !Denied(doc.metadata.userId, user) && doc.status == OcrComplete {
      match ClassifyRun(doc, typeReply, clauseReply)
      case Err(raised) =>
      case Ok(_) =>
    }
  }

  /**
   * The analysis handler's writes: at least one, never `complete`, and the record
   * ends in the last one; it fails exactly when it ends in `failed`, and
   * succeeds exactly when it writes `processing` and then `analyzed`.
   */
  lemma AnalyzeStepWrites(doc: DocRecord, user: Option<string>, summaryReply: Reply<SummaryReply>)
    ensures var t := AnalyzeStep(doc, user, summaryReply);
      && (t.writes == [Failed] || t.writes == [Processing, Failed] || t.writes == [Processing, Analyzed])
      && |t.writes| > 0 && t.after.status == t.writes[|t.writes| - 1]
      && Complete !in t.writes
      && (t.response.Ok? <==> t.writes == [Processing, Analyzed])
      && (t.response.Err? <==> t.after.status == Failed)
  {
    if !Denied(doc.metadata.userId, user) && doc.status == Classified {
      match AnalyzeRun(doc, summaryReply)
      case Err(raised) =>
        assert AnalyzeStep(doc, user, summaryReply) == Failure([Processing, Failed], doc, raised, AnalysisFailedNote);
      case Ok(_) =>
        assert AnalyzeStep(doc, user, summaryReply).writes == [Processing, Analyzed];
        assert AnalyzeStep(doc, user, summaryReply).response.Ok?;
    }
  }

  /** The analysis handler never changes the document's owner, storage path or knowledge-base flag. */
  lemma AnalyzeStepKeepsIdentity(doc: DocRecord, user: Option<string>, summaryReply: Reply<SummaryReply>)
    ensures var a := AnalyzeStep(doc, user, summaryReply).after;
      a.metadata == doc.metadata && a.gcsPath == doc.gcsPath && a.knowledgeBaseCreated == doc.knowledgeBaseCreated && a.clauses == doc.clauses
  {
    if !Denied(doc.metadata.userId, user) && doc.status == Classified {
      match AnalyzeRun(doc, summaryReply)
      case Err(raised) =>
      case Ok(_) =>
    }
  }

  /** A failed classification gate is itself recorded as a failure, with a single `failed` write. */
  lemma ClassifyGateRecordsFailed(doc: DocRecord, user: Option<string>, typeReply: Reply<string>, clauseReply: Reply<ClauseReply>)
    requires !Denied(doc.metadata.userId, user)
    ensures doc.status != OcrComplete ==>
      ClassifyStep(doc, user, typeReply, clauseReply) == Transition([Failed], Fail(doc, HandlerNote(ClassifyFailedNote)), Err(BadRequest))
  {
  }

  /** A failed analysis gate is itself recorded as a failure, with a single `failed` write. */
  lemma AnalyzeGateRecordsFailed(doc: DocRecord, user: Option<string>, summaryReply: Reply<SummaryReply>)
    requires !Denied(doc.metadata.userId, user)
    ensures doc.status != Classified ==>
      AnalyzeStep(doc, user, summaryReply) == Transition([Failed], Fail(doc, HandlerNote(AnalysisFailedNote)), Err(BadRequest))
  {
  }

  /** Classification and analysis never leave `failed`; OCR does, from any status, when storage and engine deliver. */
  lemma OnlyOcrLeavesFailed(doc: DocRecord, user: Option<string>, fileExists: bool, engine: Reply<OcrDocument>,
                            typeReply: Reply<string>, clauseReply: Reply<ClauseReply>, summaryReply: Reply<SummaryReply>)
    ensures doc.status == Failed ==> ClassifyStep(doc, user, typeReply, clauseReply).after.status == Failed
    ensures doc.status == Failed ==> AnalyzeStep(doc, user, summaryReply).after.status == Failed
    ensures !Denied(doc.metadata.userId, user) && doc.gcsPath.Some? && doc.gcsPath.value != "" && fileExists && engine.Returned? ==>
      OcrStep(doc, user, fileExists, engine).after.status == OcrComplete
  {
  }

  /** The classification step stores the clause list the normalisation built, under a valid document type. */
  lemma ClassifyStoresClauses(doc: DocRecord, user: Option<string>, typeText: string, items: seq<ClauseItem>)
    requires !Denied(doc.metadata.userId, user) && doc.status == OcrComplete && RawText(doc) != ""
    ensures var t := ClassifyStep(doc, user, Returned(typeText), Returned(Parsed(Some(items))));
      (t.response.Ok? <==> AllTypesKnown(items))
      && (t.response.Ok? ==> (
        && t.after.clauses == Some(NormaliseItems(items).value)
        && |t.after.clauses.value| == |items|
        && t.after.documentType == Some(ClassifyDocumentType(typeText))
        && t.response.value.clausesFound == |items|))
      && (!t.response.Ok? ==> t.after.errorMessage == Some(ExceptionNote(ClauseFailure(InvalidClauseType("other")))))
  {
    NormaliseItemsOk(items);
    if AllTypesKnown(items) {
      NormaliseItemsShape(items);
    }
  }

  /** A reply that is not JSON makes classification fail: its fallback clause names a member `ClauseType` lacks. */
  lemma ClassifyUnparsableFails(doc: DocRecord, user: Option<string>, typeText: string)
    requires !Denied(doc.metadata.userId, user) && doc.status == OcrComplete && RawText(doc) != ""
    ensures ClassifyStep(doc, user, Returned(typeText), Returned(Unparsable)).after.status == Failed
    ensures ClassifyStep(doc, user, Returned(typeText), Returned(Unparsable)).response == Err(ServerError(ClauseFailure(MissingOtherMember)))
  {
  }

  /** OCR keeps a record consistent. */
  lemma OcrKeepsConsistent(doc: DocRecord, user: Option<string>, fileExists: bool, engine: Reply<OcrDocument>)
    requires Consistent(doc)
    ensures Consistent(OcrStep(doc, user, fileExists, engine).after)
  {
  }

  /** Classification keeps a record consistent. */
  lemma ClassifyKeepsConsistent(doc: DocRecord, user: Option<string>, typeReply: Reply<string>, clauseReply: Reply<ClauseReply>)
    requires Consistent(doc)
    ensures Consistent(ClassifyStep(doc, user, typeReply, clauseReply).after)
  {
    var t := ClassifyStep(doc, user, typeReply, clauseReply);
    if t.response.Ok? {
      assert typeReply.Returned?;
      assert t.after.documentType == Some(ClassifyDocumentType(typeReply.value));
    }
  }

  /** Analysis keeps a record consistent. */
  lemma AnalyzeKeepsConsistent(doc: DocRecord, user: Option<string>, summaryReply: Reply<SummaryReply>)
    requires Consistent(doc)
    ensures Consistent(AnalyzeStep(doc, user, summaryReply).after)
  {
  }

  /** An analysed record reports the overall risk its clauses give, never the default. */
  lemma AnalysisReportsStoredRisk(documentId: string, doc: DocRecord, user: Option<string>)
    requires Consistent(doc) && doc.status == Analyzed && !Denied(doc.metadata.userId, user)
    ensures AnalysisResult(documentId, Some(doc), user).Ok?
    ensures AnalysisResult(documentId, Some(doc), user).value.overallRisk == OverallRisk(Levels(StoredClauses(doc)))
  {
  }

  /** The upload record is consistent, and its storage path names the document. */
  lemma NewRecordConsistent(documentId: string, fileName: string, contentType: string, size: nat, user: Option<string>)
    ensures Consistent(NewRecord(documentId, fileName, contentType, size, user))
    ensures IsPrefix("uploads/" + documentId + ".", NewRecord(documentId, fileName, contentType, size, user).gcsPath.value)
  {
  }

  /**
   * The knowledge-base creation as written leaves the document unflagged
   * whenever at least one embedding was stored, and writes the flag onto the
   * last embedding record instead; so a later search is refused.
   */
  lemma KnowledgeBaseFlagMisplaced(c: Collections, documentId: string, records: seq<EmbeddingRecord>, user: Option<string>,
                                   limit: int, queryVector: Reply<seq<real>>, order: seq<string>)
    requires documentId in c.docs && !c.docs[documentId].knowledgeBaseCreated
    requires !Denied(c.docs[documentId].metadata.userId, user)
    requires records != []
    ensures var after := KnowledgeBaseAsWritten(c, documentId, records);
      && !after.docs[documentId].knowledgeBaseCreated
      && after.docs[documentId].embeddingsCount == c.docs[documentId].embeddingsCount
      && after.embeddings[records[|records| - 1].chunkId].flag == Some(|records|)
      && Search(after.docs, after.embeddings, documentId, user, limit, queryVector, order) == Err(BadRequest)
  {
  }

  /** The intended creation flags the document with the number of stored embeddings, so a later search is not refused for it. */
  lemma KnowledgeBaseIntendedFlags(c: Collections, documentId: string, records: seq<EmbeddingRecord>, user: Option<string>,
                                   limit: int, queryVector: Reply<seq<real>>, order: seq<string>)
    requires documentId in c.docs
    requires !Denied(c.docs[documentId].metadata.userId, user)
    requires queryVector.Returned?
    ensures var after := KnowledgeBaseIntended(c, documentId, records);
      && after.docs[documentId].knowledgeBaseCreated
      && after.docs[documentId].embeddingsCount == Some(|records|)
      && Search(after.docs, after.embeddings, documentId, user, limit, queryVector, order).Ok?
  {
  }

  /** The knowledge-base creation changes no record's status, and (as written) touches no other document. */
  lemma KnowledgeBaseKeepsStatus(c: Collections, documentId: string, records: seq<EmbeddingRecord>)
    requires documentId in c.docs
    ensures KnowledgeBaseAsWritten(c, documentId, records).docs.Keys == c.docs.Keys
    ensures KnowledgeBaseAsWritten(c, documentId, records).docs[documentId].status == c.docs[documentId].status
    ensures KnowledgeBaseIntended(c, documentId, records).docs[documentId].status == c.docs[documentId].status
    ensures forall k | k in c.docs && k != documentId :: KnowledgeBaseAsWritten(c, documentId, records).docs[k] == c.docs[k]
  {
  }

  /** Without a knowledge base an answer has no document context, so its sources all come from the legal context. */
  lemma {:induction false} NoKnowledgeBaseOnlyLegalSources(docs: map<string, DocRecord>, embeddings: map<string, StoredEmbedding>, documentId: string,
                                                           user: Option<string>, queryVector: Reply<seq<real>>, order: seq<string>,
                                                           legal: seq<LegalRef>, reply: AnswerReply)
    requires documentId in docs && !docs[documentId].knowledgeBaseCreated && !Denied(docs[documentId].metadata.userId, user)
    ensures QuestionContext(docs, embeddings, documentId, user, queryVector, order) == []
    ensures var r := QuestionAnswer(docs, embeddings, documentId, user, queryVector, order, legal, reply);
      (r.Ok? <==> !ListReply(reply))
      && (r.Ok? ==> IsPrefix(r.value.sources, LegalSources(legal))
                    && forall k | 0 <= k < |r.value.sources| :: r.value.sources[k].LegalSource?)
  {
    var context := QuestionContext(docs, embeddings, documentId, user, queryVector, order);
    assert context == [];
    var r := QuestionAnswer(docs, embeddings, documentId, user, queryVector, order, legal, reply);
    if r.Err? {
      return;
    }
    assert IsPrefix(r.value.sources, Sources(context, legal));
    var all := LegalSources(legal);
    assert Sources(context, legal) == all;
    LegalSourcesShape(legal);
    var sources := r.value.sources;
    forall k | 0 <= k < |sources| ensures sources[k].LegalSource? {
      assert sources[k] == all[k];
    }
  }
}

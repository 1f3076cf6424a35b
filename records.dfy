/**
 * The stored document record, the errors a request can end in, the shared
 * access check, and the consistency every stored record keeps.
 */
module Records {
  import opened Wrappers
  import opened Models
  import opened DocumentAi
  import opened VertexAi
  import opened Rag

  /** The upload metadata of a document; `userId` is the uploader, when one was signed in. */
  datatype Metadata = Metadata(fileName: string, fileSize: nat, mimeType: string, userId: Option<string>)

  /** Why a handler raised an exception other than an HTTP error. */
  datatype Cause =
    | EngineRaised(message: string)
    | ClauseFailure(error: SegmentError)
      /** The response model refused an answer that is not a string. */
    | InvalidAnswer

  /** The `error_message` stored with a failed document: the handler's fixed text, or the exception's. */
  datatype ErrorNote = HandlerNote(text: string) | ExceptionNote(cause: Cause)

  /** One record of the documents collection. */
  datatype DocRecord = DocRecord(
    documentId: string,
    metadata: Metadata,
    status: ProcessingStatus,
    gcsPath: Option<string>,
    extracted: Option<ExtractedData>,
    ocrConfidence: Option<real>,
    documentType: Option<string>,
    clauses: Option<seq<ClauseAnalysis>>,
    overallRisk: Option<RiskLevel>,
    summary: Option<string>,
    keyFindings: Option<seq<string>>,
    knowledgeBaseCreated: bool,
    embeddingsCount: Option<nat>,
    errorMessage: Option<ErrorNote>)

  /**
   * One record of the embeddings collection. `flag` is Some(n) when a
   * knowledge-base update wrote `knowledge_base_created` and
   * `embeddings_count = n` onto this record.
   */
  datatype StoredEmbedding = StoredEmbedding(record: EmbeddingRecord, flag: Option<nat>)

  /** How a request fails, by kind. */
  datatype ApiError =
    | NotFound
    | AccessDenied
    | BadRequest
    | ServerError(cause: Cause)
      /** The failure update of a handler raised because the record does not exist. */
    | MissingRecord

  /** An exception raised inside a handler's body: an HTTP error of its own, or any other. */
  datatype Raise = HttpRaise(error: ApiError) | ExceptionRaise(cause: Cause) {
    /** The `error_message` the handler stores: its fixed text for its own HTTP errors, the exception's otherwise. */
    function Note(handlerText: string): (r: ErrorNote)
      ensures HttpRaise? <==> r == HandlerNote(handlerText)
    {
      match this
      case HttpRaise(_) => HandlerNote(handlerText)
      case ExceptionRaise(cause) => ExceptionNote(cause)
    }

    /** The response: an HTTP error is re-raised as it is, any other becomes a server error. */
    function Error(): (r: ApiError)
      ensures ExceptionRaise? ==> r == ServerError(cause)
      ensures HttpRaise? ==> r == error
    {
      match this
      case HttpRaise(error) => error
      case ExceptionRaise(cause) => ServerError(cause)
    }
  }

  /**
   * The access check shared by the handlers: refused only when there is a
   * current user and the record names a (non-empty) owner who is someone
   * else.
   */
  predicate Denied(owner: Option<string>, currentUser: Option<string>) {
    currentUser.Some? && owner.Some? && owner.value != "" && owner.value != currentUser.value
  }

  /** Anonymous requests and records without an owner are never refused; otherwise only a different owner is. */
  lemma DeniedExactly(owner: Option<string>, currentUser: Option<string>)
    ensures currentUser.None? ==> !Denied(owner, currentUser)
    ensures owner.None? || owner == Some("") ==> !Denied(owner, currentUser)
    ensures owner.Some? && currentUser.Some? && owner.value != "" ==> (Denied(owner, currentUser) <==> owner.value != currentUser.value)
    ensures !Denied(currentUser, currentUser)
  {
  }

  /** The stored raw text, or "" when there is no extracted data. */
  function RawText(doc: DocRecord): string {
    if doc.extracted.Some? then doc.extracted.value.rawText else ""
  }

  /** The stored paragraphs, or none when there is no extracted data. */
  function StoredParagraphs(doc: DocRecord): seq<Paragraph> {
    if doc.extracted.Some? then doc.extracted.value.paragraphs else []
  }

  /** The stored clauses, or none. */
  function StoredClauses(doc: DocRecord): seq<ClauseAnalysis> {
    doc.clauses.GetOr([])
  }

  /**
   * What the pipeline guarantees of a stored record: past OCR it has
   * extracted data; once classified it has a valid document type and
   * clauses; once analysed it has at least one clause, a summary, findings,
   * and the overall risk that the average rule gives for its clauses.
   */
  predicate Consistent(doc: DocRecord) {
    && (doc.status == OcrComplete || doc.status == Classified || doc.status == Analyzed ==> doc.extracted.Some?)
    && (doc.status == Classified || doc.status == Analyzed ==>
          doc.clauses.Some? && doc.documentType.Some? && doc.documentType.value in ValidTypes)
    && (doc.status == Analyzed ==> (
          && doc.clauses.Some? && doc.clauses.value != []
          && doc.overallRisk == Some(OverallRisk(Levels(doc.clauses.value)))
          && doc.summary.Some? && doc.keyFindings.Some?))
  }
}

# Nayaya.ai backend: a Dafny model of the document pipeline

The Nayaya.ai backend is a FastAPI service that helps people read legal
documents. A user uploads a PDF or Word file. Document AI then extracts its
text, pages, paragraphs and tables. Gemini assigns the document type and
segments the text into clauses, and it also writes a summary and key findings.
The service computes an overall risk from the clauses' risk levels. It builds
an embedding knowledge base from text chunks, searches it by cosine
similarity and answers questions with sources and citations. It also suggests
questions for the document.

This project models the logic of that pipeline:

- The **status machine** of a stored document. `Store.DocumentStore` holds the
  documents collection, the embeddings collection and the question history.
  It has one method per endpoint: upload, OCR, classify, analyze, create
  knowledge base, search, answer a question, upload status, analysis result
  and suggested questions. Each method performs its writes in the order the
  handler does. Its contract ties the new state to a pure step function in
  `Pipeline`, and the lemmas about the pipeline are proved over those step
  functions.
- The **validators and normalisers**:
  - upload MIME-type and size checks, and blob naming (`Upload`);
  - text-anchor slicing and the OCR extraction loops (`DocumentAi`);
  - document-type validation, clause normalisation, the average-based overall
    risk and the summary fallback (`VertexAi`).
- **Retrieval and question answering**:
  - chunking, embedding ids, search ranking and the mock legal corpus (`Rag`,
    with `Ranking` for the stable descending sort);
  - sources, citations, answer fallbacks and suggested questions (`Qa`).

Some things the code calls are outside the model and arrive as parameters:

- Every Google Cloud call (Cloud Storage, Document AI, Gemini, the text
  embedding model, Firestore's stream order). A call either returns a value or
  raises, as `Wrappers.Reply`.
- JSON parsing of a generator reply. It arrives as a datatype with an
  "unparsable" case.
- The generated document id.

Where the code's behaviour differs from what its comments, docstrings and
status names suggest, the model follows the behaviour:

- A failed stage gate in classify or analyze is an `HTTPException` raised
  inside the handler's own `try`. The handler catches it and writes `failed`.
- OCR checks no prior status, so it is the only step that leaves `failed`.
- No handler ever writes `complete`.
- `ClauseType` has no `"other"` value and no `OTHER` member. An unrecognised
  clause type is replaced by `"other"`, and then `ClauseType("other")` raises.
  The JSON-decode fallback names `ClauseType.OTHER`, which also raises. Both
  end the classification with `failed` (`VertexAi.SegmentClauses`,
  `Pipeline.ClassifyUnparsableFails`).
- `create_knowledge_base` rebinds `doc_ref` inside its batch loop. This is
  under "## Findings" below. The store has both versions:
  `CreateKnowledgeBaseAsWritten` performs the update as the code does, and
  `CreateKnowledgeBase` performs the intended one.
- An answer whose `answer` field is a JSON array survives `generate_answer`
  (`+=` extends the list), and then the response model refuses it, so the
  question ends in a server error and nothing is added to the history.

Integers are unbounded, and real numbers stand for Python floats. Python's
`/` on the risk total is real division, which is what `VertexAi.OverallRisk`
states. `VertexAi.AverageThreshold` gives the integer form (`2 * total >= 5 * n`).

## Model

| member | source | states |
|---|---|---|
| Upload.ValidateUpload | backend/api/upload.py:33-51 | An upload is refused for an unlisted MIME type, checked first, and for content over 10 MiB; it is accepted exactly when the type is listed and the size is at most 10 MiB |
| Upload.SizeBoundary | backend/api/upload.py:46-51 | Exactly 10485760 bytes is accepted and 10485761 is refused as too large |
| Upload.FileExtension | backend/api/upload.py:58 | The extension is the lower-cased text after the last dot, contains no dot, and is the whole name lower-cased when there is no dot |
| Upload.BlobName | backend/api/upload.py:59 | The blob name is `uploads/` + id + `.` followed by the extension |
| Upload.BlobNamesDistinct | backend/api/upload.py:55-59 | Two dot-free document ids with the same blob name are equal, so distinct documents get distinct blobs |
| Text.AfterLastDot | backend/api/upload.py:58 | `split('.')[-1]` is a dot-free suffix preceded by a dot unless it is the whole string |
| Text.AfterLastDotJoin | backend/api/upload.py:58 | A name with a dot is its text before the last dot, the dot, and the extension text |
| Pipeline.NewRecord | backend/api/upload.py:75-92 | The new record has status `uploaded`, the blob name as storage path, the content length as file size, the uploader as owner and no knowledge base |
| Pipeline.UploadOutcome | backend/api/upload.py:39-106 | A refused upload is a bad request; a storage error is a server error; otherwise the result is the new record |
| Pipeline.NewRecordConsistent | backend/api/upload.py:84-94 | The upload record is consistent and its storage path starts with `uploads/<id>.` |
| Store.DocumentStore.UploadDocument | backend/api/upload.py:23-106 | On success exactly one record is written, under the id, with status `uploaded`; on refusal or a storage error nothing is written |
| Records.DeniedExactly | backend/api/upload.py:124-127 | Access is denied only when both a current user and a non-empty stored owner exist and differ |
| Pipeline.UploadStatus | backend/api/upload.py:108-143 | Status lookup: not found for an unknown id, access denied for a foreign owner, else the stored status and file name |
| Store.DocumentStore.GetUploadStatus | backend/api/upload.py:108-143 | The status endpoint reads the store and returns what `UploadStatus` gives for the stored record |
| Text.Slice | backend/api/document_ai.py:223 | Python slicing: both indices clamp into the text (negative ones count from the end) and a start at or past the end gives the empty string |
| Text.SliceIsSubstring | backend/api/document_ai.py:223 | Every slice is a contiguous substring |
| DocumentAi.GetTextFromLayout | backend/api/document_ai.py:214-225 | The loop returns the in-order concatenation of the segments' slices, and "" for a layout without a text anchor |
| DocumentAi.SegmentTextIsSlice | backend/api/document_ai.py:221-223 | A segment's text is a substring of the document text; end 0 means "to the end"; segment (0, 0) gives the whole text; a start past the text gives "" |
| DocumentAi.AnchorTextAppend | backend/api/document_ai.py:219-223 | The anchor text of a concatenation of segment lists is the concatenation of their texts |
| DocumentAi.ExtractPieces | backend/api/document_ai.py:126-139 | The block and paragraph loops build one text piece per layout, in order |
| DocumentAi.ExtractParagraphs | backend/api/document_ai.py:134-146 | The paragraph loop fills both the page's paragraph list and the global list tagged with the page number |
| DocumentAi.ExtractPages | backend/api/document_ai.py:111-148 | The page loop builds one page record per page and the global paragraph list |
| DocumentAi.ExtractTable | backend/api/document_ai.py:161-172 | A table becomes its page number and, per body row, the stripped cell texts |
| DocumentAi.ExtractPageTables | backend/api/document_ai.py:161-174 | One page's tables, in order |
| DocumentAi.ExtractTables | backend/api/document_ai.py:159-174 | Tables are collected page after page |
| DocumentAi.Extract | backend/api/document_ai.py:101-174 | The extracted data is the raw text, the page records, the entities, the global paragraphs and the tables |
| DocumentAi.Extraction | backend/api/document_ai.py:101-174 | The extracted data: the text, page records, entities, paragraphs and tables of the document (the `Extract` method and the shape lemmas state its contents) |
| DocumentAi.PageParagraphsShape | backend/api/document_ai.py:134-146 | A page contributes one paragraph per layout, in order, each with that layout's text, the page's number and the layout's confidence |
| DocumentAi.AllParagraphsAppend | backend/api/document_ai.py:111-146 | The global paragraph list of concatenated page lists is the concatenation of their paragraph lists |
| DocumentAi.AllParagraphsPages | backend/api/document_ai.py:141-146 | Every global paragraph carries the number of one of the document's pages |
| DocumentAi.RowCellsShape | backend/api/document_ai.py:167-172 | A row has one cell text per cell, in order, each the stripped layout text |
| DocumentAi.RowCellsStripped | backend/api/document_ai.py:171 | No cell text begins or ends with whitespace |
| Text.StripTrimmed | backend/api/document_ai.py:171 | `strip()` leaves no leading or trailing whitespace |
| DocumentAi.OcrConfidence | backend/api/document_ai.py:180 | The stored confidence is the first block of the first page's, or 0.0 when there is none |
| Pipeline.OcrRun | backend/api/document_ai.py:58-98 | The OCR body succeeds exactly when the record has a non-empty storage path, the file exists and the engine returns; a missing path is a bad request |
| Pipeline.OcrStepWrites | backend/api/document_ai.py:48-212 | OCR writes `failed`, or `processing` then `failed`, or `processing` then `ocr_complete`; the record ends in the last write; it never writes `complete`; it succeeds exactly when it ends in `ocr_complete` |
| Pipeline.OcrStepKeepsIdentity | backend/api/document_ai.py:53-207 | OCR never changes the owner, storage path, knowledge-base flag or clauses |
| Pipeline.OcrKeepsConsistent | backend/api/document_ai.py:177-182 | OCR keeps a record consistent |
| Store.DocumentStore.ProcessOcr | backend/api/document_ai.py:28-212 | For a known id the store changes as `OcrStep` says and the status writes are logged in order; for an unknown id nothing is written |
| Pipeline.OcrStep | backend/api/document_ai.py:28-212 | The OCR handler as a step: its status writes, the record after, and the response (its properties are `OcrStepWrites`, `OcrStepKeepsIdentity` and `OcrKeepsConsistent`) |
| Store.DocumentStore.OcrAllowed | backend/api/document_ai.py:52-192 | Past the access check, OCR writes `processing` and then its final status, as `OcrStep` says |
| VertexAi.ClassifyDocumentType | backend/api/vertex_ai.py:143-152 | The type is always one of the seven valid labels: the stripped, lower-cased reply when it is one of them, else "other" |
| VertexAi.ValidTypesAreDocumentTypes | backend/api/vertex_ai.py:146-147 | The seven valid labels are exactly the values of `DocumentType` |
| VertexAi.ValidLabelNormal | backend/api/vertex_ai.py:143-147 | A valid label is unchanged by strip and by lower-casing |
| VertexAi.ClassifyIdempotent | backend/api/vertex_ai.py:143-150 | Classifying a valid label returns it, so classification is idempotent |
| Pipeline.ClassifyRun | backend/api/vertex_ai.py:70-84 | Classification refuses an empty text; a success means both engine calls returned and the type is valid |
| VertexAi.ClauseId | backend/api/vertex_ai.py:214 | Clause ids start with `clause_` |
| VertexAi.ClauseIdInjective | backend/api/vertex_ai.py:214 | Distinct positions give distinct clause ids |
| VertexAi.ItemRiskLevel | backend/api/vertex_ai.py:209-211 | A recognised risk level is kept; a missing or unrecognised one becomes `medium` |
| VertexAi.BuildClause | backend/api/vertex_ai.py:203-222 | A clause is built exactly when its type names a `ClauseType` member, with id `clause_<i+1>`, confidence 0.8 and no citations; its original text, plain language, risk reason and recommendations are exactly the first 2000/500/300/3 of the inputs (empty when absent); otherwise it fails on "other" |
| VertexAi.NormaliseItems | backend/api/vertex_ai.py:200-226 | The clause loop as a function: the items built in order, the first failing item aborting the list (its properties are `NormaliseItemsOk` and `NormaliseItemsShape`) |
| VertexAi.SegmentClauses | backend/api/vertex_ai.py:196-245 | Segmentation of a whole reply: non-JSON fails on the missing `OTHER` member, a non-object fails, a missing `clauses` key gives no clauses, otherwise the normalised items (see `SegmentFailures`) |
| VertexAi.NormaliseClauses | backend/api/vertex_ai.py:200-226 | The clause loop gives what `NormaliseItems` gives, stopping at the first failing item |
| VertexAi.NormaliseItemsOk | backend/api/vertex_ai.py:202-226 | Normalisation succeeds exactly when every item names a clause type member, and otherwise fails on "other" |
| VertexAi.NormaliseItemsShape | backend/api/vertex_ai.py:202-224 | A successful normalisation yields one clause per item, in order, each the clause built from that item at its position |
| VertexAi.NormalisedIdsDistinct | backend/api/vertex_ai.py:214 | The normalised clauses have pairwise distinct ids |
| VertexAi.NormalisePrefixError | backend/api/vertex_ai.py:202-224 | Once a prefix of the items fails, the whole list fails with the same error |
| VertexAi.SegmentFailures | backend/api/vertex_ai.py:199-245 | A non-JSON reply fails on the missing `OTHER` member; a non-object reply fails; an unknown clause type fails on "other"; a reply without `clauses` gives no clauses |
| Models.OtherIsNoClauseType | backend/models/document.py:29-55 | "other" is not a `ClauseType` value |
| Models.ClauseTypeListed | backend/models/document.py:29-55 | There are 26 clause types and every one is listed |
| Models.ClauseValuesDistinct | backend/models/document.py:29-55 | The 26 clause type values are pairwise distinct |
| Models.ClauseTypeRoundTrip | backend/models/document.py:29-55 | Looking up a clause type's value gives that clause type back |
| Models.ClauseValueInjective | backend/models/document.py:29-55 | Two clause types with the same value are the same |
| Models.NoValueIsOther | backend/models/document.py:29-55 | No clause type has the value "other" |
| Models.FindClauseType | backend/api/vertex_ai.py:205 | A found clause type is in the list searched and has the value looked for |
| Models.FindClauseTypeNone | backend/api/vertex_ai.py:205 | The lookup finds nothing exactly when no listed clause type has the value |
| Models.RiskLevelOf | backend/models/document.py:6-9 | `RiskLevel(v)` succeeds exactly for the values of the three risk levels |
| Models.DocumentTypeOf | backend/models/document.py:11-18 | `DocumentType(v)` succeeds exactly for the values of the seven document types |
| Pipeline.ClassifyStepWrites | backend/api/vertex_ai.py:42-121 | Classify writes `failed`, or `processing` then `failed`, or `processing` then `classified`; it never writes `complete`; it succeeds exactly when it ends in `classified` |
| Pipeline.ClassifyStepKeepsIdentity | backend/api/vertex_ai.py:63-116 | Classification never changes the owner, storage path, knowledge-base flag or extracted data |
| Pipeline.ClassifyGateRecordsFailed | backend/api/vertex_ai.py:56-109 | Classifying a record not at `ocr_complete` writes `failed` once, with the handler's note, and answers a bad request |
| Pipeline.AnalyzeGateRecordsFailed | backend/api/vertex_ai.py:272-329 | Analysing a record not at `classified` writes `failed` once, with the handler's note, and answers a bad request |
| Pipeline.OnlyOcrLeavesFailed | backend/api/document_ai.py:52-56 | Classify and analyze leave a failed record failed; OCR takes it to `ocr_complete` when storage and engine deliver |
| Pipeline.ClassifyStoresClauses | backend/api/vertex_ai.py:76-117 | Classification succeeds exactly when every clause type is known; then it stores one normalised clause per item and the validated type; otherwise the stored error is the failure on "other" |
| Pipeline.ClassifyUnparsableFails | backend/api/vertex_ai.py:228-245 | A clause reply that is not JSON makes classification fail with a server error naming the missing `OTHER` member |
| Pipeline.ClassifyKeepsConsistent | backend/api/vertex_ai.py:86-92 | Classification keeps a record consistent |
| Store.DocumentStore.ClassifyClauses | backend/api/vertex_ai.py:31-121 | For a known id the store changes as `ClassifyStep` says and the status writes are logged in order; for an unknown id nothing is written |
| Pipeline.ClassifyStep | backend/api/vertex_ai.py:31-121 | The classification handler as a step (its properties are `ClassifyStepWrites`, `ClassifyStepKeepsIdentity`, `ClassifyGateRecordsFailed` and `ClassifyStoresClauses`) |
| Store.DocumentStore.ClassifyFromOcr | backend/api/vertex_ai.py:62-101 | Past its gates, classification writes `processing` and then its final status, as `ClassifyStep` says |
| VertexAi.Score | backend/api/vertex_ai.py:401 | Each risk scores between 1 and 3 |
| VertexAi.TotalScore | backend/api/vertex_ai.py:402 | The total lies between the clause count and three times it |
| VertexAi.OverallRisk | backend/api/vertex_ai.py:395-411 | No clauses give `medium`; otherwise `high` exactly when the average is at least 2.5, `medium` exactly when it is in [1.5, 2.5), `low` exactly when it is below 1.5 |
| VertexAi.AverageThreshold | backend/api/vertex_ai.py:403-408 | Comparing the average with k/2 is comparing 2 * total with k * n |
| VertexAi.TotalByCounts | backend/api/vertex_ai.py:401-402 | The total is 3 per high, 2 per medium and 1 per low clause |
| VertexAi.OverallRiskPermutation | backend/api/vertex_ai.py:395-411 | The overall risk does not depend on the order of the clauses |
| VertexAi.TotalMonotone | backend/api/vertex_ai.py:402 | Raising clause risks never lowers the total |
| VertexAi.OverallRiskMonotone | backend/api/vertex_ai.py:395-411 | Raising clause risks never lowers the overall risk |
| VertexAi.OverallRiskExamples | backend/api/vertex_ai.py:395-411 | The rule is an average, not the worst case: [high, low, low] gives `medium`, [high, medium] gives `high`, [low, low, medium] gives `low` |
| VertexAi.OverallRiskUniform | backend/api/vertex_ai.py:395-411 | Clauses all of one level give that level |
| VertexAi.UniformTotal | backend/api/vertex_ai.py:402 | n clauses of one level total n times its score |
| VertexAi.Levels | backend/api/vertex_ai.py:402 | The risk levels of the clauses, one per clause, in order |
| VertexAi.LabelRankIsStringOrder | backend/api/vertex_ai.py:390 | String order of the labels is "high" < "low" < "medium" |
| VertexAi.MinLabel | backend/api/vertex_ai.py:390 | `min` over the clause labels is a present label that no label precedes in string order |
| VertexAi.MaxLabel | backend/api/vertex_ai.py:390 | `max` over the clause labels is a present label that precedes no label in string order |
| VertexAi.SummaryAndFindings | backend/api/vertex_ai.py:378-393 | A parsed reply gives its summary and findings or their defaults; a non-JSON reply gives the fallback summary naming the type and three findings: the clause count, the label range by string order, and the review recommendation |
| VertexAi.FallbackRangeOrder | backend/api/vertex_ai.py:390 | The range uses string order: [low, high] reads "from high to low"; any medium is the maximum and any high the minimum |
| Text.NatToStringInjective | backend/api/vertex_ai.py:389 | The decimal rendering of a count is injective |
| Pipeline.AnalyzeRun | backend/api/vertex_ai.py:285-300 | Analysis refuses a record without clauses; a success means the engine returned |
| Pipeline.AnalyzeStepWrites | backend/api/vertex_ai.py:258-340 | Analyze writes `failed`, or `processing` then `failed`, or `processing` then `analyzed`; it never writes `complete`; it succeeds exactly when it ends in `analyzed` |
| Pipeline.AnalyzeStepKeepsIdentity | backend/api/vertex_ai.py:279-336 | Analysis never changes the owner, storage path, knowledge-base flag or clauses |
| Pipeline.AnalyzeKeepsConsistent | backend/api/vertex_ai.py:293-310 | Analysis keeps a record consistent, storing the overall risk its clauses give |
| Store.DocumentStore.AnalyzeDocument | backend/api/vertex_ai.py:247-340 | For a known id the store changes as `AnalyzeStep` says and the status writes are logged in order; for an unknown id nothing is written |
| Pipeline.AnalyzeStep | backend/api/vertex_ai.py:247-340 | The analysis handler as a step (its properties are `AnalyzeStepWrites`, `AnalyzeStepKeepsIdentity` and `AnalyzeGateRecordsFailed`) |
| Store.DocumentStore.AnalyzeClassified | backend/api/vertex_ai.py:278-320 | Past its gates, analysis writes `processing` and then its final status, as `AnalyzeStep` says |
| Pipeline.AnalysisResult | backend/api/vertex_ai.py:413-459 | The analysis is returned only for an accessible record that is `analyzed` or `complete`, with its stored clauses and the overall risk default `medium` |
| Pipeline.AnalysisReportsStoredRisk | backend/api/vertex_ai.py:434-446 | For a consistent analysed record the reported risk is the one the average rule gives for its clauses |
| Store.DocumentStore.GetAnalysisResult | backend/api/vertex_ai.py:413-459 | The analysis endpoint reads the store and returns what `AnalysisResult` gives for the stored record |
| Records.Raise.Note | backend/api/vertex_ai.py:103-117 | A handler's own HTTP error stores the handler's fixed note; any other exception stores the exception's text |
| Records.Raise.Error | backend/api/vertex_ai.py:103-121 | An HTTP error is re-raised as it is; any other exception becomes a server error carrying its cause |
| Pipeline.Fail | backend/api/vertex_ai.py:105-116 | The failure update sets status `failed` and the error note |
| Pipeline.Failure | backend/api/vertex_ai.py:103-121 | A raised body ends in `failed` with the handler's note, and the response is the raised error |
| Rag.CreateTextChunks | backend/api/rag.py:128-175 | The chunking loops return the document chunk, the clause chunks and the paragraph chunks, as `TextChunks` says |
| Rag.TextChunksShape | backend/api/rag.py:128-175 | There are 1 + clauses + substantial-paragraph chunks; the first is the first 2000 characters with the full length; then one clause chunk per clause in order; the rest are paragraph chunks from the first ten paragraphs with more than 100 characters |
| Rag.TextChunks | backend/api/rag.py:128-175 | The document chunk, then the clause chunks, then the substantial paragraph chunks of the first ten paragraphs (its property is `TextChunksShape`) |
| Text.Prefix | backend/api/rag.py:139 | `s[:n]` has length min(n, len s) and is a prefix of `s` |
| Rag.ClauseChunksShape | backend/api/rag.py:148-158 | One clause chunk per clause, in clause order |
| Rag.ParagraphChunksShape | backend/api/rag.py:161-173 | One chunk per substantial paragraph, each with that paragraph's text, position, page and confidence, positions strictly increasing |
| Rag.ChunkId | backend/api/rag.py:80 | Chunk ids start with `<document_id>_chunk_` |
| Rag.ChunkIdInjective | backend/api/rag.py:80 | A chunk id determines its document and its position |
| Rag.EmbedChunks | backend/api/rag.py:72-93 | The embedding loop keeps one record per chunk whose embedding succeeded, skipping failed chunks |
| Rag.EmbeddedShape | backend/api/rag.py:72-93 | There are at most as many records as chunks; each record is the record for a successfully embedded chunk under that chunk's id |
| Rag.Embedded | backend/api/rag.py:72-93 | One record per chunk whose embedding returned, with the chunk's index in its id (its properties are `EmbeddedShape` and `EmbeddedIdsDistinct`) |
| Rag.EmbeddedIdsDistinct | backend/api/rag.py:80-101 | The records have pairwise distinct chunk ids, so the batch writes them to distinct keys |
| Pipeline.StoreRecords | backend/api/rag.py:96-103 | After the batch every record's chunk id is a key, and every key was already there or is a record's chunk id |
| Pipeline.StoreRecordsKeys | backend/api/rag.py:96-103 | The keys after the batch are exactly the old keys and the records' chunk ids |
| Pipeline.StoreRecordsLastWins | backend/api/rag.py:99-101 | Under each chunk id the batch leaves the last record with that id, with no knowledge-base flag |
| Pipeline.StoreRecordsUntouched | backend/api/rag.py:96-103 | A key that no record names keeps its old value |
| Store.StoreRecordsKeyed | backend/api/rag.py:99-101 | After the batch every embedding still sits under its own chunk id |
| Pipeline.KnowledgeBaseFlagMisplaced | backend/api/rag.py:100-110 | As written, with at least one embedding, the document stays unflagged and keeps its count, the last embedding record gets the flag, and a later search is refused |
| Pipeline.KnowledgeBaseAsWritten | backend/api/rag.py:96-110 | The update as written: records stored, then the flag and count written to the last record when there is one, otherwise to the document with count 0 (its properties are `KnowledgeBaseFlagMisplaced` and `KnowledgeBaseKeepsStatus`) |
| Pipeline.KnowledgeBaseIntended | backend/api/rag.py:105-110 | The evidently intended update: records stored and the document flagged with their number (its property is `KnowledgeBaseIntendedFlags`) |
| Pipeline.KnowledgeBaseIntendedFlags | backend/api/rag.py:105-110 | The intended update flags the document with the number of embeddings, so a later search is not refused |
| Pipeline.KnowledgeBaseKeepsStatus | backend/api/rag.py:105-110 | Creating a knowledge base changes no status and, as written, no other document |
| Store.DocumentStore.CreateKnowledgeBase | backend/api/rag.py:35-126 | Unknown id, foreign owner and empty text are refused with nothing written, and the call succeeds in every other case; then the embeddings are stored and the document is flagged with their count, as the intended update says, and chunks and embeddings reported are that count |
| Store.DocumentStore.CreateKnowledgeBaseAsWritten | backend/api/rag.py:35-126 | The same refusals and the same success condition; on success the collections become what `KnowledgeBaseAsWritten` gives: the records are stored and the flag goes to the last embedding record, or to the document when no embedding succeeded |
| Rag.DotSymmetric | backend/api/rag.py:255 | The dot product is symmetric |
| Rag.SimilarityKeyProperties | backend/api/rag.py:249-264 | The ordering key is symmetric, and it is 0.0 for vectors of different lengths and whenever a norm is zero |
| Rag.SimilarityKey | backend/api/rag.py:249-264 | The ordering key of the cosine similarity, 0 for vectors of different lengths or a zero norm (its properties are `SimilarityKeyProperties` and `DotSymmetric`) |
| Rag.ScoredShape | backend/api/rag.py:214-229 | Scoring keeps exactly the streamed records with a non-empty vector, each as its hit |
| Rag.SearchRankingProperties | backend/api/rag.py:214-238 | Results have non-increasing similarity, are a prefix of the stable descending sort of the scored records, have length min(limit, scored) for a non-negative limit, keep the stream order among equal similarities, and the total counts every scored record |
| Rag.SearchRanking | backend/api/rag.py:214-238 | The scored records sorted stably by descending similarity and cut to `limit`, with the number scored (its property is `SearchRankingProperties`) |
| Rag.RankRecords | backend/api/rag.py:214-238 | The search loop and sort give what `SearchRanking` gives |
| Pipeline.Search | backend/api/rag.py:177-247 | Search is refused with 404 for an unknown id, 403 for a foreign owner and 400 for a record without a knowledge base; a raised query embedding is a server error; it succeeds exactly otherwise, with the results and total of `SearchRanking` over the document's streamed records |
| Pipeline.Stream | backend/api/rag.py:212-215 | The records the `where` query streams: in the given order, the record under each named key that belongs to the document (its properties are `StreamMembers` and `StreamOncePerRecord`) |
| Pipeline.StreamMembers | backend/api/rag.py:212-215 | The stream holds only the document's records, and the record of every key of the document the order names |
| Pipeline.StreamLength | backend/api/rag.py:212-215 | With no key named twice, the stream has one record per key of the document the order names |
| Pipeline.StreamOncePerRecord | backend/api/rag.py:212-215 | When the order names every key once, every record of the document is streamed exactly once and no other record is |
| Store.DocumentStore.SearchKnowledgeBase | backend/api/rag.py:177-247 | The search endpoint changes nothing and returns what `Search` gives |
| Ranking.SortDesc | backend/api/rag.py:232 | The sort keeps the length and the multiset of elements |
| Ranking.SortDescSorted | backend/api/rag.py:232 | The sort result has non-increasing keys |
| Ranking.SortDescStable | backend/api/rag.py:232 | Among elements with equal keys, the sort keeps the input order |
| Ranking.SortDescSortedUnchanged | backend/api/rag.py:232 | Sorting an already sorted list leaves it unchanged |
| Rag.MockLegalKnowledgeShape | backend/api/rag.py:345-390 | The mock corpus returns exactly 3 distinct entries of the 5, in non-increasing relevance |
| Rag.MockCorpusDistinct | backend/api/rag.py:350-386 | The mock corpus has 5 distinct entries |
| Rag.MockCorpus | backend/api/rag.py:350-386 | The five corpus entries with their keyword-dependent relevance (its property is `MockCorpusDistinct`) |
| Rag.MockLegalKnowledge | backend/api/rag.py:345-390 | The corpus sorted by descending relevance and cut to 3 (its properties are `MockLegalKnowledgeShape`, `SecurityDepositFirst` and `NoKeywordRanking`) |
| Rag.SecurityDepositFirst | backend/api/rag.py:352-389 | A query mentioning "security deposit" ranks the tenant-rights entry first |
| Rag.NoKeywordRanking | backend/api/rag.py:350-390 | A query with no keyword gives contract termination, tenant rights and data privacy, in that order, by the stable sort |
| Pipeline.LegalContext | backend/api/rag.py:282-289 | The mock legal context of a question has 3 entries |
| Pipeline.LegalContextSources | backend/api/qa.py:154-158 | With the mock legal context, the sources end in exactly three `Legal: <title>` entries, one per mock entry, and there are three citations |
| Qa.DocumentContext | backend/api/qa.py:53-66 | The document context is the search results only when the knowledge base exists and the search returned, and empty otherwise |
| Pipeline.QuestionContext | backend/api/qa.py:54-66 | The document context is fetched with limit 3 from the knowledge-base search |
| Qa.HitSource | backend/api/qa.py:148-151 | A clause hit gives `Clause: <type or Unknown>`; any other hit gives a document-section entry with its similarity |
| Qa.BuildSources | backend/api/qa.py:140-158 | The source loops give what `Sources` gives |
| Qa.DocumentSourcesShape | backend/api/qa.py:144-151 | One source per document-context item, in order |
| Qa.LegalSourcesShape | backend/api/qa.py:154-158 | One `Legal: <title>` source per legal item, in order |
| Qa.SourcesShape | backend/api/qa.py:140-158 | Document sources come first, one per hit, clause sources exactly for clause hits; then one legal source per legal item |
| Qa.Sources | backend/api/qa.py:140-158 | The source list: the document sources followed by the legal sources (its property is `SourcesShape`) |
| Qa.CreateCitations | backend/api/qa.py:233-245 | The citation loop gives what `Citations` gives |
| Qa.CitationsShape | backend/api/qa.py:233-245 | One citation per legal item, in order, with source default "Legal Reference", reference the title, and url the link |
| Qa.Citations | backend/api/qa.py:233-245 | One citation per legal item, in order (its property is `CitationsShape`) |
| Qa.Clamp | backend/api/qa.py:211 | The confidence is clamped into [0, 1], unchanged inside it |
| Qa.RenderGenerated | backend/api/qa.py:203-207 | A generated answer is the model's text followed by the disclaimer |
| Qa.GenerateAnswer | backend/api/qa.py:129-231 | The answer is what `AnswerFor` gives for the built sources |
| Qa.AnswerFor | backend/api/qa.py:198-231 | The answer for each kind of reply: generated, unparsable fallback, error fallback, or a list answer (its properties are `AnswerProperties` and `ConfidenceChoice`) |
| Qa.ConfidenceValue | backend/api/qa.py:204 | `float()` of the confidence succeeds exactly for an absent value, a number and a boolean |
| Qa.AnswerProperties | backend/api/qa.py:198-231 | Confidence is in [0, 1]; sources are a prefix of the built ones (at most 5); the answer is a list exactly when the reply's answer was an array and the confidence converted; a usable reply keeps 5 sources, cites every legal item, has the clamped confidence and, unless it was an array, ends with the disclaimer; a non-JSON reply gives 0.3, the first 3 sources and no citations; any other error gives the error text, 0.2, no sources and no citations |
| Qa.ConfidenceChoice | backend/api/qa.py:204-211 | The given confidence is kept when in [0, 1], 0.5 is used when none is given, above 1 it becomes 1 and below 0 it becomes 0; `true` gives 1 and `false` 0; a string or null confidence gives the error fallback's 0.2 |
| Pipeline.QuestionAnswer | backend/api/qa.py:27-127 | 404 for an unknown id, 403 for a foreign owner, a server error when the answer is a list; an answer is given exactly otherwise, with confidence in [0, 1], a string text, and sources that are a prefix of the document sources followed by the legal sources |
| Pipeline.NoKnowledgeBaseOnlyLegalSources | backend/api/qa.py:54-158 | Without a knowledge base there is no document context; the question is answered exactly when the answer is not a list, and then every source is a legal source |
| Store.DocumentStore.AnswerQuestion | backend/api/qa.py:27-127 | The answer is what `QuestionAnswer` gives; an answered question is appended to the history with the request's user, the answer, its confidence and sources; a refused or failed one, including a list answer, leaves the history unchanged; documents and embeddings are untouched |
| Qa.Dedupe | backend/api/qa.py:404 | `dict.fromkeys` keeps each element once and loses none |
| Qa.DedupeDistinct | backend/api/qa.py:404 | A list without duplicates is unchanged by the dedupe |
| Qa.DedupeKeepsPrefix | backend/api/qa.py:404 | A duplicate-free head stays in place at the front |
| Qa.SuggestQuestions | backend/api/qa.py:342-405 | The suggestion code gives what `SuggestedQuestions` gives |
| Qa.SuggestedQuestions | backend/api/qa.py:342-405 | The base questions, the type's questions and the clause questions, deduplicated and cut to 8 (its properties are `SuggestedQuestionsShape`, `KnownTypeQuestions` and `OtherTypeClauseQuestions`) |
| Qa.SuggestedQuestionsShape | backend/api/qa.py:342-405 | Between 5 and 8 questions, no duplicates, and the first five are the base questions in order |
| Qa.KnownTypeQuestions | backend/api/qa.py:354-405 | For the four known types the result is the base questions and the first three type questions; no clause question appears |
| Qa.KnownTypeDistinct | backend/api/qa.py:345-383 | The base questions and each type's questions have no duplicates together |
| Qa.OtherTypeQuestions | backend/api/qa.py:386-405 | For any other type the result is the base questions followed by the clause questions, cut to 8; a security-deposit clause adds its question |
| Qa.ClauseQuestionsMembership | backend/api/qa.py:389-401 | Each clause question is present exactly when its clause type is, and all four come in the order deposit, non-compete, data sharing, liability |
| Qa.OtherTypeClauseQuestions | backend/api/qa.py:386-405 | For any other type each clause question is suggested exactly when its clause type is present, except that the cap of eight drops the liability question when all four are present |
| Qa.ClauseQuestionsDistinct | backend/api/qa.py:391-401 | The clause questions are distinct, and each is one of the four fixed questions |
| Qa.BaseQuestionsDistinct | backend/api/qa.py:345-351 | The five base questions are distinct |
| Pipeline.Suggested | backend/api/qa.py:300-340 | Suggestions for an accessible record use its type (default "other") and its clause types |
| Store.DocumentStore.GetSuggestedQuestions | backend/api/qa.py:300-340 | The suggestion endpoint reads the store and returns what `Suggested` gives |

## Left out

- The Google Cloud clients are not modelled. A call either returns a value or raises, and that comes in as a parameter. This covers Cloud Storage, Document AI, Gemini, the embedding model, Discovery Engine and Firestore's query order. The order in which `embeddings_query.stream()` yields records is the parameter `order`.
- The real Discovery Engine path of `search_legal_corpus` (backend/api/rag.py:291-333) is left out. `Pipeline.LegalContext` is the mock corpus, which is what runs without a search engine id. `AnswerQuestion` takes the legal context as a parameter. The `limit` argument does not affect the mock, so a question answered from the mock gets three legal sources and three citations (`Pipeline.LegalContextSources`).
- `json.loads` is not modelled. A reply arrives as a datatype with unparsable, not-an-object and parsed cases.
- Qa.AnswerFor: a numeric string as the answer's confidence, which `float()` would accept, is treated like any other non-number and gives the error fallback.
- Qa.ConfidenceChoice: as for `Qa.AnswerFor`, a numeric string confidence gives 0.2 here, where `float()` would convert it.
- Qa.AnswerProperties: the confidence is a real, so it is always within [0, 1] after the clamp. `json.loads` also accepts `NaN`, and `min(max(nan, 0.0), 1.0)` returns nan unchanged; a JSON integer too large for a float makes `float()` raise. Neither is modelled.
- Pipeline.QuestionAnswer: the same holds for the confidence of an answer; a NaN confidence would be returned and stored as it is.
- VertexAi.BuildClause and VertexAi.NormaliseItems: every field of a clause item is absent or of the expected type. The code raises, and classification ends in `failed`, on an `original_text`, `plain_language` or `risk_reason` that is null or not a string, on `recommendations` that is null or not a list, and on an item that is not an object; a `"clauses"` value that is null raises too, and one that is another non-list is iterated. The model cannot express these replies.
- Prompts and the context text built for the generator are not modelled, because they are free text for the model. This covers the snippets, the first-five clause summaries and `document_type.replace` in prompts.
- Timestamps, `SERVER_TIMESTAMP`, `response_time_ms` and `uuid.uuid4()` are not modelled. They are nondeterministic, and the document id is a parameter.
- Rag.SimilarityKeyProperties: the similarity is a real-valued ordering key `d * |d| / (|a|^2 * |b|^2)`, which orders hits exactly as the cosine `d / (|a| * |b|)` does. The model does not take the square root, does not prove the cosine's [-1, 1] bound, and does not model float rounding or NumPy.
- Qa.HitSource: the `:.2f` two-decimal formatting of a document-section source is not modelled; the source keeps the similarity value.
- Text.Lower: lower-casing is ASCII only. It is exact for the labels and keywords compared here, but it differs from Python's `str.lower` on non-ASCII letters.
- `get_ocr_result` and `get_qa_history` are read-only views. They are left out: the first only copies stored fields, and the second depends on Firestore's ordering by timestamp.
- The `clause_types` set in the classify response, the token and line lists of the OCR page records, and the `print` in the embedding loop are not modelled.
- The QA history stores the answer as `AnswerText`, and `Qa.Render` gives the string that is stored.
- backend/api/qa.py uses `os.getenv` at line 19 but never imports `os`, so importing it raises as written. The model assumes the module loads.
- Upload writes the new record with `set`, which replaces any record under the same id. Ids are generated fresh, so the model does not rule out a replacement.
- Firestore batch limits and partial failure of a batch commit are not modelled.
- Pipeline.AnalyzeRun: a summary reply that is JSON but not an object makes `result.get` raise. The model has no such reply; it is one of the engine errors, which end the analysis in `failed`.
- FastAPI routing, authentication dependencies and exact HTTP status codes are not modelled; errors are modelled by kind.
- Concurrency is not modelled. The handlers take no locks, and each method is one handler run.

## Findings

| source | as written | input that shows it | evidently intended | confidence | as-written member | corrected member |
|---|---|---|---|---|---|---|
| backend/api/rag.py:100,106 | `doc_ref` is rebound to each embedding record inside the batch loop, so the `knowledge_base_created` / `embeddings_count` update goes to the last embedding record | a document whose text yields at least one successful embedding: the document stays unflagged and the later `search_knowledge_base` answers 400 | the update flags the document itself with the number of stored embeddings | not executed | Pipeline.KnowledgeBaseFlagMisplaced | Store.DocumentStore.CreateKnowledgeBase |

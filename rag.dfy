/**
 * Retrieval: the chunks a document is cut into for embedding, the embedding
 * records stored per chunk, the similarity used to rank them against a
 * query, the knowledge-base search, and the mock legal corpus used when no
 * search engine is configured.
 */
module Rag {
  import opened Wrappers
  import opened Text
  import opened Models
  import opened DocumentAi
  import opened Ranking

  // ---------------------------------------------------------------------
  // Chunks
  // ---------------------------------------------------------------------

  /** The metadata of a chunk; its constructor is the chunk's type. */
  datatype ChunkMeta =
    | DocumentMeta(length: nat)
    | ClauseMeta(clauseType: string, riskLevel: string, clauseId: string)
    | ParagraphMeta(paragraphIndex: nat, page: int, confidence: real)

  datatype Chunk = Chunk(text: string, meta: ChunkMeta)

  /** The `type` (and `chunk_type`) field of a chunk. */
  function ChunkType(meta: ChunkMeta): string {
    match meta
    case DocumentMeta(_) => "document"
    case ClauseMeta(_, _, _) => "clause"
    case ParagraphMeta(_, _, _) => "paragraph"
  }

  const MaxDocumentChunk: nat := 2000
  const MaxParagraphs: nat := 10
  const MinParagraphLength: nat := 100

  /** The whole-document chunk: the first 2000 characters, with the full length as metadata. */
  function DocumentChunk(rawText: string): Chunk {
    Chunk(Prefix(rawText, MaxDocumentChunk), DocumentMeta(|rawText|))
  }

  function ClauseChunkText(c: ClauseAnalysis): string {
    "Clause Type: " + c.clauseType.Value() + "\n\nOriginal Text: " + c.originalText
      + "\n\nPlain Language: " + c.plainLanguage + "\n\nRisk: " + c.riskLevel.Value() + " - " + c.riskReason
  }

  function ClauseChunk(c: ClauseAnalysis): Chunk {
    Chunk(ClauseChunkText(c), ClauseMeta(c.clauseType.Value(), c.riskLevel.Value(), c.id))
  }

  /** One chunk per clause, in clause order. */
  function ClauseChunks(clauses: seq<ClauseAnalysis>): seq<Chunk> {
    if clauses == [] then [] else ClauseChunks(clauses[..|clauses| - 1]) + [ClauseChunk(clauses[|clauses| - 1])]
  }

  /** A paragraph is chunked when its text is longer than 100 characters. */
  predicate Substantial(p: Paragraph) {
    |p.text| > MinParagraphLength
  }

  /** One chunk per substantial paragraph, carrying the paragraph's position. */
  function ParagraphChunks(paragraphs: seq<Paragraph>): seq<Chunk> {
    if paragraphs == [] then []
    else
      var i := |paragraphs| - 1;
      var p := paragraphs[i];
      ParagraphChunks(paragraphs[..i]) + (if Substantial(p) then [Chunk(p.text, ParagraphMeta(i, p.page, p.confidence))] else [])
  }

  /** `create_text_chunks`: the document chunk, the clause chunks, then chunks of the first ten paragraphs. */
  function TextChunks(rawText: string, paragraphs: seq<Paragraph>, clauses: seq<ClauseAnalysis>): seq<Chunk> {
    [DocumentChunk(rawText)] + ClauseChunks(clauses) + ParagraphChunks(Prefix(paragraphs, MaxParagraphs))
  }

  /** The chunking loops, appending the document chunk, each clause chunk and each substantial paragraph chunk. */
  method CreateTextChunks(rawText: string, paragraphs: seq<Paragraph>, clauses: seq<ClauseAnalysis>) returns (chunks: seq<Chunk>)
    ensures chunks == TextChunks(rawText, paragraphs, clauses)
  {
    chunks := [DocumentChunk(rawText)];
    var k := 0;
    while k < |clauses|
      invariant 0 <= k <= |clauses|
      invariant chunks == [DocumentChunk(rawText)] + ClauseChunks(clauses[..k])
    {
      assert clauses[..k + 1][..k] == clauses[..k];
      chunks := chunks + [ClauseChunk(clauses[k])];
      k := k + 1;
    }
    assert clauses[..k] == clauses;
    var head := chunks;
    if |paragraphs| > 0 {
      var firstTen := Prefix(paragraphs, MaxParagraphs);
      var i := 0;
      while i < |firstTen|
        invariant 0 <= i <= |firstTen|
        invariant chunks == head + ParagraphChunks(firstTen[..i])
      {
        assert firstTen[..i + 1][..i] == firstTen[..i];
        var p := firstTen[i];
        if |p.text| > MinParagraphLength {
          chunks := chunks + [Chunk(p.text, ParagraphMeta(i, p.page, p.confidence))];
        }
        i := i + 1;
      }
      assert firstTen[..i] == firstTen;
    }
  }

  /** The clause chunks correspond one to one, in order, to the clauses. */
  lemma {:induction false} ClauseChunksShape(clauses: seq<ClauseAnalysis>)
    ensures |ClauseChunks(clauses)| == |clauses|
    ensures forall k | 0 <= k < |clauses| :: ClauseChunks(clauses)[k] == ClauseChunk(clauses[k])
  {
    if clauses != [] {
      var init := clauses[..|clauses| - 1];
      ClauseChunksShape(init);
      assert forall k | 0 <= k < |init| :: init[k] == clauses[k];
    }
  }

  /** The positions of the substantial paragraphs. */
  function SubstantialPositions(paragraphs: seq<Paragraph>): set<nat> {
    set i | 0 <= i < |paragraphs| && Substantial(paragraphs[i])
  }

  /**
   * Every paragraph chunk is the text of a substantial paragraph, with that
   * paragraph's position, page and confidence; positions strictly increase;
   * and there is one chunk per substantial paragraph.
   */
  lemma {:induction false} ParagraphChunksShape(paragraphs: seq<Paragraph>)
    ensures |ParagraphChunks(paragraphs)| == |SubstantialPositions(paragraphs)|
    ensures forall c | c in ParagraphChunks(paragraphs) ::
      c.meta.ParagraphMeta? && c.meta.paragraphIndex < |paragraphs|
      && Substantial(paragraphs[c.meta.paragraphIndex])
      && c == Chunk(paragraphs[c.meta.paragraphIndex].text,
                    ParagraphMeta(c.meta.paragraphIndex, paragraphs[c.meta.paragraphIndex].page, paragraphs[c.meta.paragraphIndex].confidence))
    ensures forall a, b | 0 <= a < b < |ParagraphChunks(paragraphs)| ::
      ParagraphChunks(paragraphs)[a].meta.ParagraphMeta? && ParagraphChunks(paragraphs)[b].meta.ParagraphMeta?
      && ParagraphChunks(paragraphs)[a].meta.paragraphIndex < ParagraphChunks(paragraphs)[b].meta.paragraphIndex
  {
    if paragraphs != [] {
      var i := |paragraphs| - 1;
      var init := paragraphs[..i];
      var p := paragraphs[i];
      ParagraphChunksShape(init);
      var rest := ParagraphChunks(init);
      var extra := if Substantial(p) then [Chunk(p.text, ParagraphMeta(i, p.page, p.confidence))] else [];
      var r := ParagraphChunks(paragraphs);
      assert r == rest + extra;
      if Substantial(p) {
        assert SubstantialPositions(paragraphs) == SubstantialPositions(init) + {i};
      } else {
        assert SubstantialPositions(paragraphs) == SubstantialPositions(init);
      }
      forall c | c in r
        ensures c.meta.ParagraphMeta? && c.meta.paragraphIndex < |paragraphs|
        ensures Substantial(paragraphs[c.meta.paragraphIndex])
        ensures c == Chunk(paragraphs[c.meta.paragraphIndex].text,
                    ParagraphMeta(c.meta.paragraphIndex, paragraphs[c.meta.paragraphIndex].page, paragraphs[c.meta.paragraphIndex].confidence))
      {
        if c in rest {
          assert init[c.meta.paragraphIndex] == paragraphs[c.meta.paragraphIndex];
        } else {
          assert c == extra[0];
        }
      }
      forall a, b | 0 <= a < b < |r|
        ensures r[a].meta.ParagraphMeta? && r[b].meta.ParagraphMeta?
        ensures r[a].meta.paragraphIndex < r[b].meta.paragraphIndex
      {
        assert r[a] == rest[a] && r[a] in rest;
        if b >= |rest| {
          assert r[b] == extra[0];
        } else {
          assert r[b] == rest[b];
        }
      }
    }
  }

  /**
   * The chunk list: the document chunk first (its text the first 2000
   * characters, its metadata the full length), one clause chunk per clause
   * in order, then one chunk per substantial paragraph among the first ten.
   */
  lemma TextChunksShape(rawText: string, paragraphs: seq<Paragraph>, clauses: seq<ClauseAnalysis>)
    ensures |TextChunks(rawText, paragraphs, clauses)|
      == 1 + |clauses| + |SubstantialPositions(Prefix(paragraphs, MaxParagraphs))|
    ensures TextChunks(rawText, paragraphs, clauses)[0] == Chunk(Prefix(rawText, 2000), DocumentMeta(|rawText|))
    ensures forall k | 0 <= k < |clauses| :: TextChunks(rawText, paragraphs, clauses)[1 + k] == ClauseChunk(clauses[k])
    ensures forall c | c in TextChunks(rawText, paragraphs, clauses)[1 + |clauses|..] ::
      c.meta.ParagraphMeta? && c.meta.paragraphIndex < MaxParagraphs && |c.text| > MinParagraphLength
  {
    ClauseChunksShape(clauses);
    var firstTen := Prefix(paragraphs, MaxParagraphs);
    ParagraphChunksShape(firstTen);
    var chunks := TextChunks(rawText, paragraphs, clauses);
    assert chunks[1 + |clauses|..] == ParagraphChunks(firstTen);
    forall k | 0 <= k < |clauses| ensures chunks[1 + k] == ClauseChunk(clauses[k]) {
      assert chunks[1 + k] == ClauseChunks(clauses)[k];
    }
  }

  // ---------------------------------------------------------------------
  // Embedding records
  // ---------------------------------------------------------------------

  /** One record of the embeddings collection. */
  datatype EmbeddingRecord = EmbeddingRecord(
    chunkId: string,
    documentId: string,
    text: string,
    meta: ChunkMeta,
    embedding: seq<real>)

  /** The identifier of chunk `i` of a document: `<document_id>_chunk_<i>`. */
  function ChunkId(documentId: string, i: nat): (r: string)
    ensures IsPrefix(documentId + "_chunk_", r)
  {
    documentId + "_chunk_" + NatToString(i)
  }

  /** A chunk identifier determines both the document and the position. */
  lemma ChunkIdInjective(d1: string, i: nat, d2: string, j: nat)
    requires ChunkId(d1, i) == ChunkId(d2, j)
    ensures d1 == d2 && i == j
  {
    var s := ChunkId(d1, i);
    var n1 := NatToString(i);
    var n2 := NatToString(j);
    assert s[|s| - |n1|..] == n1;
    assert s[|s| - |n2|..] == n2;
    assert s[|s| - |n1| - 1] == '_';
    assert ChunkId(d2, j)[|s| - |n2| - 1] == '_';
    assert |n1| == |n2|;
    assert n1 == n2;
    NatToStringInjective(i, j);
    assert s[..|d1|] == d1;
    assert s[..|d2|] == d2;
  }

  /** The embedding engine's outcome for chunk `i`: a vector, or None when the call raised or gave nothing. */
  function OutcomeAt(outcomes: seq<Option<seq<real>>>, i: nat): Option<seq<real>> {
    if i < |outcomes| then outcomes[i] else None
  }

  /** The records of the first `n` chunks whose embedding succeeded; a failed chunk is skipped. */
  function EmbeddedPrefix(documentId: string, chunks: seq<Chunk>, outcomes: seq<Option<seq<real>>>, n: nat): seq<EmbeddingRecord>
    requires n <= |chunks|
  {
    if n == 0 then []
    else
      var i := n - 1;
      EmbeddedPrefix(documentId, chunks, outcomes, i)
        + match OutcomeAt(outcomes, i)
          case None => []
          case Some(vector) => [EmbeddingRecord(ChunkId(documentId, i), documentId, chunks[i].text, chunks[i].meta, vector)]
  }

  function Embedded(documentId: string, chunks: seq<Chunk>, outcomes: seq<Option<seq<real>>>): seq<EmbeddingRecord> {
    EmbeddedPrefix(documentId, chunks, outcomes, |chunks|)
  }

  /** The embedding loop of `create_knowledge_base`: one record per chunk whose embedding succeeded. */
  method EmbedChunks(documentId: string, chunks: seq<Chunk>, outcomes: seq<Option<seq<real>>>) returns (records: seq<EmbeddingRecord>)
    ensures records == Embedded(documentId, chunks, outcomes)
  {
    records := [];
    var i := 0;
    while i < |chunks|
      invariant 0 <= i <= |chunks|
      invariant records == EmbeddedPrefix(documentId, chunks, outcomes, i)
    {
      var outcome := OutcomeAt(outcomes, i);
      if outcome.Some? {
        records := records + [EmbeddingRecord(ChunkId(documentId, i), documentId, chunks[i].text, chunks[i].meta, outcome.value)];
      }
      i := i + 1;
    }
  }

  /**
   * Each record belongs to the document and comes from a chunk whose
   * embedding succeeded, under that chunk's identifier, and there are at
   * most as many records as chunks.
   */
  lemma {:induction false} EmbeddedShape(documentId: string, chunks: seq<Chunk>, outcomes: seq<Option<seq<real>>>, n: nat)
    requires n <= |chunks|
    ensures |EmbeddedPrefix(documentId, chunks, outcomes, n)| <= n
    ensures forall r | r in EmbeddedPrefix(documentId, chunks, outcomes, n) ::
      exists i | 0 <= i < n :: OutcomeAt(outcomes, i).Some?
        && r == EmbeddingRecord(ChunkId(documentId, i), documentId, chunks[i].text, chunks[i].meta, OutcomeAt(outcomes, i).value)
    ensures forall r | r in EmbeddedPrefix(documentId, chunks, outcomes, n) ::
      exists i | 0 <= i < n :: r.chunkId == ChunkId(documentId, i)
  {
    if n > 0 {
      var i := n - 1;
      EmbeddedShape(documentId, chunks, outcomes, i);
      var rest := EmbeddedPrefix(documentId, chunks, outcomes, i);
      var all := EmbeddedPrefix(documentId, chunks, outcomes, n);
      if OutcomeAt(outcomes, i).Some? {
        var last := EmbeddingRecord(ChunkId(documentId, i), documentId, chunks[i].text, chunks[i].meta, OutcomeAt(outcomes, i).value);
        assert all == rest + [last];
        forall r | r in all
          ensures exists j | 0 <= j < n ::
            OutcomeAt(outcomes, j).Some?
            && r == EmbeddingRecord(ChunkId(documentId, j), documentId, chunks[j].text, chunks[j].meta, OutcomeAt(outcomes, j).value)
          ensures exists j | 0 <= j < n :: r.chunkId == ChunkId(documentId, j)
        {
          if r !in rest {
            assert r == last;
          }
        }
      } else {
        assert all == rest;
      }
    }
  }

  /** The identifiers of the records are pairwise distinct. */
  lemma {:induction false} EmbeddedIdsDistinct(documentId: string, chunks: seq<Chunk>, outcomes: seq<Option<seq<real>>>, n: nat)
    requires n <= |chunks|
    ensures forall a, b | 0 <= a < b < |EmbeddedPrefix(documentId, chunks, outcomes, n)| ::
      EmbeddedPrefix(documentId, chunks, outcomes, n)[a].chunkId != EmbeddedPrefix(documentId, chunks, outcomes, n)[b].chunkId
  {
    if n > 0 {
      var i := n - 1;
      EmbeddedIdsDistinct(documentId, chunks, outcomes, i);
      var rest := EmbeddedPrefix(documentId, chunks, outcomes, i);
      var all := EmbeddedPrefix(documentId, chunks, outcomes, n);
      if OutcomeAt(outcomes, i).Some? {
        EmbeddedShape(documentId, chunks, outcomes, i);
        var last := EmbeddingRecord(ChunkId(documentId, i), documentId, chunks[i].text, chunks[i].meta, OutcomeAt(outcomes, i).value);
        assert all == rest + [last];
        assert all[|rest|] == last;
        forall a | 0 <= a < |rest| ensures rest[a].chunkId != last.chunkId {
          assert rest[a] in rest;
          var j :| 0 <= j < i && rest[a].chunkId == ChunkId(documentId, j);
          if rest[a].chunkId == last.chunkId {
            ChunkIdInjective(documentId, j, documentId, i);
          }
        }
      } else {
        assert all == rest;
      }
    }
  }

  // ---------------------------------------------------------------------
  // Similarity
  // ---------------------------------------------------------------------

  function Dot(a: seq<real>, b: seq<real>): real
    requires |a| == |b|
  {
    if a == [] then 0.0 else Dot(a[..|a| - 1], b[..|b| - 1]) + a[|a| - 1] * b[|b| - 1]
  }

  /**
   * The ranking key of `calculate_cosine_similarity`: the cosine c of the
   * two vectors is represented by c·|c| = dot·|dot| / (|a|²·|b|²), which
   * orders vectors exactly as c does and needs no square root. Vectors of
   * different lengths (where the code's dot product raises) and a zero
   * vector give 0.
   */
  function SimilarityKey(a: seq<real>, b: seq<real>): real {
    if |a| != |b| then 0.0 else CosineKey(Dot(a, b), Dot(a, a), Dot(b, b))
  }

  /** The key from the dot product `d` and the squared norms `na` and `nb`. */
  function CosineKey(d: real, na: real, nb: real): real {
    if na == 0.0 || nb == 0.0 then 0.0
    else (if d >= 0.0 then d * d else -(d * d)) / (na * nb)
  }

  lemma {:induction false} DotSymmetric(a: seq<real>, b: seq<real>)
    requires |a| == |b|
    ensures Dot(a, b) == Dot(b, a)
  {
    if a != [] {
      DotSymmetric(a[..|a| - 1], b[..|b| - 1]);
    }
  }

  /**
   * The key is symmetric, and it is 0 for vectors of different lengths or
   * when either vector is zero.
   */
  lemma SimilarityKeyProperties(a: seq<real>, b: seq<real>)
    ensures SimilarityKey(a, b) == SimilarityKey(b, a)
    ensures |a| != |b| ==> SimilarityKey(a, b) == 0.0
    ensures |a| == |b| && (Dot(a, a) == 0.0 || Dot(b, b) == 0.0) ==> SimilarityKey(a, b) == 0.0
  {
    if |a| == |b| {
      DotSymmetric(a, b);
      var d, na, nb := Dot(a, b), Dot(a, a), Dot(b, b);
      if na != 0.0 && nb != 0.0 {
        assert na * nb == nb * na;
        assert CosineKey(d, na, nb) == CosineKey(d, nb, na);
      }
    }
  }

  // ---------------------------------------------------------------------
  // Knowledge-base search
  // ---------------------------------------------------------------------

  /** One search result; `similarity` is the ranking key of the stored vector against the query. */
  datatype SearchHit = SearchHit(chunkId: string, text: string, chunkType: string, meta: ChunkMeta, similarity: real)

  function HitSimilarity(h: SearchHit): real {
    h.similarity
  }

  function HitOf(query: seq<real>, r: EmbeddingRecord): SearchHit {
    SearchHit(r.chunkId, r.text, ChunkType(r.meta), r.meta, SimilarityKey(query, r.embedding))
  }

  /** One hit per streamed record with a non-empty vector, in stream order. */
  function Scored(query: seq<real>, stream: seq<EmbeddingRecord>): seq<SearchHit> {
    if stream == [] then []
    else
      var r := stream[|stream| - 1];
      Scored(query, stream[..|stream| - 1]) + (if r.embedding != [] then [HitOf(query, r)] else [])
  }

  /** The results of a search: the scored records sorted by similarity, cut to `limit`, and how many were scored. */
  function SearchRanking(query: seq<real>, stream: seq<EmbeddingRecord>, limit: int): (seq<SearchHit>, nat) {
    var scored := Scored(query, stream);
    (Prefix(SortDesc(scored, HitSimilarity), limit), |scored|)
  }

  /** The search loop over the streamed records, then the sort and the cut. */
  method RankRecords(query: seq<real>, stream: seq<EmbeddingRecord>, limit: int) returns (hits: seq<SearchHit>, totalSearched: nat)
    ensures (hits, totalSearched) == SearchRanking(query, stream, limit)
  {
    var results: seq<SearchHit> := [];
    var i := 0;
    while i < |stream|
      invariant 0 <= i <= |stream|
      invariant results == Scored(query, stream[..i])
    {
      assert stream[..i + 1][..i] == stream[..i];
      var r := stream[i];
      if r.embedding != [] {
        results := results + [HitOf(query, r)];
      }
      i := i + 1;
    }
    assert stream[..i] == stream;
    var sorted := SortDesc(results, HitSimilarity);
    hits := Prefix(sorted, limit);
    totalSearched := |results|;
  }

  /** Every scored hit comes from a streamed record with a non-empty vector, and every such record is scored. */
  lemma {:induction false} ScoredShape(query: seq<real>, stream: seq<EmbeddingRecord>)
    ensures |Scored(query, stream)| <= |stream|
    ensures forall h | h in Scored(query, stream) :: exists r | r in stream :: r.embedding != [] && h == HitOf(query, r)
    ensures forall r | r in stream && r.embedding != [] :: HitOf(query, r) in Scored(query, stream)
  {
    if stream != [] {
      var init := stream[..|stream| - 1];
      var last := stream[|stream| - 1];
      ScoredShape(query, init);
      assert stream == init + [last];
      forall h | h in Scored(query, stream) ensures exists r | r in stream :: r.embedding != [] && h == HitOf(query, r) {
        if h in Scored(query, init) {
          var r :| r in init && r.embedding != [] && h == HitOf(query, r);
          assert r in stream;
        } else {
          assert last in stream;
        }
      }
    }
  }

  /**
   * The search results are in non-increasing similarity order, hits of
   * equal similarity keep their stream order, there are at most `limit` of
   * them (when `limit` is not negative), each is a scored hit, and every
   * scored hit left out ranks no higher than the last one kept.
   */
  lemma SearchRankingProperties(query: seq<real>, stream: seq<EmbeddingRecord>, limit: int, v: real)
    ensures NonIncreasing(SearchRanking(query, stream, limit).0, HitSimilarity)
    ensures SearchRanking(query, stream, limit).1 == |Scored(query, stream)|
    ensures limit >= 0 ==> |SearchRanking(query, stream, limit).0| == if limit < |Scored(query, stream)| then limit else |Scored(query, stream)|
    ensures forall h | h in SearchRanking(query, stream, limit).0 :: h in Scored(query, stream)
    ensures IsPrefix(SearchRanking(query, stream, limit).0, SortDesc(Scored(query, stream), HitSimilarity))
    ensures WithKey(SortDesc(Scored(query, stream), HitSimilarity), HitSimilarity, v) == WithKey(Scored(query, stream), HitSimilarity, v)
  {
    var scored := Scored(query, stream);
    var sorted := SortDesc(scored, HitSimilarity);
    SortDescSorted(scored, HitSimilarity);
    SortDescStable(scored, HitSimilarity, v);
    var hits := SearchRanking(query, stream, limit).0;
    assert hits == sorted[..|hits|];
    forall h | h in hits ensures h in scored {
      assert h in sorted;
      assert h in multiset(sorted);
    }
  }

  // ---------------------------------------------------------------------
  // Mock legal corpus
  // ---------------------------------------------------------------------

  /** One legal reference; `relevance` is the relevance score times 100. */
  datatype LegalItem = LegalItem(title: string, link: string, source: string, relevance: nat)

  function Relevance(item: LegalItem): real {
    item.relevance as real
  }

  const TenantRights := "Tenant Rights - Security Deposits"
  const ContractTermination := "Contract Termination Rights"
  const LimitationOfLiability := "Limitation of Liability Clauses"
  const DataPrivacy := "Data Privacy Requirements"
  const EmploymentStandards := "Employment Contract Standards"

  /** The five mock entries in list order, scored by keyword tests on the lower-cased query. */
  function MockCorpus(query: string): seq<LegalItem> {
    var q := Lower(query);
    [
      LegalItem(TenantRights, "https://example.gov/tenant-rights#security-deposits", "State Housing Law",
        if Contains(q, "security deposit") then 95 else 30),
      LegalItem(ContractTermination, "https://example.gov/contract-law#termination", "Contract Law Statute",
        if Contains(q, "termination") then 90 else 40),
      LegalItem(LimitationOfLiability, "https://example.gov/contract-law#liability", "Civil Code Section 1668",
        if Contains(q, "liability") then 85 else 20),
      LegalItem(DataPrivacy, "https://example.gov/privacy-law", "Privacy Protection Act",
        if Contains(q, "data") || Contains(q, "privacy") then 90 else 30),
      LegalItem(EmploymentStandards, "https://example.gov/employment-law#non-compete", "Labor Code",
        if Contains(q, "employment") || Contains(q, "non-compete") then 80 else 25)
    ]
  }

  /** `get_mock_legal_knowledge`: the entries sorted by relevance, the first three kept. */
  function MockLegalKnowledge(query: string): seq<LegalItem> {
    Prefix(SortDesc(MockCorpus(query), Relevance), 3)
  }

  /** The first `n` of a sorted list without duplicates: `n` distinct elements of the list, in non-increasing order. */
  lemma SortedPrefixShape<T>(s: seq<T>, key: T -> real, n: nat)
    requires NoDuplicates(s)
    requires n <= |s|
    ensures |Prefix(SortDesc(s, key), n)| == n
    ensures forall x | x in Prefix(SortDesc(s, key), n) :: x in s
    ensures NonIncreasing(Prefix(SortDesc(s, key), n), key)
    ensures NoDuplicates(Prefix(SortDesc(s, key), n))
  {
    var sorted := SortDesc(s, key);
    SortDescSorted(s, key);
    PermutationNoDuplicates(s, sorted);
    var top := Prefix(sorted, n);
    assert top == sorted[..n];
    forall x | x in top ensures x in s {
      assert x in sorted;
      assert x in multiset(sorted);
    }
    assert forall i | 0 <= i < n :: top[i] == sorted[i];
  }

  /** The mock search returns exactly three distinct entries of the corpus, in non-increasing relevance. */
  lemma MockLegalKnowledgeShape(query: string)
    ensures |MockLegalKnowledge(query)| == 3
    ensures forall item | item in MockLegalKnowledge(query) :: item in MockCorpus(query)
    ensures NonIncreasing(MockLegalKnowledge(query), Relevance)
    ensures NoDuplicates(MockLegalKnowledge(query))
  {
    MockCorpusDistinct(query);
    SortedPrefixShape(MockCorpus(query), Relevance, 3);
  }

  /** The five entries carry pairwise distinct titles. */
  lemma MockCorpusDistinct(query: string)
    ensures |MockCorpus(query)| == 5
    ensures NoDuplicates(MockCorpus(query))
  {
    var c := MockCorpus(query);
    assert forall i | 0 <= i < 5 :: c[i].title == [TenantRights, ContractTermination, LimitationOfLiability, DataPrivacy, EmploymentStandards][i];
  }

  /** A permutation of a list without duplicates has none either. */
  lemma PermutationNoDuplicates<T>(a: seq<T>, b: seq<T>)
    requires NoDuplicates(a)
    requires multiset(a) == multiset(b)
    ensures NoDuplicates(b)
  {
    forall i, j | 0 <= i < j < |b| ensures b[i] != b[j] {
      if b[i] == b[j] {
        var x := b[i];
        assert multiset(b)[x] >= 2 by {
          assert b == b[..i] + [x] + b[i + 1..j] + [x] + b[j + 1..];
        }
        CountAtMostOne(a, x);
      }
    }
  }

  /** In a list without duplicates every element occurs at most once. */
  lemma {:induction false} CountAtMostOne<T>(a: seq<T>, x: T)
    requires NoDuplicates(a)
    ensures multiset(a)[x] <= 1
  {
    if a != [] {
      var init := a[..|a| - 1];
      CountAtMostOne(init, x);
      assert a == init + [a[|a| - 1]];
      if init != [] && a[|a| - 1] == x {
        assert x !in init;
      }
    }
  }

  /** The first entry of a sorted list has the largest key. */
  lemma SortedFirstIsMax<T>(s: seq<T>, key: T -> real, x: T)
    requires x in s
    ensures key(SortDesc(s, key)[0]) >= key(x)
  {
    var sorted := SortDesc(s, key);
    SortDescSorted(s, key);
    assert x in multiset(sorted);
    var k :| 0 <= k < |sorted| && sorted[k] == x;
  }

  /** An element whose key exceeds every other key comes first after sorting. */
  lemma UniqueMaxFirst<T>(s: seq<T>, key: T -> real, i: nat)
    requires i < |s|
    requires forall j | 0 <= j < |s| && j != i :: key(s[j]) < key(s[i])
    ensures SortDesc(s, key)[0] == s[i]
  {
    SortedFirstIsMax(s, key, s[i]);
    var first := SortDesc(s, key)[0];
    assert first in multiset(SortDesc(s, key));
    var j :| 0 <= j < |s| && s[j] == first;
  }

  /** Of five elements, one whose key exceeds the four others comes first after sorting. */
  lemma FirstOfFive<T>(s: seq<T>, key: T -> real)
    requires |s| == 5
    requires key(s[1]) < key(s[0]) && key(s[2]) < key(s[0]) && key(s[3]) < key(s[0]) && key(s[4]) < key(s[0])
    ensures SortDesc(s, key)[0] == s[0]
  {
    UniqueMaxFirst(s, key, 0);
  }

  /** A query mentioning a security deposit puts the tenant-rights entry first. */
  lemma SecurityDepositFirst(query: string)
    requires Contains(Lower(query), "security deposit")
    ensures MockLegalKnowledge(query)[0].title == TenantRights
  {
    var c := MockCorpus(query);
    assert |c| == 5;
    assert Relevance(c[0]) == 95.0;
    assert Relevance(c[1]) <= 90.0 && Relevance(c[2]) <= 85.0 && Relevance(c[3]) <= 90.0 && Relevance(c[4]) <= 80.0;
    FirstOfFive(c, Relevance);
    var sorted := SortDesc(c, Relevance);
    assert MockLegalKnowledge(query) == sorted[..3];
  }

  /** The stable sort of five entries scored 30, 40, 20, 30, 25, in that order. */
  lemma NoKeywordOrder<T>(c: seq<T>, key: T -> real)
    requires |c| == 5
    requires key(c[0]) == 30.0 && key(c[1]) == 40.0 && key(c[2]) == 20.0 && key(c[3]) == 30.0 && key(c[4]) == 25.0
    ensures SortDesc(c, key) == [c[1], c[0], c[3], c[4], c[2]]
  {
    assert c[..4][..3][..2][..1] == [c[0]];
    assert c[..4][..3][..2] == [c[0], c[1]];
    assert c[..4][..3] == [c[0], c[1], c[2]];
    assert c[..4] == [c[0], c[1], c[2], c[3]];
    var s1 := SortDesc([c[0]], key);
    assert s1 == [c[0]];
    var s2 := SortDesc([c[0], c[1]], key);
    assert s2 == [c[1], c[0]];
    var s3 := SortDesc([c[0], c[1], c[2]], key);
    assert s3 == InsertDesc(s2, c[2], key) == [c[1], c[0], c[2]];
    var s4 := SortDesc([c[0], c[1], c[2], c[3]], key);
    assert s4 == InsertDesc(s3, c[3], key);
    assert InsertDesc([c[1], c[0]], c[3], key) == [c[1], c[0], c[3]];
    assert s4 == [c[1], c[0], c[3], c[2]];
    var s5 := SortDesc(c, key);
    assert s5 == InsertDesc(s4, c[4], key);
    assert InsertDesc([c[1], c[0], c[3]], c[4], key) == [c[1], c[0], c[3], c[4]];
  }

  /** With no keyword in the query, the entries come out as termination, tenant rights, data privacy. */
  lemma NoKeywordRanking(query: string)
    requires !Contains(Lower(query), "security deposit") && !Contains(Lower(query), "termination")
    requires !Contains(Lower(query), "liability") && !Contains(Lower(query), "data") && !Contains(Lower(query), "privacy")
    requires !Contains(Lower(query), "employment") && !Contains(Lower(query), "non-compete")
    ensures |MockLegalKnowledge(query)| == 3
    ensures MockLegalKnowledge(query)[0].title == ContractTermination
    ensures MockLegalKnowledge(query)[1].title == TenantRights
    ensures MockLegalKnowledge(query)[2].title == DataPrivacy
  {
    var c := MockCorpus(query);
    assert |c| == 5;
    assert Relevance(c[0]) == 30.0 && Relevance(c[1]) == 40.0 && Relevance(c[2]) == 20.0;
    assert Relevance(c[3]) == 30.0 && Relevance(c[4]) == 25.0;
    NoKeywordOrder(c, Relevance);
    var sorted := SortDesc(c, Relevance);
    var top := MockLegalKnowledge(query);
    assert top == sorted[..3];
    assert top[0] == c[1] && top[1] == c[0] && top[2] == c[3];
  }
}

/**
 * Question answering: the source list, citations and confidence of an
 * answer, its two fallbacks, the gating of the retrieved context, and the
 * suggested questions for a document.
 */
module Qa {
  import opened Wrappers
  import opened Text
  import opened Models
  import opened Rag

  // ---------------------------------------------------------------------
  // Context
  // ---------------------------------------------------------------------

  /** A legal reference handed to the answer generator; `source` and `link` may be absent. */
  datatype LegalRef = LegalRef(title: string, source: Option<string>, link: Option<string>)

  /** A mock-corpus entry as a legal reference. */
  function RefOf(item: LegalItem): LegalRef {
    LegalRef(item.title, Some(item.source), Some(item.link))
  }

  function RefsOf(items: seq<LegalItem>): (r: seq<LegalRef>)
    ensures |r| == |items|
    ensures forall k | 0 <= k < |items| :: r[k] == RefOf(items[k])
  {
    if items == [] then [] else [RefOf(items[0])] + RefsOf(items[1..])
  }

  /**
   * The document context of `answer_question`: the knowledge-base search
   * results when the knowledge base exists and the search returned, and
   * nothing otherwise (a raising search is ignored).
   */
  function DocumentContext(knowledgeBaseCreated: bool, search: Reply<seq<SearchHit>>): (r: seq<SearchHit>)
    ensures !knowledgeBaseCreated ==> r == []
    ensures search.Raised? ==> r == []
    ensures knowledgeBaseCreated && search.Returned? ==> r == search.value
  {
    if knowledgeBaseCreated && search.Returned? then search.value else []
  }

  /** Results asked of the knowledge-base search for a question. */
  const DocumentContextLimit: int := 3

  /** Results asked of the legal corpus for a question; the mock corpus ignores it. */
  const LegalContextLimit: int := 2

  /** The document type named in the answer when the record has none. */
  const DefaultAnswerDocumentType := "legal document"

  // ---------------------------------------------------------------------
  // Sources
  // ---------------------------------------------------------------------

  /** One entry of an answer's source list; a document section's similarity is shown to two decimals. */
  datatype Source =
    | ClauseSource(clauseType: string)
    | SectionSource(similarity: real)
    | LegalSource(title: string)

  /** The clause type carried by a chunk's metadata, if any. */
  function MetaClauseType(meta: ChunkMeta): Option<string> {
    if meta.ClauseMeta? then Some(meta.clauseType) else None
  }

  /** The source entry of one document-context hit. */
  function HitSource(h: SearchHit): (r: Source)
    ensures h.chunkType == "clause" ==> r == ClauseSource(MetaClauseType(h.meta).GetOr("Unknown"))
    ensures h.chunkType != "clause" ==> r == SectionSource(h.similarity)
  {
    if h.chunkType == "clause" then ClauseSource(MetaClauseType(h.meta).GetOr("Unknown")) else SectionSource(h.similarity)
  }

  function DocumentSources(context: seq<SearchHit>): seq<Source> {
    if context == [] then [] else DocumentSources(context[..|context| - 1]) + [HitSource(context[|context| - 1])]
  }

  function LegalSources(legal: seq<LegalRef>): seq<Source> {
    if legal == [] then [] else LegalSources(legal[..|legal| - 1]) + [LegalSource(legal[|legal| - 1].title)]
  }

  /** The full source list: one entry per document hit, then one per legal reference. */
  function Sources(context: seq<SearchHit>, legal: seq<LegalRef>): seq<Source> {
    DocumentSources(context) + LegalSources(legal)
  }

  /** The two source loops of `generate_answer`. */
  method BuildSources(context: seq<SearchHit>, legal: seq<LegalRef>) returns (sources: seq<Source>)
    ensures sources == Sources(context, legal)
  {
    sources := [];
    var i := 0;
    while i < |context|
      invariant 0 <= i <= |context|
      invariant sources == DocumentSources(context[..i])
    {
      assert context[..i + 1][..i] == context[..i];
      var ctx := context[i];
      if ctx.chunkType == "clause" {
        sources := sources + [ClauseSource(MetaClauseType(ctx.meta).GetOr("Unknown"))];
      } else {
        sources := sources + [SectionSource(ctx.similarity)];
      }
      i := i + 1;
    }
    assert context[..i] == context;
    var j := 0;
    while j < |legal|
      invariant 0 <= j <= |legal|
      invariant sources == DocumentSources(context) + LegalSources(legal[..j])
    {
      assert legal[..j + 1][..j] == legal[..j];
      sources := sources + [LegalSource(legal[j].title)];
      j := j + 1;
    }
    assert legal[..j] == legal;
  }

  lemma {:induction false} DocumentSourcesShape(context: seq<SearchHit>)
    ensures |DocumentSources(context)| == |context|
    ensures forall k | 0 <= k < |context| :: DocumentSources(context)[k] == HitSource(context[k])
  {
    if context != [] {
      var init := context[..|context| - 1];
      DocumentSourcesShape(init);
      var prev := DocumentSources(init);
      var r := DocumentSources(context);
      var lastSource := HitSource(context[|context| - 1]);
      assert r == prev + [lastSource];
      forall k | 0 <= k < |context| ensures r[k] == HitSource(context[k]) {
        if k < |init| {
          assert r[k] == prev[k];
          assert init[k] == context[k];
        } else {
          assert k == |context| - 1;
          assert r[k] == lastSource;
        }
      }
    }
  }

  lemma {:induction false} LegalSourcesShape(legal: seq<LegalRef>)
    ensures |LegalSources(legal)| == |legal|
    ensures forall k | 0 <= k < |legal| :: LegalSources(legal)[k] == LegalSource(legal[k].title)
  {
    if legal != [] {
      var init := legal[..|legal| - 1];
      LegalSourcesShape(init);
      var prev := LegalSources(init);
      var r := LegalSources(legal);
      var lastSource := LegalSource(legal[|legal| - 1].title);
      assert r == prev + [lastSource];
      forall k | 0 <= k < |legal| ensures r[k] == LegalSource(legal[k].title) {
        if k < |init| {
          assert r[k] == prev[k];
          assert init[k] == legal[k];
        } else {
          assert k == |legal| - 1;
          assert r[k] == lastSource;
        }
      }
    }
  }

  /**
   * One source per document hit, in order, each a clause entry exactly when
   * the hit is a clause chunk; then one `Legal:` entry per legal reference,
   * so document sources always precede legal ones.
   */
  lemma SourcesShape(context: seq<SearchHit>, legal: seq<LegalRef>)
    ensures |Sources(context, legal)| == |context| + |legal|
    ensures forall k | 0 <= k < |context| ::
      Sources(context, legal)[k] == HitSource(context[k]) && !Sources(context, legal)[k].LegalSource?
    ensures forall k | 0 <= k < |context| :: Sources(context, legal)[k].ClauseSource? <==> context[k].chunkType == "clause"
    ensures forall k | 0 <= k < |legal| :: Sources(context, legal)[|context| + k] == LegalSource(legal[k].title)
  {
    DocumentSourcesShape(context);
    LegalSourcesShape(legal);
  }

  // ---------------------------------------------------------------------
  // Citations
  // ---------------------------------------------------------------------

  function CitationOf(ref: LegalRef): Citation {
    Citation(ref.source.GetOr("Legal Reference"), ref.title, ref.link)
  }

  function Citations(legal: seq<LegalRef>): seq<Citation> {
    if legal == [] then [] else Citations(legal[..|legal| - 1]) + [CitationOf(legal[|legal| - 1])]
  }

  /** `create_citations`: one citation per legal reference, in order. */
  method CreateCitations(legal: seq<LegalRef>) returns (citations: seq<Citation>)
    ensures citations == Citations(legal)
  {
    citations := [];
    var i := 0;
    while i < |legal|
      invariant 0 <= i <= |legal|
      invariant citations == Citations(legal[..i])
    {
      assert legal[..i + 1][..i] == legal[..i];
      var ctx := legal[i];
      citations := citations + [Citation(ctx.source.GetOr("Legal Reference"), ctx.title, ctx.link)];
      i := i + 1;
    }
    assert legal[..i] == legal;
  }

  /**
   * One citation per reference, in order: its source is the reference's
   * source or "Legal Reference", its reference the title, its url the link
   * (absent when the link is).
   */
  lemma {:induction false} CitationsShape(legal: seq<LegalRef>)
    ensures |Citations(legal)| == |legal|
    ensures forall k | 0 <= k < |legal| ::
      Citations(legal)[k].reference == legal[k].title && Citations(legal)[k].url == legal[k].link
      && (legal[k].source.Some? ==> Citations(legal)[k].source == legal[k].source.value)
      && (legal[k].source.None? ==> Citations(legal)[k].source == "Legal Reference")
  {
    if legal != [] {
      var init := legal[..|legal| - 1];
      CitationsShape(init);
      assert forall k | 0 <= k < |init| :: init[k] == legal[k];
    }
  }

  // ---------------------------------------------------------------------
  // The answer
  // ---------------------------------------------------------------------

  /**
   * A field of the generator's parsed reply: absent, a JSON string, number,
   * boolean or array, or any other value (null, an object).
   */
  datatype Field = Absent | Text(text: string) | Number(number: real) | Bool(truth: bool) | List | OtherValue

  /**
   * The generator's reply: the call raised, the text was not JSON, the JSON
   * was not an object, or an object with its `answer` and `confidence`
   * fields.
   */
  datatype AnswerReply =
    | AnswerRaised
    | AnswerUnparsable
    | AnswerNotObject
    | AnswerParsed(answer: Field, confidence: Field)

  /**
   * The text of an answer: the generated text (or the default when the
   * reply had none) followed by the disclaimer, the fixed text of the
   * unparsable fallback, or the error fallback naming the document type.
   * `ListText` is the value left when the reply's `answer` was a JSON
   * array: `+=` extends the list by the disclaimer's characters, so the
   * answer is a list and not a string.
   */
  datatype AnswerText = Generated(body: string) | UnparsableText | ErrorText(documentType: string) | ListText

  datatype Answer = Answer(text: AnswerText, confidence: real, sources: seq<Source>, citations: seq<Citation>)

  const Disclaimer := "\n\n⚠️ This analysis is for educational purposes only and does not constitute legal advice. Please consult with a qualified attorney for legal decisions."
  const NoInformationAnswer := "I couldn't find relevant information in the document to answer your question."
  const UnparsableAnswer := "I found some relevant information in your document, but I'm having trouble providing a detailed analysis right now. Please try rephrasing your question or consult the document clauses directly.\n\n⚠️ This analysis is for educational purposes only and does not constitute legal advice."

  /** The string an answer text stands for; the error fallback shows the document type with '_' replaced by ' '. */
  function Render(t: AnswerText): string
    requires !t.ListText?
  {
    match t
    case Generated(body) => body + Disclaimer
    case UnparsableText => UnparsableAnswer
    case ErrorText(documentType) =>
      "I encountered an issue while analyzing your question. The document appears to be a " + ReplaceChar(documentType, '_', ' ')
        + ", but I cannot provide a specific answer at this time. Please review the document directly or consult with a legal professional.\n\n⚠️ This analysis is for educational purposes only and does not constitute legal advice."
  }

  /** A generated answer is shown as the model's text followed by the disclaimer. */
  lemma RenderGenerated(body: string)
    ensures |Render(Generated(body))| == |body| + |Disclaimer|
    ensures IsPrefix(body, Render(Generated(body)))
    ensures IsSuffix(Disclaimer, Render(Generated(body)))
  {
    var r := body + Disclaimer;
    assert r[..|body|] == body;
    assert r[|r| - |Disclaimer|..] == Disclaimer;
  }

  const MaxSources: int := 5
  const MaxFallbackSources: int := 3
  const DefaultConfidence: real := 0.5
  const UnparsableConfidence: real := 0.3
  const ErrorConfidence: real := 0.2

  /** `min(max(c, 0.0), 1.0)`. */
  function Clamp(c: real): (r: real)
    ensures 0.0 <= r <= 1.0
    ensures 0.0 <= c <= 1.0 ==> r == c
    ensures c < 0.0 ==> r == 0.0
    ensures c > 1.0 ==> r == 1.0
  {
    var low := if c > 0.0 then c else 0.0;
    if low < 1.0 then low else 1.0
  }

  /**
   * `float(result.get("confidence", 0.5))`: 0.5 when absent, the number,
   * 1.0 or 0.0 for a boolean; None where `float` raises (null, an array, an
   * object, and every string).
   */
  function ConfidenceValue(confidence: Field): (r: Option<real>)
    ensures r.Some? <==> confidence.Absent? || confidence.Number? || confidence.Bool?
  {
    match confidence
    case Absent => Some(DefaultConfidence)
    case Number(c) => Some(c)
    case Bool(b) => Some(if b then 1.0 else 0.0)
    case _ => None
  }

  /**
   * Whether `generate_answer` returns the generated answer: the confidence
   * converts, and `answer += disclaimer` does not raise, which holds for an
   * absent answer, a string and an array.
   */
  predicate Usable(answer: Field, confidence: Field) {
    (answer.Absent? || answer.Text? || answer.List?) && ConfidenceValue(confidence).Some?
  }

  /** The reply whose answer `generate_answer` returns as a list rather than a string. */
  predicate ListReply(reply: AnswerReply) {
    reply.AnswerParsed? && reply.answer.List? && Usable(reply.answer, reply.confidence)
  }

  /** The answer of `generate_answer`, given the source list it built and the generator's reply. */
  function AnswerFor(reply: AnswerReply, documentType: string, sources: seq<Source>, legal: seq<LegalRef>): Answer {
    match reply
    case AnswerUnparsable => Answer(UnparsableText, UnparsableConfidence, Prefix(sources, MaxFallbackSources), [])
    case AnswerParsed(answer, confidence) =>
      if Usable(answer, confidence) then
        var text := if answer.Text? then Generated(answer.text) else if answer.List? then ListText else Generated(NoInformationAnswer);
        Answer(text, Clamp(ConfidenceValue(confidence).value), Prefix(sources, MaxSources), Citations(legal))
      else Answer(ErrorText(documentType), ErrorConfidence, [], [])
    case _ => Answer(ErrorText(documentType), ErrorConfidence, [], [])
  }

  /** `generate_answer`: build the sources, then interpret the reply. */
  method GenerateAnswer(documentType: string, context: seq<SearchHit>, legal: seq<LegalRef>, reply: AnswerReply) returns (result: Answer)
    ensures result == AnswerFor(reply, documentType, Sources(context, legal), legal)
  {
    var sources := BuildSources(context, legal);
    match reply {
      case AnswerUnparsable =>
        result := Answer(UnparsableText, UnparsableConfidence, Prefix(sources, MaxFallbackSources), []);
      case AnswerParsed(answer, confidence) =>
        var c := ConfidenceValue(confidence);
        if c.Some? && (answer.Absent? || answer.Text? || answer.List?) {
          var text := if answer.Text? then Generated(answer.text) else if answer.List? then ListText else Generated(NoInformationAnswer);
          var citations := CreateCitations(legal);
          result := Answer(text, Clamp(c.value), Prefix(sources, MaxSources), citations);
        } else {
          result := Answer(ErrorText(documentType), ErrorConfidence, [], []);
        }
      case _ =>
        result := Answer(ErrorText(documentType), ErrorConfidence, [], []);
    }
  }

  /**
   * Every answer has a confidence in [0, 1] and at most five sources, each
   * a prefix of the full source list. A usable parsed reply keeps the first
   * five sources and cites every legal reference; its text is the generated
   * one ending with the disclaimer, unless the reply's answer was an array,
   * which leaves a list. An unparsable reply gives 0.3, the first three
   * sources and no citation; any other failure gives 0.2 and neither
   * sources nor citations.
   */
  lemma AnswerProperties(reply: AnswerReply, documentType: string, context: seq<SearchHit>, legal: seq<LegalRef>)
    ensures 0.0 <= AnswerFor(reply, documentType, Sources(context, legal), legal).confidence <= 1.0
    ensures |AnswerFor(reply, documentType, Sources(context, legal), legal).sources| <= MaxSources
    ensures IsPrefix(AnswerFor(reply, documentType, Sources(context, legal), legal).sources, Sources(context, legal))
    ensures AnswerFor(reply, documentType, Sources(context, legal), legal).text.ListText? <==> ListReply(reply)
    ensures reply.AnswerParsed? && Usable(reply.answer, reply.confidence) ==> (
      var a := AnswerFor(reply, documentType, Sources(context, legal), legal);
      && a.confidence == Clamp(ConfidenceValue(reply.confidence).value)
      && (!reply.answer.List? ==> a.text.Generated? && IsSuffix(Disclaimer, Render(a.text)))
      && (reply.answer.Text? ==> a.text.body == reply.answer.text)
      && (reply.answer.Absent? ==> a.text.body == NoInformationAnswer)
      && a.sources == Prefix(Sources(context, legal), MaxSources)
      && a.citations == Citations(legal)
      && |a.citations| == |legal|)
    ensures reply.AnswerUnparsable? ==> (
      var a := AnswerFor(reply, documentType, Sources(context, legal), legal);
      && a.text == UnparsableText
      && a.confidence == 0.3
      && a.sources == Prefix(Sources(context, legal), 3)
      && a.citations == [])
    ensures (reply.AnswerRaised? || reply.AnswerNotObject? || (reply.AnswerParsed? && !Usable(reply.answer, reply.confidence))) ==> (
      var a := AnswerFor(reply, documentType, Sources(context, legal), legal);
      && a.text == ErrorText(documentType)
      && a.confidence == 0.2
      && a.sources == []
      && a.citations == [])
  {
    CitationsShape(legal);
    var a := AnswerFor(reply, documentType, Sources(context, legal), legal);
    if a.text.Generated? {
      RenderGenerated(a.text.body);
    }
  }

  /**
   * The reported confidence is the given one when it lies in [0, 1], 0.5
   * when none is given, 1 above 1 and 0 below 0; a boolean counts as 1 or 0,
   * and a string or null confidence gives the error fallback's 0.2.
   */
  lemma ConfidenceChoice(answer: Field, c: real, t: string, documentType: string, sources: seq<Source>, legal: seq<LegalRef>)
    requires answer.Absent? || answer.Text? || answer.List?
    ensures 0.0 <= c <= 1.0 ==> AnswerFor(AnswerParsed(answer, Number(c)), documentType, sources, legal).confidence == c
    ensures AnswerFor(AnswerParsed(answer, Absent), documentType, sources, legal).confidence == 0.5
    ensures c > 1.0 ==> AnswerFor(AnswerParsed(answer, Number(c)), documentType, sources, legal).confidence == 1.0
    ensures c < 0.0 ==> AnswerFor(AnswerParsed(answer, Number(c)), documentType, sources, legal).confidence == 0.0
    ensures AnswerFor(AnswerParsed(answer, Bool(true)), documentType, sources, legal).confidence == 1.0
    ensures AnswerFor(AnswerParsed(answer, Bool(false)), documentType, sources, legal).confidence == 0.0
    ensures AnswerFor(AnswerParsed(answer, Text(t)), documentType, sources, legal).confidence == 0.2
    ensures AnswerFor(AnswerParsed(answer, OtherValue), documentType, sources, legal).confidence == 0.2
  {
  }

  // ---------------------------------------------------------------------
  // Suggested questions
  // ---------------------------------------------------------------------

  const BaseQuestions: seq<string> := [
    "What are my main obligations under this contract?",
    "What happens if I want to terminate this agreement early?",
    "What fees or penalties might I be charged?",
    "What are the biggest risks I should be aware of?",
    "How can I protect myself when signing this?"
  ]

  const RentalQuestions: seq<string> := [
    "What happens if I miss a rent payment?",
    "Can my landlord increase the rent?",
    "What is my security deposit used for?",
    "Who is responsible for repairs and maintenance?",
    "How much notice do I need to give before moving out?"
  ]

  const LoanQuestions: seq<string> := [
    "What is my total cost of borrowing?",
    "What happens if I miss a payment?",
    "Can I pay off the loan early?",
    "What collateral am I putting at risk?",
    "What are the default consequences?"
  ]

  const EmploymentQuestions: seq<string> := [
    "What are my working hours and overtime rules?",
    "What benefits am I entitled to?",
    "Can I work for competitors after leaving?",
    "What intellectual property rights do I retain?",
    "How can my employment be terminated?"
  ]

  const TermsQuestions: seq<string> := [
    "What data do you collect about me?",
    "Can you change these terms without notice?",
    "What happens if I violate the terms?",
    "How do I delete my account and data?",
    "What are my rights in disputes?"
  ]

  /** The five questions specific to a document type; none for other types. */
  function TypeQuestions(documentType: string): seq<string> {
    match documentType
    case "rental_agreement" => RentalQuestions
    case "loan_contract" => LoanQuestions
    case "employment_contract" => EmploymentQuestions
    case "terms_of_service" => TermsQuestions
    case _ => []
  }

  predicate KnownQuestionType(documentType: string) {
    documentType in {"rental_agreement", "loan_contract", "employment_contract", "terms_of_service"}
  }

  const DepositQuestion := "When and how will I get my security deposit back?"
  const NonCompeteQuestion := "What jobs am I restricted from taking after this ends?"
  const DataSharingQuestion := "Who else will have access to my personal information?"
  const LiabilityQuestion := "What damages can I recover if something goes wrong?"

  /** The clause-triggered questions, in their fixed order, for the clause types present. */
  function ClauseQuestions(clauseTypes: seq<string>): seq<string> {
    (if "security_deposit" in clauseTypes then [DepositQuestion] else [])
      + (if "non_compete" in clauseTypes then [NonCompeteQuestion] else [])
      + (if "data_sharing" in clauseTypes then [DataSharingQuestion] else [])
      + (if "limitation_liability" in clauseTypes then [LiabilityQuestion] else [])
  }

  /** `list(dict.fromkeys(s))`: the first occurrence of each element, in order. */
  function Dedupe<T(==)>(s: seq<T>): (r: seq<T>)
    ensures NoDuplicates(r)
    ensures forall x | x in r :: x in s
    ensures forall x | x in s :: x in r
  {
    if s == [] then []
    else
      var init := Dedupe(s[..|s| - 1]);
      var x := s[|s| - 1];
      assert forall y | y in s :: y in s[..|s| - 1] || y == x;
      if x in init then init else init + [x]
  }

  /** A list without duplicates is its own deduplication. */
  lemma {:induction false} DedupeDistinct<T>(s: seq<T>)
    requires NoDuplicates(s)
    ensures Dedupe(s) == s
  {
    if s != [] {
      var init := s[..|s| - 1];
      assert NoDuplicates(init);
      DedupeDistinct(init);
      assert s[|s| - 1] !in init;
      assert init + [s[|s| - 1]] == s;
    }
  }

  /** Deduplication keeps a prefix without duplicates in front. */
  lemma {:induction false} DedupeKeepsPrefix<T>(p: seq<T>, q: seq<T>)
    requires NoDuplicates(p)
    ensures IsPrefix(p, Dedupe(p + q))
  {
    if q == [] {
      assert p + q == p;
      DedupeDistinct(p);
    } else {
      var q0 := q[..|q| - 1];
      DedupeKeepsPrefix(p, q0);
      assert (p + q)[..|p + q| - 1] == p + q0;
    }
  }

  /** The questions for a document type and the clause types found in it. */
  function SuggestedQuestions(documentType: string, clauseTypes: seq<string>): seq<string> {
    Prefix(Dedupe(BaseQuestions + TypeQuestions(documentType) + ClauseQuestions(clauseTypes)), 8)
  }

  /** `generate_suggested_questions`: the conditional appends, then the deduplication and the cap. */
  method SuggestQuestions(documentType: string, clauseTypes: seq<string>) returns (questions: seq<string>)
    ensures questions == SuggestedQuestions(documentType, clauseTypes)
  {
    var all := BaseQuestions + TypeQuestions(documentType);
    ghost var before := all;
    if "security_deposit" in clauseTypes {
      all := all + [DepositQuestion];
    }
    if "non_compete" in clauseTypes {
      all := all + [NonCompeteQuestion];
    }
    if "data_sharing" in clauseTypes {
      all := all + [DataSharingQuestion];
    }
    if "limitation_liability" in clauseTypes {
      all := all + [LiabilityQuestion];
    }
    assert all == before + ClauseQuestions(clauseTypes);
    questions := Prefix(Dedupe(all), 8);
  }

  lemma BaseQuestionLengths()
    ensures |BaseQuestions| == 5
    ensures |BaseQuestions[0]| == 49 && |BaseQuestions[1]| == 57 && |BaseQuestions[2]| == 42
    ensures |BaseQuestions[3]| == 48 && |BaseQuestions[4]| == 43
  {
  }

  lemma BaseQuestionsDistinct()
    ensures NoDuplicates(BaseQuestions)
  {
    var lens := [49, 57, 42, 48, 43];
    assert forall k | 0 <= k < 5 :: |BaseQuestions[k]| == lens[k];
  }

  /** At most eight questions, no duplicates, and the five base questions first, in order. */
  lemma SuggestedQuestionsShape(documentType: string, clauseTypes: seq<string>)
    ensures |SuggestedQuestions(documentType, clauseTypes)| <= 8
    ensures NoDuplicates(SuggestedQuestions(documentType, clauseTypes))
    ensures |SuggestedQuestions(documentType, clauseTypes)| >= 5
    ensures SuggestedQuestions(documentType, clauseTypes)[..5] == BaseQuestions
  {
    var all := BaseQuestions + TypeQuestions(documentType) + ClauseQuestions(clauseTypes);
    BaseQuestionsDistinct();
    assert all == BaseQuestions + (TypeQuestions(documentType) + ClauseQuestions(clauseTypes));
    DedupeKeepsPrefix(BaseQuestions, TypeQuestions(documentType) + ClauseQuestions(clauseTypes));
    var d := Dedupe(all);
    var r := SuggestedQuestions(documentType, clauseTypes);
    assert r == d[..|r|];
    assert forall i, j | 0 <= i < j < |r| :: r[i] == d[i] && r[j] == d[j];
  }

  /** For the four known types: the base questions and the first three type questions; clause questions never appear. */
  lemma KnownTypeQuestions(documentType: string, clauseTypes: seq<string>)
    requires KnownQuestionType(documentType)
    ensures SuggestedQuestions(documentType, clauseTypes) == BaseQuestions + TypeQuestions(documentType)[..3]
  {
    var t := TypeQuestions(documentType);
    var typed := BaseQuestions + t;
    assert |t| == 5;
    KnownTypeDistinct(documentType);
    DedupeKeepsPrefix(typed, ClauseQuestions(clauseTypes));
    var d := Dedupe(typed + ClauseQuestions(clauseTypes));
    assert |d| >= 10 && d[..10] == typed;
    var r := SuggestedQuestions(documentType, clauseTypes);
    assert r == Prefix(d, 8);
    assert r == d[..8];
    assert d[..8] == typed[..8];
    assert typed[..8] == BaseQuestions + t[..3];
  }

  /** The ten base and type questions of a known type are pairwise distinct. */
  lemma KnownTypeDistinct(documentType: string)
    requires KnownQuestionType(documentType)
    ensures NoDuplicates(BaseQuestions + TypeQuestions(documentType))
  {
    if documentType == "rental_agreement" {
      RentalQuestionsDistinct();
    } else if documentType == "loan_contract" {
      LoanQuestionsDistinct();
    } else if documentType == "employment_contract" {
      EmploymentQuestionsDistinct();
    } else {
      TermsQuestionsDistinct();
    }
  }

  /** Appending an element not yet present keeps a list free of duplicates. */
  lemma NoDuplicatesSnoc<T>(s: seq<T>, x: T)
    requires NoDuplicates(s)
    requires x !in s
    ensures NoDuplicates(s + [x])
  {
  }

  /** Five elements appended one by one, each new to the list so far, keep it free of duplicates. */
  lemma AppendFiveDistinct<T>(s: seq<T>, t: seq<T>)
    requires NoDuplicates(s)
    requires |t| == 5
    requires t[0] !in s
    requires t[1] !in s + [t[0]]
    requires t[2] !in s + [t[0], t[1]]
    requires t[3] !in s + [t[0], t[1], t[2]]
    requires t[4] !in s + [t[0], t[1], t[2], t[3]]
    ensures NoDuplicates(s + t)
  {
    NoDuplicatesSnoc(s, t[0]);
    assert s + [t[0]] + [t[1]] == s + [t[0], t[1]];
    NoDuplicatesSnoc(s + [t[0]], t[1]);
    assert s + [t[0], t[1]] + [t[2]] == s + [t[0], t[1], t[2]];
    NoDuplicatesSnoc(s + [t[0], t[1]], t[2]);
    assert s + [t[0], t[1], t[2]] + [t[3]] == s + [t[0], t[1], t[2], t[3]];
    NoDuplicatesSnoc(s + [t[0], t[1], t[2]], t[3]);
    assert s + [t[0], t[1], t[2], t[3]] + [t[4]] == s + t;
    NoDuplicatesSnoc(s + [t[0], t[1], t[2], t[3]], t[4]);
  }

  lemma RentalQuestionsDistinct()
    ensures NoDuplicates(BaseQuestions + RentalQuestions)
  {
    var t := RentalQuestions;
    assert |t[0]| == 38 && |t[1]| == 34 && |t[2]| == 37 && |t[3]| == 47 && |t[4]| == 52;
    BaseQuestionLengths();
    BaseQuestionsDistinct();
    AppendFiveDistinct(BaseQuestions, t);
  }

  lemma LoanQuestionsDistinct()
    ensures NoDuplicates(BaseQuestions + LoanQuestions)
  {
    var t := LoanQuestions;
    assert |t[0]| == 35 && |t[1]| == 33 && |t[2]| == 29 && |t[3]| == 37 && |t[4]| == 34;
    BaseQuestionLengths();
    BaseQuestionsDistinct();
    AppendFiveDistinct(BaseQuestions, t);
  }

  lemma EmploymentQuestionsDistinct()
    ensures NoDuplicates(BaseQuestions + EmploymentQuestions)
  {
    var t := EmploymentQuestions;
    assert |t[0]| == 45 && |t[1]| == 31 && |t[2]| == 41 && |t[3]| == 46 && |t[4]| == 36;
    BaseQuestionLengths();
    BaseQuestionsDistinct();
    AppendFiveDistinct(BaseQuestions, t);
  }

  lemma TermsQuestionsDistinct()
    ensures NoDuplicates(BaseQuestions + TermsQuestions)
  {
    var t := TermsQuestions;
    assert |t[0]| == 34 && |t[1]| == 42 && |t[2]| == 36 && |t[3]| == 36 && |t[4]| == 31;
    assert t[1][40] != BaseQuestions[2][40];
    assert t[2][34] != t[3][34];
    BaseQuestionLengths();
    BaseQuestionsDistinct();
    AppendFiveDistinct(BaseQuestions, t);
  }

  /** For any other type: the base questions, then the clause-triggered ones in their fixed order, cut to eight. */
  lemma OtherTypeQuestions(documentType: string, clauseTypes: seq<string>)
    requires !KnownQuestionType(documentType)
    ensures SuggestedQuestions(documentType, clauseTypes) == Prefix(BaseQuestions + ClauseQuestions(clauseTypes), 8)
    ensures "security_deposit" in clauseTypes ==> DepositQuestion in SuggestedQuestions(documentType, clauseTypes)
  {
    assert TypeQuestions(documentType) == [];
    var all := BaseQuestions + ClauseQuestions(clauseTypes);
    assert BaseQuestions + TypeQuestions(documentType) + ClauseQuestions(clauseTypes) == all;
    OtherTypeDistinct(clauseTypes);
    DedupeDistinct(all);
    if "security_deposit" in clauseTypes {
      assert all[5] == DepositQuestion;
    }
  }

  /** The clause questions are distinct, and each is one of the four. */
  lemma ClauseQuestionsDistinct(clauseTypes: seq<string>)
    ensures NoDuplicates(ClauseQuestions(clauseTypes))
    ensures forall q | q in ClauseQuestions(clauseTypes) ::
      q == DepositQuestion || q == NonCompeteQuestion || q == DataSharingQuestion || q == LiabilityQuestion
  {
    var c := ClauseQuestions(clauseTypes);
    assert |DepositQuestion| == 49 && |NonCompeteQuestion| == 54 && |DataSharingQuestion| == 53 && |LiabilityQuestion| == 51;
    forall i, j | 0 <= i < j < |c| ensures c[i] != c[j] {
      assert c[i] in c && c[j] in c;
    }
  }

  /** The base and clause questions are pairwise distinct. */
  lemma OtherTypeDistinct(clauseTypes: seq<string>)
    ensures NoDuplicates(BaseQuestions + ClauseQuestions(clauseTypes))
  {
    var c := ClauseQuestions(clauseTypes);
    var s := BaseQuestions + c;
    BaseQuestionsDistinct();
    ClauseQuestionsDistinct(clauseTypes);
    assert forall b | b in BaseQuestions :: b != DepositQuestion && b != NonCompeteQuestion && b != DataSharingQuestion && b != LiabilityQuestion
      by { assert BaseQuestions[0][47] != DepositQuestion[47]; }
    forall i, j | 0 <= i < j < |s| ensures s[i] != s[j] {
      if j >= 5 {
        assert s[j] == c[j - 5];
        if i >= 5 {
          assert s[i] == c[i - 5];
        } else {
          assert s[i] in BaseQuestions;
        }
      }
    }
  }

  /** No clause question is a base question. */
  lemma ClauseQuestionsNotBase()
    ensures DepositQuestion !in BaseQuestions && NonCompeteQuestion !in BaseQuestions
    ensures DataSharingQuestion !in BaseQuestions && LiabilityQuestion !in BaseQuestions
  {
    assert BaseQuestions[0][47] != DepositQuestion[47];
  }

  /** Each clause question is present exactly when its clause type is, and all four come in their fixed order. */
  lemma ClauseQuestionsMembership(clauseTypes: seq<string>)
    ensures DepositQuestion in ClauseQuestions(clauseTypes) <==> "security_deposit" in clauseTypes
    ensures NonCompeteQuestion in ClauseQuestions(clauseTypes) <==> "non_compete" in clauseTypes
    ensures DataSharingQuestion in ClauseQuestions(clauseTypes) <==> "data_sharing" in clauseTypes
    ensures LiabilityQuestion in ClauseQuestions(clauseTypes) <==> "limitation_liability" in clauseTypes
    ensures |ClauseQuestions(clauseTypes)| == 4 ==>
      ClauseQuestions(clauseTypes) == [DepositQuestion, NonCompeteQuestion, DataSharingQuestion, LiabilityQuestion]
  {
    assert |DepositQuestion| == 49 && |NonCompeteQuestion| == 54 && |DataSharingQuestion| == 53 && |LiabilityQuestion| == 51;
  }

  /**
   * For any other type, each clause question is suggested exactly when its
   * clause type is present, except that the cap of eight drops the liability
   * question when all four clause types are present.
   */
  lemma OtherTypeClauseQuestions(documentType: string, clauseTypes: seq<string>)
    requires !KnownQuestionType(documentType)
    ensures DepositQuestion in SuggestedQuestions(documentType, clauseTypes) <==> "security_deposit" in clauseTypes
    ensures NonCompeteQuestion in SuggestedQuestions(documentType, clauseTypes) <==> "non_compete" in clauseTypes
    ensures DataSharingQuestion in SuggestedQuestions(documentType, clauseTypes) <==> "data_sharing" in clauseTypes
    ensures LiabilityQuestion in SuggestedQuestions(documentType, clauseTypes) <==> (
      && "limitation_liability" in clauseTypes
      && !("security_deposit" in clauseTypes && "non_compete" in clauseTypes && "data_sharing" in clauseTypes))
  {
    OtherTypeQuestions(documentType, clauseTypes);
    ClauseQuestionsNotBase();
    ClauseQuestionsMembership(clauseTypes);
    var c := ClauseQuestions(clauseTypes);
    var all := BaseQuestions + c;
    var s := SuggestedQuestions(documentType, clauseTypes);
    assert s == Prefix(all, 8);
    if |c| <= 3 {
      assert s == all;
    } else {
      assert |c| == 4;
      assert s == BaseQuestions + [DepositQuestion, NonCompeteQuestion, DataSharingQuestion];
      assert |LiabilityQuestion| == 51 && |DepositQuestion| == 49 && |NonCompeteQuestion| == 54 && |DataSharingQuestion| == 53;
    }
  }
}

/**
 * The pure logic of the classification and analysis stages: validating the
 * generator's document-type label, normalising the clauses it returns, the
 * average-based overall-risk rule and the summary fallback. The generator's
 * replies arrive already parsed, as values of the datatypes below.
 */
module VertexAi {
  import opened Wrappers
  import opened Text
  import opened Models

  // ---------------------------------------------------------------------
  // Document type
  // ---------------------------------------------------------------------

  /** The labels the document-type classifier accepts. */
  const ValidTypes: seq<string> := [
    "rental_agreement", "loan_contract", "employment_contract",
    "terms_of_service", "privacy_policy", "nda", "other"
  ]

  /** The generator's reply, stripped and lower-cased, kept when it is a valid label and "other" otherwise. */
  function ClassifyDocumentType(reply: string): (r: string)
    ensures r in ValidTypes
    ensures Lower(Strip(reply)) in ValidTypes ==> r == Lower(Strip(reply))
    ensures Lower(Strip(reply)) !in ValidTypes ==> r == "other"
  {
    var normalised := Lower(Strip(reply));
    if normalised in ValidTypes then normalised else "other"
  }

  /** The accepted labels are exactly the values of DocumentType. */
  lemma ValidTypesAreDocumentTypes()
    ensures |ValidTypes| == 7
    ensures forall d: DocumentType :: d.Value() in ValidTypes
    ensures forall v | v in ValidTypes :: DocumentTypeOf(v).Some?
  {
  }

  /** No valid label holds an upper-case letter. */
  lemma LabelHasNoUpper(v: string)
    requires v in ValidTypes
    ensures forall i | 0 <= i < |v| :: !('A' <= v[i] <= 'Z')
  {
    if v == ValidTypes[0] {
    } else if v == ValidTypes[1] {
    } else if v == ValidTypes[2] {
    } else if v == ValidTypes[3] {
    } else if v == ValidTypes[4] {
    } else if v == ValidTypes[5] {
    } else {
      assert v == ValidTypes[6];
    }
  }

  /** A valid label carries no whitespace at its ends and no upper-case letter. */
  lemma {:induction false} ValidLabelNormal(v: string)
    requires v in ValidTypes
    ensures Strip(v) == v
    ensures Lower(v) == v
  {
    assert v[0] != ' ' && !IsSpace(v[0]) && !IsSpace(v[|v| - 1]);
    StripUnchanged(v);
    LabelHasNoUpper(v);
    LowerUnchanged(v);
  }

  /** Normalising a valid label returns it unchanged, so the classifier's normalisation is idempotent. */
  lemma {:induction false} ClassifyIdempotent(reply: string)
    ensures forall v | v in ValidTypes :: ClassifyDocumentType(v) == v
    ensures ClassifyDocumentType(ClassifyDocumentType(reply)) == ClassifyDocumentType(reply)
  {
    forall v | v in ValidTypes
      ensures ClassifyDocumentType(v) == v
    {
      ValidLabelNormal(v);
    }
  }

  // ---------------------------------------------------------------------
  // Clause normalisation
  // ---------------------------------------------------------------------

  /** One clause object of the generator's parsed reply; an absent key is None. */
  datatype ClauseItem = ClauseItem(
    clauseType: Option<string>,
    riskLevel: Option<string>,
    originalText: Option<string>,
    plainLanguage: Option<string>,
    riskReason: Option<string>,
    recommendations: Option<seq<string>>)

  /**
   * The generator's reply to the segmentation prompt: not JSON at all, JSON
   * that is not an object (its `.get` raises), or an object whose "clauses"
   * key may be absent.
   */
  datatype ClauseReply = Unparsable | NotAnObject | Parsed(clauses: Option<seq<ClauseItem>>)

  /** Why clause segmentation raises. */
  datatype SegmentError =
    | InvalidClauseType(value: string)  // `ClauseType(v)` for a value no member has
    | MissingOtherMember                 // `ClauseType.OTHER`, which does not exist
    | ReplyNotAnObject

  const MaxOriginalText: nat := 2000
  const MaxPlainLanguage: nat := 500
  const MaxRiskReason: nat := 300
  const MaxRecommendations: nat := 3

  /** The identifier of the clause at position `i`: `clause_<i+1>`. */
  function ClauseId(i: nat): (r: string)
    ensures IsPrefix("clause_", r)
  {
    "clause_" + NatToString(i + 1)
  }

  /** Different positions get different identifiers. */
  lemma ClauseIdInjective(i: nat, j: nat)
    requires ClauseId(i) == ClauseId(j)
    ensures i == j
  {
    assert ClauseId(i)[7..] == NatToString(i + 1);
    assert ClauseId(j)[7..] == NatToString(j + 1);
    NatToStringInjective(i + 1, j + 1);
  }

  /** The risk level of an item: an absent or unrecognised value becomes medium. */
  function ItemRiskLevel(item: ClauseItem): (r: RiskLevel)
    ensures item.riskLevel.Some? && RiskLevelOf(item.riskLevel.value).Some? ==> r.Value() == item.riskLevel.value
    ensures item.riskLevel.None? || RiskLevelOf(item.riskLevel.value).None? ==> r == Medium
  {
    match RiskLevelOf(item.riskLevel.GetOr("medium"))
    case Some(l) => l
    case None => Medium
  }

  /** The clause built from the item at position `i`, or the error its clause type raises. */
  function BuildClause(i: nat, item: ClauseItem): (r: Result<ClauseAnalysis, SegmentError>)
    ensures r.Ok? <==> item.clauseType.Some? && ClauseTypeOf(item.clauseType.value).Some?
    ensures r.Err? ==> r.error == InvalidClauseType("other")
    ensures r.Ok? ==> (
      && r.value.id == ClauseId(i)
      && r.value.clauseType.Value() == item.clauseType.value
      && r.value.riskLevel == ItemRiskLevel(item)
      && r.value.confidenceScore == Some(0.8)
      && r.value.citations == []
      && r.value.startPosition.None? && r.value.endPosition.None?)
    ensures r.Ok? ==> (
      && |r.value.originalText| <= MaxOriginalText && IsPrefix(r.value.originalText, item.originalText.GetOr(""))
      && |r.value.plainLanguage| <= MaxPlainLanguage && IsPrefix(r.value.plainLanguage, item.plainLanguage.GetOr(""))
      && |r.value.riskReason| <= MaxRiskReason && IsPrefix(r.value.riskReason, item.riskReason.GetOr(""))
      && |r.value.recommendations| <= MaxRecommendations
      && IsPrefix(r.value.recommendations, item.recommendations.GetOr([])))
    ensures r.Ok? && |item.originalText.GetOr("")| <= MaxOriginalText ==> r.value.originalText == item.originalText.GetOr("")
    ensures r.Ok? ==> (
      && r.value.originalText == Prefix(item.originalText.GetOr(""), MaxOriginalText)
      && r.value.plainLanguage == Prefix(item.plainLanguage.GetOr(""), MaxPlainLanguage)
      && r.value.riskReason == Prefix(item.riskReason.GetOr(""), MaxRiskReason)
      && r.value.recommendations == Prefix(item.recommendations.GetOr([]), MaxRecommendations))
  {
    OtherIsNoClauseType();
    match ClauseTypeOf(item.clauseType.GetOr("other"))
    case None =>
      // the code replaces the unknown value by "other", which is no member's value either (OtherIsNoClauseType)
      Err(InvalidClauseType("other"))
    case Some(clauseType) =>
      Ok(ClauseAnalysis(
        id := ClauseId(i),
        clauseType := clauseType,
        originalText := Prefix(item.originalText.GetOr(""), MaxOriginalText),
        plainLanguage := Prefix(item.plainLanguage.GetOr(""), MaxPlainLanguage),
        riskLevel := ItemRiskLevel(item),
        riskReason := Prefix(item.riskReason.GetOr(""), MaxRiskReason),
        recommendations := Prefix(item.recommendations.GetOr([]), MaxRecommendations),
        confidenceScore := Some(0.8)))
  }

  /** The clauses of a parsed reply, item by item; the first item with an unusable type aborts the whole list. */
  function NormaliseItems(items: seq<ClauseItem>): Result<seq<ClauseAnalysis>, SegmentError> {
    if items == [] then Ok([])
    else match NormaliseItems(items[..|items| - 1])
      case Err(e) => Err(e)
      case Ok(clauses) =>
        match BuildClause(|items| - 1, items[|items| - 1])
        case Err(e) => Err(e)
        case Ok(c) => Ok(clauses + [c])
  }

  /** Segmentation as a whole: the reply's items normalised, or the error the code raises. */
  function SegmentClauses(reply: ClauseReply): Result<seq<ClauseAnalysis>, SegmentError> {
    match reply
    case Unparsable => Err(MissingOtherMember)
    case NotAnObject => Err(ReplyNotAnObject)
    case Parsed(items) => NormaliseItems(items.GetOr([]))
  }

  /** Every item names a member of the clause taxonomy. */
  predicate AllTypesKnown(items: seq<ClauseItem>) {
    forall k | 0 <= k < |items| :: items[k].clauseType.Some? && ClauseTypeOf(items[k].clauseType.value).Some?
  }

  /** Normalisation succeeds exactly when every item names a taxonomy member; otherwise it raises on "other". */
  lemma {:induction false} NormaliseItemsOk(items: seq<ClauseItem>)
    ensures NormaliseItems(items).Ok? <==> AllTypesKnown(items)
    ensures NormaliseItems(items).Err? ==> NormaliseItems(items).error == InvalidClauseType("other")
  {
    if items != [] {
      var init := items[..|items| - 1];
      var last := items[|items| - 1];
      NormaliseItemsOk(init);
      if AllTypesKnown(items) {
        forall k | 0 <= k < |init|
          ensures init[k].clauseType.Some? && ClauseTypeOf(init[k].clauseType.value).Some?
        {
          assert init[k] == items[k];
        }
        assert items[|items| - 1] == last;
        assert BuildClause(|items| - 1, last).Ok?;
      } else if AllTypesKnown(init) {
        assert forall j | 0 <= j < |init| :: init[j] == items[j];
        var k :| 0 <= k < |items| && !(items[k].clauseType.Some? && ClauseTypeOf(items[k].clauseType.value).Some?);
        assert k == |items| - 1;
        assert BuildClause(|items| - 1, last).Err?;
      }
    }
  }

  /**
   * A successful normalisation yields one clause per item, in order, the
   * clause at position k being the one built from item k (so with identifier
   * `clause_<k+1>`).
   */
  lemma {:induction false} NormaliseItemsShape(items: seq<ClauseItem>)
    requires NormaliseItems(items).Ok?
    ensures |NormaliseItems(items).value| == |items|
    ensures forall k | 0 <= k < |items| :: BuildClause(k, items[k]) == Ok(NormaliseItems(items).value[k])
  {
    if items != [] {
      var init := items[..|items| - 1];
      var last := |items| - 1;
      assert NormaliseItems(init).Ok?;
      NormaliseItemsShape(init);
      var prev := NormaliseItems(init).value;
      var cs := NormaliseItems(items).value;
      assert cs == prev + [BuildClause(last, items[last]).value];
      forall k | 0 <= k < |items|
        ensures BuildClause(k, items[k]) == Ok(cs[k])
      {
        if k < last {
          calc {
            BuildClause(k, items[k]);
            { assert init[k] == items[k]; }
            BuildClause(k, init[k]);
            Ok(prev[k]);
            { assert cs[k] == prev[k]; }
            Ok(cs[k]);
          }
        } else {
          assert k == last;
          assert cs[k] == BuildClause(last, items[last]).value;
        }
      }
    }
  }

  /** The normalised clauses carry pairwise distinct identifiers. */
  lemma NormalisedIdsDistinct(items: seq<ClauseItem>)
    requires NormaliseItems(items).Ok?
    ensures forall a, b | 0 <= a < b < |NormaliseItems(items).value| ::
      NormaliseItems(items).value[a].id != NormaliseItems(items).value[b].id
  {
    NormaliseItemsShape(items);
    var cs := NormaliseItems(items).value;
    forall a, b | 0 <= a < b < |cs| ensures cs[a].id != cs[b].id {
      if cs[a].id == cs[b].id {
        ClauseIdInjective(a, b);
      }
    }
  }

  /** An unparsable reply, a non-object reply and an unknown clause type each make segmentation raise. */
  lemma SegmentFailures(item: ClauseItem)
    requires item.clauseType.None? || ClauseTypeOf(item.clauseType.value).None?
    ensures SegmentClauses(Unparsable) == Err(MissingOtherMember)
    ensures SegmentClauses(NotAnObject) == Err(ReplyNotAnObject)
    ensures SegmentClauses(Parsed(Some([item]))) == Err(InvalidClauseType("other"))
    ensures SegmentClauses(Parsed(None)) == Ok([])
  {
    assert [item][..|[item]| - 1] == [];
    assert NormaliseItems([]) == Ok([]);
    assert BuildClause(0, item) == Err(InvalidClauseType("other"));
  }

  /** The loop of `segment_and_classify_clauses` over a parsed reply, appending one clause per item. */
  method NormaliseClauses(items: seq<ClauseItem>) returns (r: Result<seq<ClauseAnalysis>, SegmentError>)
    ensures r == NormaliseItems(items)
  {
    var clauses: seq<ClauseAnalysis> := [];
    var i := 0;
    while i < |items|
      invariant 0 <= i <= |items|
      invariant NormaliseItems(items[..i]) == Ok(clauses)
    {
      assert items[..i + 1][..i] == items[..i];
      var built := BuildClause(i, items[i]);
      if built.Err? {
        assert NormaliseItems(items[..i + 1]).Err?;
        NormalisePrefixError(items, i + 1);
        return Err(built.error);
      }
      clauses := clauses + [built.value];
      i := i + 1;
    }
    assert items[..i] == items;
    return Ok(clauses);
  }

  /** Once a prefix of the items fails, the whole list fails with the same error. */
  lemma {:induction false} NormalisePrefixError(items: seq<ClauseItem>, n: nat)
    requires n <= |items|
    requires NormaliseItems(items[..n]).Err?
    ensures NormaliseItems(items) == NormaliseItems(items[..n])
    decreases |items| - n
  {
    if n < |items| {
      assert items[..n + 1][..n] == items[..n];
      NormalisePrefixError(items, n + 1);
    } else {
      assert items[..n] == items;
    }
  }

  // ---------------------------------------------------------------------
  // Overall risk
  // ---------------------------------------------------------------------

  /** The score of one risk level: high 3, medium 2, low 1. */
  function Score(l: RiskLevel): (r: nat)
    ensures 1 <= r <= 3
  {
    match l
    case High => 3
    case Medium => 2
    case Low => 1
  }

  function TotalScore(levels: seq<RiskLevel>): (r: nat)
    ensures |levels| <= r <= 3 * |levels|
  {
    if levels == [] then 0 else TotalScore(levels[..|levels| - 1]) + Score(levels[|levels| - 1])
  }

  /**
   * `calculate_overall_risk`: medium for no clauses, otherwise high when the
   * average score is at least 2.5, medium when at least 1.5, else low. The
   * comparison is made in integers, which is exact.
   */
  function OverallRisk(levels: seq<RiskLevel>): (r: RiskLevel)
    ensures levels == [] ==> r == Medium
    ensures levels != [] ==> var average := TotalScore(levels) as real / |levels| as real;
      (r == High <==> average >= 5.0 / 2.0)
      && (r == Medium <==> 3.0 / 2.0 <= average < 5.0 / 2.0)
      && (r == Low <==> average < 3.0 / 2.0)
  {
    if levels == [] then Medium
    else
      AverageThreshold(TotalScore(levels), |levels|, 5);
      AverageThreshold(TotalScore(levels), |levels|, 3);
      var total := TotalScore(levels);
      var n := |levels|;
      if 2 * total >= 5 * n then High
      else if 2 * total >= 3 * n then Medium
      else Low
  }

  /** Comparing an average against k/2 is comparing twice the total against k times the count. */
  lemma AverageThreshold(total: nat, n: nat, k: nat)
    requires n > 0
    ensures total as real / n as real >= k as real / 2.0 <==> 2 * total >= k * n
  {
    var average := total as real / n as real;
    assert average * n as real == total as real;
    if 2 * total >= k * n {
      assert average * n as real >= (k as real / 2.0) * n as real;
    } else {
      assert average * n as real < (k as real / 2.0) * n as real;
    }
  }

  /** The risk levels of a list of clauses. */
  function Levels(clauses: seq<ClauseAnalysis>): (r: seq<RiskLevel>)
    ensures |r| == |clauses|
    ensures forall i | 0 <= i < |clauses| :: r[i] == clauses[i].riskLevel
  {
    seq(|clauses|, i requires 0 <= i < |clauses| => clauses[i].riskLevel)
  }

  /** The total score is determined by how many clauses carry each level. */
  lemma {:induction false} TotalByCounts(levels: seq<RiskLevel>)
    ensures TotalScore(levels) == 3 * multiset(levels)[High] + 2 * multiset(levels)[Medium] + multiset(levels)[Low]
  {
    if levels != [] {
      var init := levels[..|levels| - 1];
      TotalByCounts(init);
      assert levels == init + [levels[|levels| - 1]];
      assert multiset(levels) == multiset(init) + multiset{levels[|levels| - 1]};
    }
  }

  /** Reordering the clauses does not change the overall risk. */
  lemma OverallRiskPermutation(a: seq<RiskLevel>, b: seq<RiskLevel>)
    requires multiset(a) == multiset(b)
    ensures OverallRisk(a) == OverallRisk(b)
  {
    TotalByCounts(a);
    TotalByCounts(b);
    assert |a| == |multiset(a)| == |multiset(b)| == |b|;
  }

  /** Raising clause risks, position by position, raises the total score. */
  lemma {:induction false} TotalMonotone(a: seq<RiskLevel>, b: seq<RiskLevel>)
    requires |a| == |b|
    requires forall i | 0 <= i < |a| :: Score(a[i]) <= Score(b[i])
    ensures TotalScore(a) <= TotalScore(b)
  {
    if a != [] {
      TotalMonotone(a[..|a| - 1], b[..|b| - 1]);
    }
  }

  /** The overall risk is monotone in each clause's risk. */
  lemma OverallRiskMonotone(a: seq<RiskLevel>, b: seq<RiskLevel>)
    requires |a| == |b|
    requires forall i | 0 <= i < |a| :: Score(a[i]) <= Score(b[i])
    ensures Score(OverallRisk(a)) <= Score(OverallRisk(b))
  {
    TotalMonotone(a, b);
  }

  /** The rule averages rather than taking the worst case. */
  lemma OverallRiskExamples()
    ensures OverallRisk([High, Low, Low]) == Medium
    ensures OverallRisk([High, Medium]) == High
    ensures OverallRisk([Medium, Low]) == Medium
    ensures OverallRisk([Low, Low, Medium]) == Low
  {
    assert [High, Low, Low][..2] == [High, Low];
    assert [High, Low][..1] == [High];
    assert [High, Medium][..1] == [High];
    assert [Medium, Low][..1] == [Medium];
    assert [Low, Low, Medium][..2] == [Low, Low];
    assert [Low, Low][..1] == [Low];
  }

  /** A list of clauses that all share one level has that level overall. */
  lemma {:induction false} OverallRiskUniform(l: RiskLevel, n: nat)
    requires n > 0
    ensures OverallRisk(seq(n, _ => l)) == l
  {
    var levels := seq(n, _ => l);
    UniformTotal(l, n);
  }

  lemma {:induction false} UniformTotal(l: RiskLevel, n: nat)
    ensures TotalScore(seq(n, _ => l)) == n * Score(l)
  {
    if n > 0 {
      assert seq(n, _ => l)[..n - 1] == seq(n - 1, _ => l);
      UniformTotal(l, n - 1);
    }
  }

  // ---------------------------------------------------------------------
  // Summary and key findings
  // ---------------------------------------------------------------------

  /** The generator's reply to the summary prompt. */
  datatype SummaryReply = SummaryUnparsable | SummaryParsed(summary: Option<string>, keyFindings: Option<seq<string>>)

  datatype Summary = Summary(summary: string, keyFindings: seq<string>)

  /** Position of a risk label in Python's string order: "high" < "low" < "medium". */
  function LabelRank(l: RiskLevel): (r: nat)
    ensures r < 3
  {
    match l
    case High => 0
    case Low => 1
    case Medium => 2
  }

  /** The label ranks agree with the lexicographic order of the risk labels. */
  lemma LabelRankIsStringOrder()
    ensures forall a: RiskLevel, b: RiskLevel :: LexLess(a.Value(), b.Value()) <==> LabelRank(a) < LabelRank(b)
  {
    assert LexLess("high", "low") && LexLess("high", "medium") && LexLess("low", "medium");
    assert !LexLess("low", "high") && !LexLess("medium", "high") && !LexLess("medium", "low");
    assert !LexLess("high"[1..], "high"[1..]) && !LexLess("high", "high");
    assert !LexLess("low"[1..], "low"[1..]) && !LexLess("low", "low");
    assert !LexLess("medium"[1..], "medium"[1..]) && !LexLess("medium", "medium");
  }

  /** `min(c.risk_level.value for c in clauses)`. */
  function MinLabel(levels: seq<RiskLevel>): (r: RiskLevel)
    requires levels != []
    ensures r in levels
    ensures forall l | l in levels :: !LexLess(l.Value(), r.Value())
  {
    LabelRankIsStringOrder();
    assert levels[0] in levels;
    if High in levels then High else if Low in levels then Low else Medium
  }

  /** `max(c.risk_level.value for c in clauses)`. */
  function MaxLabel(levels: seq<RiskLevel>): (r: RiskLevel)
    requires levels != []
    ensures r in levels
    ensures forall l | l in levels :: !LexLess(r.Value(), l.Value())
  {
    LabelRankIsStringOrder();
    assert levels[0] in levels;
    if Medium in levels then Medium else if Low in levels then Low else High
  }

  const DefaultSummary: string := "This document contains legal terms that require review."
  const DefaultFindings: seq<string> := ["Document requires legal review"]

  /** The fallback summary sentence, naming the document type with '_' read as ' '. */
  function FallbackSummary(documentType: string): string {
    "This " + ReplaceChar(documentType, '_', ' ')
      + " contains multiple clauses with varying risk levels that require careful consideration."
  }

  /**
   * `generate_summary_and_findings`: the parsed reply's fields with their
   * defaults, or, for a reply that is not JSON, a summary naming the type and
   * three findings: the clause count, the range of risk labels in string
   * order, and a review recommendation.
   */
  function SummaryAndFindings(reply: SummaryReply, levels: seq<RiskLevel>, documentType: string): (r: Summary)
    requires levels != []
    ensures reply.SummaryParsed? ==> (
      && r.summary == reply.summary.GetOr(DefaultSummary)
      && r.keyFindings == reply.keyFindings.GetOr(DefaultFindings))
    ensures reply.SummaryUnparsable? ==> (
      && r.summary == FallbackSummary(documentType)
      && |r.keyFindings| == 3
      && r.keyFindings[0] == "Document contains " + NatToString(|levels|) + " distinct clauses"
      && (exists lo, hi | lo in levels && hi in levels && forall l | l in levels :: !LexLess(l.Value(), lo.Value()) && !LexLess(hi.Value(), l.Value()) ::
            r.keyFindings[1] == "Risk levels range from " + lo.Value() + " to " + hi.Value())
      && r.keyFindings[2] == "Professional legal review recommended")
  {
    match reply
    case SummaryParsed(summary, findings) =>
      Summary(summary.GetOr(DefaultSummary), findings.GetOr(DefaultFindings))
    case SummaryUnparsable =>
      var lo := MinLabel(levels);
      var hi := MaxLabel(levels);
      assert lo in levels && hi in levels;
      Summary(FallbackSummary(documentType), [
        "Document contains " + NatToString(|levels|) + " distinct clauses",
        "Risk levels range from " + lo.Value() + " to " + hi.Value(),
        "Professional legal review recommended"
      ])
  }

  /**
   * The fallback's range follows string order, not severity: high and low
   * clauses range "from high to low", and any medium clause is the top.
   */
  lemma FallbackRangeOrder(levels: seq<RiskLevel>)
    requires levels != []
    ensures MinLabel([Low, High]) == High && MaxLabel([Low, High]) == Low
    ensures Medium in levels ==> MaxLabel(levels) == Medium
    ensures High in levels ==> MinLabel(levels) == High
  {
    assert High in [Low, High] && Low in [Low, High];
  }
}

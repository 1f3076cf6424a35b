/**
 * The enums and records of the backend's data model. Every enum member
 * carries its string value, as a Python `str` enum does, and each enum has
 * a partial inverse standing for the enum constructor `E(value)`, which
 * raises on a value that is not a member's.
 */
module Models {
  import opened Wrappers

  /** Risk assigned to one clause or to a whole document. */
  datatype RiskLevel = High | Medium | Low {
    function Value(): string {
      match this
      case High => "high"
      case Medium => "medium"
      case Low => "low"
    }
  }

  /** `RiskLevel(v)`: the member whose value is `v`, if any. */
  function RiskLevelOf(v: string): (r: Option<RiskLevel>)
    ensures r.Some? ==> r.value.Value() == v
    ensures r.None? ==> forall l: RiskLevel :: l.Value() != v
  {
    match v
    case "high" => Some(High)
    case "medium" => Some(Medium)
    case "low" => Some(Low)
    case _ => None
  }

  /** The label the classifier assigns to a whole document. */
  datatype DocumentType =
    | RentalAgreement | LoanContract | EmploymentContract | TermsOfService
    | PrivacyPolicy | Nda | OtherDocument
  {
    function Value(): string {
      match this
      case RentalAgreement => "rental_agreement"
      case LoanContract => "loan_contract"
      case EmploymentContract => "employment_contract"
      case TermsOfService => "terms_of_service"
      case PrivacyPolicy => "privacy_policy"
      case Nda => "nda"
      case OtherDocument => "other"
    }
  }

  /** `DocumentType(v)`: the member whose value is `v`, if any. */
  function DocumentTypeOf(v: string): (r: Option<DocumentType>)
    ensures r.Some? ==> r.value.Value() == v
    ensures r.None? ==> forall d: DocumentType :: d.Value() != v
  {
    match v
    case "rental_agreement" => Some(RentalAgreement)
    case "loan_contract" => Some(LoanContract)
    case "employment_contract" => Some(EmploymentContract)
    case "terms_of_service" => Some(TermsOfService)
    case "privacy_policy" => Some(PrivacyPolicy)
    case "nda" => Some(Nda)
    case "other" => Some(OtherDocument)
    case _ => None
  }

  /** Where a document stands in the processing pipeline. */
  datatype ProcessingStatus =
    | Uploaded | Processing | OcrComplete | Classified | Analyzed | Complete | Failed
  {
    function Value(): string {
      match this
      case Uploaded => "uploaded"
      case Processing => "processing"
      case OcrComplete => "ocr_complete"
      case Classified => "classified"
      case Analyzed => "analyzed"
      case Complete => "complete"
      case Failed => "failed"
    }
  }

  /** The clause taxonomy: 26 members, none of them "other". */
  datatype ClauseType =
    | PartiesInvolved | Definitions | PurposeScope | PaymentTerms | FeesCharges
    | Penalties | Interest | SecurityDeposit | RefundPolicy | ContractDuration
    | Termination | AutoRenewal | ExitFees | Warranties | Obligations
    | LimitationLiability | Indemnification | GoverningLaw | DisputeResolution
    | DataOwnership | DataSharing | Confidentiality | NonCompete | IpRights
    | Amendments | Severability
  {
    function Value(): string {
      match this
      case PartiesInvolved => "parties_involved"
      case Definitions => "definitions"
      case PurposeScope => "purpose_scope"
      case PaymentTerms => "payment_terms"
      case FeesCharges => "fees_charges"
      case Penalties => "penalties"
      case Interest => "interest"
      case SecurityDeposit => "security_deposit"
      case RefundPolicy => "refund_policy"
      case ContractDuration => "contract_duration"
      case Termination => "termination"
      case AutoRenewal => "auto_renewal"
      case ExitFees => "exit_fees"
      case Warranties => "warranties"
      case Obligations => "obligations"
      case LimitationLiability => "limitation_liability"
      case Indemnification => "indemnification"
      case GoverningLaw => "governing_law"
      case DisputeResolution => "dispute_resolution"
      case DataOwnership => "data_ownership"
      case DataSharing => "data_sharing"
      case Confidentiality => "confidentiality"
      case NonCompete => "non_compete"
      case IpRights => "ip_rights"
      case Amendments => "amendments"
      case Severability => "severability"
    }
  }

  /** Every member of the clause taxonomy, in declaration order. */
  const AllClauseTypes: seq<ClauseType> := [
    PartiesInvolved, Definitions, PurposeScope, PaymentTerms, FeesCharges,
    Penalties, Interest, SecurityDeposit, RefundPolicy, ContractDuration,
    Termination, AutoRenewal, ExitFees, Warranties, Obligations,
    LimitationLiability, Indemnification, GoverningLaw, DisputeResolution,
    DataOwnership, DataSharing, Confidentiality, NonCompete, IpRights,
    Amendments, Severability
  ]

  /** The first member of `types` whose value is `v`, if any. */
  function FindClauseType(types: seq<ClauseType>, v: string): (r: Option<ClauseType>)
    ensures r.Some? ==> r.value in types && r.value.Value() == v
  {
    if types == [] then None
    else if types[0].Value() == v then Some(types[0])
    else FindClauseType(types[1..], v)
  }

  /** The search fails exactly when no listed member has the value. */
  lemma {:induction false} FindClauseTypeNone(types: seq<ClauseType>, v: string)
    ensures FindClauseType(types, v).None? <==> forall c | c in types :: c.Value() != v
  {
    if types != [] {
      FindClauseTypeNone(types[1..], v);
      assert forall c | c in types :: c == types[0] || c in types[1..];
    }
  }

  /** `ClauseType(v)`: the member whose value is `v`, if any. */
  function ClauseTypeOf(v: string): Option<ClauseType> {
    FindClauseType(AllClauseTypes, v)
  }

  /** AllClauseTypes lists 26 members, and every member of the taxonomy is among them. */
  lemma ClauseTypeListed(c: ClauseType)
    ensures |AllClauseTypes| == 26
    ensures c in AllClauseTypes
  {
    match c
    case PartiesInvolved => assert AllClauseTypes[0] == c;
    case Definitions => assert AllClauseTypes[1] == c;
    case PurposeScope => assert AllClauseTypes[2] == c;
    case PaymentTerms => assert AllClauseTypes[3] == c;
    case FeesCharges => assert AllClauseTypes[4] == c;
    case Penalties => assert AllClauseTypes[5] == c;
    case Interest => assert AllClauseTypes[6] == c;
    case SecurityDeposit => assert AllClauseTypes[7] == c;
    case RefundPolicy => assert AllClauseTypes[8] == c;
    case ContractDuration => assert AllClauseTypes[9] == c;
    case Termination => assert AllClauseTypes[10] == c;
    case AutoRenewal => assert AllClauseTypes[11] == c;
    case ExitFees => assert AllClauseTypes[12] == c;
    case Warranties => assert AllClauseTypes[13] == c;
    case Obligations => assert AllClauseTypes[14] == c;
    case LimitationLiability => assert AllClauseTypes[15] == c;
    case Indemnification => assert AllClauseTypes[16] == c;
    case GoverningLaw => assert AllClauseTypes[17] == c;
    case DisputeResolution => assert AllClauseTypes[18] == c;
    case DataOwnership => assert AllClauseTypes[19] == c;
    case DataSharing => assert AllClauseTypes[20] == c;
    case Confidentiality => assert AllClauseTypes[21] == c;
    case NonCompete => assert AllClauseTypes[22] == c;
    case IpRights => assert AllClauseTypes[23] == c;
    case Amendments => assert AllClauseTypes[24] == c;
    case Severability => assert AllClauseTypes[25] == c;
  }

  /** The values of the first thirteen listed members are pairwise distinct. */
  lemma LowValuesDistinct()
    ensures forall i, j | 0 <= i < j < 13 :: AllClauseTypes[i].Value() != AllClauseTypes[j].Value()
  {
  }

  /** The values of the last thirteen listed members are pairwise distinct. */
  lemma HighValuesDistinct()
    ensures forall i, j | 13 <= i < j < 26 :: AllClauseTypes[i].Value() != AllClauseTypes[j].Value()
  {
  }

  /** No value of the first thirteen is a value of the last thirteen. */
  lemma LowHighValuesDistinct()
    ensures forall i, j | 0 <= i < 13 <= j < 26 :: AllClauseTypes[i].Value() != AllClauseTypes[j].Value()
  {
  }

  /** The values of the listed members are pairwise distinct. */
  lemma ClauseValuesDistinct()
    ensures forall i, j | 0 <= i < j < |AllClauseTypes| ::
      AllClauseTypes[i].Value() != AllClauseTypes[j].Value()
  {
    LowValuesDistinct();
    HighValuesDistinct();
    LowHighValuesDistinct();
  }

  /** Looking up a member's own value finds that member. */
  lemma {:induction false} FindOwnValue(types: seq<ClauseType>, k: nat)
    requires k < |types|
    requires forall i, j | 0 <= i < j < |types| :: types[i].Value() != types[j].Value()
    ensures FindClauseType(types, types[k].Value()) == Some(types[k])
  {
    if k > 0 {
      assert types[0].Value() != types[k].Value();
      assert types[1..][k - 1] == types[k];
      FindOwnValue(types[1..], k - 1);
    }
  }

  /** `ClauseType(c.value) == c` for every member. */
  lemma ClauseTypeRoundTrip(c: ClauseType)
    ensures ClauseTypeOf(c.Value()) == Some(c)
  {
    ClauseTypeListed(c);
    ClauseValuesDistinct();
    var k :| 0 <= k < |AllClauseTypes| && AllClauseTypes[k] == c;
    FindOwnValue(AllClauseTypes, k);
  }

  /** Every value is at least eight characters long. */
  lemma ValueLength(c: ClauseType)
    ensures |c.Value()| >= 8
  {
  }

  /** "other" is no member's value. */
  lemma NoValueIsOther()
    ensures forall c: ClauseType :: c.Value() != "other"
  {
    forall c: ClauseType
      ensures c.Value() != "other"
    {
      ValueLength(c);
    }
  }

  /** So `ClauseType("other")` raises. */
  lemma OtherIsNoClauseType()
    ensures ClauseTypeOf("other") == None
  {
    NoValueIsOther();
    FindClauseTypeNone(AllClauseTypes, "other");
  }

  /** Distinct members have distinct values: `Value` is injective. */
  lemma ClauseValueInjective()
    ensures forall a: ClauseType, b: ClauseType :: a.Value() == b.Value() ==> a == b
  {
    forall a: ClauseType, b: ClauseType | a.Value() == b.Value()
      ensures a == b
    {
      ClauseTypeRoundTrip(a);
      ClauseTypeRoundTrip(b);
    }
  }

  /** A legal reference attached to an answer or a clause; `url` defaults to None. */
  datatype Citation = Citation(source: string, reference: string, url: Option<string> := None)

  /**
   * One analysed clause. Identifier, type, the three texts, risk and
   * recommendations are required; `citations` defaults to the empty list,
   * confidence and positions to None.
   */
  datatype ClauseAnalysis = ClauseAnalysis(
    id: string,
    clauseType: ClauseType,
    originalText: string,
    plainLanguage: string,
    riskLevel: RiskLevel,
    riskReason: string,
    recommendations: seq<string>,
    citations: seq<Citation> := [],
    confidenceScore: Option<real> := None,
    startPosition: Option<int> := None,
    endPosition: Option<int> := None)
}

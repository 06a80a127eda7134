/** Core domain objects: the rejection taxonomy and its audit record, signals,
    entities and leads, each with the ordered checks its construction runs. */
module Domain {
  import opened Base
  import opened EvidenceLedger

  // ---------------------------------------------------------------------------
  // Rejections
  // ---------------------------------------------------------------------------

  /** The eight hard-reject rules R1..R8. */
  datatype RejectionRule =
    | NoIntentSignal
    | StaleSignal
    | MissingEntity
    | InvalidDomain
    | OutOfScopeIndustry
    | SizeMismatch
    | LlmFailure
    | MissingEvidence
  {
    function Code(): string {
      match this
      case NoIntentSignal => "R1"
      case StaleSignal => "R2"
      case MissingEntity => "R3"
      case InvalidDomain => "R4"
      case OutOfScopeIndustry => "R5"
      case SizeMismatch => "R6"
      case LlmFailure => "R7"
      case MissingEvidence => "R8"
    }

    function Value(): string {
      match this
      case NoIntentSignal => "no_intent_signal"
      case StaleSignal => "stale_signal"
      case MissingEntity => "missing_entity"
      case InvalidDomain => "invalid_domain"
      case OutOfScopeIndustry => "out_of_scope_industry"
      case SizeMismatch => "size_mismatch"
      case LlmFailure => "llm_failure"
      case MissingEvidence => "missing_evidence"
    }
  }

  /** `RejectionError`: the exception every expected rejection travels in. */
  datatype RejectionError = RejectionError(rule: RejectionRule, reason: string, signalId: Option<string>)

  /** What a failed construction raises: a rejection, or an `EvidenceValidationError`. */
  datatype Fault = Rejected(rejection: RejectionError) | Invalid(invalid: ValidationError)

  /** The immutable audit record of one rejection. */
  datatype Rejection = Rejection(
    rejectionId: string,
    signalId: string,
    rule: RejectionRule,
    reason: string,
    rawSignalSnippet: string,
    timestamp: int)

  const SnippetLength: nat := 500

  /** `Rejection.from_error`; the timestamp (utcnow by default) is passed in. */
  function FromError(rejectionId: string, error: RejectionError, rawSignal: string, timestamp: int): (r: Rejection)
    ensures |r.rawSignalSnippet| == Min(500, |rawSignal|)
    ensures StartsWith(rawSignal, r.rawSignalSnippet)
    ensures r.rule == error.rule && r.reason == error.reason
    ensures r.rejectionId == rejectionId && r.timestamp == timestamp
    ensures Present(error.signalId) ==> r.signalId == error.signalId.value
    ensures !Present(error.signalId) ==> r.signalId == "unknown"
  {
    Rejection(
      rejectionId,
      if Present(error.signalId) then error.signalId.value else "unknown",
      error.rule,
      error.reason,
      Prefix(rawSignal, SnippetLength),
      timestamp)
  }

  // ---------------------------------------------------------------------------
  // Signals
  // ---------------------------------------------------------------------------

  datatype IntentType = Hiring | Funding | ExecutiveChange {
    function Value(): string {
      match this
      case Hiring => "hiring"
      case Funding => "funding"
      case ExecutiveChange => "executive_change"
    }
  }

  /** `IntentType(value)`: lookup by value, None where Python raises ValueError. */
  function IntentTypeFromValue(s: string): (r: Option<IntentType>)
    ensures r.Some? <==> s in {"hiring", "funding", "executive_change"}
    ensures r.Some? ==> r.value.Value() == s
  {
    if s == "hiring" then Some(Hiring)
    else if s == "funding" then Some(Funding)
    else if s == "executive_change" then Some(ExecutiveChange)
    else None
  }

  datatype Signal = Signal(
    signalId: string,
    sourceUrl: string,
    rawText: string,
    timestamp: int,
    sourceType: string,
    dedupHash: string)
  {
    /** What construction guarantees of every Signal that exists. */
    predicate Valid() {
      signalId != "" && sourceUrl != "" && rawText != ""
    }
  }

  /** `Signal.__post_init__`: id, then URL, then text; first failure wins. */
  function CreateSignal(signalId: string, sourceUrl: string, rawText: string, timestamp: int,
                        sourceType: string, dedupHash: string): (r: Result<Signal, RejectionError>)
    ensures r.Success? <==> signalId != "" && sourceUrl != "" && rawText != ""
    ensures r.Success? ==> r.value == Signal(signalId, sourceUrl, rawText, timestamp, sourceType, dedupHash)
    ensures signalId == "" ==>
              r == Failure(RejectionError(MissingEvidence, "signal_id is required", None))
    ensures signalId != "" && sourceUrl == "" ==>
              r == Failure(RejectionError(MissingEvidence, "source_url is required for signal provenance", Some(signalId)))
    ensures signalId != "" && sourceUrl != "" && rawText == "" ==>
              r == Failure(RejectionError(NoIntentSignal, "raw_text is empty, no intent signal present", Some(signalId)))
  {
    if signalId == "" then
      Failure(RejectionError(MissingEvidence, "signal_id is required", None))
    else if sourceUrl == "" then
      Failure(RejectionError(MissingEvidence, "source_url is required for signal provenance", Some(signalId)))
    else if rawText == "" then
      Failure(RejectionError(NoIntentSignal, "raw_text is empty, no intent signal present", Some(signalId)))
    else
      Success(Signal(signalId, sourceUrl, rawText, timestamp, sourceType, dedupHash))
  }

  /** `Signal.is_stale`, measured at `now`: strictly older than `maxAgeDays`. */
  predicate SignalIsStale(s: Signal, now: int, maxAgeDays: int) {
    now - s.timestamp > maxAgeDays * SecondsPerDay
  }

  /** `Signal.to_evidence`: an observation of the raw text at the signal's URL. */
  function SignalToEvidence(s: Signal, evidenceId: string, fieldName: string): (r: Result<Evidence, ValidationError>)
    ensures s.Valid() && evidenceId != "" ==>
      && r.Success? && r.value.evidenceType == OBS && r.value.evidenceId == evidenceId
      && r.value.fieldName == fieldName && r.value.value == s.rawText
      && r.value.meta.sourceUrl == Some(s.sourceUrl) && r.value.meta.timestamp == s.timestamp
      && r.value.meta.confidence == 0.95
      && r.value.meta.extractionMethod == Some("signal_ingestion_" + s.sourceType)
  {
    CreateObservation(evidenceId, fieldName, s.rawText, s.sourceUrl,
                      "signal_ingestion_" + s.sourceType, s.timestamp, None)
  }

  // ---------------------------------------------------------------------------
  // Entities
  // ---------------------------------------------------------------------------

  /** A resolved company. Enrichment updates the optional slots in place. */
  class Entity {
    var companyName: Evidence
    var domain: Evidence
    var industry: Option<Evidence>
    var sizeEstimate: Option<Evidence>

    constructor (companyName: Evidence, domain: Evidence, industry: Option<Evidence>, sizeEstimate: Option<Evidence>)
      ensures this.companyName == companyName && this.domain == domain
      ensures this.industry == industry && this.sizeEstimate == sizeEstimate
    {
      this.companyName := companyName;
      this.domain := domain;
      this.industry := industry;
      this.sizeEstimate := sizeEstimate;
    }

    function DomainValue(): string
      reads this
    {
      domain.value
    }

    function NameValue(): string
      reads this
    {
      companyName.value
    }
  }

  /** `Entity._validate_required_evidence`: presence (R3), then slot names. */
  function CheckEntity(companyName: Option<Evidence>, domain: Option<Evidence>): (r: Outcome<Fault>)
    ensures r.Pass? <==>
      companyName.Some? && domain.Some? &&
      companyName.value.fieldName == "company_name" && domain.value.fieldName == "domain"
    ensures companyName.None? ==>
      r == Fail(Rejected(RejectionError(MissingEntity, "company_name Evidence is required", None)))
    ensures companyName.Some? && domain.None? ==>
      r == Fail(Rejected(RejectionError(MissingEntity, "domain Evidence is required", None)))
    ensures r.Fail? && r.error.Invalid? ==> companyName.Some? && domain.Some?
    ensures companyName.Some? && domain.Some? && companyName.value.fieldName != "company_name" ==>
      r == Fail(Invalid(FieldNameMismatch("company_name", companyName.value.fieldName)))
    ensures companyName.Some? && domain.Some? && companyName.value.fieldName == "company_name"
            && domain.value.fieldName != "domain" ==>
      r == Fail(Invalid(FieldNameMismatch("domain", domain.value.fieldName)))
  {
    if companyName.None? then
      Fail(Rejected(RejectionError(MissingEntity, "company_name Evidence is required", None)))
    else if domain.None? then
      Fail(Rejected(RejectionError(MissingEntity, "domain Evidence is required", None)))
    else if companyName.value.fieldName != "company_name" then
      Fail(Invalid(FieldNameMismatch("company_name", companyName.value.fieldName)))
    else if domain.value.fieldName != "domain" then
      Fail(Invalid(FieldNameMismatch("domain", domain.value.fieldName)))
    else Pass
  }

  /** `Entity(...)`: constructs the object only when the checks pass. */
  method NewEntity(companyName: Option<Evidence>, domain: Option<Evidence>,
                   industry: Option<Evidence>, sizeEstimate: Option<Evidence>) returns (r: Result<Entity, Fault>)
    ensures r.Success? <==> CheckEntity(companyName, domain).Pass?
    ensures r.Failure? ==> r.error == CheckEntity(companyName, domain).error
    ensures r.Success? ==>
      && fresh(r.value)
      && r.value.companyName == companyName.value && r.value.domain == domain.value
      && r.value.industry == industry && r.value.sizeEstimate == sizeEstimate
  {
    var check := CheckEntity(companyName, domain);
    if check.Fail? {
      return Failure(check.error);
    }
    var e := new Entity(companyName.value, domain.value, industry, sizeEstimate);
    return Success(e);
  }

  // ---------------------------------------------------------------------------
  // Leads
  // ---------------------------------------------------------------------------

  datatype Tier = Tier1 | Tier2 | Tier3 | Unqualified

  /** `Lead._compute_tier`: a function of evidence presence and validation only. */
  function ComputeLeadTier(intentSignal: Option<Evidence>, techStack: Option<Evidence>,
                       contactEmail: Option<Evidence>): (t: Tier)
    ensures t == Tier1 <==>
      intentSignal.Some? && techStack.Some? && contactEmail.Some? && contactEmail.value.meta.validated
    ensures t == Tier2 <==>
      intentSignal.Some? && techStack.Some? && !(contactEmail.Some? && contactEmail.value.meta.validated)
    ensures t == Tier3 <==> intentSignal.Some? && techStack.None?
    ensures t == Unqualified <==> intentSignal.None?
  {
    var hasHiring := intentSignal.Some?;
    var hasTechStack := techStack.Some?;
    var hasVerifiedEmail := contactEmail.Some? && contactEmail.value.meta.validated;
    if hasHiring && hasTechStack && hasVerifiedEmail then Tier1
    else if hasHiring && hasTechStack then Tier2
    else if hasHiring then Tier3
    else Unqualified
  }

  /** The reason of an R2 raised for a Lead: the signal's timestamp as `str()` prints it. */
  function StaleIntentReason(p: Platform, intentSignal: Evidence): string {
    "intent_signal is stale (timestamp: " + p.dateString(intentSignal.meta.timestamp) + ")"
  }

  /** `Lead._validate_required_evidence` then `_validate_intent_signal_freshness`
      (staleness measured at `now`). Note that a missing intent signal is R1. */
  function CheckLead(p: Platform, companyName: Option<Evidence>, domain: Option<Evidence>,
                     intentSignal: Option<Evidence>, now: int): (r: Outcome<Fault>)
    ensures r.Pass? <==>
      && companyName.Some? && domain.Some? && intentSignal.Some?
      && companyName.value.fieldName == "company_name" && domain.value.fieldName == "domain"
      && intentSignal.value.fieldName == "intent_signal"
      && !IsStale(intentSignal.value, now)
    ensures companyName.None? || domain.None? ==>
      r == Fail(Rejected(RejectionError(MissingEvidence,
        if companyName.None? then "company_name Evidence is required for Lead"
        else "domain Evidence is required for Lead", None)))
    ensures companyName.Some? && domain.Some? && intentSignal.None? ==>
      r == Fail(Rejected(RejectionError(NoIntentSignal, "intent_signal Evidence is required for Lead", None)))
    ensures r.Fail? && r.error.Invalid? ==>
      companyName.Some? && domain.Some? && intentSignal.Some?
    ensures companyName.Some? && domain.Some? && intentSignal.Some? ==>
      && (companyName.value.fieldName != "company_name" ==>
            r == Fail(Invalid(FieldNameMismatch("company_name", companyName.value.fieldName))))
      && (companyName.value.fieldName == "company_name" && domain.value.fieldName != "domain" ==>
            r == Fail(Invalid(FieldNameMismatch("domain", domain.value.fieldName))))
      && (companyName.value.fieldName == "company_name" && domain.value.fieldName == "domain"
          && intentSignal.value.fieldName != "intent_signal" ==>
            r == Fail(Invalid(FieldNameMismatch("intent_signal", intentSignal.value.fieldName))))
      && (companyName.value.fieldName == "company_name" && domain.value.fieldName == "domain"
          && intentSignal.value.fieldName == "intent_signal" && IsStale(intentSignal.value, now) ==>
            r == Fail(Rejected(RejectionError(StaleSignal, StaleIntentReason(p, intentSignal.value), None))))
    ensures r.Fail? && r.error.Rejected? && r.error.rejection.rule == StaleSignal ==>
      && intentSignal.Some? && IsStale(intentSignal.value, now)
      && companyName.Some? && companyName.value.fieldName == "company_name"
      && domain.Some? && domain.value.fieldName == "domain"
      && intentSignal.value.fieldName == "intent_signal"
  {
    if companyName.None? then
      Fail(Rejected(RejectionError(MissingEvidence, "company_name Evidence is required for Lead", None)))
    else if domain.None? then
      Fail(Rejected(RejectionError(MissingEvidence, "domain Evidence is required for Lead", None)))
    else if intentSignal.None? then
      Fail(Rejected(RejectionError(NoIntentSignal, "intent_signal Evidence is required for Lead", None)))
    else if companyName.value.fieldName != "company_name" then
      Fail(Invalid(FieldNameMismatch("company_name", companyName.value.fieldName)))
    else if domain.value.fieldName != "domain" then
      Fail(Invalid(FieldNameMismatch("domain", domain.value.fieldName)))
    else if intentSignal.value.fieldName != "intent_signal" then
      Fail(Invalid(FieldNameMismatch("intent_signal", intentSignal.value.fieldName)))
    else if IsStale(intentSignal.value, now) then
      Fail(Rejected(RejectionError(StaleSignal, StaleIntentReason(p, intentSignal.value), None)))
    else Pass
  }

  /** `Lead.get_sort_key`: newest signal, then highest email confidence, then name. */
  datatype LeadSortKey = LeadSortKey(negSignalTime: int, negEmailConfidence: real, companyName: string)

  /** Python's `<` on strings: code-point lexicographic order. */
  predicate StringLess(a: string, b: string)
    decreases |a|
  {
    if a == [] then b != []
    else if b == [] then false
    else if a[0] != b[0] then a[0] < b[0]
    else StringLess(a[1..], b[1..])
  }

  /** Python's `<` on the key tuple. */
  predicate SortKeyLess(a: LeadSortKey, b: LeadSortKey) {
    a.negSignalTime < b.negSignalTime ||
    (a.negSignalTime == b.negSignalTime &&
      (a.negEmailConfidence < b.negEmailConfidence ||
       (a.negEmailConfidence == b.negEmailConfidence && StringLess(a.companyName, b.companyName))))
  }

  class Lead {
    var companyName: Evidence
    var domain: Evidence
    var intentSignal: Evidence
    var contactName: Option<Evidence>
    var contactEmail: Option<Evidence>
    var techStack: Option<Evidence>
    var tier: Tier
    var createdAt: int
    var updatedAt: int

    /** The field assignments of `Lead(...)` followed by `self.tier = self._compute_tier()`. */
    constructor (companyName: Evidence, domain: Evidence, intentSignal: Evidence,
                 contactName: Option<Evidence>, contactEmail: Option<Evidence>, techStack: Option<Evidence>,
                 now: int)
      ensures this.companyName == companyName && this.domain == domain && this.intentSignal == intentSignal
      ensures this.contactName == contactName && this.contactEmail == contactEmail && this.techStack == techStack
      ensures this.createdAt == now && this.updatedAt == now
      ensures tier == ComputeLeadTier(Some(intentSignal), techStack, contactEmail)
    {
      this.companyName := companyName;
      this.domain := domain;
      this.intentSignal := intentSignal;
      this.contactName := contactName;
      this.contactEmail := contactEmail;
      this.techStack := techStack;
      this.createdAt := now;
      this.updatedAt := now;
      tier := Unqualified;
      new;
      tier := ComputeLeadTier(Some(intentSignal), techStack, contactEmail);
    }

    /** The key orders by signal time, newest first, then by email confidence,
        highest first (no email counting as 0.0), then by company name. */
    function SortKey(): (k: LeadSortKey)
      reads this
      ensures k.negSignalTime == -intentSignal.meta.timestamp
      ensures k.negEmailConfidence == -(if contactEmail.Some? then contactEmail.value.meta.confidence else 0.0)
      ensures k.companyName == companyName.value
    {
      LeadSortKey(
        -intentSignal.meta.timestamp,
        if contactEmail.Some? then -contactEmail.value.meta.confidence else -0.0,
        companyName.value)
    }

    predicate HasContact()
      reads this
    {
      contactEmail.Some?
    }

    /** `get_evidence_ids`: the three required ids, then each optional one present. */
    method GetEvidenceIds() returns (ids: seq<string>)
      ensures |ids| == 3 + (if contactName.Some? then 1 else 0) + (if contactEmail.Some? then 1 else 0)
                         + (if techStack.Some? then 1 else 0)
      ensures ids[..3] == [companyName.evidenceId, domain.evidenceId, intentSignal.evidenceId]
      ensures contactName.Some? ==> ids[3] == contactName.value.evidenceId
      ensures contactEmail.Some? ==> ids[if contactName.Some? then 4 else 3] == contactEmail.value.evidenceId
      ensures techStack.Some? ==> ids[|ids| - 1] == techStack.value.evidenceId
    {
      ids := [companyName.evidenceId, domain.evidenceId, intentSignal.evidenceId];
      if contactName.Some? {
        ids := ids + [contactName.value.evidenceId];
      }
      if contactEmail.Some? {
        ids := ids + [contactEmail.value.evidenceId];
      }
      if techStack.Some? {
        ids := ids + [techStack.value.evidenceId];
      }
    }
  }

  /** `Lead(...)`: the object exists only when the checks pass, and its tier then
      depends on evidence presence alone; UNQUALIFIED cannot occur. */
  method CreateLead(p: Platform, companyName: Option<Evidence>, domain: Option<Evidence>, intentSignal: Option<Evidence>,
                    contactName: Option<Evidence>, contactEmail: Option<Evidence>, techStack: Option<Evidence>,
                    now: int) returns (r: Result<Lead, Fault>)
    ensures r.Success? <==> CheckLead(p, companyName, domain, intentSignal, now).Pass?
    ensures r.Failure? ==> r.error == CheckLead(p, companyName, domain, intentSignal, now).error
    ensures r.Success? ==>
      && r.value.companyName == companyName.value && r.value.domain == domain.value
      && r.value.intentSignal == intentSignal.value
      && r.value.contactName == contactName && r.value.contactEmail == contactEmail
      && r.value.techStack == techStack
      && r.value.tier != Unqualified
      && (r.value.tier == Tier1 <==> techStack.Some? && contactEmail.Some? && contactEmail.value.meta.validated)
      && (r.value.tier == Tier3 <==> techStack.None?)
  {
    if companyName.None? {
      return Failure(Rejected(RejectionError(MissingEvidence, "company_name Evidence is required for Lead", None)));
    }
    if domain.None? {
      return Failure(Rejected(RejectionError(MissingEvidence, "domain Evidence is required for Lead", None)));
    }
    if intentSignal.None? {
      return Failure(Rejected(RejectionError(NoIntentSignal, "intent_signal Evidence is required for Lead", None)));
    }
    var expected := [(companyName.value, "company_name"), (domain.value, "domain"), (intentSignal.value, "intent_signal")];
    for i := 0 to |expected|
      invariant forall j | 0 <= j < i :: expected[j].0.fieldName == expected[j].1
    {
      var (evidence, expectedName) := expected[i];
      if evidence.fieldName != expectedName {
        assert i >= 1 ==> expected[0].0.fieldName == expected[0].1;
        assert i == 2 ==> expected[1].0.fieldName == expected[1].1;
        return Failure(Invalid(FieldNameMismatch(expectedName, evidence.fieldName)));
      }
    }
    assert expected[0].0.fieldName == expected[0].1 && expected[1].0.fieldName == expected[1].1;
    assert expected[2].0.fieldName == expected[2].1;
    if IsStale(intentSignal.value, now) {
      return Failure(Rejected(RejectionError(StaleSignal, StaleIntentReason(p, intentSignal.value), None)));
    }
    var lead := new Lead(companyName.value, domain.value, intentSignal.value,
                         contactName, contactEmail, techStack, now);
    return Success(lead);
  }

  /** A lead with a strictly newer intent signal sorts strictly before another. */
  lemma NewerSignalSortsFirst(a: Lead, b: Lead)
    requires a.intentSignal.meta.timestamp > b.intentSignal.meta.timestamp
    ensures SortKeyLess(a.SortKey(), b.SortKey())
    ensures !SortKeyLess(b.SortKey(), a.SortKey())
  {
  }

  /** With equal signal times the lead whose email is more trusted sorts first. */
  lemma HigherEmailConfidenceBreaksTies(a: Lead, b: Lead)
    requires a.intentSignal.meta.timestamp == b.intentSignal.meta.timestamp
    requires a.contactEmail.Some? && (b.contactEmail.None? ==> a.contactEmail.value.meta.confidence > 0.0)
    requires b.contactEmail.Some? ==> a.contactEmail.value.meta.confidence > b.contactEmail.value.meta.confidence
    ensures SortKeyLess(a.SortKey(), b.SortKey())
  {
  }

  lemma {:induction false} StringLessIrreflexive(a: string)
    ensures !StringLess(a, a)
    decreases |a|
  {
    if a != [] {
      StringLessIrreflexive(a[1..]);
    }
  }

  lemma {:induction false} StringLessTransitive(a: string, b: string, c: string)
    requires StringLess(a, b) && StringLess(b, c)
    ensures StringLess(a, c)
    decreases |a|
  {
    if a != [] && b != [] && c != [] && a[0] == b[0] && b[0] == c[0] {
      StringLessTransitive(a[1..], b[1..], c[1..]);
    }
  }

  /** Two different names are always ordered one way or the other. */
  lemma {:induction false} StringLessTotal(a: string, b: string)
    requires a != b
    ensures StringLess(a, b) || StringLess(b, a)
    decreases |a|
  {
    if a != [] && b != [] && a[0] == b[0] {
      assert a == [a[0]] + a[1..] && b == [b[0]] + b[1..];
      StringLessTotal(a[1..], b[1..]);
    }
  }

  /** The sort key order is a strict total order on keys: irreflexive,
      transitive, and any two different keys are comparable, so sorting by it
      is deterministic. */
  lemma SortKeyStrictTotalOrder(a: LeadSortKey, b: LeadSortKey, c: LeadSortKey)
    ensures !SortKeyLess(a, a)
    ensures SortKeyLess(a, b) && SortKeyLess(b, c) ==> SortKeyLess(a, c)
    ensures a != b ==> SortKeyLess(a, b) || SortKeyLess(b, a)
  {
    StringLessIrreflexive(a.companyName);
    if SortKeyLess(a, b) && SortKeyLess(b, c) && a.negSignalTime == b.negSignalTime == c.negSignalTime
       && a.negEmailConfidence == b.negEmailConfidence == c.negEmailConfidence {
      StringLessTransitive(a.companyName, b.companyName, c.companyName);
    }
    if a != b && a.negSignalTime == b.negSignalTime && a.negEmailConfidence == b.negEmailConfidence {
      StringLessTotal(a.companyName, b.companyName);
    }
  }

  /** With equal signal times and equal email confidence, the name decides,
      alphabetically. */
  lemma CompanyNameBreaksLastTies(a: Lead, b: Lead)
    requires a.intentSignal.meta.timestamp == b.intentSignal.meta.timestamp
    requires a.SortKey().negEmailConfidence == b.SortKey().negEmailConfidence
    requires StringLess(a.companyName.value, b.companyName.value)
    ensures SortKeyLess(a.SortKey(), b.SortKey())
    ensures !SortKeyLess(b.SortKey(), a.SortKey())
  {
    if StringLess(b.companyName.value, a.companyName.value) {
      StringLessTransitive(a.companyName.value, b.companyName.value, a.companyName.value);
      StringLessIrreflexive(a.companyName.value);
    }
  }

  /** A lead whose tier is the computed one and is TIER_1 has a contact. */
  lemma TierOneLeadHasContact(lead: Lead)
    requires lead.tier == ComputeLeadTier(Some(lead.intentSignal), lead.techStack, lead.contactEmail)
    requires lead.tier == Tier1
    ensures lead.HasContact()
  {
  }

  /** A Lead whose intent signal is four weeks old or more is never constructed. */
  lemma FourWeekOldIntentIsRejected(p: Platform, companyName: Option<Evidence>, domain: Option<Evidence>,
                                    intentSignal: Option<Evidence>, now: int)
    requires companyName.Some? && domain.Some? && intentSignal.Some?
    requires companyName.value.fieldName == "company_name" && domain.value.fieldName == "domain"
    requires intentSignal.value.fieldName == "intent_signal" && WellFormed(intentSignal.value)
    requires AgeDays(intentSignal.value.meta.timestamp, now) >= 28
    ensures CheckLead(p, companyName, domain, intentSignal, now).Fail?
    ensures CheckLead(p, companyName, domain, intentSignal, now).error == Rejected(RejectionError(StaleSignal, StaleIntentReason(p, intentSignal.value), None))
  {
    IntentSignalStaleAfterFourWeeks(intentSignal.value, now);
  }
}

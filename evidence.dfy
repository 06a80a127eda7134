/** The evidence ledger: typed provenance records, their construction-time
    validation, the factories that fill in default confidences, and the
    field-specific decay of confidence over time. Timestamps are whole seconds;
    confidences are exact decimals (`real`). */
module EvidenceLedger {
  import opened Base

  datatype EvidenceType = OBS | INF | API {
    function Value(): string {
      match this
      case OBS => "observation"
      case INF => "inference"
      case API => "third_party"
    }
  }

  /** `BASE_CONFIDENCE`: the confidence a factory uses when the caller gives none. */
  function BaseConfidence(t: EvidenceType): real {
    match t
    case OBS => 0.95
    case INF => 0.70
    case API => 0.85
  }

  datatype EvidenceMeta = EvidenceMeta(
    timestamp: int,
    confidence: real,
    sourceUrl: Option<string>,
    extractionMethod: Option<string>,
    sourceEvidenceIds: seq<string>,
    inferenceRule: Option<string>,
    providerName: Option<string>,
    apiResponseId: Option<string>,
    providerConfidence: Option<real>,
    validated: bool,
    validationMethod: Option<string>,
    invalidated: bool)

  /** The value an evidence record carries is kept as its string form. */
  datatype Evidence = Evidence(
    evidenceId: string,
    fieldName: string,
    value: string,
    evidenceType: EvidenceType,
    meta: EvidenceMeta)

  /** The reasons `EvidenceValidationError` is raised with, one per check. */
  datatype ValidationError =
    | MissingEvidenceId
    | ConfidenceOutOfRange
    | MissingSourceUrl
    | MissingExtractionMethod
    | MissingSourceEvidenceIds
    | MissingInferenceRule
    | MissingProviderName
    | MissingApiResponseId
    | FieldNameMismatch(expected: string, got: string)

  /** The system invariant for one record: an id, a confidence in [0, 1],
      and the metadata its type requires. */
  predicate WellFormed(e: Evidence) {
    e.evidenceId != "" && 0.0 <= e.meta.confidence <= 1.0 &&
    match e.evidenceType
    case OBS => Present(e.meta.sourceUrl) && Present(e.meta.extractionMethod)
    case INF => |e.meta.sourceEvidenceIds| > 0 && Present(e.meta.inferenceRule)
    case API => Present(e.meta.providerName) && Present(e.meta.apiResponseId)
  }

  /** What a validation error says about the record it was raised for. */
  predicate Explains(err: ValidationError, e: Evidence) {
    match err
    case MissingEvidenceId => e.evidenceId == ""
    case ConfidenceOutOfRange => !(0.0 <= e.meta.confidence <= 1.0)
    case MissingSourceUrl => e.evidenceType == OBS && !Present(e.meta.sourceUrl)
    case MissingExtractionMethod => e.evidenceType == OBS && !Present(e.meta.extractionMethod)
    case MissingSourceEvidenceIds => e.evidenceType == INF && |e.meta.sourceEvidenceIds| == 0
    case MissingInferenceRule => e.evidenceType == INF && !Present(e.meta.inferenceRule)
    case MissingProviderName => e.evidenceType == API && !Present(e.meta.providerName)
    case MissingApiResponseId => e.evidenceType == API && !Present(e.meta.apiResponseId)
    case FieldNameMismatch(_, _) => false
  }

  /** `Evidence._validate`: the checks run in order and the first failure is raised.
      (The `isinstance` and timestamp-presence checks hold by typing.) */
  function Validate(e: Evidence): (r: Outcome<ValidationError>)
    ensures r.Pass? <==> WellFormed(e)
    ensures r.Fail? ==> Explains(r.error, e)
    ensures e.evidenceId == "" ==> r == Fail(MissingEvidenceId)
    ensures e.evidenceId != "" && !(0.0 <= e.meta.confidence <= 1.0) ==> r == Fail(ConfidenceOutOfRange)
    ensures e.evidenceType == OBS && r.Fail? && r.error == MissingExtractionMethod ==> Present(e.meta.sourceUrl)
    ensures e.evidenceType == INF && r.Fail? && r.error == MissingInferenceRule ==> |e.meta.sourceEvidenceIds| > 0
    ensures e.evidenceType == API && r.Fail? && r.error == MissingApiResponseId ==> Present(e.meta.providerName)
  {
    if e.evidenceId == "" then Fail(MissingEvidenceId)
    else if !(0.0 <= e.meta.confidence <= 1.0) then Fail(ConfidenceOutOfRange)
    else match e.evidenceType
      case OBS =>
        if !Present(e.meta.sourceUrl) then Fail(MissingSourceUrl)
        else if !Present(e.meta.extractionMethod) then Fail(MissingExtractionMethod)
        else Pass
      case INF =>
        if |e.meta.sourceEvidenceIds| == 0 then Fail(MissingSourceEvidenceIds)
        else if !Present(e.meta.inferenceRule) then Fail(MissingInferenceRule)
        else Pass
      case API =>
        if !Present(e.meta.providerName) then Fail(MissingProviderName)
        else if !Present(e.meta.apiResponseId) then Fail(MissingApiResponseId)
        else Pass
  }

  /** The dataclass constructor: the record exists only if it validates. */
  function Construct(e: Evidence): (r: Result<Evidence, ValidationError>)
    ensures r.Success? <==> WellFormed(e)
    ensures r.Success? ==> r.value == e
    ensures r.Failure? ==> Explains(r.error, e)
  {
    match Validate(e)
    case Pass => Success(e)
    case Fail(err) => Failure(err)
  }

  // ---------------------------------------------------------------------------
  // Decay
  // ---------------------------------------------------------------------------

  const SecondsPerDay: int := 86400

  /** `(reference - timestamp).days`: whole days, rounded down (also for negative ages). */
  function AgeDays(timestamp: int, reference: int): int {
    (reference - timestamp) / SecondsPerDay
  }

  /** The decay schedule keyed by field name. */
  function Decay(fieldName: string, days: int): real {
    if fieldName == "intent_signal" then (days / 7) as real * 0.25
    else if fieldName == "contact_email" then (days / 30) as real * 0.10
    else 0.0
  }

  function MaxZero(x: real): real {
    if x >= 0.0 then x else 0.0
  }

  /** `calculate_current_confidence` at an explicit reference time. */
  function CurrentConfidence(e: Evidence, reference: int): (c: real)
    ensures c >= 0.0
    ensures e.fieldName != "intent_signal" && e.fieldName != "contact_email" ==> c == MaxZero(e.meta.confidence)
    ensures reference >= e.meta.timestamp ==> c <= MaxZero(e.meta.confidence)
    ensures e.fieldName == "intent_signal" ==>
      c == MaxZero(e.meta.confidence - 0.25 * (AgeDays(e.meta.timestamp, reference) / 7) as real)
    ensures e.fieldName == "contact_email" ==>
      c == MaxZero(e.meta.confidence - 0.10 * (AgeDays(e.meta.timestamp, reference) / 30) as real)
  {
    var days := AgeDays(e.meta.timestamp, reference);
    assert reference >= e.meta.timestamp ==> days >= 0 && days / 7 >= 0 && days / 30 >= 0;
    MaxZero(e.meta.confidence - Decay(e.fieldName, days))
  }

  /** `is_stale`: invalidated, or decayed to nothing. */
  predicate IsStale(e: Evidence, reference: int) {
    e.meta.invalidated || CurrentConfidence(e, reference) <= 0.0
  }

  lemma DivMonotone(a: int, b: int, d: int)
    requires a <= b && d > 0
    ensures a / d <= b / d
  {
    var qa, qb := a / d, b / d;
    assert a == d * qa + a % d && 0 <= a % d < d;
    assert b == d * qb + b % d && 0 <= b % d < d;
    if qa > qb {
      MulGap(d, qb, qa);
      assert false;
    }
  }

  lemma MulGap(d: int, x: int, y: int)
    requires d > 0 && x < y
    ensures d * y >= d * x + d
  {
    var k := y - x;
    assert d * y == d * x + d * k by {
      assert y == x + k;
    }
    MulAtLeast(d, k);
  }

  lemma MulAtLeast(d: int, k: int)
    requires d > 0 && k >= 1
    ensures d * k >= d
    decreases k
  {
    if k > 1 {
      MulAtLeast(d, k - 1);
      assert d * k == d * (k - 1) + d;
    }
  }

  /** Confidence never recovers as time passes. */
  lemma CurrentConfidenceNonIncreasing(e: Evidence, r1: int, r2: int)
    requires r1 <= r2
    ensures CurrentConfidence(e, r2) <= CurrentConfidence(e, r1)
  {
    var d1, d2 := AgeDays(e.meta.timestamp, r1), AgeDays(e.meta.timestamp, r2);
    DivMonotone(r1 - e.meta.timestamp, r2 - e.meta.timestamp, SecondsPerDay);
    DivMonotone(d1, d2, 7);
    DivMonotone(d1, d2, 30);
    assert Decay(e.fieldName, d1) <= Decay(e.fieldName, d2);
  }

  /** The intent-signal schedule: a quarter of confidence per whole week. */
  lemma IntentSignalDecayFormula(e: Evidence, reference: int)
    requires e.fieldName == "intent_signal"
    ensures CurrentConfidence(e, reference)
         == MaxZero(e.meta.confidence - 0.25 * (AgeDays(e.meta.timestamp, reference) / 7) as real)
  {
  }

  /** The contact-email schedule: a tenth of confidence per whole 30 days. */
  lemma ContactEmailDecayFormula(e: Evidence, reference: int)
    requires e.fieldName == "contact_email"
    ensures CurrentConfidence(e, reference)
         == MaxZero(e.meta.confidence - 0.10 * (AgeDays(e.meta.timestamp, reference) / 30) as real)
  {
  }

  /** At the observation default of 0.95 a contact email is stale exactly from
      day 300 on: ten whole 30-day periods take 1.0 off. */
  lemma ContactEmailStaleIffTenPeriods(e: Evidence, reference: int)
    requires e.fieldName == "contact_email" && e.meta.confidence == 0.95 && !e.meta.invalidated
    ensures IsStale(e, reference) <==> AgeDays(e.meta.timestamp, reference) >= 300
  {
    var days := AgeDays(e.meta.timestamp, reference);
    if days >= 300 {
      DivMonotone(300, days, 30);
    } else {
      DivMonotone(days, 299, 30);
      assert days / 30 <= 9;
    }
  }

  /** Any valid intent signal is stale once four whole weeks have passed. */
  lemma IntentSignalStaleAfterFourWeeks(e: Evidence, reference: int)
    requires WellFormed(e) && e.fieldName == "intent_signal"
    requires AgeDays(e.meta.timestamp, reference) >= 28
    ensures IsStale(e, reference)
  {
    DivMonotone(28, AgeDays(e.meta.timestamp, reference), 7);
  }

  /** At the observation default of 0.95 an intent signal is stale exactly from day 28 on. */
  lemma IntentSignalStaleIffFourWeeks(e: Evidence, reference: int)
    requires e.fieldName == "intent_signal" && e.meta.confidence == 0.95 && !e.meta.invalidated
    ensures IsStale(e, reference) <==> AgeDays(e.meta.timestamp, reference) >= 28
  {
    var days := AgeDays(e.meta.timestamp, reference);
    if days >= 28 {
      DivMonotone(28, days, 7);
    } else {
      DivMonotone(days, 27, 7);
      assert days / 7 <= 3;
    }
  }

  /** A timestamp in the future makes the decay negative, so the current
      confidence can exceed the recorded one: the bound below the base needs
      the reference time not to precede the timestamp. */
  lemma FutureTimestampRaisesConfidence(e: Evidence)
    requires e.fieldName == "intent_signal" && e.meta.confidence == 0.5
    ensures CurrentConfidence(e, e.meta.timestamp - 8 * SecondsPerDay) == 1.0
  {
    assert AgeDays(e.meta.timestamp, e.meta.timestamp - 8 * SecondsPerDay) == -8;
  }

  // ---------------------------------------------------------------------------
  // Factories (`create_observation`, `create_inference`, `create_api_evidence`).
  // The fresh `evt_...` id and the default timestamp are supplied by the caller.
  // ---------------------------------------------------------------------------

  function EmptyMeta(timestamp: int, confidence: real): EvidenceMeta {
    EvidenceMeta(timestamp, confidence, None, None, [], None, None, None, None, false, None, false)
  }

  function CreateObservation(
    evidenceId: string, fieldName: string, value: string,
    sourceUrl: string, extractionMethod: string,
    timestamp: int, confidence: Option<real>): (r: Result<Evidence, ValidationError>)
    ensures var c := if confidence.None? then 0.95 else confidence.value;
      && (r.Success? <==> evidenceId != "" && 0.0 <= c <= 1.0 && sourceUrl != "" && extractionMethod != "")
      && (r.Success? ==>
            && r.value.evidenceType == OBS && r.value.evidenceId == evidenceId
            && r.value.fieldName == fieldName && r.value.value == value
            && r.value.meta.confidence == c && r.value.meta.timestamp == timestamp
            && r.value.meta.sourceUrl == Some(sourceUrl)
            && r.value.meta.extractionMethod == Some(extractionMethod)
            && !r.value.meta.validated && !r.value.meta.invalidated)
  {
    var c := if confidence.None? then BaseConfidence(OBS) else confidence.value;
    Construct(Evidence(evidenceId, fieldName, value, OBS,
      EmptyMeta(timestamp, c).(sourceUrl := Some(sourceUrl), extractionMethod := Some(extractionMethod))))
  }

  function CreateInference(
    evidenceId: string, fieldName: string, value: string,
    sourceEvidenceIds: seq<string>, inferenceRule: string,
    timestamp: int, confidence: Option<real>,
    validated: bool, validationMethod: Option<string>): (r: Result<Evidence, ValidationError>)
    ensures var c := if confidence.None? then 0.70 else confidence.value;
      && (r.Success? <==> evidenceId != "" && 0.0 <= c <= 1.0 && |sourceEvidenceIds| > 0 && inferenceRule != "")
      && (r.Success? ==>
            && r.value.evidenceType == INF && r.value.evidenceId == evidenceId
            && r.value.fieldName == fieldName && r.value.value == value
            && r.value.meta.confidence == c && r.value.meta.timestamp == timestamp
            && r.value.meta.sourceEvidenceIds == sourceEvidenceIds
            && r.value.meta.inferenceRule == Some(inferenceRule)
            && r.value.meta.validated == validated
            && r.value.meta.validationMethod == validationMethod
            && !r.value.meta.invalidated)
  {
    var c := if confidence.None? then BaseConfidence(INF) else confidence.value;
    Construct(Evidence(evidenceId, fieldName, value, INF,
      EmptyMeta(timestamp, c).(sourceEvidenceIds := sourceEvidenceIds, inferenceRule := Some(inferenceRule),
                               validated := validated, validationMethod := validationMethod)))
  }

  /** The provider's confidence is used only when it is truthy: None and 0.0 both
      fall back to the default 0.85. */
  function CreateApiEvidence(
    evidenceId: string, fieldName: string, value: string,
    providerName: string, apiResponseId: string,
    timestamp: int, providerConfidence: Option<real>): (r: Result<Evidence, ValidationError>)
    ensures var c := if providerConfidence.Some? && providerConfidence.value != 0.0 then providerConfidence.value else 0.85;
      && (r.Success? <==> evidenceId != "" && 0.0 <= c <= 1.0 && providerName != "" && apiResponseId != "")
      && (r.Success? ==>
            && r.value.evidenceType == API && r.value.evidenceId == evidenceId
            && r.value.fieldName == fieldName && r.value.value == value
            && r.value.meta.confidence == c && r.value.meta.timestamp == timestamp
            && r.value.meta.providerName == Some(providerName)
            && r.value.meta.apiResponseId == Some(apiResponseId)
            && r.value.meta.providerConfidence == providerConfidence
            && !r.value.meta.validated && !r.value.meta.invalidated)
  {
    var c := if providerConfidence.Some? && providerConfidence.value != 0.0
             then providerConfidence.value else BaseConfidence(API);
    Construct(Evidence(evidenceId, fieldName, value, API,
      EmptyMeta(timestamp, c).(providerName := Some(providerName), apiResponseId := Some(apiResponseId),
                               providerConfidence := providerConfidence)))
  }

  /** A provider confidence of exactly zero is discarded in favour of the default. */
  lemma ZeroProviderConfidenceFallsBack(evidenceId: string, fieldName: string, value: string,
                                         providerName: string, apiResponseId: string, timestamp: int)
    requires evidenceId != "" && providerName != "" && apiResponseId != ""
    ensures var r := CreateApiEvidence(evidenceId, fieldName, value, providerName, apiResponseId, timestamp, Some(0.0));
      r.Success? && r.value.meta.confidence == 0.85 && r.value.meta.providerConfidence == Some(0.0)
  {
  }

  /** What a factory returns passes `Evidence._validate` again and reconstructs
      to itself: the factories only ever hand out records of the ledger's
      invariant. */
  lemma FactoryRecordsRevalidate(evidenceId: string, fieldName: string, value: string, timestamp: int,
                                 confidence: Option<real>, sourceUrl: string, extractionMethod: string,
                                 sourceEvidenceIds: seq<string>, inferenceRule: string,
                                 providerName: string, apiResponseId: string)
    ensures var o := CreateObservation(evidenceId, fieldName, value, sourceUrl, extractionMethod, timestamp, confidence);
      o.Success? ==> Validate(o.value) == Pass && Construct(o.value) == o
    ensures var i := CreateInference(evidenceId, fieldName, value, sourceEvidenceIds, inferenceRule,
                                     timestamp, confidence, false, None);
      i.Success? ==> Validate(i.value) == Pass && Construct(i.value) == i
    ensures var a := CreateApiEvidence(evidenceId, fieldName, value, providerName, apiResponseId, timestamp, confidence);
      a.Success? ==> Validate(a.value) == Pass && Construct(a.value) == a
  {
  }
}

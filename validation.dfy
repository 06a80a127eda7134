/** Relevance gating: binary accept/reject checks on raw signals, domains,
    sizes, industries and the LLM's JSON output, and the full signal gate. */
module Validation {
  import opened Base
  import opened EvidenceLedger
  import opened Domain

  const MinConfidenceThreshold: real := 0.8
  const MaxSignalAgeDays: int := 30
  const MinCompanySize: int := 2
  const MaxCompanySize: int := 1000

  // ---------------------------------------------------------------------------
  // Signal identity
  // ---------------------------------------------------------------------------

  /** `create_signal_id`: "sig_" and the first 12 hex digits of the hash of URL and time. */
  function CreateSignalId(p: Platform, sourceUrl: string, timestamp: int): (id: string)
    ensures StartsWith(id, "sig_") && |id| >= 4 && |id| <= 16
    ensures |p.sha256Hex(sourceUrl + ":" + p.isoFormat(timestamp))| >= 12 ==> |id| == 16
    ensures StartsWith(p.sha256Hex(sourceUrl + ":" + p.isoFormat(timestamp)), id[4..])
  {
    "sig_" + Prefix(p.sha256Hex(sourceUrl + ":" + p.isoFormat(timestamp)), 12)
  }

  /** `create_dedup_hash`: hash of the URL and the first 500 characters of text. */
  function CreateDedupHash(p: Platform, sourceUrl: string, rawText: string): (h: string)
    ensures |rawText| <= SnippetLength ==> h == p.sha256Hex(sourceUrl + ":" + rawText)
    ensures |rawText| > SnippetLength ==> h == p.sha256Hex(sourceUrl + ":" + rawText[..SnippetLength])
  {
    p.sha256Hex(sourceUrl + ":" + Prefix(rawText, SnippetLength))
  }

  /** Truncating a text to its snippet does not change its dedup hash. */
  lemma DedupHashOfSnippet(p: Platform, sourceUrl: string, rawText: string)
    ensures CreateDedupHash(p, sourceUrl, Prefix(rawText, SnippetLength)) == CreateDedupHash(p, sourceUrl, rawText)
  {
  }

  /** Two texts from one URL that agree on their first 500 characters share a
      dedup hash, whatever follows. */
  lemma DedupHashIgnoresTail(p: Platform, sourceUrl: string, a: string, b: string)
    requires |a| >= 500 && |b| >= 500 && a[..500] == b[..500]
    ensures CreateDedupHash(p, sourceUrl, a) == CreateDedupHash(p, sourceUrl, b)
  {
    assert Prefix(a, SnippetLength) == a[..500];
    assert Prefix(b, SnippetLength) == b[..500];
  }

  // ---------------------------------------------------------------------------
  // Signal checks
  // ---------------------------------------------------------------------------

  /** The freshness bound in seconds: `timedelta(days=maxAgeDays)`. */
  predicate WithinAge(timestamp: int, now: int, maxAgeDays: int) {
    now - timestamp <= maxAgeDays * SecondsPerDay
  }

  /** `validate_signal_freshness`, with `now` the clock reading. */
  function ValidateSignalFreshness(timestamp: int, now: int, maxAgeDays: int,
                                   signalId: Option<string>): (r: Outcome<RejectionError>)
    ensures r.Pass? <==> WithinAge(timestamp, now, maxAgeDays)
    ensures r.Fail? ==> r.error.rule == StaleSignal && r.error.signalId == signalId
    ensures r.Fail? ==> (r.error.reason ==
      "Signal is " + IntToString(AgeDays(timestamp, now)) + " days old, maximum is "
      + IntToString(maxAgeDays) + " days")
  {
    if now - timestamp > maxAgeDays * SecondsPerDay then
      Fail(RejectionError(StaleSignal,
        "Signal is " + IntToString(AgeDays(timestamp, now)) + " days old, maximum is "
        + IntToString(maxAgeDays) + " days", signalId))
    else Pass
  }

  /** A signal within the freshness window stays within it for any later-made
      and earlier-timestamped comparison: staleness is monotone in age. */
  lemma FreshnessMonotone(t1: int, t2: int, now: int, maxAgeDays: int, signalId: Option<string>)
    requires t1 <= t2
    ensures ValidateSignalFreshness(t1, now, maxAgeDays, signalId).Pass? ==>
            ValidateSignalFreshness(t2, now, maxAgeDays, signalId).Pass?
  {
  }

  /** `Signal.is_stale` and the freshness validator draw the same line. */
  lemma SignalStaleIffFreshnessFails(s: Signal, now: int, maxAgeDays: int)
    ensures SignalIsStale(s, now, maxAgeDays) <==>
            ValidateSignalFreshness(s.timestamp, now, maxAgeDays, Some(s.signalId)).Fail?
  {
  }

  /** A signal exactly `maxAgeDays` old is still fresh; one second more is stale. */
  lemma FreshnessBoundaryInclusive(now: int, maxAgeDays: int, signalId: Option<string>)
    ensures ValidateSignalFreshness(now - maxAgeDays * SecondsPerDay, now, maxAgeDays, signalId).Pass?
    ensures ValidateSignalFreshness(now - maxAgeDays * SecondsPerDay - 1, now, maxAgeDays, signalId).Fail?
  {
  }

  const HiringKeywords: seq<string> := [
    "hiring", "job opening", "we're looking for", "join our team",
    "open position", "career opportunity", "now hiring",
    "seeking", "looking to hire", "job post"]

  const FundingKeywords: seq<string> := [
    "raised", "funding", "series a", "series b", "series c",
    "seed round", "investment", "fundraise", "capital"]

  const ExecutiveKeywords: seq<string> := [
    "new ceo", "new cto", "appointed", "joins as",
    "promoted to", "named as", "executive"]

  /** `validate_intent_signal_present`: hiring outranks funding outranks
      executive change; no keyword at all is R1. */
  function ValidateIntentSignalPresent(rawText: string, signalId: Option<string>): (r: Result<IntentType, RejectionError>)
    ensures r == Success(Hiring) <==> ContainsAny(Lower(rawText), HiringKeywords)
    ensures r == Success(Funding) <==>
      !ContainsAny(Lower(rawText), HiringKeywords) && ContainsAny(Lower(rawText), FundingKeywords)
    ensures r == Success(ExecutiveChange) <==>
      !ContainsAny(Lower(rawText), HiringKeywords) && !ContainsAny(Lower(rawText), FundingKeywords)
      && ContainsAny(Lower(rawText), ExecutiveKeywords)
    ensures r.Failure? ==> r.error == RejectionError(NoIntentSignal,
      "No time-sensitive intent signal (hiring/funding/executive change) detected", signalId)
  {
    var textLower := Lower(rawText);
    if ContainsAny(textLower, HiringKeywords) then Success(Hiring)
    else if ContainsAny(textLower, FundingKeywords) then Success(Funding)
    else if ContainsAny(textLower, ExecutiveKeywords) then Success(ExecutiveChange)
    else Failure(RejectionError(NoIntentSignal,
      "No time-sensitive intent signal (hiring/funding/executive change) detected", signalId))
  }

  /** Intent detection ignores letter case. */
  lemma IntentDetectionIgnoresCase(rawText: string, signalId: Option<string>)
    ensures ValidateIntentSignalPresent(Lower(rawText), signalId) == ValidateIntentSignalPresent(rawText, signalId)
  {
    LowerIdempotent(rawText);
  }

  /** Empty text never carries an intent signal. */
  lemma EmptyTextHasNoIntent(signalId: Option<string>)
    ensures ValidateIntentSignalPresent("", signalId).Failure?
  {
    assert Lower("") == "";
    forall i | 0 <= i < |HiringKeywords| ensures !Contains("", HiringKeywords[i]) { }
    forall i | 0 <= i < |FundingKeywords| ensures !Contains("", FundingKeywords[i]) { }
    forall i | 0 <= i < |ExecutiveKeywords| ensures !Contains("", ExecutiveKeywords[i]) { }
  }

  // ---------------------------------------------------------------------------
  // Entity checks
  // ---------------------------------------------------------------------------

  predicate IsAsciiLetter(c: char) {
    'a' <= c <= 'z' || 'A' <= c <= 'Z'
  }

  predicate IsAsciiAlnum(c: char) {
    IsAsciiLetter(c) || '0' <= c <= '9'
  }

  /** `[a-zA-Z0-9][a-zA-Z0-9-]*\.[a-zA-Z]{2,}` matching all of `d`. The label
      cannot hold a dot, so the dot the pattern needs is the first one. */
  predicate FullDomainShape(d: string) {
    '.' in d &&
    var i := IndexOf(d, '.');
    i >= 1 && IsAsciiAlnum(d[0]) &&
    (forall j | 1 <= j < i :: IsAsciiAlnum(d[j]) || d[j] == '-') &&
    |d| - i - 1 >= 2 &&
    (forall j | i < j < |d| :: IsAsciiLetter(d[j]))
  }

  /** `re.match` of the pattern ending in `$`: `$` also matches just before one
      final newline, so a shape followed by "\n" matches too. */
  predicate MatchesDomainPattern(d: string) {
    FullDomainShape(d) || (|d| > 0 && d[|d| - 1] == '\n' && FullDomainShape(d[..|d| - 1]))
  }

  const ReservedSuffixes: seq<string> := [".test", ".invalid", ".localhost", ".example"]

  predicate HasReservedSuffix(d: string) {
    exists i | 0 <= i < |ReservedSuffixes| :: EndsWith(d, ReservedSuffixes[i])
  }

  function PatternReason(domain: string): string {
    "Domain '" + domain + "' does not match valid domain pattern"
  }

  function ReservedTldReason(domain: string): string {
    "Domain '" + domain + "' uses reserved/invalid TLD"
  }

  /** `validate_domain_resolvable` as written: shape (with the `$` newline
      allowance), then the reserved TLDs. */
  function ValidateDomainResolvable(domain: string, signalId: Option<string>): (r: Outcome<RejectionError>)
    ensures r.Pass? <==> MatchesDomainPattern(domain) && !HasReservedSuffix(domain)
    ensures r.Fail? ==> r.error.rule == InvalidDomain && r.error.signalId == signalId
    ensures !MatchesDomainPattern(domain) ==> r.Fail? && r.error.reason == PatternReason(domain)
    ensures MatchesDomainPattern(domain) && HasReservedSuffix(domain) ==>
      r.Fail? && r.error.reason == ReservedTldReason(domain)
  {
    if !MatchesDomainPattern(domain) then
      Fail(RejectionError(InvalidDomain, PatternReason(domain), signalId))
    else if HasReservedSuffix(domain) then
      Fail(RejectionError(InvalidDomain, ReservedTldReason(domain), signalId))
    else Pass
  }

  /** `acme.io` has the shape of a domain. */
  lemma AcmeHasDomainShape()
    ensures FullDomainShape("acme.io")
  {
    assert IndexOf("acme.io", '.') == 4;
  }

  /** A string ending in a newline ends in none of the reserved suffixes. */
  lemma NewlineEndNotReserved(d: string)
    requires |d| > 0 && d[|d| - 1] == '\n'
    ensures !HasReservedSuffix(d)
  {
    forall i | 0 <= i < |ReservedSuffixes| ensures !EndsWith(d, ReservedSuffixes[i]) {
      var s := ReservedSuffixes[i];
      assert s[|s| - 1] != '\n';
    }
  }

  /** A domain with a trailing newline passes the check as written. */
  lemma TrailingNewlineDomainAccepted()
    ensures ValidateDomainResolvable("acme.io\n", None).Pass?
  {
    var d := "acme.io\n";
    assert d[..|d| - 1] == "acme.io";
    AcmeHasDomainShape();
    NewlineEndNotReserved(d);
  }

  /** The check with the pattern required to match the whole string. */
  function ValidateDomainResolvableStrict(domain: string, signalId: Option<string>): (r: Outcome<RejectionError>)
    ensures r.Pass? <==> FullDomainShape(domain) && !HasReservedSuffix(domain)
    ensures r.Pass? ==> '\n' !in domain && '.' in domain
    ensures r.Fail? ==> r.error.rule == InvalidDomain && r.error.signalId == signalId
    ensures !FullDomainShape(domain) ==> r.Fail? && r.error.reason == PatternReason(domain)
    ensures FullDomainShape(domain) && HasReservedSuffix(domain) ==>
      r.Fail? && r.error.reason == ReservedTldReason(domain)
  {
    if !FullDomainShape(domain) then
      Fail(RejectionError(InvalidDomain, PatternReason(domain), signalId))
    else if HasReservedSuffix(domain) then
      Fail(RejectionError(InvalidDomain, ReservedTldReason(domain), signalId))
    else Pass
  }

  /** The two checks agree on every string without a newline. */
  lemma StrictAgreesWithoutNewline(domain: string, signalId: Option<string>)
    requires '\n' !in domain
    ensures ValidateDomainResolvableStrict(domain, signalId) == ValidateDomainResolvable(domain, signalId)
  {
    if |domain| > 0 {
      assert domain[|domain| - 1] != '\n';
    }
  }

  function SizeReason(size: int, minSize: int, maxSize: int): string {
    "Company size " + IntToString(size) + " is outside acceptable range ["
    + IntToString(minSize) + ", " + IntToString(maxSize) + "]"
  }

  /** `validate_company_size`: inside the closed range [minSize, maxSize]. */
  function ValidateCompanySize(size: int, minSize: int, maxSize: int, signalId: Option<string>): (r: Outcome<RejectionError>)
    ensures r.Pass? <==> minSize <= size <= maxSize
    ensures r.Fail? ==> r.error.rule == SizeMismatch && r.error.signalId == signalId
    ensures r.Fail? ==> r.error.reason == SizeReason(size, minSize, maxSize)
  {
    if size < minSize || size > maxSize then
      Fail(RejectionError(SizeMismatch, SizeReason(size, minSize, maxSize), signalId))
    else Pass
  }

  function LowerAll(ts: seq<string>): (r: seq<string>)
    ensures |r| == |ts| && forall i | 0 <= i < |ts| :: r[i] == Lower(ts[i])
  {
    if ts == [] then [] else [Lower(ts[0])] + LowerAll(ts[1..])
  }

  /** The R5 reason: the industry as given and the `repr` of the target list. */
  function IndustryReason(p: Platform, industry: string, targets: seq<string>): string {
    "Industry '" + industry + "' is not in target list: " + p.listRepr(targets)
  }

  /** `validate_industry_in_scope`: case-insensitive membership. */
  function ValidateIndustryInScope(p: Platform, industry: string, targets: seq<string>,
                                   signalId: Option<string>): (r: Outcome<RejectionError>)
    ensures r.Pass? <==> exists i | 0 <= i < |targets| :: Lower(targets[i]) == Lower(industry)
    ensures r.Fail? ==> r.error.rule == OutOfScopeIndustry && r.error.signalId == signalId
    ensures r.Fail? ==> r.error.reason == IndustryReason(p, industry, targets)
  {
    var targetsLower := LowerAll(targets);
    if Lower(industry) !in targetsLower then
      Fail(RejectionError(OutOfScopeIndustry, IndustryReason(p, industry, targets), signalId))
    else
      assert Lower(industry) == targetsLower[IndexOfSeq(targetsLower, Lower(industry))];
      Pass
  }

  function IndexOfSeq(xs: seq<string>, x: string): (i: nat)
    requires x in xs
    ensures i < |xs| && xs[i] == x
  {
    if xs[0] == x then 0 else 1 + IndexOfSeq(xs[1..], x)
  }

  // ---------------------------------------------------------------------------
  // LLM output
  // ---------------------------------------------------------------------------

  /** Python truthiness of a decoded JSON value. */
  predicate Truthy(v: JsonValue) {
    match v
    case JString(s) => s != ""
    case JNumber(x) => x != 0.0
    case JBool(b) => b
    case JNull => false
    case JArray(e) => |e| > 0
    case JObject(m) => |m| > 0
  }

  /** `float(v)`: numbers, booleans (1.0 / 0.0) and parseable strings convert;
      None, lists and dicts raise TypeError. */
  function ToFloat(p: Platform, v: JsonValue): Option<real> {
    match v
    case JNumber(x) => Some(x)
    case JBool(b) => Some(if b then 1.0 else 0.0)
    case JString(s) => p.parseFloat(s)
    case _ => None
  }

  /** `IntentType(v)`: only a string holding one of the enum's values converts. */
  function IntentFromJson(v: JsonValue): Option<IntentType> {
    if v.JString? then IntentTypeFromValue(v.s) else None
  }

  /** `dict.get`: absent keys and JSON null both read as None. */
  function GetOptional(json: map<string, JsonValue>, key: string): Option<JsonValue> {
    if key in json && json[key] != JNull then Some(json[key]) else None
  }

  datatype LlmExtractionResult = LlmExtractionResult(
    companyName: JsonValue,
    domain: JsonValue,
    intentType: IntentType,
    confidence: real,
    role: Option<JsonValue>,
    industry: Option<JsonValue>)

  /** `LLMExtractionResult.validate`: name, then domain (R3), then confidence (R7). */
  function LowConfidenceReason(p: Platform, confidence: real): string {
    "LLM confidence " + p.floatString(confidence) + " is below threshold " + p.floatString(MinConfidenceThreshold)
  }

  function ValidateExtraction(p: Platform, e: LlmExtractionResult, signalId: Option<string>): (r: Outcome<RejectionError>)
    ensures r.Pass? <==> Truthy(e.companyName) && Truthy(e.domain) && e.confidence >= MinConfidenceThreshold
    ensures r.Fail? ==> r.error.signalId == signalId
    ensures r.Fail? ==> (r.error.rule == MissingEntity <==> !Truthy(e.companyName) || !Truthy(e.domain))
    ensures r.Fail? ==> (r.error.rule == LlmFailure <==>
                          Truthy(e.companyName) && Truthy(e.domain) && e.confidence < MinConfidenceThreshold)
    ensures !Truthy(e.companyName) ==> r.Fail? && r.error.reason == "LLM did not extract company_name"
    ensures Truthy(e.companyName) && !Truthy(e.domain) ==> r.Fail? && r.error.reason == "LLM did not extract domain"
    ensures r.Fail? && r.error.rule == LlmFailure ==> r.error.reason == LowConfidenceReason(p, e.confidence)
  {
    if !Truthy(e.companyName) then Fail(RejectionError(MissingEntity, "LLM did not extract company_name", signalId))
    else if !Truthy(e.domain) then Fail(RejectionError(MissingEntity, "LLM did not extract domain", signalId))
    else if e.confidence < MinConfidenceThreshold then
      Fail(RejectionError(LlmFailure, LowConfidenceReason(p, e.confidence), signalId))
    else Pass
  }

  const RequiredLlmFields: seq<string> := ["company_name", "domain", "intent_type", "confidence"]

  predicate HasRequiredFields(json: map<string, JsonValue>) {
    forall k | 0 <= k < |RequiredLlmFields| :: RequiredLlmFields[k] in json
  }

  /** Every condition `validate_llm_json_output` needs to return normally. */
  predicate LlmOutputAcceptable(p: Platform, json: map<string, JsonValue>) {
    && HasRequiredFields(json)
    && "intent_type" in json && IntentFromJson(json["intent_type"]).Some?
    && "confidence" in json && ToFloat(p, json["confidence"]).Some?
    && "company_name" in json && Truthy(json["company_name"])
    && "domain" in json && Truthy(json["domain"])
    && ToFloat(p, json["confidence"]).value >= MinConfidenceThreshold
  }

  /** `validate_llm_json_output`: the first missing required field, a bad
      intent type or an unconvertible confidence is R7; the result is then
      checked by `ValidateExtraction`. */
  method ValidateLlmJsonOutput(p: Platform, json: map<string, JsonValue>, signalId: Option<string>)
    returns (r: Result<LlmExtractionResult, RejectionError>)
    ensures r.Success? <==> LlmOutputAcceptable(p, json)
    ensures r.Failure? ==> r.error.signalId == signalId
    ensures r.Failure? ==> r.error.rule == LlmFailure || r.error.rule == MissingEntity
    ensures !HasRequiredFields(json) ==>
      r.Failure? && r.error.rule == LlmFailure &&
      exists k | 0 <= k < |RequiredLlmFields| ::
        && RequiredLlmFields[k] !in json
        && (forall j | 0 <= j < k :: RequiredLlmFields[j] in json)
        && r.error.reason == "LLM JSON output missing required field: " + RequiredLlmFields[k]
    ensures r.Failure? && r.error.rule == MissingEntity <==>
      && HasRequiredFields(json) && "intent_type" in json && "confidence" in json
      && IntentFromJson(json["intent_type"]).Some? && ToFloat(p, json["confidence"]).Some?
      && "company_name" in json && "domain" in json
      && (!Truthy(json["company_name"]) || !Truthy(json["domain"]))
    ensures HasRequiredFields(json) && "intent_type" in json && IntentFromJson(json["intent_type"]).None? ==>
      r == Failure(RejectionError(LlmFailure, "Invalid intent_type: " + p.valueString(json["intent_type"]), signalId))
    ensures HasRequiredFields(json) && "intent_type" in json && "confidence" in json
            && IntentFromJson(json["intent_type"]).Some? && ToFloat(p, json["confidence"]).None? ==>
      r == Failure(RejectionError(LlmFailure, "Invalid confidence value: " + p.valueString(json["confidence"]), signalId))
    ensures HasRequiredFields(json) && "intent_type" in json && "confidence" in json
            && "company_name" in json && "domain" in json
            && IntentFromJson(json["intent_type"]).Some? && ToFloat(p, json["confidence"]).Some? ==>
      var e := LlmExtractionResult(json["company_name"], json["domain"], IntentFromJson(json["intent_type"]).value,
                                   ToFloat(p, json["confidence"]).value,
                                   GetOptional(json, "role"), GetOptional(json, "industry"));
      (r.Failure? <==> ValidateExtraction(p, e, signalId).Fail?)
      && (r.Failure? ==> r.error == ValidateExtraction(p, e, signalId).error)
    ensures r.Success? ==>
      && r.value.companyName == json["company_name"] && r.value.domain == json["domain"]
      && r.value.intentType.Value() == json["intent_type"].s
      && r.value.confidence == ToFloat(p, json["confidence"]).value
      && r.value.confidence >= MinConfidenceThreshold
      && r.value.role == GetOptional(json, "role") && r.value.industry == GetOptional(json, "industry")
  {
    for k := 0 to |RequiredLlmFields|
      invariant forall j | 0 <= j < k :: RequiredLlmFields[j] in json
    {
      if RequiredLlmFields[k] !in json {
        return Failure(RejectionError(LlmFailure,
          "LLM JSON output missing required field: " + RequiredLlmFields[k], signalId));
      }
    }
    assert "company_name" == RequiredLlmFields[0] && "domain" == RequiredLlmFields[1];
    assert "intent_type" == RequiredLlmFields[2] && "confidence" == RequiredLlmFields[3];
    var intentType := IntentFromJson(json["intent_type"]);
    if intentType.None? {
      return Failure(RejectionError(LlmFailure, "Invalid intent_type: " + p.valueString(json["intent_type"]), signalId));
    }
    var confidence := ToFloat(p, json["confidence"]);
    if confidence.None? {
      return Failure(RejectionError(LlmFailure, "Invalid confidence value: " + p.valueString(json["confidence"]), signalId));
    }
    var result := LlmExtractionResult(json["company_name"], json["domain"], intentType.value, confidence.value,
                                      GetOptional(json, "role"), GetOptional(json, "industry"));
    var check := ValidateExtraction(p, result, signalId);
    if check.Fail? {
      return Failure(check.error);
    }
    return Success(result);
  }

  // ---------------------------------------------------------------------------
  // Full gate
  // ---------------------------------------------------------------------------

  /** `GatingResult`: accepted with a signal and intent, or rejected with a record. */
  datatype GatingResult = GatingResult(
    accepted: bool,
    signal: Option<Signal>,
    intentType: Option<IntentType>,
    rejection: Option<Rejection>)

  /** The conditions under which `gate_signal` accepts. */
  predicate GateAccepts(sourceUrl: string, rawText: string, timestamp: int, now: int) {
    && WithinAge(timestamp, now, MaxSignalAgeDays)
    && ValidateIntentSignalPresent(rawText, None).Success?
    && sourceUrl != ""
  }

  /** `gate_signal`: freshness (R2), then intent (R1), then the signal's own
      construction checks (R8 for an empty URL). The rejection id and the
      clock are parameters. */
  function GateSignal(p: Platform, sourceUrl: string, rawText: string, timestamp: int, sourceType: string,
                      now: int, rejectionId: string): (r: GatingResult)
    ensures r.accepted <==> GateAccepts(sourceUrl, rawText, timestamp, now)
    ensures r.accepted <==> r.signal.Some?
    ensures r.accepted <==> r.intentType.Some?
    ensures r.accepted <==> r.rejection.None?
    ensures r.accepted ==>
      && r.signal.value.Valid()
      && r.signal.value.signalId == CreateSignalId(p, sourceUrl, timestamp)
      && r.signal.value.sourceUrl == sourceUrl && r.signal.value.rawText == rawText
      && r.signal.value.timestamp == timestamp && r.signal.value.sourceType == sourceType
      && r.signal.value.dedupHash == CreateDedupHash(p, sourceUrl, rawText)
      && Success(r.intentType.value) == ValidateIntentSignalPresent(rawText, None)
    ensures !r.accepted ==>
      && r.rejection.value.signalId == CreateSignalId(p, sourceUrl, timestamp)
      && r.rejection.value.rejectionId == rejectionId
      && r.rejection.value.timestamp == now
      && StartsWith(rawText, r.rejection.value.rawSignalSnippet)
      && (!WithinAge(timestamp, now, MaxSignalAgeDays) ==> r.rejection.value.rule == StaleSignal)
      && (WithinAge(timestamp, now, MaxSignalAgeDays) && ValidateIntentSignalPresent(rawText, None).Failure? ==>
            r.rejection.value.rule == NoIntentSignal)
      && (WithinAge(timestamp, now, MaxSignalAgeDays) && ValidateIntentSignalPresent(rawText, None).Success? ==>
            r.rejection.value.rule == MissingEvidence)
  {
    var signalId := CreateSignalId(p, sourceUrl, timestamp);
    var freshness := ValidateSignalFreshness(timestamp, now, MaxSignalAgeDays, Some(signalId));
    if freshness.Fail? then
      GatingResult(false, None, None, Some(FromError(rejectionId, freshness.error, rawText, now)))
    else
      var intent := ValidateIntentSignalPresent(rawText, Some(signalId));
      if intent.Failure? then
        GatingResult(false, None, None, Some(FromError(rejectionId, intent.error, rawText, now)))
      else
        assert rawText != "" by {
          if rawText == "" { EmptyTextHasNoIntent(Some(signalId)); }
        }
        var signal := CreateSignal(signalId, sourceUrl, rawText, timestamp, sourceType,
                                   CreateDedupHash(p, sourceUrl, rawText));
        if signal.Failure? then
          GatingResult(false, None, None, Some(FromError(rejectionId, signal.error, rawText, now)))
        else
          GatingResult(true, Some(signal.value), Some(intent.value), None)
  }
}

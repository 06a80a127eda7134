/** The five scoring components. Each is computed independently from a signal
    or an entity, with its points, its raw measurement, the evidence behind it
    and a readable reason. */
module Components {
  import opened Base
  import opened EvidenceLedger
  import opened Domain

  /** The evidence an entity holds: name and domain, then each enriched slot filled. */
  function GetEntityEvidence(entity: Entity): (r: seq<Evidence>)
    reads entity
    ensures 2 <= |r| <= 4
    ensures r[0] == entity.companyName && r[1] == entity.domain
    ensures |r| == 2 + (if entity.industry.Some? then 1 else 0) + (if entity.sizeEstimate.Some? then 1 else 0)
    ensures entity.industry.Some? ==> r[2] == entity.industry.value
    ensures entity.sizeEstimate.Some? ==> r[|r| - 1] == entity.sizeEstimate.value
  {
    [entity.companyName, entity.domain]
    + (if entity.industry.Some? then [entity.industry.value] else [])
    + (if entity.sizeEstimate.Some? then [entity.sizeEstimate.value] else [])
  }

  function EvidenceIds(es: seq<Evidence>): (ids: seq<string>)
    ensures |ids| == |es| && forall i | 0 <= i < |es| :: ids[i] == es[i].evidenceId
  {
    if es == [] then [] else [es[0].evidenceId] + EvidenceIds(es[1..])
  }

  /** `ComponentScore`. Contributions are whole numbers in every component. */
  datatype ComponentScore = ComponentScore(
    name: string,
    rawValue: real,
    contribution: int,
    evidenceIds: seq<string>,
    reason: string)

  // ---------------------------------------------------------------------------
  // Intent strength (0..40)
  // ---------------------------------------------------------------------------

  const StrengthHiringKeywords: seq<string> :=
    ["hiring", "job", "career", "position", "engineer", "developer", "role", "join"]
  const StrengthFundingKeywords: seq<string> := ["funding", "raised", "series", "investment", "million"]
  const StrengthExecutiveKeywords: seq<string> := ["ceo", "cto", "executive", "appointed", "leadership"]

  /** `INTENT_STRENGTH_SCORES` */
  function IntentStrengthPoints(t: IntentType): int {
    match t
    case Hiring => 40
    case Funding => 30
    case ExecutiveChange => 20
  }

  /** The intent the scorer reads off the lower-cased text, by keyword priority. */
  function DetectIntent(text: string): (r: Option<IntentType>)
    ensures r == Some(Hiring) <==> ContainsAny(text, StrengthHiringKeywords)
    ensures r == Some(Funding) <==>
      !ContainsAny(text, StrengthHiringKeywords) && ContainsAny(text, StrengthFundingKeywords)
    ensures r == Some(ExecutiveChange) <==>
      !ContainsAny(text, StrengthHiringKeywords) && !ContainsAny(text, StrengthFundingKeywords)
      && ContainsAny(text, StrengthExecutiveKeywords)
  {
    if ContainsAny(text, StrengthHiringKeywords) then Some(Hiring)
    else if ContainsAny(text, StrengthFundingKeywords) then Some(Funding)
    else if ContainsAny(text, StrengthExecutiveKeywords) then Some(ExecutiveChange)
    else None
  }

  /** `compute_intent_strength` */
  function ComputeIntentStrength(signal: Option<Signal>, lead: Option<Lead>): (c: ComponentScore)
    ensures c.name == "intent_strength"
    ensures c.contribution in {0, 20, 30, 40} && c.rawValue == c.contribution as real
    ensures c.contribution == 40 <==> signal.Some? && ContainsAny(Lower(signal.value.rawText), StrengthHiringKeywords)
    ensures c.contribution > 0 <==> signal.Some? && DetectIntent(Lower(signal.value.rawText)).Some?
    ensures c.contribution > 0 ==>
      c.contribution == IntentStrengthPoints(DetectIntent(Lower(signal.value.rawText)).value)
    ensures c.evidenceIds == (if signal.Some? then [signal.value.signalId] else [])
  {
    if signal.None? && lead.None? then
      ComponentScore("intent_strength", 0.0, 0, [], "No signal data available for intent analysis")
    else
      var text := if signal.Some? then Lower(signal.value.rawText) else "";
      var evidenceIds := if signal.Some? then [signal.value.signalId] else [];
      var intentType := DetectIntent(text);
      if signal.None? then
        assert !ContainsAny(text, StrengthHiringKeywords) by { NoKeywordInEmpty(StrengthHiringKeywords); }
        assert !ContainsAny(text, StrengthFundingKeywords) by { NoKeywordInEmpty(StrengthFundingKeywords); }
        assert !ContainsAny(text, StrengthExecutiveKeywords) by { NoKeywordInEmpty(StrengthExecutiveKeywords); }
        ComponentScore("intent_strength", 0.0, 0, evidenceIds, "No clear intent signal detected")
      else if intentType.Some? then
        var score := IntentStrengthPoints(intentType.value);
        ComponentScore("intent_strength", score as real, score, evidenceIds,
          "Detected " + intentType.value.Value() + " intent signal (+" + IntToString(score) + " points)")
      else
        ComponentScore("intent_strength", 0.0, 0, evidenceIds, "No clear intent signal detected")
  }

  /** No non-empty keyword occurs in the empty text. */
  lemma NoKeywordInEmpty(kws: seq<string>)
    requires forall i | 0 <= i < |kws| :: kws[i] != ""
    ensures !ContainsAny("", kws)
  {
  }

  /** The intent component ignores letter case. */
  lemma IntentStrengthIgnoresCase(s: Signal, lead: Option<Lead>)
    ensures ComputeIntentStrength(Some(s.(rawText := Lower(s.rawText))), lead).contribution
         == ComputeIntentStrength(Some(s), lead).contribution
  {
    LowerIdempotent(s.rawText);
  }

  // ---------------------------------------------------------------------------
  // Signal freshness (0..25)
  // ---------------------------------------------------------------------------

  /** The freshness ladder on whole days of age. */
  function FreshnessPoints(days: int): (points: int)
    ensures points in {0, 5, 10, 15, 20, 25}
    ensures points == 25 <==> days <= 3
    ensures points == 20 <==> 3 < days <= 7
    ensures points == 15 <==> 7 < days <= 14
    ensures points == 10 <==> 14 < days <= 21
    ensures points == 5 <==> 21 < days <= 30
    ensures points == 0 <==> days > 30
  {
    if days <= 3 then 25
    else if days <= 7 then 20
    else if days <= 14 then 15
    else if days <= 21 then 10
    else if days <= 30 then 5
    else 0
  }

  function FreshnessLabel(days: int): string {
    var d := IntToString(days);
    if days <= 3 then "Very fresh signal (" + d + " days old)"
    else if days <= 7 then "Fresh signal (" + d + " days old)"
    else if days <= 14 then "Recent signal (" + d + " days old)"
    else if days <= 21 then "Aging signal (" + d + " days old)"
    else if days <= 30 then "Old signal (" + d + " days old)"
    else "Stale signal (" + d + " days old, no freshness bonus)"
  }

  /** `compute_signal_freshness` at reference time `now`. */
  function ComputeSignalFreshness(signal: Option<Signal>, now: int): (c: ComponentScore)
    ensures c.name == "signal_freshness"
    ensures 0 <= c.contribution <= 25
    ensures signal.None? ==> c.contribution == 0 && c.evidenceIds == []
    ensures signal.Some? ==>
      && c.rawValue == AgeDays(signal.value.timestamp, now) as real
      && c.contribution == FreshnessPoints(AgeDays(signal.value.timestamp, now))
      && c.evidenceIds == [signal.value.signalId]
  {
    if signal.None? then
      ComponentScore("signal_freshness", 0.0, 0, [], "No signal timestamp available")
    else
      var daysOld := AgeDays(signal.value.timestamp, now);
      var score := FreshnessPoints(daysOld);
      ComponentScore("signal_freshness", daysOld as real, score, [signal.value.signalId],
        FreshnessLabel(daysOld) + " (+" + IntToString(score) + " points)")
  }

  /** More days of age never earn more points. */
  lemma {:induction false} FreshnessPointsMonotone(d1: int, d2: int)
    requires d1 <= d2
    ensures FreshnessPoints(d2) <= FreshnessPoints(d1)
  {
  }

  /** A newer signal never scores lower on freshness; a later reference time
      never scores a signal higher. */
  lemma FreshnessNonIncreasingWithAge(s1: Signal, s2: Signal, now: int)
    requires s2.timestamp <= s1.timestamp
    ensures ComputeSignalFreshness(Some(s2), now).contribution <= ComputeSignalFreshness(Some(s1), now).contribution
  {
    DivMonotone(now - s1.timestamp, now - s2.timestamp, SecondsPerDay);
    FreshnessPointsMonotone(AgeDays(s1.timestamp, now), AgeDays(s2.timestamp, now));
  }

  lemma FreshnessDecreasesOverTime(s: Signal, now1: int, now2: int)
    requires now1 <= now2
    ensures ComputeSignalFreshness(Some(s), now2).contribution <= ComputeSignalFreshness(Some(s), now1).contribution
  {
    DivMonotone(now1 - s.timestamp, now2 - s.timestamp, SecondsPerDay);
    FreshnessPointsMonotone(AgeDays(s.timestamp, now1), AgeDays(s.timestamp, now2));
  }

  // ---------------------------------------------------------------------------
  // Evidence confidence (0..20)
  // ---------------------------------------------------------------------------

  /** `min(e.meta.confidence for e in es)` */
  function MinConfidence(es: seq<Evidence>): (m: real)
    requires es != []
    ensures forall i | 0 <= i < |es| :: m <= es[i].meta.confidence
    ensures exists i | 0 <= i < |es| :: m == es[i].meta.confidence
  {
    if |es| == 1 then es[0].meta.confidence
    else
      var rest := MinConfidence(es[1..]);
      assert forall i | 1 <= i < |es| :: es[i] == es[1..][i - 1];
      if es[0].meta.confidence <= rest then es[0].meta.confidence else rest
  }

  /** The confidence ladder. */
  function ConfidencePoints(c: real): (points: int)
    ensures points in {0, 5, 10, 15, 20}
    ensures points == 20 <==> c >= 0.8
    ensures points == 15 <==> 0.6 <= c < 0.8
    ensures points == 10 <==> 0.4 <= c < 0.6
    ensures points == 5 <==> 0.2 <= c < 0.4
    ensures points == 0 <==> c < 0.2
  {
    if c >= 0.8 then 20
    else if c >= 0.6 then 15
    else if c >= 0.4 then 10
    else if c >= 0.2 then 5
    else 0
  }

  function ConfidenceLevel(c: real): string {
    if c >= 0.8 then "High"
    else if c >= 0.6 then "Good"
    else if c >= 0.4 then "Moderate"
    else if c >= 0.2 then "Low"
    else "Very low"
  }

  /** A more trusted weakest link never earns fewer points. */
  lemma {:induction false} ConfidencePointsMonotone(c1: real, c2: real)
    requires c1 <= c2
    ensures ConfidencePoints(c1) <= ConfidencePoints(c2)
  {
  }

  /** `compute_evidence_confidence`: the weakest evidence decides (the list
      always holds name and domain, so the empty case never arises). */
  function ComputeEvidenceConfidence(p: Platform, entity: Entity): (c: ComponentScore)
    reads entity
    ensures c.name == "evidence_confidence"
    ensures 0 <= c.contribution <= 20
    ensures c.evidenceIds == EvidenceIds(GetEntityEvidence(entity))
    ensures c.rawValue <= entity.companyName.meta.confidence && c.rawValue <= entity.domain.meta.confidence
    ensures entity.industry.Some? ==> c.rawValue <= entity.industry.value.meta.confidence
    ensures entity.sizeEstimate.Some? ==> c.rawValue <= entity.sizeEstimate.value.meta.confidence
    ensures exists i | 0 <= i < |GetEntityEvidence(entity)| :: c.rawValue == GetEntityEvidence(entity)[i].meta.confidence
    ensures c.contribution == ConfidencePoints(c.rawValue)
  {
    var evidenceObjects := GetEntityEvidence(entity);
    var minConfidence := MinConfidence(evidenceObjects);
    var score := ConfidencePoints(minConfidence);
    ComponentScore("evidence_confidence", minConfidence, score, EvidenceIds(evidenceObjects),
      ConfidenceLevel(minConfidence) + " evidence confidence (" + p.formatPercent(minConfidence)
      + ") (+" + IntToString(score) + " points)")
  }

  // ---------------------------------------------------------------------------
  // Entity completeness (5..10)
  // ---------------------------------------------------------------------------

  /** `compute_entity_completeness`: 5 for the required pair, +3 industry, +2 size. */
  function ComputeEntityCompleteness(entity: Entity): (c: ComponentScore)
    reads entity
    ensures c.name == "entity_completeness"
    ensures 5 <= c.contribution <= 10
    ensures c.contribution == 5 + (if entity.industry.Some? then 3 else 0) + (if entity.sizeEstimate.Some? then 2 else 0)
    ensures c.contribution == 10 <==> entity.industry.Some? && entity.sizeEstimate.Some?
    ensures c.contribution == 8 <==> entity.industry.Some? && entity.sizeEstimate.None?
    ensures c.contribution == 7 <==> entity.industry.None? && entity.sizeEstimate.Some?
    ensures c.contribution == 5 <==> entity.industry.None? && entity.sizeEstimate.None?
    ensures c.evidenceIds == EvidenceIds(GetEntityEvidence(entity))
    ensures c.rawValue == |GetEntityEvidence(entity)| as real / 4.0
  {
    var industryPoints := if entity.industry.Some? then 3 else 0;
    var sizePoints := if entity.sizeEstimate.Some? then 2 else 0;
    var score := 5 + industryPoints + sizePoints;
    var fieldsPresent := ["company_name", "domain"]
      + (if entity.industry.Some? then ["industry"] else [])
      + (if entity.sizeEstimate.Some? then ["size_estimate"] else []);
    var evidenceIds := [entity.companyName.evidenceId, entity.domain.evidenceId]
      + (if entity.industry.Some? then [entity.industry.value.evidenceId] else [])
      + (if entity.sizeEstimate.Some? then [entity.sizeEstimate.value.evidenceId] else []);
    assert evidenceIds == EvidenceIds(GetEntityEvidence(entity));
    ComponentScore("entity_completeness", |fieldsPresent| as real / 4.0, score, evidenceIds,
      "Entity has " + IntToString(|fieldsPresent|) + " fields (" + Join(fieldsPresent, ", ")
      + ") (+" + IntToString(score) + " points)")
  }

  // ---------------------------------------------------------------------------
  // Noise penalty (-10..0)
  // ---------------------------------------------------------------------------

  const NoiseKeywords: seq<string> := [
    "maybe", "possibly", "might", "unclear", "unconfirmed",
    "rumor", "speculation", "could be", "tbd", "tentative"]

  /** `compute_noise_penalty`: one or two distinct markers cost 5, three or more 10. */
  function ComputeNoisePenalty(signal: Option<Signal>): (c: ComponentScore)
    ensures c.name == "noise_penalty"
    ensures c.contribution in {0, -5, -10}
    ensures signal.None? ==> c.contribution == 0 && c.evidenceIds == []
    ensures signal.Some? ==>
      && c.evidenceIds == [signal.value.signalId]
      && c.rawValue == CountContained(Lower(signal.value.rawText), NoiseKeywords) as real
      && (c.contribution == 0 <==> !ContainsAny(Lower(signal.value.rawText), NoiseKeywords))
      && (c.contribution == -10 <==> CountContained(Lower(signal.value.rawText), NoiseKeywords) >= 3)
  {
    if signal.None? then
      ComponentScore("noise_penalty", 0.0, 0, [], "No signal text to analyze for noise")
    else
      var text := Lower(signal.value.rawText);
      var evidenceIds := [signal.value.signalId];
      var noiseCount := CountContained(text, NoiseKeywords);
      if noiseCount == 0 then
        ComponentScore("noise_penalty", 0.0, 0, evidenceIds, "Clean signal, no uncertainty markers")
      else if noiseCount <= 2 then
        ComponentScore("noise_penalty", noiseCount as real, -5, evidenceIds,
          "Signal contains " + IntToString(noiseCount) + " uncertainty markers (-5 points)")
      else
        ComponentScore("noise_penalty", noiseCount as real, -10, evidenceIds,
          "Signal contains " + IntToString(noiseCount) + " uncertainty markers (-10 points)")
  }
}

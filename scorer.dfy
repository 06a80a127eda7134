/** Lead scoring: the five components summed with no weights, a tier from
    fixed thresholds, stable ranking by score, and the explanations. */
module Scorer {
  import opened Base
  import opened EvidenceLedger
  import opened Domain
  import opened Components

  // ---------------------------------------------------------------------------
  // Tiers
  // ---------------------------------------------------------------------------

  datatype LeadTier = TierA | TierB | TierC | TierD {
    function Value(): string {
      match this
      case TierA => "A"
      case TierB => "B"
      case TierC => "C"
      case TierD => "D"
    }

    /** 0 for the highest priority, 3 for the lowest. */
    function Rank(): nat {
      match this
      case TierA => 0
      case TierB => 1
      case TierC => 2
      case TierD => 3
    }
  }

  /** `compute_tier` */
  function ComputeTier(score: int): (t: LeadTier)
    ensures t == TierA <==> score >= 60
    ensures t == TierB <==> 40 <= score < 60
    ensures t == TierC <==> 20 <= score < 40
    ensures t == TierD <==> score < 20
  {
    if score >= 60 then TierA
    else if score >= 40 then TierB
    else if score >= 20 then TierC
    else TierD
  }

  /** A higher score never lands in a lower-priority tier. */
  lemma {:induction false} TierMonotone(s1: int, s2: int)
    requires s1 <= s2
    ensures ComputeTier(s2).Rank() <= ComputeTier(s1).Rank()
  {
  }

  // ---------------------------------------------------------------------------
  // Breakdown
  // ---------------------------------------------------------------------------

  datatype ScoreBreakdown = ScoreBreakdown(
    intentStrength: ComponentScore,
    signalFreshness: ComponentScore,
    evidenceConfidence: ComponentScore,
    entityCompleteness: ComponentScore,
    noisePenalty: ComponentScore)
  {
    function Components(): (cs: seq<ComponentScore>)
      ensures |cs| == 5
    {
      [intentStrength, signalFreshness, evidenceConfidence, entityCompleteness, noisePenalty]
    }

    function TotalScore(): int {
      intentStrength.contribution + signalFreshness.contribution + evidenceConfidence.contribution
      + entityCompleteness.contribution + noisePenalty.contribution
    }

    function Tier(): LeadTier {
      ComputeTier(TotalScore())
    }

    /** `all_evidence_ids`: the union over components (its list order is a set's). */
    function AllEvidenceIds(): (ids: set<string>)
      ensures forall i, j | 0 <= i < 5 && 0 <= j < |Components()[i].evidenceIds| ::
                Components()[i].evidenceIds[j] in ids
      ensures forall x | x in ids :: exists i | 0 <= i < 5 :: x in Components()[i].evidenceIds
    {
      var cs := Components();
      set i, j | 0 <= i < 5 && 0 <= j < |cs[i].evidenceIds| :: cs[i].evidenceIds[j]
    }

    function PositiveContributors(): seq<ComponentScore> {
      FilterBySign(Components(), true)
    }

    function NegativeContributors(): seq<ComponentScore> {
      FilterBySign(Components(), false)
    }
  }

  /** The components with positive (`positive`) or negative contributions, in order. */
  function FilterBySign(cs: seq<ComponentScore>, positive: bool): (r: seq<ComponentScore>)
    ensures |r| <= |cs|
    ensures forall c | c in r :: c in cs && (if positive then c.contribution > 0 else c.contribution < 0)
    ensures forall c | c in cs && (if positive then c.contribution > 0 else c.contribution < 0) :: c in r
  {
    if cs == [] then []
    else
      (if (if positive then cs[0].contribution > 0 else cs[0].contribution < 0) then [cs[0]] else [])
      + FilterBySign(cs[1..], positive)
  }

  function SumContributions(cs: seq<ComponentScore>): int {
    if cs == [] then 0 else cs[0].contribution + SumContributions(cs[1..])
  }

  /** The total is the sum over the component list. */
  lemma TotalIsSumOfComponents(b: ScoreBreakdown)
    ensures b.TotalScore() == SumContributions(b.Components())
  {
    var cs := b.Components();
    assert SumContributions(cs[4..]) == cs[4].contribution by { assert cs[4..][1..] == []; }
    assert SumContributions(cs[3..]) == cs[3].contribution + SumContributions(cs[4..]) by {
      assert cs[3..][1..] == cs[4..];
    }
    assert SumContributions(cs[2..]) == cs[2].contribution + SumContributions(cs[3..]) by {
      assert cs[2..][1..] == cs[3..];
    }
    assert SumContributions(cs[1..]) == cs[1].contribution + SumContributions(cs[2..]) by {
      assert cs[1..][1..] == cs[2..];
    }
  }

  /** Positive and negative contributors together account for the whole score:
      the explanation's "why" adds up exactly. */
  lemma {:induction false} SignedPartsSum(cs: seq<ComponentScore>)
    ensures SumContributions(cs) ==
            SumContributions(FilterBySign(cs, true)) + SumContributions(FilterBySign(cs, false))
  {
    if cs != [] {
      SignedPartsSum(cs[1..]);
      SumAppend(if cs[0].contribution > 0 then [cs[0]] else [], FilterBySign(cs[1..], true));
      SumAppend(if cs[0].contribution < 0 then [cs[0]] else [], FilterBySign(cs[1..], false));
    }
  }

  lemma {:induction false} SumAppend(a: seq<ComponentScore>, b: seq<ComponentScore>)
    ensures SumContributions(a + b) == SumContributions(a) + SumContributions(b)
  {
    if a == [] {
      assert a + b == b;
    } else {
      assert (a + b)[1..] == a[1..] + b;
      SumAppend(a[1..], b);
    }
  }

  lemma ExplainedTotal(b: ScoreBreakdown)
    ensures b.TotalScore() ==
            SumContributions(b.PositiveContributors()) + SumContributions(b.NegativeContributors())
  {
    TotalIsSumOfComponents(b);
    SignedPartsSum(b.Components());
  }

  // ---------------------------------------------------------------------------
  // Scoring one lead
  // ---------------------------------------------------------------------------

  datatype RankedLead = RankedLead(entity: Entity, breakdown: ScoreBreakdown, signal: Option<Signal>)
  {
    function Score(): int {
      breakdown.TotalScore()
    }
  }

  /** `score_lead` at reference time `now`. Intent strength gets no lead, so a
      missing signal reads as "no signal data". */
  function ScoreLead(p: Platform, entity: Entity, signal: Option<Signal>, now: int): (r: RankedLead)
    reads entity
    ensures r.entity == entity && r.signal == signal
  {
    RankedLead(entity, ScoreBreakdown(
      ComputeIntentStrength(signal, None),
      ComputeSignalFreshness(signal, now),
      ComputeEvidenceConfidence(p, entity),
      ComputeEntityCompleteness(entity),
      ComputeNoisePenalty(signal)), signal)
  }

  /** Component ranges add up to totals within -5..95. */
  lemma BreakdownBounds(b: ScoreBreakdown)
    requires 0 <= b.intentStrength.contribution <= 40 && 0 <= b.signalFreshness.contribution <= 25
    requires 0 <= b.evidenceConfidence.contribution <= 20 && 5 <= b.entityCompleteness.contribution <= 10
    requires -10 <= b.noisePenalty.contribution <= 0
    ensures -5 <= b.TotalScore() <= 95
  {
  }

  /** Totals stay within -5..95. */
  lemma ScoreLeadBounds(p: Platform, entity: Entity, signal: Option<Signal>, now: int)
    ensures -5 <= ScoreLead(p, entity, signal, now).Score() <= 95
  {
    BreakdownBounds(ScoreLead(p, entity, signal, now).breakdown);
  }

  /** An id cited by a breakdown is cited by one of its components. */
  lemma BreakdownCites(b: ScoreBreakdown, signalIds: seq<string>, entityIds: seq<string>, x: string)
    requires b.intentStrength.evidenceIds == signalIds && b.signalFreshness.evidenceIds == signalIds
    requires b.noisePenalty.evidenceIds == signalIds
    requires b.evidenceConfidence.evidenceIds == entityIds && b.entityCompleteness.evidenceIds == entityIds
    requires x in b.AllEvidenceIds()
    ensures x in signalIds || x in entityIds
  {
    var cs := b.Components();
    var i :| 0 <= i < 5 && x in cs[i].evidenceIds;
  }

  /** Every evidence id a score cites is the signal's or one of the entity's. */
  lemma ScoreCitesOnlyItsInputs(p: Platform, entity: Entity, signal: Option<Signal>, now: int, x: string)
    requires x in ScoreLead(p, entity, signal, now).breakdown.AllEvidenceIds()
    ensures (signal.Some? && x == signal.value.signalId) || x in EvidenceIds(GetEntityEvidence(entity))
  {
    var signalIds := if signal.Some? then [signal.value.signalId] else [];
    BreakdownCites(ScoreLead(p, entity, signal, now).breakdown, signalIds, EvidenceIds(GetEntityEvidence(entity)), x);
  }

  /** Without a signal, only confidence and completeness score: at most 30,
      so never tier A or B. */
  lemma NoSignalCapsAtTierC(p: Platform, entity: Entity, now: int)
    ensures ScoreLead(p, entity, None, now).Score() <= 30
    ensures ScoreLead(p, entity, None, now).breakdown.Tier().Rank() >= 2
  {
  }

  // ---------------------------------------------------------------------------
  // Ranking
  // ---------------------------------------------------------------------------

  /** `signals[i] if signals and i < len(signals) else None` */
  function SignalFor(signals: Option<seq<Signal>>, i: nat): Option<Signal> {
    if signals.Some? && i < |signals.value| then Some(signals.value[i]) else None
  }

  /** The first `n` leads scored in input order, before sorting: lead i is
      entity i scored with signal i (or with none when the signal list is
      missing or shorter). */
  function ScoredInOrder(p: Platform, entities: seq<Entity>, signals: Option<seq<Signal>>, now: int, n: nat): (r: seq<RankedLead>)
    requires n <= |entities|
    reads entities
    ensures |r| == n
    ensures forall i | 0 <= i < n :: r[i] == ScoreLead(p, entities[i], SignalFor(signals, i), now)
  {
    seq(n, i requires 0 <= i < n reads entities => ScoreLead(p, entities[i], SignalFor(signals, i), now))
  }

  predicate SortedByScore(s: seq<RankedLead>) {
    forall i, j | 0 <= i < j < |s| :: s[i].Score() >= s[j].Score()
  }

  /** The leads with score k, in their order in s. */
  function WithScore(s: seq<RankedLead>, k: int): seq<RankedLead> {
    if s == [] then []
    else (if s[0].Score() == k then [s[0]] else []) + WithScore(s[1..], k)
  }

  lemma {:induction false} WithScoreAppend(a: seq<RankedLead>, b: seq<RankedLead>, k: int)
    ensures WithScore(a + b, k) == WithScore(a, k) + WithScore(b, k)
  {
    if a == [] {
      assert a + b == b;
    } else {
      assert (a + b)[1..] == a[1..] + b;
      WithScoreAppend(a[1..], b, k);
    }
  }

  lemma {:induction false} WithScoreNone(s: seq<RankedLead>, k: int)
    requires forall i | 0 <= i < |s| :: s[i].Score() != k
    ensures WithScore(s, k) == []
  {
    if s != [] {
      WithScoreNone(s[1..], k);
    }
  }

  lemma InsertKeepsSorted(s: seq<RankedLead>, x: RankedLead, j: nat)
    requires SortedByScore(s) && j <= |s|
    requires forall t | 0 <= t < j :: s[t].Score() >= x.Score()
    requires forall t | j <= t < |s| :: s[t].Score() < x.Score()
    ensures SortedByScore(s[..j] + [x] + s[j..])
  {
    var r := s[..j] + [x] + s[j..];
    forall a, b | 0 <= a < b < |r|
      ensures r[a].Score() >= r[b].Score()
    {
      if b < j {
        assert r[a] == s[a] && r[b] == s[b];
      } else if b == j {
        assert r[a] == s[a];
      } else if a == j {
        assert r[b] == s[b - 1];
      } else if a < j {
        assert r[a] == s[a] && r[b] == s[b - 1];
      } else {
        assert r[a] == s[a - 1] && r[b] == s[b - 1];
      }
    }
  }

  lemma InsertKeepsScoreClasses(s: seq<RankedLead>, x: RankedLead, j: nat, k: int)
    requires j <= |s|
    requires forall t | j <= t < |s| :: s[t].Score() < x.Score()
    ensures WithScore(s[..j] + [x] + s[j..], k) == WithScore(s + [x], k)
  {
    assert s == s[..j] + s[j..];
    WithScoreAppend(s[..j] + [x], s[j..], k);
    WithScoreAppend(s[..j], [x], k);
    WithScoreAppend(s[..j], s[j..], k);
    WithScoreAppend(s, [x], k);
    if k == x.Score() {
      WithScoreNone(s[j..], k);
    }
  }

  /** Inserting x behind every lead scoring at least as much keeps the order
      sorted and keeps each score class in arrival order. */
  method InsertByScore(s: seq<RankedLead>, x: RankedLead) returns (r: seq<RankedLead>)
    requires SortedByScore(s)
    ensures SortedByScore(r)
    ensures multiset(r) == multiset(s) + multiset{x}
    ensures forall k :: WithScore(r, k) == WithScore(s + [x], k)
  {
    var j := 0;
    while j < |s| && s[j].Score() >= x.Score()
      invariant 0 <= j <= |s|
      invariant forall t | 0 <= t < j :: s[t].Score() >= x.Score()
    {
      j := j + 1;
    }
    assert forall t | j <= t < |s| :: s[t].Score() < x.Score() by {
      if j < |s| {
        forall t | j <= t < |s| ensures s[t].Score() < x.Score() {
          assert s[j].Score() >= s[t].Score();
        }
      }
    }
    r := s[..j] + [x] + s[j..];
    InsertKeepsSorted(s, x, j);
    assert multiset(r) == multiset(s) + multiset{x} by {
      assert s == s[..j] + s[j..];
    }
    forall k
      ensures WithScore(r, k) == WithScore(s + [x], k)
    {
      InsertKeepsScoreClasses(s, x, j, k);
    }
  }

  /** `sort(key=score, reverse=True)`: highest score first, and leads with
      equal scores keep their relative order (the sort is stable). */
  method SortByScore(scored: seq<RankedLead>) returns (ranked: seq<RankedLead>)
    ensures SortedByScore(ranked)
    ensures multiset(ranked) == multiset(scored)
    ensures forall k :: WithScore(ranked, k) == WithScore(scored, k)
  {
    ranked := [];
    for i := 0 to |scored|
      invariant SortedByScore(ranked)
      invariant multiset(ranked) == multiset(scored[..i])
      invariant forall k :: WithScore(ranked, k) == WithScore(scored[..i], k)
    {
      assert scored[..i + 1] == scored[..i] + [scored[i]];
      var before := ranked;
      ranked := InsertByScore(ranked, scored[i]);
      forall k
        ensures WithScore(ranked, k) == WithScore(scored[..i + 1], k)
      {
        WithScoreAppend(before, [scored[i]], k);
        WithScoreAppend(scored[..i], [scored[i]], k);
      }
    }
    assert scored[..|scored|] == scored;
  }

  /** The scoring loop of `score_leads`: each entity with its positional signal. */
  method ScoreEach(p: Platform, entities: seq<Entity>, signals: Option<seq<Signal>>, now: int)
    returns (scored: seq<RankedLead>)
    ensures scored == ScoredInOrder(p, entities, signals, now, |entities|)
  {
    scored := [];
    for i := 0 to |entities|
      invariant scored == ScoredInOrder(p, entities, signals, now, i)
    {
      ScoredInOrderStep(p, entities, signals, now, i);
      scored := scored + [ScoreLead(p, entities[i], SignalFor(signals, i), now)];
    }
  }

  lemma ScoredInOrderStep(p: Platform, entities: seq<Entity>, signals: Option<seq<Signal>>, now: int, i: nat)
    requires i < |entities|
    ensures ScoredInOrder(p, entities, signals, now, i + 1)
         == ScoredInOrder(p, entities, signals, now, i) + [ScoreLead(p, entities[i], SignalFor(signals, i), now)]
  {
    var a := ScoredInOrder(p, entities, signals, now, i + 1);
    var b := ScoredInOrder(p, entities, signals, now, i);
    forall k | 0 <= k < i ensures a[k] == b[k] {
    }
    Snoc(a, b, ScoreLead(p, entities[i], SignalFor(signals, i), now));
  }

  /** A sequence one longer than b that agrees with b and ends in x is b + [x]. */
  lemma Snoc<T>(a: seq<T>, b: seq<T>, x: T)
    requires |a| == |b| + 1 && a[|b|] == x
    requires forall k | 0 <= k < |b| :: a[k] == b[k]
    ensures a == b + [x]
  {
  }

  /** `score_leads`: score each entity with its positional signal, then sort. */
  method ScoreLeads(p: Platform, entities: seq<Entity>, signals: Option<seq<Signal>>, now: int)
    returns (ranked: seq<RankedLead>)
    ensures |ranked| == |entities|
    ensures SortedByScore(ranked)
    ensures multiset(ranked) == multiset(ScoredInOrder(p, entities, signals, now, |entities|))
    ensures forall k :: WithScore(ranked, k) == WithScore(ScoredInOrder(p, entities, signals, now, |entities|), k)
  {
    var scored := ScoreEach(p, entities, signals, now);
    ranked := SortByScore(scored);
    assert |ranked| == |multiset(ranked)| == |multiset(scored)| == |scored|;
  }

  // ---------------------------------------------------------------------------
  // Explanations
  // ---------------------------------------------------------------------------

  function SummaryLine(t: LeadTier): string {
    match t
    case TierA => "**Summary:** This is a high-priority lead with strong signals."
    case TierB => "**Summary:** This is a medium-priority lead worth following up on."
    case TierC => "**Summary:** This is a lower-priority lead with some potential."
    case TierD => "**Summary:** This lead has weak signals and should be deprioritized."
  }

  function Reasons(cs: seq<ComponentScore>): (rs: seq<string>)
    ensures |rs| == |cs| && forall i | 0 <= i < |cs| :: rs[i] == cs[i].reason
  {
    if cs == [] then [] else [cs[0].reason] + Reasons(cs[1..])
  }

  function HeaderLine(companyName: string, b: ScoreBreakdown): string {
    "**" + companyName + "** is ranked as Tier " + b.Tier().Value() + " with a score of "
    + IntToString(b.TotalScore()) + "/95."
  }

  /** One bullet per component, in component order. */
  function Bullets(cs: seq<ComponentScore>): (r: seq<string>)
    ensures |r| == |cs| && forall i | 0 <= i < |cs| :: r[i] == "- " + cs[i].reason
  {
    if cs == [] then [] else Bullets(cs[..|cs| - 1]) + ["- " + cs[|cs| - 1].reason]
  }

  function BreakdownHead(companyName: string, b: ScoreBreakdown): seq<string> {
    [HeaderLine(companyName, b), "", "**Score Breakdown:**"]
  }

  function ConcernsLine(b: ScoreBreakdown): string {
    "**Concerns:** " + Join(Reasons(b.NegativeContributors()), "; ")
  }

  /** The lines of the explanation: header, one bullet per component, the
      tier's summary, and the concerns when any component subtracts. */
  function ExplanationLines(companyName: string, b: ScoreBreakdown): (lines: seq<string>)
    ensures |lines| == (if b.NegativeContributors() == [] then 10 else 12)
  {
    var main := BreakdownHead(companyName, b) + Bullets(b.Components()) + ["", SummaryLine(b.Tier())];
    if b.NegativeContributors() != [] then main + ["", ConcernsLine(b)] else main
  }

  /** The header line comes first. */
  lemma ExplanationHeader(companyName: string, b: ScoreBreakdown)
    ensures ExplanationLines(companyName, b)[0] == HeaderLine(companyName, b)
  {
    MainPrefix(companyName, b);
  }

  /** A blank line and then the tier's summary close the main part. */
  lemma ExplanationSummary(companyName: string, b: ScoreBreakdown)
    ensures ExplanationLines(companyName, b)[8] == ""
    ensures ExplanationLines(companyName, b)[9] == SummaryLine(b.Tier())
  {
    MainPrefix(companyName, b);
  }

  lemma MainPrefix(companyName: string, b: ScoreBreakdown)
    ensures var main := BreakdownHead(companyName, b) + Bullets(b.Components()) + ["", SummaryLine(b.Tier())];
      |main| == 10 && forall i | 0 <= i < 10 :: ExplanationLines(companyName, b)[i] == main[i]
  {
  }

  /** Line 3 + i is component i's bullet. */
  lemma ExplanationBullets(companyName: string, b: ScoreBreakdown, i: nat)
    requires i < 5
    ensures ExplanationLines(companyName, b)[3 + i] == "- " + b.Components()[i].reason
  {
    var head := BreakdownHead(companyName, b);
    var bullets := Bullets(b.Components());
    MainPrefix(companyName, b);
    assert (head + bullets)[3 + i] == bullets[i];
  }

  /** The concerns line closes the explanation exactly when some component subtracts. */
  lemma ExplanationConcerns(companyName: string, b: ScoreBreakdown)
    ensures b.NegativeContributors() != [] ==> ExplanationLines(companyName, b)[11] == ConcernsLine(b)
  {
  }

  /** `generate_explanation` */
  method GenerateExplanation(entity: Entity, b: ScoreBreakdown) returns (text: string)
    ensures text == Join(ExplanationLines(entity.NameValue(), b), "\n")
  {
    var head := BreakdownHead(entity.NameValue(), b);
    var lines := head;
    var cs := b.Components();
    for i := 0 to |cs|
      invariant lines == head + Bullets(cs[..i])
    {
      assert cs[..i + 1][..i] == cs[..i];
      lines := lines + ["- " + cs[i].reason];
    }
    assert cs[..|cs|] == cs;
    lines := lines + ["", SummaryLine(b.Tier())];
    var negative := b.NegativeContributors();
    if negative != [] {
      lines := lines + ["", ConcernsLine(b)];
    }
    text := Join(lines, "\n");
  }

  /** Every line of a joined text occurs in it. */
  lemma {:induction false} JoinContainsPart(parts: seq<string>, sep: string, i: nat)
    requires i < |parts|
    ensures Contains(Join(parts, sep), parts[i])
  {
    if |parts| == 1 {
      ContainsAt(Join(parts, sep), parts[0], 0);
    } else if i == 0 {
      var j := Join(parts, sep);
      assert j == parts[0] + (sep + Join(parts[1..], sep));
      assert j[0..|parts[0]|] == parts[0];
      ContainsAt(j, parts[0], 0);
    } else {
      JoinContainsPart(parts[1..], sep, i - 1);
      ContainsSuffix(parts[0] + sep, Join(parts[1..], sep), parts[i]);
    }
  }

  lemma {:induction false} ContainsSuffix(a: string, b: string, p: string)
    requires Contains(b, p)
    ensures Contains(a + b, p)
    decreases |a|
  {
    if a != [] {
      assert (a + b)[1..] == a[1..] + b;
      ContainsSuffix(a[1..], b, p);
    } else {
      assert a + b == b;
    }
  }

  /** Each component's reason is quoted in the explanation. */
  lemma ExplanationQuotesEveryReason(companyName: string, b: ScoreBreakdown, i: nat)
    requires i < 5
    ensures Contains(Join(ExplanationLines(companyName, b), "\n"), "- " + b.Components()[i].reason)
  {
    ExplanationBullets(companyName, b, i);
    JoinContainsPart(ExplanationLines(companyName, b), "\n", 3 + i);
  }

  /** Where the first component with the largest contribution sits (`max`
      keeps the first of several equal maxima). */
  function StrongestIndex(cs: seq<ComponentScore>): (i: nat)
    requires cs != []
    ensures i < |cs|
    ensures forall j | 0 <= j < |cs| :: cs[j].contribution <= cs[i].contribution
    ensures forall j | 0 <= j < i :: cs[j].contribution < cs[i].contribution
  {
    if |cs| == 1 then 0
    else
      var r := StrongestIndex(cs[1..]);
      assert forall j | 1 <= j < |cs| :: cs[j] == cs[1..][j - 1];
      if cs[0].contribution >= cs[r + 1].contribution then 0 else r + 1
  }

  /** `generate_short_explanation` */
  function ShortExplanation(b: ScoreBreakdown): (s: string)
    ensures var head := "Tier " + b.Tier().Value() + " (" + IntToString(b.TotalScore()) + " pts) \U{2014} ";
      && StartsWith(s, head)
      && (b.PositiveContributors() == [] ==> s == head + "No strong signals detected")
      && (b.PositiveContributors() != [] ==>
            var pos := b.PositiveContributors();
            exists i | 0 <= i < |pos| ::
              && s == head + pos[i].reason
              && (forall j | 0 <= j < |pos| :: pos[j].contribution <= pos[i].contribution)
              && (forall j | 0 <= j < i :: pos[j].contribution < pos[i].contribution))
  {
    var head := "Tier " + b.Tier().Value() + " (" + IntToString(b.TotalScore()) + " pts) \U{2014} ";
    var positive := b.PositiveContributors();
    if positive != [] then
      var k := StrongestIndex(positive);
      head + positive[k].reason
    else
      head + "No strong signals detected"
  }
}

/** Waterfall enrichment: optional, evidence-backed attributes added to an
    entity that has already been resolved. Enrichment never creates, rejects
    or repairs an entity; a failed inference leaves its slot as it was. */
module Enrichment {
  import opened Base
  import opened EvidenceLedger
  import opened Domain

  // ---------------------------------------------------------------------------
  // Keyword tables
  // ---------------------------------------------------------------------------

  /** The industries of the keyword table, with the names inferences carry. */
  datatype Industry = Technology | Fintech | Healthcare | ECommerce | Education | Marketing | Cybersecurity
  {
    function Value(): string {
      match this
      case Technology => "technology"
      case Fintech => "fintech"
      case Healthcare => "healthcare"
      case ECommerce => "e-commerce"
      case Education => "education"
      case Marketing => "marketing"
      case Cybersecurity => "cybersecurity"
    }
  }

  /** The industry table's order, which is the order matches are recorded in. */
  const Industries: seq<Industry> :=
    [Technology, Fintech, Healthcare, ECommerce, Education, Marketing, Cybersecurity]

  function IndustryKeywords(i: Industry): seq<string> {
    match i
    case Technology => ["software", "saas", "api", "cloud", "devops", "engineering",
                        "platform", "tech", "ai", "machine learning", "data science",
                        "developer", "programming", "code", "app", "mobile"]
    case Fintech => ["fintech", "payments", "banking", "financial technology",
                     "cryptocurrency", "blockchain", "defi", "neobank"]
    case Healthcare => ["healthcare", "healthtech", "medtech", "clinical", "medical",
                        "hospital", "patient", "diagnosis", "pharma", "biotech"]
    case ECommerce => ["e-commerce", "ecommerce", "retail", "marketplace", "shopping",
                       "online store", "dropship"]
    case Education => ["edtech", "education", "learning", "training", "course",
                       "school", "university", "tutoring"]
    case Marketing => ["marketing", "advertising", "adtech", "seo", "content",
                       "social media", "brand", "agency"]
    case Cybersecurity => ["security", "cybersecurity", "infosec", "encryption",
                           "vulnerability", "penetration", "threat"]
  }

  /** The size ranges of the indicator table. */
  datatype SizeRange = Startup | Scaleup | Enterprise
  {
    function Value(): string {
      match this
      case Startup => "startup"
      case Scaleup => "scaleup"
      case Enterprise => "enterprise"
    }
  }

  const SizeRanges: seq<SizeRange> := [Startup, Scaleup, Enterprise]

  function SizeIndicators(s: SizeRange): seq<string> {
    match s
    case Startup => ["startup", "early stage", "seed", "series a", "founding team",
                     "first hire", "small team", "growing team"]
    case Scaleup => ["series b", "series c", "scaling", "hypergrowth", "fast-growing",
                     "100+ employees", "200+ employees"]
    case Enterprise => ["fortune 500", "enterprise", "global company", "multinational",
                        "1000+ employees", "5000+ employees", "publicly traded"]
  }

  /** Every industry and every size range has a row in its table. */
  lemma TablesComplete()
    ensures forall i: Industry :: i in Industries
    ensures forall s: SizeRange :: s in SizeRanges
  {
    forall i: Industry ensures i in Industries {
      match i
      case Technology => assert Industries[0] == i;
      case Fintech => assert Industries[1] == i;
      case Healthcare => assert Industries[2] == i;
      case ECommerce => assert Industries[3] == i;
      case Education => assert Industries[4] == i;
      case Marketing => assert Industries[5] == i;
      case Cybersecurity => assert Industries[6] == i;
    }
    forall s: SizeRange ensures s in SizeRanges {
      match s
      case Startup => assert SizeRanges[0] == s;
      case Scaleup => assert SizeRanges[1] == s;
      case Enterprise => assert SizeRanges[2] == s;
    }
  }
  /** No two industries, and no two size ranges, carry the same name. */
  lemma IndustryNamesDistinct(a: Industry, b: Industry)
    ensures a.Value() == b.Value() ==> a == b
  {
  }

  lemma SizeRangeNamesDistinct(a: SizeRange, b: SizeRange)
    ensures a.Value() == b.Value() ==> a == b
  {
  }



  /** `TLD_COUNTRY_MAP.get(tld)`: the country of a country-code TLD. */
  function CountryOfTld(tld: string): Option<string> {
    match tld
    case "uk" => Some("United Kingdom")
    case "de" => Some("Germany")
    case "fr" => Some("France")
    case "ca" => Some("Canada")
    case "au" => Some("Australia")
    case "in" => Some("India")
    case "jp" => Some("Japan")
    case "cn" => Some("China")
    case "nl" => Some("Netherlands")
    case "es" => Some("Spain")
    case "it" => Some("Italy")
    case "br" => Some("Brazil")
    case "mx" => Some("Mexico")
    case "se" => Some("Sweden")
    case "no" => Some("Norway")
    case "dk" => Some("Denmark")
    case "fi" => Some("Finland")
    case "ch" => Some("Switzerland")
    case "at" => Some("Austria")
    case "be" => Some("Belgium")
    case "ie" => Some("Ireland")
    case "nz" => Some("New Zealand")
    case "sg" => Some("Singapore")
    case "hk" => Some("Hong Kong")
    case "kr" => Some("South Korea")
    case "za" => Some("South Africa")
    case "pl" => Some("Poland")
    case "cz" => Some("Czech Republic")
    case "ru" => Some("Russia")
    case "ua" => Some("Ukraine")
    case _ => None
  }

  /** Membership in `GENERIC_TLDS`: TLDs that say nothing about a country. */
  predicate IsGenericTld(tld: string) {
    tld in {"com", "org", "net", "io", "co", "ai", "app", "dev",
            "tech", "xyz", "info", "biz", "me", "edu", "gov"}
  }

  /** No generic TLD has a country, so the generic check never hides one. */
  lemma GenericTldsAreUnmapped(tld: string)
    requires IsGenericTld(tld)
    ensures CountryOfTld(tld) == None
  {
  }

  // ---------------------------------------------------------------------------
  // Category matching
  // ---------------------------------------------------------------------------

  /** The categories, in table order and each once, that have a keyword in the text. */
  function MatchingCategories<C(==)>(text: string, categories: seq<C>, keywords: C -> seq<string>): (ms: seq<C>)
    ensures |ms| <= |categories|
    decreases |categories|
  {
    if categories == [] then []
    else
      var prev := MatchingCategories(text, categories[..|categories| - 1], keywords);
      var c := categories[|categories| - 1];
      if ContainsAny(text, keywords(c)) && c !in prev then prev + [c] else prev
  }

  /** A category is matched exactly when it is in the table and one of its
      keywords occurs in the text. */
  lemma {:induction false} MatchingCategoriesMembers<C>(text: string, categories: seq<C>, keywords: C -> seq<string>, c: C)
    ensures c in MatchingCategories(text, categories, keywords) <==> c in categories && ContainsAny(text, keywords(c))
    decreases |categories|
  {
    if categories != [] {
      var init := categories[..|categories| - 1];
      MatchingCategoriesMembers(text, init, keywords, c);
      assert categories == init + [categories[|categories| - 1]];
    }
  }

  /** No element occurs twice. */
  ghost predicate Distinct<T>(s: seq<T>) {
    forall i, j | 0 <= i < j < |s| :: s[i] != s[j]
  }

  /** No category is recorded twice. */
  lemma {:induction false} MatchingCategoriesDistinct<C>(text: string, categories: seq<C>, keywords: C -> seq<string>)
    ensures Distinct(MatchingCategories(text, categories, keywords))
    decreases |categories|
  {
    if categories != [] {
      var prev := MatchingCategories(text, categories[..|categories| - 1], keywords);
      MatchingCategoriesDistinct(text, categories[..|categories| - 1], keywords);
      var c := categories[|categories| - 1];
      if ContainsAny(text, keywords(c)) && c !in prev {
        var ms := prev + [c];
        forall i, j | 0 <= i < j < |ms| ensures ms[i] != ms[j] {
          if j < |prev| {
            assert ms[i] == prev[i] && ms[j] == prev[j];
          } else {
            assert ms[i] == prev[i] && prev[i] in prev && ms[j] == c;
          }
        }
      }
    }
  }

  /** When no other category of the table matches, the matches are just c, if
      c is in the table and matches, and nothing otherwise. */
  lemma {:induction false} SoleCandidate<C>(text: string, categories: seq<C>, keywords: C -> seq<string>, c: C)
    requires forall d | d in categories && d != c :: !ContainsAny(text, keywords(d))
    ensures MatchingCategories(text, categories, keywords) ==
      if c in categories && ContainsAny(text, keywords(c)) then [c] else []
    decreases |categories|
  {
    if categories != [] {
      var init := categories[..|categories| - 1];
      assert categories == init + [categories[|categories| - 1]];
      SoleCandidate(text, init, keywords, c);
    }
  }

  /** The matches are a single category exactly when that category, and no
      other one of the table, has a keyword in the text. */
  lemma OnlyMatch<C>(text: string, categories: seq<C>, keywords: C -> seq<string>, c: C)
    requires c in categories
    ensures var ms := MatchingCategories(text, categories, keywords);
      ms == [c] <==>
        ContainsAny(text, keywords(c)) && forall d | d in categories && d != c :: !ContainsAny(text, keywords(d))
  {
    var ms := MatchingCategories(text, categories, keywords);
    forall d | d in categories
      ensures d in ms <==> ContainsAny(text, keywords(d))
    {
      MatchingCategoriesMembers(text, categories, keywords, d);
    }
    if ContainsAny(text, keywords(c)) && forall d | d in categories && d != c :: !ContainsAny(text, keywords(d)) {
      SoleCandidate(text, categories, keywords, c);
    }
  }

  /** With a complete table, the matches are exactly c when c, and no other
      category at all, has a keyword in the text. */
  lemma SoleMatch<C>(text: string, categories: seq<C>, keywords: C -> seq<string>, c: C)
    requires forall d: C :: d in categories
    ensures MatchingCategories(text, categories, keywords) == [c] <==>
      ContainsAny(text, keywords(c)) && forall d: C | d != c :: !ContainsAny(text, keywords(d))
  {
    OnlyMatch(text, categories, keywords, c);
  }

  /** Two different matching categories make the matches longer than one. */
  lemma TwoMatches<C>(text: string, categories: seq<C>, keywords: C -> seq<string>, a: C, b: C)
    requires a in categories && b in categories && a != b
    requires ContainsAny(text, keywords(a)) && ContainsAny(text, keywords(b))
    ensures |MatchingCategories(text, categories, keywords)| >= 2
  {
    var ms := MatchingCategories(text, categories, keywords);
    MatchingCategoriesMembers(text, categories, keywords, a);
    MatchingCategoriesMembers(text, categories, keywords, b);
    var i :| 0 <= i < |ms| && ms[i] == a;
    var j :| 0 <= j < |ms| && ms[j] == b;
    assert i != j;
  }

  /** The loop of `infer_industry` and `infer_company_size_range`: for each row
      the keywords are tried in order up to the first one in the text. */
  method CategoryMatches<C(==)>(text: string, categories: seq<C>, keywords: C -> seq<string>) returns (matches: seq<C>)
    ensures matches == MatchingCategories(text, categories, keywords)
  {
    matches := [];
    for i := 0 to |categories|
      invariant matches == MatchingCategories(text, categories[..i], keywords)
    {
      assert categories[..i + 1][..i] == categories[..i];
      var category := categories[i];
      var kws := keywords(category);
      var j := 0;
      while j < |kws|
        invariant j <= |kws|
        invariant matches == MatchingCategories(text, categories[..i], keywords)
        invariant forall k | 0 <= k < j :: !Contains(text, kws[k])
      {
        if Contains(text, kws[j]) {
          if category !in matches {
            matches := matches + [category];
          }
          break;
        }
        j := j + 1;
      }
    }
    assert categories[..|categories|] == categories;
  }

  // ---------------------------------------------------------------------------
  // Inferences from the signal text and the domain
  // ---------------------------------------------------------------------------

  /** The record `create_inference` builds for an enrichment: one source, no
      validation. */
  function EnrichmentInference(evidenceId: string, fieldName: string, value: string, sourceEvidenceId: string,
                               inferenceRule: string, confidence: real, now: int): Evidence
  {
    Evidence(evidenceId, fieldName, value, INF,
      EmptyMeta(now, confidence).(sourceEvidenceIds := [sourceEvidenceId], inferenceRule := Some(inferenceRule)))
  }

  /** With an id, a confidence in [0, 1] and a rule, `create_inference`
      succeeds with exactly that record. */
  lemma EnrichmentInferenceCreated(evidenceId: string, fieldName: string, value: string, sourceEvidenceId: string,
                                   inferenceRule: string, confidence: real, now: int)
    requires evidenceId != "" && 0.0 <= confidence <= 1.0 && inferenceRule != ""
    ensures CreateInference(evidenceId, fieldName, value, [sourceEvidenceId], inferenceRule, now, Some(confidence), false, None)
         == Success(EnrichmentInference(evidenceId, fieldName, value, sourceEvidenceId, inferenceRule, confidence, now))
  {
  }

  /** The inference recorded when exactly one category matched: the given value,
      citing the source evidence; nothing otherwise. */
  function SingleCategory(matchCount: nat, value: string, evidenceId: string, fieldName: string, inferenceRule: string,
                          confidence: real, sourceEvidenceId: string, now: int): (r: Option<Evidence>)
    ensures r.Some? <==> matchCount == 1
    ensures r.Some? ==>
      && r.value.evidenceType == INF && r.value.evidenceId == evidenceId
      && r.value.fieldName == fieldName && r.value.value == value
      && r.value.meta.confidence == confidence && r.value.meta.timestamp == now
      && r.value.meta.sourceEvidenceIds == [sourceEvidenceId]
      && r.value.meta.inferenceRule == Some(inferenceRule)
  {
    if matchCount == 1 then
      Some(EnrichmentInference(evidenceId, fieldName, value, sourceEvidenceId, inferenceRule, confidence, now))
    else None
  }

  /** What `infer_industry` returns: an inference at 0.70 under the rule
      `keyword_industry_mapping`, citing the source evidence, or nothing. */
  function IndustryInference(signalText: string, sourceEvidenceId: string, evidenceId: string, now: int): (r: Option<Evidence>)
    requires evidenceId != ""
    ensures r.Some? ==>
      && r.value.fieldName == "industry" && r.value.evidenceType == INF && r.value.evidenceId == evidenceId
      && r.value.meta.confidence == 0.70 && r.value.meta.sourceEvidenceIds == [sourceEvidenceId]
      && r.value.meta.inferenceRule == Some("keyword_industry_mapping")
  {
    var ms := MatchingCategories(Lower(signalText), Industries, IndustryKeywords);
    SingleCategory(|ms|, if ms != [] then ms[0].Value() else "", evidenceId,
                   "industry", "keyword_industry_mapping", 0.70, sourceEvidenceId, now)
  }

  /** What `infer_company_size_range` returns: an inference at 0.65 under the
      rule `signal_size_heuristics`, citing the source evidence, or nothing. */
  function SizeInference(signalText: string, sourceEvidenceId: string, evidenceId: string, now: int): (r: Option<Evidence>)
    requires evidenceId != ""
    ensures r.Some? ==>
      && r.value.fieldName == "company_size_range" && r.value.evidenceType == INF && r.value.evidenceId == evidenceId
      && r.value.meta.confidence == 0.65 && r.value.meta.sourceEvidenceIds == [sourceEvidenceId]
      && r.value.meta.inferenceRule == Some("signal_size_heuristics")
  {
    var ms := MatchingCategories(Lower(signalText), SizeRanges, SizeIndicators);
    SingleCategory(|ms|, if ms != [] then ms[0].Value() else "", evidenceId,
                   "company_size_range", "signal_size_heuristics", 0.65, sourceEvidenceId, now)
  }

  /** An industry is inferred exactly when one industry has a keyword in the
      lower-cased text and no other industry does; the inference then names
      that industry. */
  lemma IndustryExactlyOne(signalText: string, sourceEvidenceId: string, evidenceId: string, now: int, i: Industry)
    requires evidenceId != ""
    ensures var r := IndustryInference(signalText, sourceEvidenceId, evidenceId, now);
      var text := Lower(signalText);
      (r.Some? && r.value.value == i.Value()) <==>
        ContainsAny(text, IndustryKeywords(i)) && forall j: Industry | j != i :: !ContainsAny(text, IndustryKeywords(j))
  {
    var text := Lower(signalText);
    var ms := MatchingCategories(text, Industries, IndustryKeywords);
    TablesComplete();
    SoleMatch(text, Industries, IndustryKeywords, i);
    if |ms| == 1 {
      IndustryNamesDistinct(ms[0], i);
    }
  }



  /** Two different industries with keywords in the text mean no industry is inferred. */
  lemma TwoIndustriesGiveNone(signalText: string, sourceEvidenceId: string, evidenceId: string, now: int, a: Industry, b: Industry)
    requires evidenceId != ""
    requires a != b
    requires ContainsAny(Lower(signalText), IndustryKeywords(a)) && ContainsAny(Lower(signalText), IndustryKeywords(b))
    ensures IndustryInference(signalText, sourceEvidenceId, evidenceId, now) == None
  {
    TablesComplete();
    TwoMatches(Lower(signalText), Industries, IndustryKeywords, a, b);
  }

  /** A size range is inferred exactly when one range has an indicator in the
      lower-cased text and no other range does; the inference then names that
      range. */
  lemma SizeExactlyOne(signalText: string, sourceEvidenceId: string, evidenceId: string, now: int, s: SizeRange)
    requires evidenceId != ""
    ensures var r := SizeInference(signalText, sourceEvidenceId, evidenceId, now);
      var text := Lower(signalText);
      (r.Some? && r.value.value == s.Value()) <==>
        ContainsAny(text, SizeIndicators(s)) && forall t: SizeRange | t != s :: !ContainsAny(text, SizeIndicators(t))
  {
    var text := Lower(signalText);
    var ms := MatchingCategories(text, SizeRanges, SizeIndicators);
    TablesComplete();
    SoleMatch(text, SizeRanges, SizeIndicators, s);
    if |ms| == 1 {
      SizeRangeNamesDistinct(ms[0], s);
    }
  }



  /** `infer_industry` */
  method InferIndustry(signalText: string, sourceEvidenceId: string, evidenceId: string, now: int)
    returns (r: Option<Evidence>)
    requires evidenceId != ""
    ensures r == IndustryInference(signalText, sourceEvidenceId, evidenceId, now)
  {
    var matches := CategoryMatches(Lower(signalText), Industries, IndustryKeywords);
    if |matches| == 1 {
      var e := CreateInference(evidenceId, "industry", matches[0].Value(), [sourceEvidenceId],
                               "keyword_industry_mapping", now, Some(0.70), false, None);
      EnrichmentInferenceCreated(evidenceId, "industry", matches[0].Value(), sourceEvidenceId,
                                 "keyword_industry_mapping", 0.70, now);
      return Some(e.value);
    }
    return None;
  }

  /** `infer_company_size_range` */
  method InferCompanySizeRange(signalText: string, sourceEvidenceId: string, evidenceId: string, now: int)
    returns (r: Option<Evidence>)
    requires evidenceId != ""
    ensures r == SizeInference(signalText, sourceEvidenceId, evidenceId, now)
  {
    var matches := CategoryMatches(Lower(signalText), SizeRanges, SizeIndicators);
    if |matches| == 1 {
      var e := CreateInference(evidenceId, "company_size_range", matches[0].Value(), [sourceEvidenceId],
                               "signal_size_heuristics", now, Some(0.65), false, None);
      EnrichmentInferenceCreated(evidenceId, "company_size_range", matches[0].Value(), sourceEvidenceId,
                                 "signal_size_heuristics", 0.65, now);
      return Some(e.value);
    }
    return None;
  }

  /** `infer_country_from_domain`: a TLD with a (non-empty) country in the
      table gives that country at 0.80; an empty or dot-free domain, a generic
      TLD or an unmapped one gives nothing. */
  function InferCountryFromDomain(domain: string, sourceEvidenceId: string, evidenceId: string, now: int): (r: Option<Evidence>)
    requires evidenceId != ""
    ensures r.Some? <==>
      domain != "" && '.' in domain &&
      var tld := Lower(LastPart(domain, '.'));
      !IsGenericTld(tld) && Present(CountryOfTld(tld))
    ensures r.Some? ==>
      var tld := Lower(LastPart(domain, '.'));
      && r.value.evidenceType == INF && r.value.fieldName == "country"
      && r.value.value == CountryOfTld(tld).value && r.value.meta.confidence == 0.80
      && r.value.meta.sourceEvidenceIds == [sourceEvidenceId]
      && r.value.meta.inferenceRule == Some("tld_country_mapping")
  {
    if domain == "" || '.' !in domain then None
    else
      var tld := Lower(LastPart(domain, '.'));
      if IsGenericTld(tld) then None
      else
        var country := CountryOfTld(tld);
        if Present(country) then
          Some(EnrichmentInference(evidenceId, "country", country.value, sourceEvidenceId,
                                   "tld_country_mapping", 0.80, now))
        else None
  }

  // ---------------------------------------------------------------------------
  // Enriching one entity
  // ---------------------------------------------------------------------------

  /** The fresh ids `create_evidence_id` hands out for the three inferences. */
  datatype EnrichmentIds = EnrichmentIds(industry: string, size: string, country: string) {
    predicate NonEmpty() {
      industry != "" && size != "" && country != ""
    }
  }

  /** The text enrichment reads: the raw text of the signal, if any. */
  function SignalText(signal: Option<Signal>): string {
    if signal.Some? then signal.value.rawText else ""
  }

  /** The three inferences `enrich_entity` attempts, from the signal text and
      the entity's domain evidence; without text the first two are not tried. */
  datatype Inferences = Inferences(industry: Option<Evidence>, size: Option<Evidence>, country: Option<Evidence>)

  function Infer(text: string, domain: Evidence, ids: EnrichmentIds, now: int): (inf: Inferences)
    requires ids.NonEmpty()
    ensures text == "" ==> inf.industry.None? && inf.size.None?
    ensures inf.industry.Some? ==> inf.industry.value.fieldName == "industry"
    ensures inf.size.Some? ==> inf.size.value.fieldName == "company_size_range"
  {
    Inferences(
      if text != "" then IndustryInference(text, domain.evidenceId, ids.industry, now) else None,
      if text != "" then SizeInference(text, domain.evidenceId, ids.size, now) else None,
      InferCountryFromDomain(domain.value, domain.evidenceId, ids.country, now))
  }

  const FieldIndustry := "industry"
  const FieldSize := "company_size_range"
  const FieldCountry := "country"

  /** Reports one field: appended to the enriched names if its inference
      succeeded, to the failed names otherwise. */
  function Record(report: (seq<string>, seq<string>), succeeded: bool, name: string): (seq<string>, seq<string>) {
    if succeeded then (report.0 + [name], report.1) else (report.0, report.1 + [name])
  }

  /** The enriched and the failed field names, in the order tried. */
  function FieldReport(inf: Inferences): (seq<string>, seq<string>) {
    var afterIndustry := Record(([], []), inf.industry.Some?, FieldIndustry);
    var afterSize := Record(afterIndustry, inf.size.Some?, FieldSize);
    Record(afterSize, inf.country.Some?, FieldCountry)
  }

  function EnrichedFields(inf: Inferences): seq<string> {
    FieldReport(inf).0
  }

  function FailedFields(inf: Inferences): seq<string> {
    FieldReport(inf).1
  }

  /** Each of the three fields is reported exactly once, as enriched or as
      failed, and nothing else is reported. */
  lemma FieldsPartition(inf: Inferences)
    ensures |EnrichedFields(inf)| + |FailedFields(inf)| == 3
    ensures forall f | f in [FieldIndustry, FieldSize, FieldCountry] ::
      (f in EnrichedFields(inf) <==> f !in FailedFields(inf))
    ensures forall f | f in EnrichedFields(inf) + FailedFields(inf) :: f in [FieldIndustry, FieldSize, FieldCountry]
  {
  }

  /** Without a signal the text-based fields both fail. */
  lemma NoSignalFailsTextFields(domain: Evidence, ids: EnrichmentIds, now: int)
    requires ids.NonEmpty()
    ensures var failed := FailedFields(Infer(SignalText(None), domain, ids, now));
      FieldIndustry in failed && FieldSize in failed
  {
  }

  /** `EnrichmentResult`: the entity (the same object, possibly updated) and
      the field names reported as enriched and as failed. */
  datatype EnrichmentResult = EnrichmentResult(entity: Entity, enrichedFields: seq<string>, failedFields: seq<string>)
  {
    /** `was_enriched` */
    predicate WasEnriched() {
      |enrichedFields| > 0
    }
  }

  /** `enrich_entity`: the industry and size slots take a successful inference
      and are otherwise left as they were; company name and domain are never
      written, and the country is reported but not stored. */
  method EnrichEntity(entity: Entity, signal: Option<Signal>, ids: EnrichmentIds, now: int)
    returns (result: EnrichmentResult)
    requires ids.NonEmpty()
    modifies entity
    ensures var inf := Infer(SignalText(signal), old(entity.domain), ids, now);
      && result == EnrichmentResult(entity, EnrichedFields(inf), FailedFields(inf))
      && entity.industry == (if inf.industry.Some? then inf.industry else old(entity.industry))
      && entity.sizeEstimate == (if inf.size.Some? then inf.size else old(entity.sizeEstimate))
    ensures entity.companyName == old(entity.companyName) && entity.domain == old(entity.domain)
  {
    var enrichedFields: seq<string> := [];
    var failedFields: seq<string> := [];
    var domain := entity.domain;
    var domainEvidenceId := domain.evidenceId;
    var signalText := if signal.Some? then signal.value.rawText else "";

    var industryEvidence: Option<Evidence> := None;
    if signalText != "" {
      industryEvidence := InferIndustry(signalText, domainEvidenceId, ids.industry, now);
    }
    if industryEvidence.Some? {
      entity.industry := industryEvidence;
      enrichedFields := enrichedFields + [FieldIndustry];
    } else {
      failedFields := failedFields + [FieldIndustry];
    }
    ghost var report := Record(([], []), industryEvidence.Some?, FieldIndustry);
    assert report == (enrichedFields, failedFields);

    var sizeEvidence: Option<Evidence> := None;
    if signalText != "" {
      sizeEvidence := InferCompanySizeRange(signalText, domainEvidenceId, ids.size, now);
    }
    if sizeEvidence.Some? {
      entity.sizeEstimate := sizeEvidence;
      enrichedFields := enrichedFields + [FieldSize];
    } else {
      failedFields := failedFields + [FieldSize];
    }
    report := Record(report, sizeEvidence.Some?, FieldSize);
    assert report == (enrichedFields, failedFields);

    var countryEvidence := InferCountryFromDomain(domain.value, domainEvidenceId, ids.country, now);
    if countryEvidence.Some? {
      enrichedFields := enrichedFields + [FieldCountry];
    } else {
      failedFields := failedFields + [FieldCountry];
    }
    report := Record(report, countryEvidence.Some?, FieldCountry);
    assert report == (enrichedFields, failedFields);

    ghost var inf := Inferences(industryEvidence, sizeEvidence, countryEvidence);
    assert inf == Infer(SignalText(signal), old(entity.domain), ids, now);
    assert report == FieldReport(inf);
    return EnrichmentResult(entity, enrichedFields, failedFields);
  }

  // ---------------------------------------------------------------------------
  // The enriched view and batches
  // ---------------------------------------------------------------------------

  /** `EnrichedEntity`: an entity with optional enrichment evidence beside it. */
  datatype EnrichedEntity = EnrichedEntity(
    entity: Entity,
    industry: Option<Evidence>,
    companySizeRange: Option<Evidence>,
    country: Option<Evidence>)
  {
    /** `get_all_evidence_ids`: the two required ids, then those of the present
        enrichment evidence in field order. */
    function AllEvidenceIds(): (ids: seq<string>)
      reads entity
      ensures |ids| == 2 + (if industry.Some? then 1 else 0) + (if companySizeRange.Some? then 1 else 0)
                         + (if country.Some? then 1 else 0)
      ensures ids[0] == entity.companyName.evidenceId && ids[1] == entity.domain.evidenceId
      ensures industry.Some? ==> ids[2] == industry.value.evidenceId
      ensures companySizeRange.Some? ==>
        ids[if industry.Some? then 3 else 2] == companySizeRange.value.evidenceId
      ensures country.Some? ==> ids[|ids| - 1] == country.value.evidenceId
      ensures forall x :: x in ids <==>
        || x == entity.companyName.evidenceId || x == entity.domain.evidenceId
        || (industry.Some? && x == industry.value.evidenceId)
        || (companySizeRange.Some? && x == companySizeRange.value.evidenceId)
        || (country.Some? && x == country.value.evidenceId)
    {
      [entity.companyName.evidenceId, entity.domain.evidenceId]
      + (if industry.Some? then [industry.value.evidenceId] else [])
      + (if companySizeRange.Some? then [companySizeRange.value.evidenceId] else [])
      + (if country.Some? then [country.value.evidenceId] else [])
    }
  }

  /** The signal paired with the i-th entity: the i-th signal when the list is
      given, non-empty and long enough, else none. */
  function SignalAt(signals: Option<seq<Signal>>, i: nat): (s: Option<Signal>)
    ensures s.Some? <==> signals.Some? && i < |signals.value|
    ensures s.Some? ==> s.value == signals.value[i]
  {
    if signals.Some? && |signals.value| > 0 && i < |signals.value| then Some(signals.value[i]) else None
  }

  /** The domain evidence of each entity of a list. */
  function Domains(entities: seq<Entity>): (ds: seq<Evidence>)
    reads set e | e in entities
    ensures |ds| == |entities|
    ensures forall k | 0 <= k < |entities| :: ds[k] == entities[k].domain
  {
    if entities == [] then [] else Domains(entities[..|entities| - 1]) + [entities[|entities| - 1].domain]
  }

  /** What enriching each entity of a batch alone infers, given their domain
      evidence: the i-th entity from the i-th signal, if there is one. */
  function BatchInferences(signals: Option<seq<Signal>>, domains: seq<Evidence>, ids: seq<EnrichmentIds>,
                           now: int): (infs: seq<Inferences>)
    requires |ids| == |domains|
    requires forall k | 0 <= k < |ids| :: ids[k].NonEmpty()
    ensures |infs| == |domains|
    ensures forall k | 0 <= k < |domains| :: infs[k] == Infer(SignalText(SignalAt(signals, k)), domains[k], ids[k], now)
  {
    seq(|domains|, k requires 0 <= k < |domains| => Infer(SignalText(SignalAt(signals, k)), domains[k], ids[k], now))
  }

  /** What `enrich_entities` returns after its first n rounds, given what each
      round infers: result k is entity k with the fields its round reports. */
  function BatchResults(entities: seq<Entity>, infs: seq<Inferences>, n: nat): (rs: seq<EnrichmentResult>)
    requires |infs| == |entities| && n <= |entities|
    ensures |rs| == n
    ensures forall k | 0 <= k < n :: rs[k] == EnrichmentResult(entities[k], EnrichedFields(infs[k]), FailedFields(infs[k]))
  {
    if n == 0 then []
    else BatchResults(entities, infs, n - 1) + [EnrichmentResult(entities[n - 1], EnrichedFields(infs[n - 1]), FailedFields(infs[n - 1]))]
  }

  /** A slot after enrichment: the inference when there is one, else what it held. */
  function Updated(inferred: Option<Evidence>, prior: Option<Evidence>): Option<Evidence> {
    if inferred.Some? then inferred else prior
  }

  /** Entity k occurs nowhere else in the list. */
  predicate OccursOnce(entities: seq<Entity>, k: nat)
    requires k < |entities|
  {
    forall j | 0 <= j < |entities| && j != k :: entities[j] != entities[k]
  }

  /** The four fields of an entity at one moment. */
  datatype EntityFields = EntityFields(companyName: Evidence, domain: Evidence,
                                       industry: Option<Evidence>, sizeEstimate: Option<Evidence>)

  /** The fields of each entity of a list, as they are now. */
  ghost function Snapshot(entities: seq<Entity>): (fs: seq<EntityFields>)
    reads set e | e in entities
    ensures |fs| == |entities|
    ensures forall k | 0 <= k < |entities| ::
      fs[k] == EntityFields(entities[k].companyName, entities[k].domain, entities[k].industry, entities[k].sizeEstimate)
  {
    seq(|entities|, k reads set e | e in entities requires 0 <= k < |entities| =>
      EntityFields(entities[k].companyName, entities[k].domain, entities[k].industry, entities[k].sizeEstimate))
  }

  /** The state after the first i rounds, against the fields each entity had
      before the first one: names and domains are as they were; an entity that
      occurs once holds what its round inferred if its round is done, and its
      old industry and size otherwise. */
  ghost predicate RoundsDone(entities: seq<Entity>, before: seq<EntityFields>, infs: seq<Inferences>, i: nat)
    reads set e | e in entities
    requires |before| == |infs| == |entities| && i <= |entities|
  {
    && (forall k | 0 <= k < |entities| ::
          entities[k].companyName == before[k].companyName && entities[k].domain == before[k].domain)
    && (forall k | 0 <= k < i && OccursOnce(entities, k) ::
          && entities[k].industry == Updated(infs[k].industry, before[k].industry)
          && entities[k].sizeEstimate == Updated(infs[k].size, before[k].sizeEstimate))
    && (forall k | i <= k < |entities| && OccursOnce(entities, k) ::
          entities[k].industry == before[k].industry && entities[k].sizeEstimate == before[k].sizeEstimate)
  }

  /** One round of `enrich_entities`: enriches entity i from its signal; the
      result extends the batch by one entry, and the state moves on by one round. */
  method EnrichNext(entities: seq<Entity>, signals: Option<seq<Signal>>, ids: seq<EnrichmentIds>, now: int,
                    ghost before: seq<EntityFields>, ghost infs: seq<Inferences>, i: nat,
                    ghost results: seq<EnrichmentResult>)
    returns (result: EnrichmentResult)
    requires |ids| == |entities| == |infs| == |before| && i < |entities|
    requires ids[i].NonEmpty()
    requires infs[i] == Infer(SignalText(SignalAt(signals, i)), before[i].domain, ids[i], now)
    requires results == BatchResults(entities, infs, i)
    requires RoundsDone(entities, before, infs, i)
    modifies entities[i]
    ensures results + [result] == BatchResults(entities, infs, i + 1)
    ensures entities[i].companyName == old(entities[i].companyName) && entities[i].domain == old(entities[i].domain)
    ensures entities[i].industry == Updated(infs[i].industry, old(entities[i].industry))
    ensures entities[i].sizeEstimate == Updated(infs[i].size, old(entities[i].sizeEstimate))
    ensures RoundsDone(entities, before, infs, i + 1)
  {
    label start:
    result := EnrichEntity(entities[i], SignalAt(signals, i), ids[i], now);
    forall k | 0 <= k < |entities|
      ensures entities[k].companyName == before[k].companyName && entities[k].domain == before[k].domain
    {
      assert old@start(entities[k].companyName) == before[k].companyName;
      if entities[k] != entities[i] {
      }
    }
    forall k | 0 <= k < |entities| && k != i && OccursOnce(entities, k)
      ensures entities[k].industry == old@start(entities[k].industry)
      ensures entities[k].sizeEstimate == old@start(entities[k].sizeEstimate)
    {
      assert entities[k] != entities[i];
    }
  }

  /** `enrich_entities`: one result per entity, in order, the i-th entity
      paired with the i-th signal when there is one. The same entity may occur
      more than once in the list; each result reports what that pass inferred,
      and company name and domain are never written. An entity that occurs once
      ends with the industry and size its own round inferred, or keeps the old
      ones where that round inferred nothing. */
  method EnrichEntities(entities: seq<Entity>, signals: Option<seq<Signal>>, ids: seq<EnrichmentIds>, now: int)
    returns (results: seq<EnrichmentResult>)
    requires |ids| == |entities|
    requires forall i | 0 <= i < |ids| :: ids[i].NonEmpty()
    modifies set e | e in entities
    ensures results == BatchResults(entities, BatchInferences(signals, old(Domains(entities)), ids, now), |entities|)
    ensures forall i | 0 <= i < |entities| ::
      entities[i].companyName == old(entities[i].companyName) && entities[i].domain == old(entities[i].domain)
    ensures var infs := BatchInferences(signals, old(Domains(entities)), ids, now);
      forall k | 0 <= k < |entities| && OccursOnce(entities, k) ::
        && entities[k].industry == Updated(infs[k].industry, old(entities[k].industry))
        && entities[k].sizeEstimate == Updated(infs[k].size, old(entities[k].sizeEstimate))
  {
    ghost var before := Snapshot(entities);
    ghost var infs := BatchInferences(signals, Domains(entities), ids, now);
    results := [];
    for i := 0 to |entities|
      invariant RoundsDone(entities, before, infs, i)
      invariant results == BatchResults(entities, infs, i)
    {
      assert old(Domains(entities))[i] == before[i].domain;
      var result := EnrichNext(entities, signals, ids, now, before, infs, i, results);
      results := results + [result];
    }
  }
}

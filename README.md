# GlassBox evidence and gating engine in Dafny

GlassBox turns candidate business text into scored sales leads. Every fact it
holds about a company is an `Evidence` record: an observation, an inference or
an API result, with provenance metadata and a confidence. The pipeline has
four stages:

1. RSS ingestion turns feed items into `Signal`s and deduplicates them against
   a caller-held set of hashes. A hard gate rejects stale or intent-free text
   with one of eight rejection rules (R1..R8).
2. Entity resolution reads a company name and its registrable domain off each
   signal.
3. Waterfall enrichment infers industry, size range and country from keywords
   and the TLD.
4. The ranking stage scores each lead with five bounded components, sorts the
   leads stably by score and explains the score.

This project models that engine, one module per source file:

| module | file |
|---|---|
| `EvidenceLedger` | `evidence.dfy` |
| `Domain` | `domain.dfy` |
| `Validation` | `validation.dfy` |
| `Components` | `components.dfy` |
| `Scorer` | `scorer.dfy` |
| `Hosts`, `EntityResolution` | `hosts.dfy`, `entity_resolver.dfy` |
| `Enrichment` | `waterfall.dfy` |
| `RssIngestion` | `rss.dfy` |

`Base` (`base.dfy`) holds the shared pieces:

- `Option`, `Result` and `Outcome`. A Python exception becomes a `Failure`/`Fail` value.
- The Python string operations the code relies on, written out for ASCII text.
- `Platform`, a record of the library functions the code calls but that are not modelled:
  - SHA-256 hex digest;
  - `isoformat` and `str()` of a timestamp;
  - the `netloc`/`path` parts of `urlparse`;
  - `float()` (`parseFloat`);
  - the `str()` of a float and of a parsed JSON value (`floatString`, `valueString`);
  - percent formatting;
  - the `repr` of a set and of a list of strings (`setRepr`, `listRepr`);
  - `str.title()`.

  Each is an arbitrary fixed function, so every result is deterministic in them.

The rest of the environment enters as parameters:

- Fresh ids (`uuid4`) and the clock (`utcnow`) are parameters of the operations that use them.
- Timestamps are integers counting seconds.
- Confidences are `real`s.

The model follows the source's own form:

- Frozen dataclasses and validators are datatypes and functions.
- Python's ordered raise-on-first-failure checks are functions. Their contracts give the verdict, which rule each case breaks, and the exact reason text. Where a reason prints a Python `repr` (a list or a set), that `repr` is a `Platform` field.
- Objects the source updates in place are classes:
  - `Entity`, whose enrichment slots are filled in place;
  - `Lead`, whose tier is assigned after validation;
  - `SeenHashes`, the caller's dedup set.
- Loops are methods with invariants, each proved against a specification function:
  - ranking (insertion by score, a stable sort);
  - explanation building;
  - registrable-domain collection;
  - batch resolution;
  - the keyword-category loops;
  - batch enrichment;
  - the feed loop.

## Model

| member | source | states |
|---|---|---|
| EvidenceLedger.Validate | glassbox/evidence.py:104-168 | passes exactly for well-formed records (id present, confidence in [0, 1], type-specific metadata); the first failing check decides the error: missing id first, then confidence range, then each type's fields in order |
| EvidenceLedger.Construct | glassbox/evidence.py:100-135 | a record exists exactly when it is well formed, and is then the given record; otherwise the error explains the defect |
| EvidenceLedger.CurrentConfidence | glassbox/evidence.py:178-207 | never negative; intent_signal is max(0, base − 0.25 · ⌊days/7⌋) and contact_email max(0, base − 0.10 · ⌊days/30⌋); every other field keeps its base confidence; at a reference time not before the timestamp it never exceeds the base |
| EvidenceLedger.CurrentConfidenceNonIncreasing | glassbox/evidence.py:193-207 | a later reference time never gives a higher confidence |
| EvidenceLedger.IntentSignalDecayFormula | glassbox/evidence.py:193-207 | intent_signal confidence is max(0, base − 0.25 · ⌊days/7⌋) |
| EvidenceLedger.ContactEmailDecayFormula | glassbox/evidence.py:200-207 | contact_email confidence is max(0, base − 0.10 · ⌊days/30⌋) at every reference time |
| EvidenceLedger.ContactEmailStaleIffTenPeriods | glassbox/evidence.py:170-207 | at base 0.95, not invalidated, a contact email is stale exactly when it is at least 300 days old |
| EvidenceLedger.IntentSignalStaleAfterFourWeeks | glassbox/evidence.py:170-176 | a well-formed intent signal is stale once 28 whole days have passed |
| EvidenceLedger.IntentSignalStaleIffFourWeeks | glassbox/evidence.py:170-207 | at base 0.95, not invalidated, an intent signal is stale exactly when it is at least 28 days old |
| EvidenceLedger.FutureTimestampRaisesConfidence | glassbox/evidence.py:193-207 | a timestamp in the future gives a negative decay: a 0.5 intent signal dated 8 days ahead reads as 1.0 |
| EvidenceLedger.CreateObservation | glassbox/evidence.py:215-244 | succeeds exactly when id, URL and method are present and the confidence (default 0.95) is in [0, 1]; the record carries the inputs, type OBS, unvalidated |
| EvidenceLedger.CreateInference | glassbox/evidence.py:247-280 | succeeds exactly when id, source ids and rule are present and the confidence (default 0.70) is in [0, 1]; source ids kept in order, validated flag as given |
| EvidenceLedger.CreateApiEvidence | glassbox/evidence.py:283-314 | the provider confidence is used only when truthy, else 0.85; succeeds exactly when id, provider and response id are present and that confidence is in [0, 1] |
| EvidenceLedger.ZeroProviderConfidenceFallsBack | glassbox/evidence.py:300 | a provider confidence of 0.0 is replaced by the default 0.85 |
| EvidenceLedger.FactoryRecordsRevalidate | glassbox/evidence.py:215-314 | a record each factory returns passes validation again and re-constructs to itself |
| Domain.FromError | glassbox/domain.py:83-101 | the snippet is the first min(500, length) characters of the raw text; rule, reason, id and time are copied; a missing or empty signal id becomes "unknown" |
| Domain.IntentTypeFromValue | glassbox/domain.py:108-112 | the lookup succeeds exactly for the three enum values and returns the member with that value |
| Domain.CreateSignal | glassbox/domain.py:137-155 | construction succeeds exactly when id, URL and text are non-empty; first failure wins: empty id → R8 "signal_id is required" without id, empty URL → R8 "source_url is required for signal provenance", empty text → R1 "raw_text is empty, no intent signal present" |
| Domain.SignalToEvidence | glassbox/domain.py:163-171 | a valid signal becomes an OBS record of its raw text at its URL and time, at confidence 0.95, extracted by "signal_ingestion_" followed by the source type |
| Domain.CheckEntity | glassbox/domain.py:202-226 | passes exactly when both slots are present with matching field names; a missing slot is R3 ("company_name Evidence is required", then "domain Evidence is required"); a field-name mismatch is a validation error naming the first wrong slot and its actual field name |
| Domain.NewEntity | glassbox/domain.py:179-226 | the entity is created exactly when the checks pass, holding the given evidence; otherwise the check's error is returned |
| Domain.Entity.constructor | glassbox/domain.py:179-200 | the fields hold the given evidence |
| Domain.ComputeLeadTier | glassbox/domain.py:341-363 | TIER_1 iff intent, tech stack and a validated email are present; TIER_2 iff intent and tech stack without a validated email; TIER_3 iff intent without tech stack; UNQUALIFIED iff no intent |
| Domain.CheckLead | glassbox/domain.py:297-339 | first failure wins: missing name or domain → R8 with the source's reason; missing intent → R1 "intent_signal Evidence is required for Lead"; then the name, domain and intent slot in turn give a validation error naming the mismatching field; an intent signal past the age limit → R2 with the reason citing its timestamp; passes otherwise |
| Domain.Lead.constructor | glassbox/domain.py:291-295 | fields as given, creation and update time the clock reading, tier computed from evidence presence |
| Domain.CreateLead | glassbox/domain.py:257-363 | a lead exists exactly when the checks pass; its tier is never UNQUALIFIED, TIER_1 iff tech stack and a validated email, TIER_3 iff no tech stack |
| Domain.Lead.GetEvidenceIds | glassbox/domain.py:388-401 | the three required ids first in fixed order, then each present optional id; length 3 + number of optional slots present |
| Domain.NewerSignalSortsFirst | glassbox/domain.py:365-382 | a lead with a strictly newer intent signal sorts strictly before the other |
| Domain.HigherEmailConfidenceBreaksTies | glassbox/domain.py:365-382 | with equal signal times the lead whose email confidence is higher (a missing email counts as 0) sorts first |
| Domain.FourWeekOldIntentIsRejected | glassbox/domain.py:330-339 | a lead whose well-formed intent signal is 28 days old or more is refused with R2, the reason citing its timestamp |
| Domain.Lead.SortKey | glassbox/domain.py:365-382 | the negated signal time, the negated email confidence (0 without an email) and the company name |
| Domain.StringLessIrreflexive | glassbox/domain.py:380-382 | no company name sorts before itself |
| Domain.StringLessTransitive | glassbox/domain.py:380-382 | the name order is transitive |
| Domain.StringLessTotal | glassbox/domain.py:380-382 | of two different names one sorts first |
| Domain.SortKeyStrictTotalOrder | glassbox/domain.py:365-382 | comparing sort keys is irreflexive, transitive and total on different keys, so the order of leads is deterministic |
| Domain.CompanyNameBreaksLastTies | glassbox/domain.py:365-382 | with equal signal time and email confidence the alphabetically first company sorts first |
| Domain.TierOneLeadHasContact | glassbox/domain.py:341-363 | a TIER_1 lead always has contact information |
| Validation.CreateSignalId | glassbox/validation.py:61-64 | starts with "sig_"; 16 characters once the digest has 12; what follows the prefix begins the hash of URL, ":" and the ISO time, so the id depends only on URL and time |
| Validation.CreateDedupHash | glassbox/validation.py:67-70 | the hash of URL, ":" and the text when it has at most 500 characters, else of its first 500 |
| Validation.DedupHashOfSnippet | glassbox/validation.py:67-70 | hashing the 500-character prefix gives the hash of the whole text |
| Validation.DedupHashIgnoresTail | glassbox/validation.py:67-70 | texts from one URL that agree on their first 500 characters share a dedup hash |
| Validation.ValidateSignalFreshness | glassbox/validation.py:73-90 | passes exactly when the age is at most max_age_days (an age of exactly 30 days passes); otherwise R2 with the source's reason text |
| Validation.FreshnessMonotone | glassbox/validation.py:73-90 | a newer timestamp never turns a passing freshness check into a failing one |
| Validation.SignalStaleIffFreshnessFails | glassbox/domain.py:157-161 | a signal is stale exactly when the freshness validator rejects its timestamp |
| Validation.FreshnessBoundaryInclusive | glassbox/validation.py:84-85 | an age of exactly max_age_days passes; one second more fails |
| Validation.ValidateIntentSignalPresent | glassbox/validation.py:93-138 | HIRING iff a hiring keyword occurs in the lower-cased text; FUNDING iff none does and a funding keyword does; EXECUTIVE_CHANGE likewise next; otherwise R1 with the reason "No time-sensitive intent signal (hiring/funding/executive change) detected" |
| Validation.IntentDetectionIgnoresCase | glassbox/validation.py:109 | the verdict is the same for the text and its lower-cased form |
| Validation.EmptyTextHasNoIntent | glassbox/validation.py:93-138 | empty text is rejected with R1 |
| Validation.ValidateDomainResolvable | glassbox/validation.py:145-174 | as written: passes exactly when the domain pattern matches (with `$` also matching before one final newline) and no reserved suffix ends the domain; otherwise R4, with the reason "Domain '<domain>' does not match valid domain pattern" when the pattern fails and "Domain '<domain>' uses reserved/invalid TLD" when a reserved suffix ends it |
| Validation.TrailingNewlineDomainAccepted | glassbox/validation.py:159-174 | "acme.io\n" passes the check as written |
| Validation.ValidateDomainResolvableStrict | glassbox/validation.py:145-174 | corrected: passes exactly when the whole string has the domain shape and no reserved suffix; a passing domain holds a dot and no newline; the two R4 reasons are those of the as-written check |
| Validation.StrictAgreesWithoutNewline | glassbox/validation.py:145-174 | the corrected and the as-written check agree on every string without a newline |
| Validation.ValidateCompanySize | glassbox/validation.py:177-194 | passes exactly when min ≤ size ≤ max, otherwise R6 with the reason "Company size <size> is outside acceptable range [<min>, <max>]" |
| Validation.ValidateIndustryInScope | glassbox/validation.py:197-216 | passes exactly when the lower-cased industry equals some lower-cased target, otherwise R5 with the reason "Industry '<industry>' is not in target list: " followed by the list's `repr` |
| Validation.ValidateExtraction | glassbox/validation.py:237-264 | passes exactly when name and domain are truthy and confidence ≥ 0.8; a falsy name is R3 "LLM did not extract company_name", then a falsy domain R3 "LLM did not extract domain", else low confidence is R7 with a reason naming the confidence and the threshold |
| Validation.ValidateLlmJsonOutput | glassbox/validation.py:267-318 | succeeds exactly when every condition of the source holds; the first missing required field gives R7 naming that field; an unparsable intent type or confidence gives R7 naming the value; R3 exactly when fields, intent and confidence parse but name or domain is falsy; once all parse, the verdict and error are those of the extraction check |
| Validation.GateSignal | glassbox/validation.py:334-383 | accepts exactly when fresh, with an intent keyword and a constructible signal; accepted ⇔ signal and intent present ⇔ no rejection; stale text is R2 even with intent words; id and dedup hash depend only on (URL, time) and (URL, text) |
| Components.GetEntityEvidence | glassbox/ranking/components.py:28-39 | name and domain first, then industry and size when present: 2 to 4 records |
| Components.DetectIntent | glassbox/ranking/components.py:108-119 | the scorer's own keyword lists in priority order hiring, funding, executive |
| Components.ComputeIntentStrength | glassbox/ranking/components.py:77-137 | contribution is 40/30/20/0 for hiring/funding/executive/none by the scorer's keywords; ids are [signal id] or empty without a signal |
| Components.IntentStrengthIgnoresCase | glassbox/ranking/components.py:100 | the intent contribution is the same for the text and its lower-cased form |
| Components.FreshnessPoints | glassbox/ranking/components.py:161-203 | every rung as an iff over whole days: 25 iff ≤3, 20 iff 4..7, 15 iff 8..14, 10 iff 15..21, 5 iff 22..30, 0 iff over 30 |
| Components.ComputeSignalFreshness | glassbox/ranking/components.py:144-203 | 0..25, raw value the whole days of age, ids [signal id]; no signal gives 0 and no ids |
| Components.FreshnessPointsMonotone | glassbox/ranking/components.py:161-203 | more days never earn more points |
| Components.FreshnessNonIncreasingWithAge | glassbox/ranking/components.py:144-203 | an older signal never scores higher on freshness |
| Components.FreshnessDecreasesOverTime | glassbox/ranking/components.py:144-203 | a later reference time never scores a signal higher |
| Components.MinConfidence | glassbox/ranking/components.py:237 | the minimum base confidence: below or equal to every record's and attained by one |
| Components.ConfidencePoints | glassbox/ranking/components.py:239-262 | every band as an iff: 20 iff ≥0.8, 15 iff [0.6, 0.8), 10 iff [0.4, 0.6), 5 iff [0.2, 0.4), 0 iff <0.2 |
| Components.ConfidencePointsMonotone | glassbox/ranking/components.py:239-262 | a higher weakest confidence never earns fewer points |
| Components.ComputeEvidenceConfidence | glassbox/ranking/components.py:210-262 | 0..20 from the minimum base (not decayed) confidence over the entity's 2–4 records; ids are those records' ids |
| Components.ComputeEntityCompleteness | glassbox/ranking/components.py:269-312 | 5 + 3 for an industry + 2 for a size: 10 iff both, 8 iff only industry, 7 iff only size, 5 iff neither; ids list exactly the records counted |
| Components.ComputeNoisePenalty | glassbox/ranking/components.py:325-373 | 0 iff no noise keyword occurs, −10 iff three or more distinct ones do, −5 otherwise; ids [signal id] |
| Scorer.ComputeTier | glassbox/ranking/scorer.py:53-66 | A iff score ≥ 60, B iff 40..59, C iff 20..39, D iff below 20 |
| Scorer.TierMonotone | glassbox/ranking/scorer.py:53-66 | a higher score never lands in a lower-priority tier |
| Scorer.ScoreBreakdown.Components | glassbox/ranking/scorer.py:115-123 | there are always exactly five components |
| Scorer.ScoreBreakdown.AllEvidenceIds | glassbox/ranking/scorer.py:107-112 | the union of the components' evidence ids, no more and no less |
| Scorer.FilterBySign | glassbox/ranking/scorer.py:125-131 | the positive (negative) contributors are exactly the components with contribution > 0 (< 0) |
| Scorer.TotalIsSumOfComponents | glassbox/ranking/scorer.py:91-99 | the total is the sum over the five components |
| Scorer.SignedPartsSum | glassbox/ranking/scorer.py:125-131 | positive and negative contributors together sum to the whole total |
| Scorer.ExplainedTotal | glassbox/ranking/scorer.py:91-131 | a breakdown's total equals the sum of its positive and negative contributors |
| Scorer.ScoreLead | glassbox/ranking/scorer.py:173-211 | the ranked lead carries the scored entity and signal |
| Scorer.BreakdownBounds | glassbox/ranking/scorer.py:91-99 | the component ranges give a total within −5..95 |
| Scorer.ScoreLeadBounds | glassbox/ranking/scorer.py:173-211 | every score lies within −5..95 |
| Scorer.ScoreCitesOnlyItsInputs | glassbox/ranking/scorer.py:173-211 | every evidence id a score cites is the signal's or one of the entity's |
| Scorer.NoSignalCapsAtTierC | glassbox/ranking/scorer.py:173-211 | without a signal the score is at most 30, so the tier is C or D |
| Scorer.ScoredInOrder | glassbox/ranking/scorer.py:226-231 | lead i is entity i scored with signal i when there is one, for each of the first n entities |
| Scorer.ScoredInOrderStep | glassbox/ranking/scorer.py:226-229 | one more round appends entity i scored with signal i |
| Scorer.InsertByScore | glassbox/ranking/scorer.py:232-233 | inserting behind all leads scoring at least as much keeps the order sorted, is a permutation, and keeps each score class in arrival order |
| Scorer.SortByScore | glassbox/ranking/scorer.py:232-233 | the stable descending sort: sorted, a permutation, equal scores keep input order |
| Scorer.ScoreEach | glassbox/ranking/scorer.py:226-231 | the scoring loop yields the specification's in-order list |
| Scorer.ScoreLeads | glassbox/ranking/scorer.py:214-234 | one result per entity, sorted non-increasing by score, a permutation of the in-order scores, ties in input order |
| Scorer.ExplanationLines | glassbox/ranking/scorer.py:241-282 | ten lines, twelve when some component subtracts |
| Scorer.ExplanationHeader | glassbox/ranking/scorer.py:252-253 | the first line names the company, its tier and its score out of 95 |
| Scorer.ExplanationBullets | glassbox/ranking/scorer.py:258-261 | line 3 + i is component i's reason, in component order |
| Scorer.ExplanationSummary | glassbox/ranking/scorer.py:267-276 | a blank line and the tier's summary close the main part |
| Scorer.ExplanationConcerns | glassbox/ranking/scorer.py:278-280 | the concerns line ends the explanation when some contribution is negative |
| Scorer.GenerateExplanation | glassbox/ranking/scorer.py:241-282 | the text is the explanation lines joined by newlines |
| Scorer.ExplanationQuotesEveryReason | glassbox/ranking/scorer.py:241-282 | every component's reason occurs in the explanation text |
| Scorer.StrongestIndex | glassbox/ranking/scorer.py:293-296 | the index of the first component with the largest contribution, as `max` gives: no component is larger and every earlier one is smaller |
| Scorer.ShortExplanation | glassbox/ranking/scorer.py:285-298 | "Tier X (N pts) — " then the reason of the first positive component with the largest contribution, or "No strong signals detected" when none is positive |
| Hosts.Registrable | glassbox/resolution/entity_resolver.py:306-310 | the last two labels: a suffix of the host starting at a label boundary, one dot when the host has one, the host itself otherwise, same TLD |
| Hosts.RegistrableOfSubdomain | glassbox/resolution/entity_resolver.py:304-310 | careers.acme.com reduces to acme.com |
| Hosts.RegistrableIdempotent | glassbox/resolution/entity_resolver.py:306-310 | taking the registrable part twice changes nothing |
| Hosts.UrlHost | glassbox/resolution/entity_resolver.py:95-96 | the network location up to its first ':', lower-cased character by character: it ends at the first ':' or at the end |
| Hosts.WithoutWww | glassbox/resolution/entity_resolver.py:99-100 | one leading www. removed when present, the host unchanged otherwise |
| EntityResolution.ExtractDomainFromUrl | glassbox/resolution/entity_resolver.py:82-108 | None exactly when the URL has no host; otherwise the registrable part of the host lower-cased, without port and one leading www.: a suffix of it at a label boundary with at most one dot |
| EntityResolution.ExtractCompanySlug | glassbox/resolution/entity_resolver.py:111-137 | a slug exactly on Greenhouse or Lever hosts; it is the path's first segment: what follows the leading slashes, up to the next slash or the end |
| EntityResolution.FirstPathSegment | glassbox/resolution/entity_resolver.py:125 | `strip('/')` then `split('/')[0]` is the first segment after the run of leading slashes, which `lstrip` removes |
| EntityResolution.FirstSegmentUnique | glassbox/resolution/entity_resolver.py:125 | a path has only one first segment and one run of leading slashes, so the characterisation fixes the slug |
| EntityResolution.SegmentOfRightStripped | glassbox/resolution/entity_resolver.py:125 | after `rstrip('/')`, the first part of the split is a prefix that ends at a slash or at the end |
| EntityResolution.ReplaceChar | glassbox/resolution/entity_resolver.py:272 | each occurrence of one character replaced by another, all else kept |
| EntityResolution.ExtractCompanyName | glassbox/resolution/entity_resolver.py:235-274 | the stripped name match when there is one, else the title-cased job-board slug with separators as spaces, else none |
| EntityResolution.ValidateDomain | glassbox/resolution/entity_resolver.py:140-213 | empty fails first; otherwise passes exactly when the lower-cased stripped name has a dot, a TLD that is not reserved and is whitelisted, and is not blocked; every failure is R4 |
| EntityResolution.ValidateDomainName | glassbox/resolution/entity_resolver.py:161-213 | the ordered checks after the empty test, each with its own R4 reason naming the domain: no dot, reserved TLD, not whitelisted, personal mail, shortener, job board; passes exactly when none applies |
| EntityResolution.ValidateDomainIgnoresCase | glassbox/resolution/entity_resolver.py:161 | verdict and reason are the same for a domain and its lower-cased form |
| EntityResolution.ReservedTldReportedFirst | glassbox/resolution/entity_resolver.py:171-189 | a reserved TLD is reported as reserved, although it is not whitelisted either |
| EntityResolution.ReservedTldsNotWhitelisted | glassbox/resolution/entity_resolver.py:64-72 | no TLD is both whitelisted and reserved |
| EntityResolution.PersonalDomainRejected | glassbox/resolution/entity_resolver.py:191-197 | gmail.com is rejected as a personal mail domain |
| EntityResolution.TrimDomain | glassbox/resolution/entity_resolver.py:225 | lower-case, not longer than its input, no trailing dot and no leading whitespace |
| EntityResolution.TrimDomainParts | glassbox/resolution/entity_resolver.py:225 | the lower-cased domain is leading whitespace, then the trimmed name, then only dots, then only whitespace; the name opens with no whitespace and ends in no dot, and in no whitespace unless dots follow |
| EntityResolution.StripParts | glassbox/resolution/entity_resolver.py:225 | `strip()` then `rstrip('.')` splits any string that way, at the ends `strip()` finds |
| EntityResolution.TrimmedAtUnique | glassbox/resolution/entity_resolver.py:225 | only one name fits that decomposition, so it fixes the trimmed domain |
| EntityResolution.NormalizeDomain | glassbox/resolution/entity_resolver.py:216-228 | lower-case, never longer than its input, no trailing dot; exactly the trimmed name with one leading www. removed when it has one |
| EntityResolution.NormalizeDomainFixpoint | glassbox/resolution/entity_resolver.py:216-228 | a lower-case, stripped name without trailing dot or leading www. is unchanged |
| EntityResolution.NormalizeDomainDropsOneWww | glassbox/resolution/entity_resolver.py:225-227 | one leading www. is removed from an otherwise clean name |
| EntityResolution.NormalizeDomainNotIdempotent | glassbox/resolution/entity_resolver.py:225-227 | a clean name behind two leading www. labels keeps one after a pass and loses it only in a second pass |
| EntityResolution.DomainFromSignal | glassbox/resolution/entity_resolver.py:277-335 | exactly one qualifying registrable domain → it, normalised; more than one → none; none → slug + ".com" when a slug exists |
| EntityResolution.TwoCompanyDomainsAreAmbiguous | glassbox/resolution/entity_resolver.py:325-327 | two qualifying matches with different registrable domains give no domain |
| EntityResolution.OneCompanyDomain | glassbox/resolution/entity_resolver.py:322-324 | matches that all reduce to one registrable domain yield it, normalised, whatever the slug |
| EntityResolution.ExtractDomainFromSignal | glassbox/resolution/entity_resolver.py:295-335 | the set-filling loop computes the specification's domain |
| EntityResolution.CheckForAmbiguity | glassbox/resolution/entity_resolver.py:349-401 | ambiguous exactly when more than 2 indicators occur, more than one unblocked text domain, or a generic name without domain; a reason is given exactly then; the first case that holds gives "Multiple company references detected in signal", "Multiple domains in signal text: " followed by the set's `repr`, or "Generic company name '<name>' without domain" |
| EntityResolution.MultipleDomainsReason | glassbox/resolution/entity_resolver.py:385-389 | with at most two indicators and more than one unblocked text domain, the reason contains "Multiple domains" |
| EntityResolution.GenericNameReason | glassbox/resolution/entity_resolver.py:391-399 | with nothing ambiguous before it, a generic name without a domain gives a reason containing "Generic company name" |
| EntityResolution.DomainRescuesGenericName | glassbox/resolution/entity_resolver.py:392-399 | a generic name is not ambiguous once a domain is present |
| EntityResolution.ResolveOutcome | glassbox/resolution/entity_resolver.py:416-520 | every rejection is R3 or R4; R4 exactly when a name and a domain were found and the domain failed validation |
| EntityResolution.ResolveOutcomeNoName | glassbox/resolution/entity_resolver.py:434-441 | no company name is always R3 |
| EntityResolution.ResolveOutcomeNoDomain | glassbox/resolution/entity_resolver.py:443-450 | a name but no domain is R3 "Could not extract or infer company domain from signal" |
| EntityResolution.ResolveOutcomeDomainRejected | glassbox/resolution/entity_resolver.py:452-453 | a name and a domain failing validation is R4 with validation's own error |
| EntityResolution.ResolveOutcomeAmbiguous | glassbox/resolution/entity_resolver.py:455-462 | a valid domain on an ambiguous signal is R3 "Ambiguous entity: " and the ambiguity reason |
| EntityResolution.ResolveOutcomeRejectionRecord | glassbox/resolution/entity_resolver.py:511-520 | a rejection cites the signal, keeps the first 500 characters, carries the given id and time |
| EntityResolution.ResolveOutcomeInvalidDomain | glassbox/resolution/entity_resolver.py:452-516 | an R4 means a name and a domain were found and the domain failed validation, with validation's reason |
| EntityResolution.ResolveOutcomeEntity | glassbox/resolution/entity_resolver.py:433-509 | a resolution passed every step; name evidence INF at 0.75, domain evidence INF at 0.85 if the domain is in the text else 0.60, both citing the signal evidence |
| EntityResolution.ResolveOutcomeNeverRaises | glassbox/resolution/entity_resolver.py:469-504 | a valid signal with non-empty ids never raises a validation error |
| EntityResolution.ResolveOutcomeRaises | glassbox/resolution/entity_resolver.py:469-504 | only building the evidence can raise |
| EntityResolution.BuildEntityEvidence | glassbox/resolution/entity_resolver.py:469-504 | the signal's evidence, then the two inferences citing it at the fixed confidences |
| EntityResolution.ResolveEntity | glassbox/resolution/entity_resolver.py:416-520 | the entity, rejection or error the outcome describes; a new entity has no enrichment |
| EntityResolution.BatchResolutionResult.ResolutionRate | glassbox/resolution/entity_resolver.py:535-538 | 0 for an empty batch, within [0, 1], 1 when all resolve |
| EntityResolution.OutcomesPartition | glassbox/resolution/entity_resolver.py:548-563 | without an escaping error every outcome is a resolution or a rejection |
| EntityResolution.TallyStep | glassbox/resolution/entity_resolver.py:554-557 | one more outcome extends exactly one tally |
| EntityResolution.ResolveNext | glassbox/resolution/entity_resolver.py:551-557 | one iteration: appends the entity (the outcome's name and domain evidence) or the rejection the outcome names, or reports the escaping error |
| EntityResolution.ResolveSignals | glassbox/resolution/entity_resolver.py:541-563 | resolved and rejected keep input order; resolved entity k holds the name and domain evidence of resolution k and no enrichment; their sizes sum to the total, which is the number of signals; a failure is an outcome that raises |
| Enrichment.TablesComplete | glassbox/enrichment/waterfall.py:44-132 | every industry and size range has a row in its table |
| Enrichment.IndustryNamesDistinct | glassbox/enrichment/waterfall.py:44-74 | no two industries carry the same name |
| Enrichment.SizeRangeNamesDistinct | glassbox/enrichment/waterfall.py:119-132 | no two size ranges carry the same name |
| Enrichment.GenericTldsAreUnmapped | glassbox/enrichment/waterfall.py:176-213 | no generic TLD has a country |
| Enrichment.MatchingCategoriesMembers | glassbox/enrichment/waterfall.py:93-98 | a category is matched exactly when it has a keyword in the text |
| Enrichment.MatchingCategoriesDistinct | glassbox/enrichment/waterfall.py:93-98 | no category is matched twice |
| Enrichment.SoleCandidate | glassbox/enrichment/waterfall.py:93-101 | when no other category matches, the matches are the one that does, or nothing |
| Enrichment.OnlyMatch | glassbox/enrichment/waterfall.py:93-101 | the matches are a single category exactly when it, and no other, has a keyword |
| Enrichment.SoleMatch | glassbox/enrichment/waterfall.py:93-101 | the same over a table that holds every category |
| Enrichment.TwoMatches | glassbox/enrichment/waterfall.py:93-101 | two matching categories make more than one match |
| Enrichment.CategoryMatches | glassbox/enrichment/waterfall.py:91-98 | the loop with `break` computes the specification's matches |
| Enrichment.EnrichmentInferenceCreated | glassbox/enrichment/waterfall.py:102-108 | with an id, a rule and a confidence in [0, 1] the inference factory succeeds with that record |
| Enrichment.SingleCategory | glassbox/enrichment/waterfall.py:100-111 | evidence exactly when one category matched, with the given value and source |
| Enrichment.IndustryInference | glassbox/enrichment/waterfall.py:77-111 | an INF record named industry at 0.70, rule keyword_industry_mapping, citing the source |
| Enrichment.SizeInference | glassbox/enrichment/waterfall.py:135-168 | an INF record named company_size_range at 0.65, rule signal_size_heuristics, citing the source |
| Enrichment.IndustryExactlyOne | glassbox/enrichment/waterfall.py:77-111 | industry i is inferred exactly when i, and no other industry, has a keyword in the lower-cased text |
| Enrichment.TwoIndustriesGiveNone | glassbox/enrichment/waterfall.py:93-111 | two industries with keywords give no inference |
| Enrichment.SizeExactlyOne | glassbox/enrichment/waterfall.py:135-168 | size range s is inferred exactly when s, and no other range, has an indicator in the text |
| Enrichment.InferIndustry | glassbox/enrichment/waterfall.py:77-111 | the method computes the industry inference |
| Enrichment.InferCompanySizeRange | glassbox/enrichment/waterfall.py:135-168 | the method computes the size inference |
| Enrichment.InferCountryFromDomain | glassbox/enrichment/waterfall.py:216-248 | none for an empty or dot-free domain or a generic TLD; otherwise the mapped country at 0.80 when the TLD is in the map |
| Enrichment.Infer | glassbox/enrichment/waterfall.py:323-349 | without text neither industry nor size is inferred |
| Enrichment.FieldsPartition | glassbox/enrichment/waterfall.py:316-356 | each of the three fields is reported exactly once, as enriched or as failed |
| Enrichment.NoSignalFailsTextFields | glassbox/enrichment/waterfall.py:323-345 | without a signal industry and company_size_range both fail |
| Enrichment.EnrichEntity | glassbox/enrichment/waterfall.py:295-362 | slots change only on a successful inference; name and domain never change; country is never stored; the result is the same entity with the reported fields |
| Enrichment.EnrichedEntity.AllEvidenceIds | glassbox/enrichment/waterfall.py:280-292 | name id, domain id, then industry, size and country ids at their positions when present; nothing else |
| Enrichment.SignalAt | glassbox/enrichment/waterfall.py:378 | the i-th signal when there is one, else none |
| Enrichment.BatchInferences | glassbox/enrichment/waterfall.py:375-382 | entity k is enriched from signal k, or with no signal past the list's end |
| Enrichment.BatchResults | glassbox/enrichment/waterfall.py:375-382 | result k is entity k with the fields its round reports |
| Enrichment.EnrichNext | glassbox/enrichment/waterfall.py:377-380 | one round extends the results by one, keeps name and domain, and sets industry and size to what the round inferred, keeping the old value where it inferred nothing; every other entity that occurs once is untouched, so the list as a whole moves on by exactly one round |
| Enrichment.EnrichEntities | glassbox/enrichment/waterfall.py:365-382 | one result per entity in order, each as enriching it alone would give; name and domain never change; an entity listed once ends with the industry and size its round inferred, or the old ones |
| RssIngestion.RemoveTags | glassbox/ingestion/rss.py:155-156 | nothing but spaces is added; a string beginning with a non-tag character keeps it |
| RssIngestion.CollapseSpaces | glassbox/ingestion/rss.py:157-158 | each whitespace run becomes one space: the result is single-spaced, holds only input characters and spaces, and starts like the input |
| RssIngestion.CollapseKeepsContent | glassbox/ingestion/rss.py:157-158 | collapsing keeps every non-whitespace character, in order |
| RssIngestion.StripKeepsContent | glassbox/ingestion/rss.py:160 | stripping keeps every non-whitespace character, in order |
| RssIngestion.NormalizeText | glassbox/ingestion/rss.py:145-160 | no whitespace at either end, no two whitespace characters in a row, no tag left |
| RssIngestion.NormalizeIdempotent | glassbox/ingestion/rss.py:145-160 | normalising twice is normalising once |
| RssIngestion.NormalizeKeepsContent | glassbox/ingestion/rss.py:145-160 | normalising keeps, in order, every non-whitespace character left once the tags are replaced; on tag-free text, every non-whitespace character of the input |
| RssIngestion.NormalFormUnchanged | glassbox/ingestion/rss.py:145-160 | text that is already trimmed, single-spaced and tag-free is returned unchanged |
| RssIngestion.Words | glassbox/ingestion/rss.py:158-160 | `split()`: words are non-empty and hold only non-whitespace characters of the text; text opening with a non-space has a word |
| RssIngestion.CollapseKeepsWords | glassbox/ingestion/rss.py:158 | collapsing whitespace keeps the words, in order |
| RssIngestion.StripKeepsWords | glassbox/ingestion/rss.py:160 | stripping keeps the words, in order |
| RssIngestion.JoinOfWords | glassbox/ingestion/rss.py:158-160 | trimmed, single-spaced text is its words joined by single spaces |
| RssIngestion.NormalizeIsJoinedWords | glassbox/ingestion/rss.py:145-160 | normalised text is exactly the words of the tag-replaced text joined by single spaces |
| RssIngestion.TagBecomesSpace | glassbox/ingestion/rss.py:155-156 | a leading tag is replaced by one space |
| RssIngestion.RemoveTagsAppend | glassbox/ingestion/rss.py:155-156 | after text whose every < is closed, the rest is processed on its own |
| RssIngestion.TagAnywhereBecomesSpace | glassbox/ingestion/rss.py:155-156 | a tag after such text becomes one space, with both sides processed on their own |
| RssIngestion.ExtractDomainFromUrl | glassbox/ingestion/rss.py:163-180 | None exactly without a host; otherwise the last two labels of the host: a suffix of it at a label boundary, one dot when the host has one, same TLD |
| RssIngestion.FeedDomainDropsSubdomain | glassbox/ingestion/rss.py:163-180 | a subdomain gives the registrable domain |
| RssIngestion.SourceType | glassbox/ingestion/rss.py:241-242 | "rss_" + the feed domain, or "rss_unknown" without one |
| RssIngestion.RawText | glassbox/ingestion/rss.py:226-231 | title and description joined by a blank line when both are non-empty, else whichever is non-empty |
| RssIngestion.ItemText | glassbox/ingestion/rss.py:222-231 | starts with the normalised title, ends with the normalised description, no whitespace at either end, empty exactly when both normalise to nothing |
| RssIngestion.ItemTimestamp | glassbox/ingestion/rss.py:183-195 | the publication time, or the clock when there is none |
| RssIngestion.DedupKey | glassbox/ingestion/rss.py:238 | the hash of link, ":" and the first 500 characters of the item text |
| RssIngestion.DedupKeyIgnoresDateAndGuid | glassbox/ingestion/rss.py:238 | items agreeing on link, title and description share a dedup key |
| RssIngestion.ItemSignal | glassbox/ingestion/rss.py:233-251 | cites the link, carries the item text, time and dedup key, a sig_ id and an rss_ source type; well formed exactly when link and text are non-empty |
| RssIngestion.RssItemToSignal | glassbox/ingestion/rss.py:211-251 | the signal exists exactly when the link and the text are non-empty; an empty link is R8, an empty text R1 |
| RssIngestion.AcceptedItemBuilds | glassbox/ingestion/rss.py:268-304 | an accepted item always builds a signal |
| RssIngestion.ConstructionRejection | glassbox/ingestion/rss.py:293-299 | the snippet is a prefix of title, newline, description |
| RssIngestion.IngestRssItem | glassbox/ingestion/rss.py:254-304 | success exactly when the gate accepts; on success the gated signal, otherwise a rejection with the given id and time |
| RssIngestion.IngestRssItemRejection | glassbox/ingestion/rss.py:254-304 | empty link → R8, empty text → R1, stale → R2, no intent → R1 |
| RssIngestion.IngestRssItemShape | glassbox/ingestion/rss.py:254-304 | the signal carries the item's dedup key; the result is an acceptance or a rejection |
| RssIngestion.BatchIngestionResult.AcceptanceRate | glassbox/ingestion/rss.py:319-322 | the accepted share of all items, 0 without items |
| RssIngestion.SeenHashes.constructor | glassbox/ingestion/rss.py:341-342 | the set the caller starts with |
| RssIngestion.FeedStep | glassbox/ingestion/rss.py:360-375 | counts every item; a seen key adds nothing; an acceptance is appended and its hash added; otherwise the rejection is appended |
| RssIngestion.FeedStepHashes | glassbox/ingestion/rss.py:371-373 | the seen set stays the starting set plus the hashes of the accepted signals |
| RssIngestion.FeedLoop | glassbox/ingestion/rss.py:359-376 | counts every item, duplicates included; accepted plus rejected never exceed it; seen = old set ∪ accepted hashes |
| RssIngestion.FeedRun | glassbox/ingestion/rss.py:325-381 | corrected loop: the same counts and seen-set law over the parsed items |
| RssIngestion.RecordResult | glassbox/ingestion/rss.py:371-375 | appends the acceptance and its hash, or the rejection |
| RssIngestion.IngestFeedItem | glassbox/ingestion/rss.py:360-375 | one iteration is one feed step |
| RssIngestion.IngestRssFeed | glassbox/ingestion/rss.py:325-381 | a parse failure gives an empty result and leaves the set alone; otherwise result and set are the corrected run's |
| RssIngestion.ItemResultsShape | glassbox/ingestion/rss.py:359-376 | results carry their keys, are all decided, and accept exactly what the gate accepts |
| RssIngestion.LoopSeenWithinKeys | glassbox/ingestion/rss.py:371-373 | the set only gains keys of the items |
| RssIngestion.LoopAllDecided | glassbox/ingestion/rss.py:359-376 | with fresh, distinct keys every item is accepted or rejected |
| RssIngestion.LoopAcceptedSeen | glassbox/ingestion/rss.py:371-373 | every accepted item's key ends up seen |
| RssIngestion.LoopNothingNew | glassbox/ingestion/rss.py:362-366 | nothing is accepted when every key is already seen or not accepted |
| RssIngestion.DistinctItemsAllDecided | glassbox/ingestion/rss.py:359-376 | fresh, distinct items are each accepted or rejected |
| RssIngestion.AcceptancesIgnoreIds | glassbox/ingestion/rss.py:268-304 | which items are accepted does not depend on the rejection ids |
| RssIngestion.ReingestAcceptsNothing | glassbox/ingestion/rss.py:362-373 | ingesting a feed again with the set the first run left accepts nothing |
| RssIngestion.ItemBuilds | glassbox/ingestion/rss.py:363 | the signal each item builds before the dedup check |
| RssIngestion.LoopAsWritten | glassbox/ingestion/rss.py:359-376 | as written: aborts exactly when some item's signal cannot be built |
| RssIngestion.LoopAsWrittenAgrees | glassbox/ingestion/rss.py:359-376 | when every build succeeds the loop as written is the corrected loop |
| RssIngestion.FeedRunAsWritten | glassbox/ingestion/rss.py:325-381 | as written: aborts exactly when some item fails to build a signal |
| RssIngestion.AsWrittenAgreesWhenAllBuild | glassbox/ingestion/rss.py:325-381 | both loops agree on feeds whose items all build |
| RssIngestion.EmptyItemHasNoText | glassbox/ingestion/rss.py:226-231 | an item with empty title and description has no text |
| RssIngestion.EmptyItemAbortsFeed | glassbox/ingestion/rss.py:363 | such an item with a link makes the loop as written escape with R1 |
| RssIngestion.EmptyItemRejected | glassbox/ingestion/rss.py:325-381 | the corrected loop rejects that item with R1 and accepts nothing |

## Left out

- XML parsing is not part of this model: `parse_rss_feed`, `_get_text`, `parse_rss_date`, and the timezone conversion in `normalize_datetime`. `IngestRssFeed` takes the parsed items, or `None` where parsing failed. A publication date is already in UTC seconds; a missing one falls back to the clock.
- The clock is read once per feed (`now`); the source reads it afresh for each item.
- A `seen_hashes` of `None` is modelled as a fresh empty `SeenHashes` that no caller sees afterwards.
- Regular expressions are not modelled; their results are inputs instead:
  - the company-name pattern, read as `SignalReading.nameMatch`;
  - the domain patterns of `extract_domain_from_signal` and `check_for_ambiguity`, read as lists of matches;
  - the `urlparse` host and path, which are `Platform` functions.

  An exception from `urlparse` is not modelled.
- Hashing, `uuid4`, `utcnow`, `isoformat`, `float()` and number formatting are parameters: `Platform` functions, or caller-supplied ids and times.
  - Component reasons that print numbers use `IntToString` for integral values; `formatPercent` covers `:.0%`.
  - The `:>5.0f` and similar padding of reasons is not modelled.
- Text is ASCII:
  - `lower()` changes only `A`–`Z`;
  - whitespace is space, tab, newline, carriage return, vertical tab and form feed;
  - Unicode case rules and the other Unicode spaces are left out.
- Confidences are exact `real`s, not binary floats. The source only compares them and subtracts decimal constants from them.
- An uncaught Python exception is a value. Examples: `EvidenceInvalid` from `resolve_entity`, `Failure` from `resolve_signals`, `Aborted` in the feed loop as written.
- `Scorer.ScoreBreakdown.AllEvidenceIds`: returns a set, because the source's list order is a Python set's iteration order.
- The set `repr` inside the ambiguity reason is `Platform.setRepr`, and the list `repr` inside the R5 reason is `Platform.listRepr`. Python prints both; the model does not spell out their format.
- `Scorer.ScoreLead`: its own contract states only that the entity and the signal are carried through. What it computes is stated by `ScoreLeadBounds`, `ScoreCitesOnlyItsInputs` and `NoSignalCapsAtTierC`.
- `Components.ComputeEntityCompleteness` and `Components.GetEntityEvidence` are functions, not methods. Their step-by-step appends and `+=` have no loop, and the pure scorer functions call them.
- `Validation.ValidateLlmJsonOutput`: `float()` never yields NaN or infinity here, because `Platform.parseFloat` returns a real. A confidence of `"nan"` fails every comparison in Python, so it passes the `< 0.8` test. The model cannot express that case.
- `Enrichment.EnrichEntities`: the final industry and size are stated only for an entity that occurs once in the list. When the same object occurs twice, its final state depends on both rounds. Only the returned results are stated for it.
- `EvidenceLedger.Evidence`: `value` is a string here, where evidence.py:96 types it `Any`. Every call site in the modelled core passes a string.
- `Domain.Lead.constructor`: `createdAt` and `updatedAt` are one `now`. The source (domain.py:288-289) calls `utcnow` twice, and the two readings can differ by a few microseconds.
- `Domain.Entity.DomainValue` and `Domain.Entity.NameValue` have no row. Each returns one field of one evidence record and has nothing more to state.
- `Domain.SignalIsStale`, `Domain.Lead.HasContact`, `Domain.SortKeyLess` and `Domain.StringLess` are predicates with no contract of their own. `Validation.SignalStaleIffFreshnessFails`, `Domain.TierOneLeadHasContact`, `Domain.SortKeyStrictTotalOrder` and the `StringLess` lemmas state their meaning.
- The CLI (`cli/main.py`, `cli/__main__.py`) and the pipeline glue (`cli/pipeline.py`) are not part of this model. The index-based pairing in the pipeline is one of the parts left out.

## Findings

| source | as written | input that shows it | evidently intended | confidence | as-written member | corrected member |
|---|---|---|---|---|---|---|
| glassbox/ingestion/rss.py:363 | the dedup pre-check calls `rss_item_to_signal` outside any `try`, so a `RejectionError` from `Signal` construction escapes `ingest_rss_feed`, and the hashes already added stay in the caller's set | an item with a link and an empty title and description | the item is rejected with R1, as `ingest_rss_item` does for it, and the loop goes on | not executed; high | RssIngestion.FeedRunAsWritten, RssIngestion.EmptyItemAbortsFeed | RssIngestion.FeedRun, RssIngestion.IngestRssFeed, RssIngestion.EmptyItemRejected |
| glassbox/validation.py:159-160 | `re.match` with a pattern ending in `$`, and `$` also matches before one final newline | `"acme.io\n"` passes | the whole string must have the domain shape | not executed; medium | Validation.ValidateDomainResolvable, Validation.TrailingNewlineDomainAccepted | Validation.ValidateDomainResolvableStrict, Validation.StrictAgreesWithoutNewline |

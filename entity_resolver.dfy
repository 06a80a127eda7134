/** Entity resolution: from an accepted signal to a company entity whose name
    and domain are both inferences citing the signal, or to a rejection. The
    regular-expression scans of the signal text are taken as inputs (their
    match lists); everything decided from those matches is modelled. */
module EntityResolution {
  import opened Base
  import opened EvidenceLedger
  import opened Domain
  import opened Hosts

  // ---------------------------------------------------------------------------
  // Domain lists
  // ---------------------------------------------------------------------------

  const PersonalEmailDomains: set<string> := {
    "gmail.com", "yahoo.com", "hotmail.com", "outlook.com",
    "aol.com", "icloud.com", "mail.com", "protonmail.com",
    "live.com", "msn.com", "ymail.com", "googlemail.com"}

  const UrlShortenerDomains: set<string> := {
    "bit.ly", "tinyurl.com", "t.co", "goo.gl", "ow.ly",
    "is.gd", "buff.ly", "rebrand.ly", "short.io"}

  const JobBoardDomains: set<string> := {
    "greenhouse.io", "lever.co", "workday.com", "jobvite.com",
    "icims.com", "smartrecruiters.com", "bamboohr.com",
    "indeed.com", "linkedin.com", "glassdoor.com"}

  /** The conservative TLD whitelist. */
  const ValidTlds: set<string> := {
    "com", "org", "net", "io", "co", "ai", "app", "dev",
    "tech", "xyz", "info", "biz", "me", "us", "uk", "de",
    "fr", "ca", "au", "in", "jp", "cn", "eu", "edu", "gov", "ly"}

  const InvalidTlds: set<string> := {"test", "invalid", "localhost", "example", "local"}

  /** A personal-mail, URL-shortener or job-board domain: never a company's. */
  predicate Blocked(d: string) {
    d in PersonalEmailDomains || d in UrlShortenerDomains || d in JobBoardDomains
  }

  /** `extract_domain_from_url`: the registrable domain of the URL's host, with
      the port and one leading `www.` removed; None when there is no host. */
  function ExtractDomainFromUrl(p: Platform, url: string): (r: Option<string>)
    ensures r.None? <==> p.urlNetloc(url) == ""
    ensures r.Some? ==> r.value == Registrable(WithoutWww(UrlHost(p, url)))
    ensures r.Some? ==> Occurrences(r.value, '.') <= 1 && Registrable(r.value) == r.value
    ensures r.Some? ==> var bare := WithoutWww(UrlHost(p, url));
      LabelSuffix(bare, r.value)
  {
    var netloc := p.urlNetloc(url);
    if netloc == "" then None
    else
      var bare := WithoutWww(UrlHost(p, url));
      RegistrableIdempotent(bare);
      OccurrencesAbsent(bare, '.');
      Some(Registrable(bare))
  }

  predicate IsSlash(c: char) {
    c == '/'
  }

  /** `extract_company_domain_from_job_url`: on a Greenhouse or Lever URL, the
      first segment of the path; None on any other host. */
  function ExtractCompanySlug(p: Platform, url: string): (r: Option<string>)
    ensures r.Some? <==> Contains(p.urlNetloc(url), "greenhouse.io") || Contains(p.urlNetloc(url), "lever.co")
    ensures r.Some? ==> '/' !in r.value
    ensures r.Some? ==> r.value == [] || r.value[0] != '/'
    ensures r.Some? ==> var path := p.urlPath(url);
      FirstSegmentAt(path, |path| - |StripLeftWhere(path, IsSlash)|, r.value)
  {
    var netloc := p.urlNetloc(url);
    if Contains(netloc, "greenhouse.io") || Contains(netloc, "lever.co") then Some(FirstPathSegment(p.urlPath(url)))
    else None
  }

  /** `path.strip('/').split('/')[0]`: what follows the path's leading
      slashes, up to the next slash or the end. */
  function FirstPathSegment(path: string): (seg: string)
    ensures FirstSegmentAt(path, |path| - |StripLeftWhere(path, IsSlash)|, seg)
  {
    var l := StripLeftWhere(path, IsSlash);
    LeadingSlashes(path);
    assert StripWhere(path, IsSlash) == StripRightWhere(l, IsSlash);
    SegmentOfRightStripped(l);
    var seg := Split(StripWhere(path, IsSlash), '/')[0];
    ShiftSegment(path, l, seg);
    seg
  }

  /** The path opens with a slashes, then seg, which holds no slash and runs
      to the next slash or to the end. */
  predicate FirstSegmentAt(path: string, a: nat, seg: string) {
    && a + |seg| <= |path|
    && (forall k | 0 <= k < a :: path[k] == '/')
    && (a == |path| || path[a] != '/')
    && seg == path[a..a + |seg|] && '/' !in seg
    && (a + |seg| == |path| || path[a + |seg|] == '/')
  }

  /** A path has only one first segment. */
  lemma FirstSegmentUnique(path: string, a: nat, seg: string, b: nat, seg': string)
    requires FirstSegmentAt(path, a, seg) && FirstSegmentAt(path, b, seg')
    ensures a == b && seg == seg'
  {
    SegmentHasNoSlash(path, a, seg);
    SegmentHasNoSlash(path, b, seg');
  }

  /** No slash lies inside the first segment. */
  lemma SegmentHasNoSlash(path: string, a: nat, seg: string)
    requires FirstSegmentAt(path, a, seg)
    ensures forall k | a <= k < a + |seg| :: path[k] != '/'
  {
    assert forall k | a <= k < a + |seg| :: path[k] == seg[k - a];
  }

  /** `lstrip('/')` removes exactly the path's leading slashes. */
  lemma LeadingSlashes(path: string)
    ensures var a := |path| - |StripLeftWhere(path, IsSlash)|;
      (forall k | 0 <= k < a :: path[k] == '/') && (a == |path| || path[a] != '/')
  {
    StripLeftRemoved(path, IsSlash);
  }

  /** A segment at the start of what follows the leading slashes is the first segment. */
  lemma ShiftSegment(path: string, l: string, seg: string)
    requires |l| <= |path| && l == path[|path| - |l|..]
    requires (forall k | 0 <= k < |path| - |l| :: path[k] == '/') && (l == [] || l[0] != '/')
    requires |seg| <= |l| && seg == l[..|seg|] && '/' !in seg && (|seg| == |l| || l[|seg|] == '/')
    ensures FirstSegmentAt(path, |path| - |l|, seg)
  {
    var a := |path| - |l|;
    assert path[a..a + |seg|] == l[..|seg|];
  }

  /** Before the split, `rstrip('/')` only removes slashes: the first part is
      what precedes the first slash. */
  lemma SegmentOfRightStripped(l: string)
    ensures var seg := Split(StripRightWhere(l, IsSlash), '/')[0];
      |seg| <= |l| && seg == l[..|seg|] && '/' !in seg && (|seg| == |l| || l[|seg|] == '/')
  {
    var stripped := StripRightWhere(l, IsSlash);
    StripRightRemoved(l, IsSlash);
    SplitFirst(stripped, '/');
    var seg := Split(stripped, '/')[0];
    if '/' in stripped {
      var j := IndexOf(stripped, '/');
      assert seg == stripped[..j] == l[..j];
      assert l[j] == stripped[j];
    } else {
      assert seg == stripped;
      assert |seg| < |l| ==> IsSlash(l[|seg|]);
    }
  }

  /** `s.replace(a, b)` for single characters. */
  function ReplaceChar(s: string, a: char, b: char): (r: string)
    ensures |r| == |s|
    ensures forall i :: 0 <= i < |s| ==> r[i] == (if s[i] == a then b else s[i])
  {
    if s == [] then [] else [if s[0] == a then b else s[0]] + ReplaceChar(s[1..], a, b)
  }

  /** `extract_company_name_from_signal`: the stripped group of the first
      name pattern that matches; failing all three, the job-board slug with
      dashes and underscores turned into spaces, title-cased. */
  function ExtractCompanyName(p: Platform, nameMatch: Option<string>, sourceUrl: string): (r: Option<string>)
    ensures r.Some? <==> nameMatch.Some? || Present(ExtractCompanySlug(p, sourceUrl))
    ensures nameMatch.Some? ==> r.value == Strip(nameMatch.value)
    ensures nameMatch.None? && r.Some? ==>
      r.value == p.titleCase(ReplaceChar(ReplaceChar(ExtractCompanySlug(p, sourceUrl).value, '-', ' '), '_', ' '))
  {
    if nameMatch.Some? then Some(Strip(nameMatch.value))
    else
      var slug := ExtractCompanySlug(p, sourceUrl);
      if Present(slug) then Some(p.titleCase(ReplaceChar(ReplaceChar(slug.value, '-', ' '), '_', ' ')))
      else None
  }

  // ---------------------------------------------------------------------------
  // Validation and normalisation
  // ---------------------------------------------------------------------------

  function InvalidDomainError(reason: string, signalId: Option<string>): RejectionError {
    RejectionError(InvalidDomain, reason, signalId)
  }

  /** `validate_domain`: an empty domain fails first; otherwise the
      lower-cased, stripped form is checked by `ValidateDomainName`. */
  function ValidateDomain(domain: string, signalId: Option<string>): (r: Outcome<RejectionError>)
    ensures r.Fail? ==> r.error.rule == InvalidDomain && r.error.signalId == signalId
    ensures domain == "" ==> r == Fail(InvalidDomainError("Domain is empty", signalId))
    ensures r.Pass? <==>
      domain != "" &&
      var d := Strip(Lower(domain));
      '.' in d && LastPart(d, '.') !in InvalidTlds && LastPart(d, '.') in ValidTlds && !Blocked(d)
  {
    if domain == "" then
      Fail(InvalidDomainError("Domain is empty", signalId))
    else
      ValidateDomainName(Strip(Lower(domain)), signalId)
  }

  /** The checks of `validate_domain` on the normalised name d: it must hold a
      dot, end in a whitelisted (and not reserved) TLD and not be a blocked
      domain. Checks run in that order and the first failure is reported,
      always as R4. */
  function ValidateDomainName(d: string, signalId: Option<string>): (r: Outcome<RejectionError>)
    ensures r.Fail? ==> r.error.rule == InvalidDomain && r.error.signalId == signalId
    ensures r.Pass? <==>
      '.' in d && LastPart(d, '.') !in InvalidTlds && LastPart(d, '.') in ValidTlds && !Blocked(d)
    ensures '.' !in d ==> r == Fail(InvalidDomainError("Invalid domain format: " + d, signalId))
    ensures '.' in d ==> var tld := LastPart(d, '.');
      && (tld in InvalidTlds ==>
            r == Fail(InvalidDomainError("Domain uses reserved/invalid TLD: " + d, signalId)))
      && (tld !in InvalidTlds && tld !in ValidTlds ==>
            r == Fail(InvalidDomainError("Domain TLD not in allowed list: " + d, signalId)))
      && (tld !in InvalidTlds && tld in ValidTlds && d in PersonalEmailDomains ==>
            r == Fail(InvalidDomainError("Personal email domain not allowed: " + d, signalId)))
      && (tld !in InvalidTlds && tld in ValidTlds && d !in PersonalEmailDomains && d in UrlShortenerDomains ==>
            r == Fail(InvalidDomainError("URL shortener domain not resolvable: " + d, signalId)))
      && (tld !in InvalidTlds && tld in ValidTlds && d !in PersonalEmailDomains && d !in UrlShortenerDomains
          && d in JobBoardDomains ==>
            r == Fail(InvalidDomainError("Job board domain is signal source, not company: " + d, signalId)))
  {
    if '.' !in d then
      Fail(InvalidDomainError("Invalid domain format: " + d, signalId))
    else
      var tld := LastPart(d, '.');
      if tld in InvalidTlds then
        Fail(InvalidDomainError("Domain uses reserved/invalid TLD: " + d, signalId))
      else if tld !in ValidTlds then
        Fail(InvalidDomainError("Domain TLD not in allowed list: " + d, signalId))
      else if d in PersonalEmailDomains then
        Fail(InvalidDomainError("Personal email domain not allowed: " + d, signalId))
      else if d in UrlShortenerDomains then
        Fail(InvalidDomainError("URL shortener domain not resolvable: " + d, signalId))
      else if d in JobBoardDomains then
        Fail(InvalidDomainError("Job board domain is signal source, not company: " + d, signalId))
      else
        Pass
  }

  /** Validation does not see letter case: the verdict and the reason are the same. */
  lemma ValidateDomainIgnoresCase(domain: string, signalId: Option<string>)
    ensures ValidateDomain(Lower(domain), signalId) == ValidateDomain(domain, signalId)
  {
    LowerIdempotent(domain);
    assert |Lower(domain)| == |domain|;
  }

  /** A reserved TLD is reported as such even though it is not whitelisted either. */
  lemma ReservedTldReportedFirst(d: string, signalId: Option<string>)
    requires '.' in d && LastPart(d, '.') in InvalidTlds
    ensures ValidateDomainName(d, signalId)
         == Fail(InvalidDomainError("Domain uses reserved/invalid TLD: " + d, signalId))
  {
  }

  /** No reserved TLD is whitelisted, so the order of those two checks only
      decides the reason given, never the verdict. */
  lemma ReservedTldsNotWhitelisted()
    ensures ValidTlds * InvalidTlds == {}
  {
  }

  /** A personal mail domain has a whitelisted TLD, so it is rejected as personal. */
  lemma PersonalDomainRejected(signalId: Option<string>)
    ensures ValidateDomainName("gmail.com", signalId)
         == Fail(InvalidDomainError("Personal email domain not allowed: " + "gmail.com", signalId))
  {
    assert "gmail.com" == "gmail" + "." + "com";
    SplitAroundDot("gmail", "com");
    ComIsWhitelisted();
    assert "gmail.com" in PersonalEmailDomains;
  }

  lemma ComIsWhitelisted()
    ensures "com" in ValidTlds && "com" !in InvalidTlds
  {
  }

  /** The first three steps of `normalize_domain`: lower-case, strip
      whitespace, drop trailing dots. */
  function TrimDomain(domain: string): (d: string)
    ensures |d| <= |domain|
    ensures IsLowerCase(d)
    ensures d == [] || (d[|d| - 1] != '.' && !IsSpace(d[0]))
  {
    var stripped := Strip(Lower(domain));
    var d := StripRightWhere(stripped, IsDot);
    StripLowerCase(Lower(domain), IsSpace);
    StripLowerCase(stripped, IsDot);
    assert d != [] ==> d[0] == stripped[0];
    d
  }

  /** s is the whitespace s[..i], then d, then the dots up to j, then the
      whitespace s[j..]; d opens with no whitespace and ends in no dot, and
      ends in no whitespace unless dots follow it. */
  predicate TrimmedAt(s: string, i: int, d: string, j: int) {
    && 0 <= i && i + |d| <= j <= |s| && d == s[i..i + |d|]
    && (forall k | 0 <= k < i :: IsSpace(s[k]))
    && (forall k | i + |d| <= k < j :: s[k] == '.')
    && (forall k | j <= k < |s| :: IsSpace(s[k]))
    && (d == [] || (!IsSpace(d[0]) && d[|d| - 1] != '.' && (j == i + |d| ==> !IsSpace(d[|d| - 1]))))
  }

  /** The lower-cased domain splits into leading whitespace, the trimmed
      name, the trailing dots and the trailing whitespace; the whitespace
      ends where `strip()` puts them. */
  lemma TrimDomainParts(domain: string) returns (i: int, j: int)
    ensures TrimmedAt(Lower(domain), i, TrimDomain(domain), j)
    ensures i == |Lower(domain)| - |StripLeftWhere(Lower(domain), IsSpace)| && j == i + |Strip(Lower(domain))|
  {
    var s := Lower(domain);
    var l := StripLeftWhere(s, IsSpace);
    i := |s| - |l|;
    j := i + |Strip(s)|;
    StripParts(s, l, Strip(s), TrimDomain(domain), i, j);
  }

  /** Stripping whitespace and then trailing dots decomposes any string. */
  lemma StripParts(s: string, l: string, stripped: string, d: string, i: int, j: int)
    requires l == StripLeftWhere(s, IsSpace) && stripped == Strip(s)
    requires d == StripRightWhere(stripped, IsDot)
    requires i == |s| - |l| && j == i + |stripped|
    ensures TrimmedAt(s, i, d, j)
  {
    LeadingSpaces(s, l);
    assert stripped == StripRightWhere(l, IsSpace);
    TrailingSpaces(l, stripped);
    TrailingDots(stripped, d);
    AssembleTrim(s, l, stripped, d, i, j);
  }

  /** `lstrip()` removes a prefix of whitespace. */
  lemma LeadingSpaces(s: string, l: string)
    requires l == StripLeftWhere(s, IsSpace)
    ensures |l| <= |s| && l == s[|s| - |l|..] && (forall k | 0 <= k < |s| - |l| :: IsSpace(s[k]))
  {
    StripLeftRemoved(s, IsSpace);
  }

  /** `rstrip()` removes a suffix of whitespace. */
  lemma TrailingSpaces(l: string, stripped: string)
    requires stripped == StripRightWhere(l, IsSpace)
    ensures |stripped| <= |l| && stripped == l[..|stripped|]
    ensures forall k | |stripped| <= k < |l| :: IsSpace(l[k])
    ensures stripped == [] || !IsSpace(stripped[|stripped| - 1])
  {
    StripRightRemoved(l, IsSpace);
  }

  /** `rstrip('.')` removes a suffix of dots. */
  lemma TrailingDots(stripped: string, d: string)
    requires d == StripRightWhere(stripped, IsDot)
    ensures |d| <= |stripped| && d == stripped[..|d|]
    ensures forall k | |d| <= k < |stripped| :: stripped[k] == '.'
    ensures d == [] || d[|d| - 1] != '.'
  {
    StripRightRemoved(stripped, IsDot);
  }

  /** The three strips, one after the other, give the decomposition. */
  lemma AssembleTrim(s: string, l: string, stripped: string, d: string, i: int, j: int)
    requires |l| <= |s| && l == s[|s| - |l|..] && (forall k | 0 <= k < |s| - |l| :: IsSpace(s[k]))
    requires |stripped| <= |l| && stripped == l[..|stripped|]
    requires forall k | |stripped| <= k < |l| :: IsSpace(l[k])
    requires stripped == [] || !IsSpace(stripped[|stripped| - 1])
    requires stripped == [] || !IsSpace(stripped[0])
    requires |d| <= |stripped| && d == stripped[..|d|]
    requires forall k | |d| <= k < |stripped| :: stripped[k] == '.'
    requires d == [] || d[|d| - 1] != '.'
    requires i == |s| - |l| && j == i + |stripped|
    ensures TrimmedAt(s, i, d, j)
  {
    assert forall k | i <= k < |s| :: s[k] == l[k - i];
    assert d == s[i..i + |d|];
    assert d != [] ==> d[0] == stripped[0];
    assert |d| == |stripped| ==> d == stripped;
  }

  /** The decomposition fixes the trimmed name. */
  lemma TrimmedAtUnique(s: string, i: int, d: string, j: int, i': int, d': string, j': int)
    requires TrimmedAt(s, i, d, j) && TrimmedAt(s, i', d', j')
    ensures d == d'
  {
    NameBounds(s, i, d, j);
    NameBounds(s, i', d', j');
    EmptyTrimExcludesName(s, i, d, j, i', d', j');
    EmptyTrimExcludesName(s, i', d', j', i, d, j);
  }

  /** A string that is only whitespace, dots and whitespace has no name to trim. */
  lemma EmptyTrimExcludesName(s: string, i: int, e: string, j: int, i': int, d: string, j': int)
    requires TrimmedAt(s, i, e, j) && TrimmedAt(s, i', d, j')
    ensures e == [] ==> d == []
  {
    NameBounds(s, i', d, j');
  }

  /** A name opens with a non-space and ends in a non-dot, the last
      non-space is where the dots end, and a dot follows the name unless
      that is the end. */
  lemma NameBounds(s: string, i: int, d: string, j: int)
    requires TrimmedAt(s, i, d, j)
    ensures d != [] ==> !IsSpace(s[i]) && s[i + |d| - 1] != '.' && !IsSpace(s[j - 1])
    ensures d != [] && i + |d| < j ==> s[i + |d|] == '.'
  {
    if d != [] {
      assert s[i] == d[0] && s[i + |d| - 1] == d[|d| - 1];
    }
  }

  /** `normalize_domain`: lower-case, strip whitespace, drop trailing dots, then
      drop one leading `www.`. */
  function NormalizeDomain(domain: string): (r: string)
    ensures |r| <= |domain|
    ensures IsLowerCase(r)
    ensures r == [] || r[|r| - 1] != '.'
    ensures StartsWith(TrimDomain(domain), "www.") ==> TrimDomain(domain) == "www." + r
    ensures !StartsWith(TrimDomain(domain), "www.") ==> r == TrimDomain(domain)
  {
    WithoutWww(TrimDomain(domain))
  }

  /** A name already lower-case, stripped, without trailing dot or leading
      `www.` is left as it is. */
  lemma NormalizeDomainFixpoint(d: string)
    requires IsLowerCase(d) && Strip(d) == d && (d == [] || d[|d| - 1] != '.') && !StartsWith(d, "www.")
    ensures NormalizeDomain(d) == d
  {
    TrimDomainFixpoint(d);
  }

  /** A lower-case, stripped name without trailing dot survives the trimming. */
  lemma TrimDomainFixpoint(d: string)
    requires IsLowerCase(d) && Strip(d) == d && (d == [] || d[|d| - 1] != '.')
    ensures TrimDomain(d) == d
  {
    calc {
      TrimDomain(d);
      StripRightWhere(Strip(Lower(d)), IsDot);
    == { LowerOfLowerCase(d); }
      StripRightWhere(Strip(d), IsDot);
      StripRightWhere(d, IsDot);
    == { if d != [] { assert d[..|d|] == d; } }
      d;
    }
  }

  lemma LowerCaseAppend(a: string, b: string)
    requires IsLowerCase(a) && IsLowerCase(b)
    ensures IsLowerCase(a + b)
  {
    forall i | 0 <= i < |a + b| ensures !('A' <= (a + b)[i] <= 'Z') {
      if i >= |a| {
        assert (a + b)[i] == b[i - |a|];
      }
    }
  }

  lemma LowerOfLowerCase(s: string)
    requires IsLowerCase(s)
    ensures Lower(s) == s
  {
  }

  /** One pass removes exactly one leading `www.` from an otherwise clean name. */
  lemma NormalizeDomainDropsOneWww(rest: string)
    requires IsLowerCase(rest) && rest != [] && !IsSpace(rest[|rest| - 1]) && rest[|rest| - 1] != '.'
    ensures NormalizeDomain("www." + rest) == rest
  {
    var d := "www." + rest;
    assert d[..4] == "www." && d[4..] == rest;
    assert d[|d| - 1] == rest[|rest| - 1];
    LowerCaseAppend("www.", rest);
    LowerOfLowerCase(d);
    StripUntouched(d, IsSpace);
    StripUntouched(d, IsDot);
  }

  /** Nothing to strip at either end leaves the string as it is. */
  lemma StripUntouched(d: string, stripped: char -> bool)
    requires d != [] && !stripped(d[0]) && !stripped(d[|d| - 1])
    ensures StripWhere(d, stripped) == d && StripRightWhere(d, stripped) == d
  {
  }

  /** Normalising is not idempotent: only one `www.` goes per pass, so a name
      with two leading `www.` labels needs two passes. */
  lemma NormalizeDomainNotIdempotent(rest: string)
    requires IsLowerCase(rest) && rest != [] && !IsSpace(rest[|rest| - 1]) && rest[|rest| - 1] != '.'
    ensures NormalizeDomain("www." + ("www." + rest)) == "www." + rest
    ensures NormalizeDomain(NormalizeDomain("www." + ("www." + rest))) == rest
  {
    var once := "www." + rest;
    assert once[|once| - 1] == rest[|rest| - 1];
    LowerCaseAppend("www.", rest);
    NormalizeDomainDropsOneWww(once);
    NormalizeDomainDropsOneWww(rest);
  }

  // ---------------------------------------------------------------------------
  // Domain from the signal
  // ---------------------------------------------------------------------------

  /** A text match counts when neither it nor its registrable part is blocked. */
  predicate Qualifies(d: string) {
    !Blocked(d) && !Blocked(Registrable(d))
  }

  /** The distinct registrable domains among the qualifying matches of the
      domain pattern in the lower-cased text. */
  function RegistrableDomains(matches: seq<string>): set<string> {
    set d | d in matches && Qualifies(d) :: Registrable(d)
  }

  /** What `extract_domain_from_signal` decides from the text matches and the
      job-board URL slug: exactly one registrable domain is taken (normalised),
      more than one is ambiguous, and none falls back to `slug.lower() + ".com"`. */
  function DomainFromSignal(matches: seq<string>, slug: Option<string>): (r: Option<string>)
    ensures |RegistrableDomains(matches)| > 1 ==> r == None
    ensures |RegistrableDomains(matches)| == 1 ==>
      forall x | x in RegistrableDomains(matches) :: r == Some(NormalizeDomain(x))
    ensures RegistrableDomains(matches) == {} ==>
      r == (if Present(slug) then Some(Lower(slug.value) + ".com") else None)
  {
    var regs := RegistrableDomains(matches);
    if |regs| == 1 then
      var x :| x in regs;
      SingletonUnique(regs, x);
      Some(NormalizeDomain(x))
    else if |regs| > 1 then None
    else if Present(slug) then Some(Lower(slug.value) + ".com")
    else None
  }

  lemma TwoMembers(s: set<string>, x: string, y: string)
    requires x in s && y in s && x != y
    ensures |s| >= 2
  {
    var t := s - {x};
    assert y in t;
    assert s == t + {x};
    assert |t + {x}| == |t| + 1;
  }

  lemma SingletonUnique(s: set<string>, x: string)
    requires |s| == 1 && x in s
    ensures s == {x}
  {
    if y :| y in s && y != x {
      TwoMembers(s, x, y);
    }
  }

  /** Two different qualifying registrable domains make the extraction fail. */
  lemma TwoCompanyDomainsAreAmbiguous(matches: seq<string>, slug: Option<string>, i: nat, j: nat)
    requires i < |matches| && j < |matches|
    requires Qualifies(matches[i]) && Qualifies(matches[j])
    requires Registrable(matches[i]) != Registrable(matches[j])
    ensures DomainFromSignal(matches, slug) == None
  {
    var regs := RegistrableDomains(matches);
    assert Registrable(matches[i]) in regs && Registrable(matches[j]) in regs;
    TwoMembers(regs, Registrable(matches[i]), Registrable(matches[j]));
  }

  /** Matches that all reduce to one registrable domain (a company's subdomains)
      yield that domain, normalised, whatever the slug. */
  lemma OneCompanyDomain(matches: seq<string>, slug: Option<string>, i: nat)
    requires i < |matches| && Qualifies(matches[i])
    requires forall k | 0 <= k < |matches| && Qualifies(matches[k]) :: Registrable(matches[k]) == Registrable(matches[i])
    ensures DomainFromSignal(matches, slug) == Some(NormalizeDomain(Registrable(matches[i])))
  {
    assert RegistrableDomains(matches) == {Registrable(matches[i])};
  }

  lemma RegistrableDomainsSnoc(matches: seq<string>, d: string)
    ensures RegistrableDomains(matches + [d])
      == RegistrableDomains(matches) + (if Qualifies(d) then {Registrable(d)} else {})
  {
  }

  /** `extract_domain_from_signal`: the loop filling `registrable_domains`. */
  method ExtractDomainFromSignal(matches: seq<string>, slug: Option<string>) returns (r: Option<string>)
    ensures r == DomainFromSignal(matches, slug)
  {
    var regs: set<string> := {};
    for i := 0 to |matches|
      invariant regs == RegistrableDomains(matches[..i])
    {
      var d := matches[i];
      assert matches[..i + 1] == matches[..i] + [d];
      RegistrableDomainsSnoc(matches[..i], d);
      if Blocked(d) {
        continue;
      }
      var registrable := Registrable(d);
      if Blocked(registrable) {
        continue;
      }
      regs := regs + {registrable};
    }
    assert matches[..|matches|] == matches;
    if |regs| == 1 {
      var x :| x in regs;
      SingletonUnique(regs, x);
      return Some(NormalizeDomain(x));
    } else if |regs| > 1 {
      return None;
    }
    if Present(slug) {
      return Some(Lower(slug.value) + ".com");
    }
    return None;
  }

  // ---------------------------------------------------------------------------
  // Ambiguity
  // ---------------------------------------------------------------------------

  datatype AmbiguityCheck = AmbiguityCheck(isAmbiguous: bool, reason: Option<string>)

  const CompanyIndicators: seq<string> := ["at ", "@ ", " is hiring", "join "]

  const GenericNames: set<string> := {"company", "startup", "team", "organization", "firm"}

  /** The distinct unblocked matches of the (dot-free label) domain pattern. */
  function TextDomains(matches: seq<string>): set<string> {
    set d | d in matches && !Blocked(d)
  }

  predicate GenericWithoutDomain(extractedName: Option<string>, extractedDomain: Option<string>) {
    Present(extractedName) && Lower(extractedName.value) in GenericNames && !Present(extractedDomain)
  }

  /** `check_for_ambiguity`: more than two company indicators, more than one
      unblocked text domain, or a generic name with no domain. */
  function CheckForAmbiguity(p: Platform, rawText: string, textDomainMatches: seq<string>,
                             extractedName: Option<string>, extractedDomain: Option<string>): (a: AmbiguityCheck)
    ensures a.isAmbiguous <==>
      CountContained(Lower(rawText), CompanyIndicators) > 2
      || |TextDomains(textDomainMatches)| > 1
      || GenericWithoutDomain(extractedName, extractedDomain)
    ensures a.isAmbiguous <==> a.reason.Some?
    ensures CountContained(Lower(rawText), CompanyIndicators) > 2 ==>
      a.reason == Some("Multiple company references detected in signal")
    ensures CountContained(Lower(rawText), CompanyIndicators) <= 2 && |TextDomains(textDomainMatches)| > 1 ==>
      a.reason == Some("Multiple domains in signal text: " + p.setRepr(TextDomains(textDomainMatches)))
    ensures CountContained(Lower(rawText), CompanyIndicators) <= 2 && |TextDomains(textDomainMatches)| <= 1
            && GenericWithoutDomain(extractedName, extractedDomain) ==>
      a.reason == Some("Generic company name '" + extractedName.value + "' without domain")
  {
    var text := Lower(rawText);
    if CountContained(text, CompanyIndicators) > 2 then
      AmbiguityCheck(true, Some("Multiple company references detected in signal"))
    else if |TextDomains(textDomainMatches)| > 1 then
      AmbiguityCheck(true, Some("Multiple domains in signal text: " + p.setRepr(TextDomains(textDomainMatches))))
    else if GenericWithoutDomain(extractedName, extractedDomain) then
      AmbiguityCheck(true, Some("Generic company name '" + extractedName.value + "' without domain"))
    else
      AmbiguityCheck(false, None)
  }

  /** With more than one unblocked text domain (and at most two indicators)
      the reason says "Multiple domains". */
  lemma MultipleDomainsReason(p: Platform, rawText: string, textDomainMatches: seq<string>,
                              extractedName: Option<string>, extractedDomain: Option<string>)
    requires CountContained(Lower(rawText), CompanyIndicators) <= 2
    requires |TextDomains(textDomainMatches)| > 1
    ensures var a := CheckForAmbiguity(p, rawText, textDomainMatches, extractedName, extractedDomain);
      a.reason.Some? && Contains(a.reason.value, "Multiple domains")
  {
    ContainsPrefix("Multiple domains", " in signal text: " + p.setRepr(TextDomains(textDomainMatches)));
  }

  /** A generic name without a domain (and nothing ambiguous before it) gives
      a reason that says "Generic company name". */
  lemma GenericNameReason(p: Platform, rawText: string, textDomainMatches: seq<string>,
                          extractedName: Option<string>, extractedDomain: Option<string>)
    requires CountContained(Lower(rawText), CompanyIndicators) <= 2
    requires |TextDomains(textDomainMatches)| <= 1
    requires GenericWithoutDomain(extractedName, extractedDomain)
    ensures var a := CheckForAmbiguity(p, rawText, textDomainMatches, extractedName, extractedDomain);
      a.reason.Some? && Contains(a.reason.value, "Generic company name")
  {
    ContainsPrefix("Generic company name", " '" + extractedName.value + "' without domain");
  }

  lemma ContainsPrefix(prefix: string, rest: string)
    ensures Contains(prefix + rest, prefix)
  {
    assert (prefix + rest)[..|prefix|] == prefix;
  }

  /** A generic name is fine once a domain corroborates it. */
  lemma DomainRescuesGenericName(p: Platform, rawText: string, textDomainMatches: seq<string>,
                                 name: string, domain: string)
    requires CountContained(Lower(rawText), CompanyIndicators) <= 2
    requires |TextDomains(textDomainMatches)| <= 1
    requires domain != ""
    ensures !CheckForAmbiguity(p, rawText, textDomainMatches, Some(name), Some(domain)).isAmbiguous
  {
  }

  // ---------------------------------------------------------------------------
  // Resolving one signal
  // ---------------------------------------------------------------------------

  /** What the regular expressions found in one signal: the group captured by
      the first of the three company-name patterns that matches the raw text,
      and the matches of the domain pattern used for extraction and of the one
      used for the ambiguity check (both on the lower-cased text). */
  datatype SignalReading = SignalReading(
    nameMatch: Option<string>,
    domainMatches: seq<string>,
    textDomainMatches: seq<string>)

  /** The company name `extract_company_name_from_signal` returns for a signal. */
  function CompanyNameOf(p: Platform, s: Signal, reading: SignalReading): Option<string> {
    ExtractCompanyName(p, reading.nameMatch, s.sourceUrl)
  }

  /** The fresh ids `create_evidence_id` hands out during one resolution. */
  datatype ResolutionIds = ResolutionIds(
    signalEvidence: string,
    nameEvidence: string,
    domainEvidence: string,
    rejection: string)
  {
    predicate NonEmpty() {
      signalEvidence != "" && nameEvidence != "" && domainEvidence != "" && rejection != ""
    }
  }

  /** How resolving one signal ends: the two evidence objects of the new entity,
      a rejection, or an evidence validation error that `resolve_entity` does not
      catch. */
  datatype Resolution =
    | Resolves(companyName: Evidence, domain: Evidence)
    | Rejects(rejection: Rejection)
    | Raises(error: ValidationError)

  function Reject(ids: ResolutionIds, s: Signal, now: int, rule: RejectionRule, reason: string): Resolution {
    Rejects(FromError(ids.rejection, RejectionError(rule, reason, Some(s.signalId)), s.rawText, now))
  }

  /** `resolve_entity` at time `now` (the evidence and rejection timestamps):
      name, then domain, then validation, then ambiguity, then the evidence.
      A rejection is R3 or R4, and it is R4 exactly when a name and a domain
      were found and the domain failed validation; the lemmas that follow give
      each step's outcome. */
  function ResolveOutcome(p: Platform, s: Signal, reading: SignalReading, ids: ResolutionIds, now: int): (r: Resolution)
    ensures r.Rejects? ==> r.rejection.rule in {MissingEntity, InvalidDomain}
    ensures r.Rejects? && r.rejection.rule == InvalidDomain <==>
      var domain := DomainFromSignal(reading.domainMatches, ExtractCompanySlug(p, s.sourceUrl));
      Present(CompanyNameOf(p, s, reading)) && Present(domain) && ValidateDomain(domain.value, Some(s.signalId)).Fail?
  {
    if !Present(CompanyNameOf(p, s, reading)) then
      Reject(ids, s, now, MissingEntity, "Could not extract company name from signal")
    else
      var name := CompanyNameOf(p, s, reading).value;
      var domain := DomainFromSignal(reading.domainMatches, ExtractCompanySlug(p, s.sourceUrl));
      if !Present(domain) then
        Reject(ids, s, now, MissingEntity, "Could not extract or infer company domain from signal")
      else
        var check := ValidateDomain(domain.value, Some(s.signalId));
        if check.Fail? then
          Rejects(FromError(ids.rejection, check.error, s.rawText, now))
        else
          var ambiguity := CheckForAmbiguity(p, s.rawText, reading.textDomainMatches, CompanyNameOf(p, s, reading), domain);
          if ambiguity.isAmbiguous then
            Reject(ids, s, now, MissingEntity, "Ambiguous entity: " + ambiguity.reason.value)
          else
            BuildEntityEvidence(s, name, domain.value, ids, now)
  }

  /** A signal with no company name is always rejected with R3. */
  lemma ResolveOutcomeNoName(p: Platform, s: Signal, reading: SignalReading, ids: ResolutionIds, now: int)
    requires !Present(CompanyNameOf(p, s, reading))
    ensures var r := ResolveOutcome(p, s, reading, ids, now);
      r.Rejects? && r.rejection.rule == MissingEntity
      && r.rejection.reason == "Could not extract company name from signal"
  {
  }

  /** A name but no domain: R3, with the domain reason. */
  lemma ResolveOutcomeNoDomain(p: Platform, s: Signal, reading: SignalReading, ids: ResolutionIds, now: int)
    requires Present(CompanyNameOf(p, s, reading))
    requires !Present(DomainFromSignal(reading.domainMatches, ExtractCompanySlug(p, s.sourceUrl)))
    ensures ResolveOutcome(p, s, reading, ids, now)
         == Reject(ids, s, now, MissingEntity, "Could not extract or infer company domain from signal")
  {
  }

  /** A name and a domain that fails validation: R4, with validation's own error. */
  lemma ResolveOutcomeDomainRejected(p: Platform, s: Signal, reading: SignalReading, ids: ResolutionIds, now: int)
    requires Present(CompanyNameOf(p, s, reading))
    requires var domain := DomainFromSignal(reading.domainMatches, ExtractCompanySlug(p, s.sourceUrl));
      Present(domain) && ValidateDomain(domain.value, Some(s.signalId)).Fail?
    ensures var domain := DomainFromSignal(reading.domainMatches, ExtractCompanySlug(p, s.sourceUrl));
      var r := ResolveOutcome(p, s, reading, ids, now);
      && r == Rejects(FromError(ids.rejection, ValidateDomain(domain.value, Some(s.signalId)).error, s.rawText, now))
      && r.rejection.rule == InvalidDomain
      && r.rejection.reason == ValidateDomain(domain.value, Some(s.signalId)).error.reason
  {
  }

  /** A valid domain but an ambiguous signal: R3, naming the ambiguity. */
  lemma ResolveOutcomeAmbiguous(p: Platform, s: Signal, reading: SignalReading, ids: ResolutionIds, now: int)
    requires Present(CompanyNameOf(p, s, reading))
    requires var domain := DomainFromSignal(reading.domainMatches, ExtractCompanySlug(p, s.sourceUrl));
      && Present(domain) && ValidateDomain(domain.value, Some(s.signalId)).Pass?
      && CheckForAmbiguity(p, s.rawText, reading.textDomainMatches, CompanyNameOf(p, s, reading), domain).isAmbiguous
    ensures var domain := DomainFromSignal(reading.domainMatches, ExtractCompanySlug(p, s.sourceUrl));
      var a := CheckForAmbiguity(p, s.rawText, reading.textDomainMatches, CompanyNameOf(p, s, reading), domain);
      ResolveOutcome(p, s, reading, ids, now) == Reject(ids, s, now, MissingEntity, "Ambiguous entity: " + a.reason.value)
  {
  }

  /** A rejection cites the signal, keeps the start of its text and carries the
      rejection id and time it was given. */
  lemma ResolveOutcomeRejectionRecord(p: Platform, s: Signal, reading: SignalReading, ids: ResolutionIds, now: int)
    requires ResolveOutcome(p, s, reading, ids, now).Rejects?
    ensures var j := ResolveOutcome(p, s, reading, ids, now).rejection;
      && j.signalId == (if s.signalId != "" then s.signalId else "unknown")
      && j.rawSignalSnippet == Prefix(s.rawText, SnippetLength)
      && j.rejectionId == ids.rejection && j.timestamp == now
  {
    if Present(CompanyNameOf(p, s, reading)) {
      var domain := DomainFromSignal(reading.domainMatches, ExtractCompanySlug(p, s.sourceUrl));
      if Present(domain) {
        var check := ValidateDomain(domain.value, Some(s.signalId));
        if check.Pass? {
          var ambiguity := CheckForAmbiguity(p, s.rawText, reading.textDomainMatches, CompanyNameOf(p, s, reading), domain);
          if !ambiguity.isAmbiguous {
            assert false;
          }
        }
      }
    }
  }

  /** An R4 rejection means a name and a domain were found and the domain
      failed validation, with validation's own reason. */
  lemma ResolveOutcomeInvalidDomain(p: Platform, s: Signal, reading: SignalReading, ids: ResolutionIds, now: int)
    requires ResolveOutcome(p, s, reading, ids, now).Rejects?
    requires ResolveOutcome(p, s, reading, ids, now).rejection.rule == InvalidDomain
    ensures var domain := DomainFromSignal(reading.domainMatches, ExtractCompanySlug(p, s.sourceUrl));
      && Present(CompanyNameOf(p, s, reading)) && Present(domain)
      && ValidateDomain(domain.value, Some(s.signalId)).Fail?
      && ResolveOutcome(p, s, reading, ids, now).rejection.reason == ValidateDomain(domain.value, Some(s.signalId)).error.reason
  {
    var name := CompanyNameOf(p, s, reading);
    if Present(name) {
      var domain := DomainFromSignal(reading.domainMatches, ExtractCompanySlug(p, s.sourceUrl));
      if Present(domain) && ValidateDomain(domain.value, Some(s.signalId)).Pass? {
        var ambiguity := CheckForAmbiguity(p, s.rawText, reading.textDomainMatches, name, domain);
        if !ambiguity.isAmbiguous {
          assert false;
        }
      }
    }
  }

  /** A resolution passed every check, and its two inferences carry the
      extracted name and domain, the fixed confidences, and cite the signal. */
  lemma ResolveOutcomeEntity(p: Platform, s: Signal, reading: SignalReading, ids: ResolutionIds, now: int)
    requires ResolveOutcome(p, s, reading, ids, now).Resolves?
    ensures var r := ResolveOutcome(p, s, reading, ids, now);
      var domain := DomainFromSignal(reading.domainMatches, ExtractCompanySlug(p, s.sourceUrl));
      && Present(CompanyNameOf(p, s, reading)) && Present(domain)
      && ValidateDomain(domain.value, Some(s.signalId)).Pass?
      && !CheckForAmbiguity(p, s.rawText, reading.textDomainMatches, CompanyNameOf(p, s, reading), domain).isAmbiguous
      && r.companyName.evidenceType == INF && r.companyName.fieldName == "company_name"
      && r.companyName.value == CompanyNameOf(p, s, reading).value && r.companyName.meta.confidence == 0.75
      && r.companyName.meta.sourceEvidenceIds == [ids.signalEvidence]
      && r.domain.evidenceType == INF && r.domain.fieldName == "domain" && r.domain.value == domain.value
      && r.domain.meta.confidence == (if Contains(Lower(s.rawText), domain.value) then 0.85 else 0.60)
      && r.domain.meta.sourceEvidenceIds == [ids.signalEvidence]
  {
  }

  /** For a well-formed signal and non-empty ids no evidence validation error escapes. */
  lemma ResolveOutcomeNeverRaises(p: Platform, s: Signal, reading: SignalReading, ids: ResolutionIds, now: int)
    requires s.Valid() && ids.NonEmpty()
    ensures !ResolveOutcome(p, s, reading, ids, now).Raises?
  {
    ResolveOutcomeRaises(p, s, reading, ids, now);
  }

  /** Only building the evidence can raise. */
  lemma ResolveOutcomeRaises(p: Platform, s: Signal, reading: SignalReading, ids: ResolutionIds, now: int)
    ensures var name := CompanyNameOf(p, s, reading);
      var domain := DomainFromSignal(reading.domainMatches, ExtractCompanySlug(p, s.sourceUrl));
      ResolveOutcome(p, s, reading, ids, now).Raises? ==>
        Present(name) && Present(domain)
        && ResolveOutcome(p, s, reading, ids, now) == BuildEntityEvidence(s, name.value, domain.value, ids, now)
  {
    var name := CompanyNameOf(p, s, reading);
    var domain := DomainFromSignal(reading.domainMatches, ExtractCompanySlug(p, s.sourceUrl));
    if !Present(name) || !Present(domain) {
      assert ResolveOutcome(p, s, reading, ids, now).Rejects?;
    }
  }

  /** Step 5 of `resolve_entity`: the signal as evidence, then the name and
      domain inferences citing it. */
  function BuildEntityEvidence(s: Signal, name: string, domain: string, ids: ResolutionIds, now: int): (r: Resolution)
    ensures r.Resolves? ==>
      && r.companyName.evidenceType == INF && r.companyName.fieldName == "company_name"
      && r.companyName.value == name && r.companyName.meta.confidence == 0.75
      && r.companyName.meta.sourceEvidenceIds == [ids.signalEvidence]
      && r.domain.evidenceType == INF && r.domain.fieldName == "domain" && r.domain.value == domain
      && r.domain.meta.confidence == (if Contains(Lower(s.rawText), domain) then 0.85 else 0.60)
      && r.domain.meta.sourceEvidenceIds == [ids.signalEvidence]
    ensures !r.Rejects?
    ensures s.Valid() && ids.NonEmpty() ==> r.Resolves?
  {
    var signalEvidence := SignalToEvidence(s, ids.signalEvidence, "raw_signal");
    if signalEvidence.Failure? then Raises(signalEvidence.error)
    else
      var sources := [signalEvidence.value.evidenceId];
      var nameEvidence := CreateInference(ids.nameEvidence, "company_name", name, sources,
                                          "regex_extraction_from_signal", now, Some(0.75), false, None);
      var explicit := Contains(Lower(s.rawText), domain);
      var domainEvidence := CreateInference(ids.domainEvidence, "domain", domain, sources,
        if explicit then "explicit_domain_extraction" else "domain_inference_from_url_slug",
        now, Some(if explicit then 0.85 else 0.60), false, None);
      if nameEvidence.Failure? then Raises(nameEvidence.error)
      else if domainEvidence.Failure? then Raises(domainEvidence.error)
      else Resolves(nameEvidence.value, domainEvidence.value)
  }

  /** `ResolutionResult`, with the uncaught validation error as a third outcome. */
  datatype ResolutionResult =
    | EntityResolved(entity: Entity)
    | SignalRejected(rejection: Rejection)
    | EvidenceInvalid(error: ValidationError)

  /** `resolve_entity`: builds the entity object the outcome describes. */
  method ResolveEntity(p: Platform, s: Signal, reading: SignalReading, ids: ResolutionIds, now: int)
    returns (r: ResolutionResult)
    ensures var outcome := ResolveOutcome(p, s, reading, ids, now);
      && (r.EntityResolved? <==> outcome.Resolves?)
      && (r.SignalRejected? <==> outcome.Rejects?)
      && (r.SignalRejected? ==> r.rejection == outcome.rejection)
      && (r.EvidenceInvalid? ==> outcome == Raises(r.error))
      && (r.EntityResolved? ==>
            && fresh(r.entity)
            && r.entity.companyName == outcome.companyName && r.entity.domain == outcome.domain
            && r.entity.industry == None && r.entity.sizeEstimate == None)
  {
    if !Present(CompanyNameOf(p, s, reading)) {
      return SignalRejected(FromError(ids.rejection,
        RejectionError(MissingEntity, "Could not extract company name from signal", Some(s.signalId)), s.rawText, now));
    }
    var domain := ExtractDomainFromSignal(reading.domainMatches, ExtractCompanySlug(p, s.sourceUrl));
    if !Present(domain) {
      return SignalRejected(FromError(ids.rejection,
        RejectionError(MissingEntity, "Could not extract or infer company domain from signal", Some(s.signalId)),
        s.rawText, now));
    }
    var check := ValidateDomain(domain.value, Some(s.signalId));
    if check.Fail? {
      return SignalRejected(FromError(ids.rejection, check.error, s.rawText, now));
    }
    var ambiguity := CheckForAmbiguity(p, s.rawText, reading.textDomainMatches, CompanyNameOf(p, s, reading), domain);
    if ambiguity.isAmbiguous {
      return SignalRejected(FromError(ids.rejection,
        RejectionError(MissingEntity, "Ambiguous entity: " + ambiguity.reason.value, Some(s.signalId)),
        s.rawText, now));
    }
    var built := BuildEntityEvidence(s, CompanyNameOf(p, s, reading).value, domain.value, ids, now);
    if built.Raises? {
      return EvidenceInvalid(built.error);
    }
    var entity := new Entity(built.companyName, built.domain, None, None);
    return EntityResolved(entity);
  }

  // ---------------------------------------------------------------------------
  // Batches
  // ---------------------------------------------------------------------------

  datatype BatchResolutionResult = BatchResolutionResult(
    totalSignals: nat,
    resolved: seq<Entity>,
    rejected: seq<Rejection>)
  {
    /** `resolution_rate` */
    function ResolutionRate(): (rate: real)
      ensures totalSignals == 0 ==> rate == 0.0
      ensures |resolved| <= totalSignals ==> 0.0 <= rate <= 1.0
      ensures totalSignals > 0 && |resolved| == totalSignals ==> rate == 1.0
    {
      if totalSignals == 0 then 0.0 else |resolved| as real / totalSignals as real
    }
  }

  /** The outcomes of the first n signals, in order. */
  function Outcomes(p: Platform, signals: seq<Signal>, readings: seq<SignalReading>, ids: seq<ResolutionIds>,
                    now: int, n: nat): (os: seq<Resolution>)
    requires n <= |signals| == |readings| == |ids|
    ensures |os| == n
  {
    if n == 0 then []
    else Outcomes(p, signals, readings, ids, now, n - 1) + [ResolveOutcome(p, signals[n - 1], readings[n - 1], ids[n - 1], now)]
  }

  /** The rejections among the outcomes, in order. */
  function RejectionsOf(os: seq<Resolution>): (rs: seq<Rejection>)
    ensures |rs| <= |os|
  {
    if os == [] then []
    else RejectionsOf(os[..|os| - 1]) + (if os[|os| - 1].Rejects? then [os[|os| - 1].rejection] else [])
  }

  /** The resolutions among the outcomes, in order. */
  function ResolutionsOf(os: seq<Resolution>): (rs: seq<Resolution>)
    ensures |rs| <= |os|
    ensures forall k | 0 <= k < |rs| :: rs[k].Resolves?
  {
    if os == [] then []
    else ResolutionsOf(os[..|os| - 1]) + (if os[|os| - 1].Resolves? then [os[|os| - 1]] else [])
  }

  /** The entities are the resolutions, one for one: the same name and domain
      evidence and nothing enriched yet. */
  ghost predicate EntitiesOf(resolved: seq<Entity>, rs: seq<Resolution>)
    reads resolved
  {
    && |resolved| == |rs|
    && forall k | 0 <= k < |resolved| ::
         && rs[k].Resolves?
         && resolved[k].companyName == rs[k].companyName && resolved[k].domain == rs[k].domain
         && resolved[k].industry == None && resolved[k].sizeEstimate == None
  }

  /** No outcome is an uncaught error. */
  predicate NoneRaise(os: seq<Resolution>) {
    forall k | 0 <= k < |os| :: !os[k].Raises?
  }

  lemma NoneRaiseSnoc(os: seq<Resolution>, o: Resolution)
    requires NoneRaise(os) && !o.Raises?
    ensures NoneRaise(os + [o])
  {
    assert forall k | 0 <= k < |os| :: (os + [o])[k] == os[k];
  }

  /** A new entity made from a resolution extends the match by one. */
  lemma EntitiesOfSnoc(resolved: seq<Entity>, rs: seq<Resolution>, e: Entity, o: Resolution)
    requires EntitiesOf(resolved, rs) && o.Resolves?
    requires e.companyName == o.companyName && e.domain == o.domain
    requires e.industry == None && e.sizeEstimate == None
    ensures EntitiesOf(resolved + [e], rs + [o])
  {
  }

  /** With no uncaught error, every outcome is either a resolution or a rejection. */
  lemma {:induction false} OutcomesPartition(os: seq<Resolution>)
    requires NoneRaise(os)
    ensures |ResolutionsOf(os)| + |RejectionsOf(os)| == |os|
  {
    if os != [] {
      OutcomesPartition(os[..|os| - 1]);
    }
  }

  /** One more outcome extends exactly one of the two tallies. */
  lemma TallyStep(os: seq<Resolution>, o: Resolution)
    ensures RejectionsOf(os + [o]) == RejectionsOf(os) + (if o.Rejects? then [o.rejection] else [])
    ensures ResolutionsOf(os + [o]) == ResolutionsOf(os) + (if o.Resolves? then [o] else [])
  {
    assert (os + [o])[..|os|] == os;
  }

  /** One iteration of `resolve_signals`: resolve the signal and append the
      entity or the rejection, or report the error that escapes. */
  method ResolveNext(p: Platform, s: Signal, reading: SignalReading, id: ResolutionIds, now: int,
                     ghost os: seq<Resolution>, resolved: seq<Entity>, rejected: seq<Rejection>)
    returns (error: Option<ValidationError>, resolved': seq<Entity>, rejected': seq<Rejection>)
    requires rejected == RejectionsOf(os) && EntitiesOf(resolved, ResolutionsOf(os))
    ensures var o := ResolveOutcome(p, s, reading, id, now);
      && (error.Some? <==> o.Raises?)
      && (error.Some? ==> o == Raises(error.value))
      && rejected' == RejectionsOf(os + [o])
      && EntitiesOf(resolved', ResolutionsOf(os + [o]))
  {
    var result := ResolveEntity(p, s, reading, id, now);
    ghost var o := ResolveOutcome(p, s, reading, id, now);
    ghost var rs := ResolutionsOf(os);
    TallyStep(os, o);
    resolved', rejected' := resolved, rejected;
    if result.EntityResolved? {
      EntitiesOfSnoc(resolved, rs, result.entity, o);
      resolved' := resolved + [result.entity];
    } else {
      assert ResolutionsOf(os + [o]) == rs + [] == rs;
      assert EntitiesOf(resolved, rs);
      if result.EvidenceInvalid? {
        return Some(result.error), resolved, rejected;
      }
      rejected' := rejected + [result.rejection];
    }
    error := None;
  }

  /** `resolve_signals`: each signal independently; resolved entities and
      rejections each keep input order, and together they account for every
      signal. Python lets an evidence validation error escape the batch; here
      the batch then stops with that error. */
  method ResolveSignals(p: Platform, signals: seq<Signal>, readings: seq<SignalReading>, ids: seq<ResolutionIds>, now: int)
    returns (r: Result<BatchResolutionResult, ValidationError>)
    requires |signals| == |readings| == |ids|
    ensures r.Success? ==>
      var os := Outcomes(p, signals, readings, ids, now, |signals|);
      && NoneRaise(os)
      && r.value.totalSignals == |signals|
      && r.value.rejected == RejectionsOf(os)
      && EntitiesOf(r.value.resolved, ResolutionsOf(os))
      && |r.value.resolved| + |r.value.rejected| == |signals|
    ensures r.Failure? ==>
      exists k | 0 <= k < |signals| :: ResolveOutcome(p, signals[k], readings[k], ids[k], now) == Raises(r.error)
  {
    var resolved: seq<Entity> := [];
    var rejected: seq<Rejection> := [];
    ghost var os: seq<Resolution> := [];
    for i := 0 to |signals|
      invariant os == Outcomes(p, signals, readings, ids, now, i)
      invariant NoneRaise(os)
      invariant rejected == RejectionsOf(os)
      invariant EntitiesOf(resolved, ResolutionsOf(os))
    {
      var error;
      error, resolved, rejected := ResolveNext(p, signals[i], readings[i], ids[i], now, os, resolved, rejected);
      if error.Some? {
        return Failure(error.value);
      }
      ghost var o := ResolveOutcome(p, signals[i], readings[i], ids[i], now);
      NoneRaiseSnoc(os, o);
      os := os + [o];
    }
    OutcomesPartition(os);
    return Success(BatchResolutionResult(|signals|, resolved, rejected));
  }
}

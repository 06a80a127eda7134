/** Host names: the registrable part of a host (its last two labels), the host
    of a URL and the optional leading `www.` label. */
module Hosts {
  import opened Base

  predicate IsDot(c: char) {
    c == '.'
  }

  /** r ends the host and is either the whole host or follows one of its dots:
      a tail of whole labels. */
  predicate LabelSuffix(host: string, r: string) {
    EndsWith(host, r) && (r == host || host[|host| - |r| - 1] == '.')
  }

  /** `'.'.join(host.split('.')[-2:])`: the last two labels, or the host itself
      when it has no dot. */
  function Registrable(host: string): (r: string)
    ensures '.' !in host ==> r == host
    ensures '.' in host ==> Occurrences(r, '.') == 1
    ensures LastPart(r, '.') == LastPart(host, '.')
    ensures LabelSuffix(host, r)
  {
    if '.' in host then
      LastTwoLabels(host);
      var parts := Split(host, '.');
      parts[|parts| - 2] + "." + parts[|parts| - 1]
    else
      assert host[0..] == host;
      host
  }

  /** The last two labels of a dotted host, rejoined, hold one dot, keep the
      host's TLD and are a suffix of the host starting at a label boundary. */
  lemma LastTwoLabels(host: string)
    requires |Split(host, '.')| >= 2
    ensures var parts := Split(host, '.');
      var r := parts[|parts| - 2] + "." + parts[|parts| - 1];
      && Occurrences(r, '.') == 1
      && LastPart(r, '.') == parts[|parts| - 1]
      && LabelSuffix(host, r)
  {
    var parts := Split(host, '.');
    var a, b := parts[|parts| - 2], parts[|parts| - 1];
    assert Occurrences(a + "." + b, '.') == 1 && LastPart(a + "." + b, '.') == b by {
      TwoLabels(a, b);
    }
    assert LabelSuffix(host, a + "." + b) by {
      SplitLastTwo(host, '.');
      LastTwoEndIsLabelSuffix(host, parts);
    }
  }

  /** Two dot-free labels joined by a dot hold one dot and end in the second. */
  lemma TwoLabels(a: string, b: string)
    requires '.' !in a && '.' !in b
    ensures Occurrences(a + "." + b, '.') == 1
    ensures LastPart(a + "." + b, '.') == b
  {
    SplitAroundDot(a, b);
    OccurrencesAppend(a + ".", b, '.');
    OccurrencesAppend(a, ".", '.');
    OccurrencesAbsent(a, '.');
    OccurrencesAbsent(b, '.');
  }

  lemma LastTwoEndIsLabelSuffix(host: string, parts: seq<string>)
    requires |parts| >= 2 && LastTwoEnd(host, '.', parts)
    ensures LabelSuffix(host, parts[|parts| - 2] + "." + parts[|parts| - 1])
  {
    var r := parts[|parts| - 2] + "." + parts[|parts| - 1];
    assert r == parts[|parts| - 2] + ['.'] + parts[|parts| - 1];
    if |r| == |host| {
      assert host == host[|host| - |r|..];
    }
  }

  /** Splitting after a dot-free first label peels that label off. */
  lemma SplitCons(a: string, rest: string)
    requires '.' !in a
    ensures Split(a + "." + rest, '.') == [a] + Split(rest, '.')
  {
    var s := a + "." + rest;
    assert s[|a|] == '.';
    assert s[..|a|] == a;
    assert s[|a| + 1..] == rest;
    assert forall k | 0 <= k < |a| :: s[k] == a[k];
    var i := IndexOf(s, '.');
    assert i <= |a| by {
      assert forall j | |a| < j <= |s| :: s[..j][|a|] == '.';
    }
  }

  /** Two dot-free labels joined by a dot split back into those labels. */
  lemma SplitAroundDot(a: string, b: string)
    requires '.' !in a && '.' !in b
    ensures Split(a + "." + b, '.') == [a, b]
  {
    SplitCons(a, b);
  }

  /** A subdomain of a registrable domain reduces to that domain:
      `careers.acme.com` to `acme.com`. */
  lemma RegistrableOfSubdomain(sub: string, a: string, b: string)
    requires '.' !in sub && '.' !in a && '.' !in b
    ensures Registrable(sub + "." + (a + "." + b)) == a + "." + b
  {
    SplitCons(sub, a + "." + b);
    SplitAroundDot(a, b);
  }

  /** Taking the registrable part twice changes nothing. */
  lemma RegistrableIdempotent(host: string)
    ensures Registrable(Registrable(host)) == Registrable(host)
  {
    if '.' in host {
      var parts := Split(host, '.');
      RegistrableOfTwoLabels(parts[|parts| - 2], parts[|parts| - 1]);
    }
  }

  /** Two dot-free labels joined by a dot are already registrable. */
  lemma RegistrableOfTwoLabels(a: string, b: string)
    requires '.' !in a && '.' !in b
    ensures Registrable(a + "." + b) == a + "." + b
  {
    SplitAroundDot(a, b);
  }

  /** The URL's host: its network location without the port, lower-cased. */
  function UrlHost(p: Platform, url: string): (h: string)
    ensures IsLowerCase(h) && ':' !in h
    ensures var n := p.urlNetloc(url);
      && |h| <= |n|
      && (forall i | 0 <= i < |h| :: n[i] != ':' && h[i] == LowerChar(n[i]))
      && (|h| == |n| || n[|h|] == ':')
  {
    var n := p.urlNetloc(url);
    var host := Split(n, ':')[0];
    SplitFirst(n, ':');
    assert |host| <= |n| && host == n[..|host|] && ':' !in host;
    assert |host| == |n| || n[|host|] == ':';
    var h := Lower(host);
    assert forall i | 0 <= i < |h| :: h[i] == LowerChar(host[i]) && host[i] == n[i];
    assert forall i | 0 <= i < |h| :: h[i] in host || 'a' <= h[i] <= 'z';
    h
  }

  /** `host[4:] if host.startswith('www.') else host` */
  function WithoutWww(host: string): (r: string)
    ensures StartsWith(host, "www.") ==> host == "www." + r
    ensures !StartsWith(host, "www.") ==> r == host
    ensures r == host[|host| - |r|..]
    ensures IsLowerCase(host) ==> IsLowerCase(r)
  {
    if StartsWith(host, "www.") then host[4..] else host
  }
}

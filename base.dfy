/** Shared vocabulary: failure-carrying datatypes, the foreign functions the
    program calls into (hashing, date formatting, URL parsing, float parsing),
    and the handful of Python string operations the core relies on, written out
    for ASCII text. */
module Base {

  datatype Option<+T> = None | Some(value: T)

  datatype Result<+T, +E> = Success(value: T) | Failure(error: E)

  /** A check that either passes or fails with an error (a validator that raises). */
  datatype Outcome<+E> = Pass | Fail(error: E)

  /** A decoded JSON value, as a dictionary parsed from an LLM's output holds. */
  datatype JsonValue =
    | JString(s: string)
    | JNumber(x: real)
    | JBool(b: bool)
    | JNull
    | JArray(elems: seq<JsonValue>)
    | JObject(fields: map<string, JsonValue>)

  /** Library code the core calls but that is not part of the model: SHA-256 as a
      lower-case hex digest, `datetime.isoformat()` of a timestamp in seconds,
      `str()` of a timestamp in seconds, the `netloc` and `path` parts of
      `urllib.parse.urlparse`, Python's `float()` applied to a string (None where
      it raises), `str()` of a float, `str()` of a decoded JSON value, the `:.0%`
      format of a float, the `repr` of a set of strings (whose element order is
      the interpreter's), the `repr` of a list of strings and `str.title()`. Each is an arbitrary but fixed
      function, so everything computed from them is deterministic. */
  datatype Platform = Platform(
    sha256Hex: string -> string,
    isoFormat: int -> string,
    dateString: int -> string,
    urlNetloc: string -> string,
    urlPath: string -> string,
    parseFloat: string -> Option<real>,
    floatString: real -> string,
    valueString: JsonValue -> string,
    formatPercent: real -> string,
    setRepr: set<string> -> string,
    listRepr: seq<string> -> string,
    titleCase: string -> string)

  /** Python truthiness of an optional string: neither None nor empty. */
  predicate Present(o: Option<string>) {
    o.Some? && o.value != ""
  }

  function Min(a: int, b: int): int {
    if a <= b then a else b
  }

  /** `s[:n]` */
  function Prefix(s: string, n: nat): (r: string)
    ensures |r| == Min(n, |s|) && r == s[..|r|]
  {
    if |s| <= n then s else s[..n]
  }

  predicate StartsWith(s: string, p: string) {
    |p| <= |s| && s[..|p|] == p
  }

  predicate EndsWith(s: string, p: string) {
    |p| <= |s| && s[|s| - |p|..] == p
  }

  /** `p in s` for strings: p occurs as a contiguous substring of s. */
  predicate Contains(s: string, p: string)
    decreases |s|
  {
    StartsWith(s, p) || (|s| > 0 && Contains(s[1..], p))
  }

  /** `any(kw in s for kw in kws)` */
  predicate ContainsAny(s: string, kws: seq<string>) {
    exists i | 0 <= i < |kws| :: Contains(s, kws[i])
  }

  /** `sum(1 for kw in kws if kw in s)` */
  function CountContained(s: string, kws: seq<string>): (n: nat)
    ensures n <= |kws|
    ensures n == 0 <==> !ContainsAny(s, kws)
  {
    if kws == [] then 0
    else (if Contains(s, kws[0]) then 1 else 0) + CountContained(s, kws[1..])
  }

  lemma ContainsAt(s: string, p: string, i: nat)
    requires i + |p| <= |s| && s[i..i + |p|] == p
    ensures Contains(s, p)
    decreases i
  {
    if i > 0 {
      assert s[1..][i - 1..i - 1 + |p|] == p;
      ContainsAt(s[1..], p, i - 1);
    }
  }

  /** A pattern using a character the text lacks cannot occur in it. */
  lemma NotContainsByChar(s: string, p: string, c: char)
    requires c in p && c !in s
    ensures !Contains(s, p)
    decreases |s|
  {
    if |s| > 0 {
      NotContainsByChar(s[1..], p, c);
    }
  }

  /** Six ASCII whitespace characters that Python's `str.strip()` and `\s` recognise
      (space, tab, newline, carriage return, vertical tab, form feed); Python also
      strips \x1c-\x1f and non-ASCII spaces, which are not modelled. */
  predicate IsSpace(c: char) {
    c == ' ' || c == '\t' || c == '\n' || c == '\r' || c == '\U{000B}' || c == '\U{000C}'
  }

  function LowerChar(c: char): char {
    if 'A' <= c <= 'Z' then (c as int + 32) as char else c
  }

  /** `s.lower()` on ASCII letters. */
  function Lower(s: string): (r: string)
    ensures |r| == |s|
    ensures IsLowerCase(r)
    ensures forall i :: 0 <= i < |s| ==> r[i] == LowerChar(s[i])
  {
    if s == [] then [] else [LowerChar(s[0])] + Lower(s[1..])
  }

  /** Lower-casing twice is lower-casing once. */
  lemma LowerIdempotent(s: string)
    ensures Lower(Lower(s)) == Lower(s)
  {
    assert forall i | 0 <= i < |s| :: LowerChar(LowerChar(s[i])) == LowerChar(s[i]);
  }

  predicate IsLowerCase(s: string) {
    forall i :: 0 <= i < |s| ==> !('A' <= s[i] <= 'Z')
  }

  /** `s.lstrip(chars)` where `stripped` says which characters go. */
  function StripLeftWhere(s: string, stripped: char -> bool): (r: string)
    ensures |r| <= |s| && r == s[|s| - |r|..]
    ensures r == [] || !stripped(r[0])
  {
    if s != [] && stripped(s[0]) then StripLeftWhere(s[1..], stripped) else s
  }

  /** `s.rstrip(chars)` where `stripped` says which characters go. */
  function StripRightWhere(s: string, stripped: char -> bool): (r: string)
    ensures |r| <= |s| && r == s[..|r|]
    ensures r == [] || !stripped(r[|r| - 1])
  {
    if s != [] && stripped(s[|s| - 1]) then StripRightWhere(s[..|s| - 1], stripped) else s
  }

  /** `s.strip(chars)` where `stripped` says which characters go. */
  function StripWhere(s: string, stripped: char -> bool): (r: string)
    ensures r == [] || (!stripped(r[0]) && !stripped(r[|r| - 1]))
  {
    var l := StripLeftWhere(s, stripped);
    var r := StripRightWhere(l, stripped);
    assert r != [] ==> r[0] == l[0];
    r
  }

  /** `s.strip()` */
  function Strip(s: string): (r: string)
    ensures r == [] || (!IsSpace(r[0]) && !IsSpace(r[|r| - 1]))
  {
    StripWhere(s, IsSpace)
  }

  /** Every character `lstrip` removes is one it was asked to remove. */
  lemma {:induction false} StripLeftRemoved(s: string, stripped: char -> bool)
    ensures forall k | 0 <= k < |s| - |StripLeftWhere(s, stripped)| :: stripped(s[k])
    decreases |s|
  {
    if s != [] && stripped(s[0]) {
      StripLeftRemoved(s[1..], stripped);
      assert forall k | 1 <= k < |s| - |StripLeftWhere(s, stripped)| :: s[k] == s[1..][k - 1];
    }
  }

  /** Every character `rstrip` removes is one it was asked to remove. */
  lemma {:induction false} StripRightRemoved(s: string, stripped: char -> bool)
    ensures forall k | |StripRightWhere(s, stripped)| <= k < |s| :: stripped(s[k])
    decreases |s|
  {
    if s != [] && stripped(s[|s| - 1]) {
      StripRightRemoved(s[..|s| - 1], stripped);
      assert forall k | |StripRightWhere(s, stripped)| <= k < |s| - 1 :: s[k] == s[..|s| - 1][k];
    }
  }

  lemma SliceLowerCase(s: string, i: nat, j: nat)
    requires IsLowerCase(s) && i <= j <= |s|
    ensures IsLowerCase(s[i..j])
  {
    assert forall k | 0 <= k < j - i :: s[i..j][k] == s[i + k];
  }

  /** Stripping characters from a lower-case string leaves it lower-case. */
  lemma StripLowerCase(s: string, stripped: char -> bool)
    requires IsLowerCase(s)
    ensures IsLowerCase(StripWhere(s, stripped)) && IsLowerCase(StripRightWhere(s, stripped))
  {
    var l := StripLeftWhere(s, stripped);
    SliceLowerCase(s, |s| - |l|, |s|);
    assert s[|s| - |l|..|s|] == l;
    SliceLowerCase(l, 0, |StripRightWhere(l, stripped)|);
    SliceLowerCase(s, 0, |StripRightWhere(s, stripped)|);
  }

  /** Index of the first occurrence of c in s. */
  function IndexOf(s: string, c: char): (i: nat)
    requires c in s
    ensures i < |s| && s[i] == c && c !in s[..i]
  {
    if s[0] == c then 0 else 1 + IndexOf(s[1..], c)
  }

  /** `s.split(c)` for a one-character separator: never empty, no part holds c. */
  function Split(s: string, c: char): (parts: seq<string>)
    ensures |parts| >= 1
    ensures |parts| == 1 <==> c !in s
    ensures forall k :: 0 <= k < |parts| ==> c !in parts[k]
    ensures c !in s ==> parts == [s]
    decreases |s|
  {
    if c !in s then [s]
    else
      var i := IndexOf(s, c);
      [s[..i]] + Split(s[i + 1..], c)
  }

  /** The last part of `s.split(c)`: what follows the last c. */
  function LastPart(s: string, c: char): (r: string)
    ensures c !in r
  {
    var parts := Split(s, c);
    parts[|parts| - 1]
  }

  /** A suffix of a suffix is a suffix, and the character before it is the same. */
  lemma SuffixOfSuffix(s: string, rest: string, t: string)
    requires |rest| <= |s| && rest == s[|s| - |rest|..]
    requires EndsWith(rest, t)
    ensures EndsWith(s, t)
    ensures |t| < |rest| ==> s[|s| - |t| - 1] == rest[|rest| - |t| - 1]
  {
  }

  /** The last two parts of a split, rejoined, end the string, and either are
      the whole string or follow a separator. */
  predicate LastTwoEnd(s: string, c: char, parts: seq<string>)
    requires |parts| >= 2
  {
    var t := parts[|parts| - 2] + [c] + parts[|parts| - 1];
    EndsWith(s, t) && (|t| == |s| || s[|s| - |t| - 1] == c)
  }

  lemma {:induction false} SplitLastTwo(s: string, c: char)
    requires |Split(s, c)| >= 2
    ensures LastTwoEnd(s, c, Split(s, c))
    decreases |s|
  {
    var i := IndexOf(s, c);
    var rest := s[i + 1..];
    var rp := Split(rest, c);
    assert Split(s, c) == [s[..i]] + rp;
    if |rp| >= 2 {
      SplitLastTwo(rest, c);
      SplitLastTwoStep(s, c, i, rest, rp);
    } else {
      assert rp == [rest];
      assert s == s[..i] + [c] + rest;
    }
  }

  /** The inductive step of SplitLastTwo: the last two parts of a split of what
      follows the first separator are the last two of the whole split. */
  lemma SplitLastTwoStep(s: string, c: char, i: nat, rest: string, rp: seq<string>)
    requires i < |s| && s[i] == c && rest == s[i + 1..]
    requires |rp| >= 2 && LastTwoEnd(rest, c, rp)
    ensures LastTwoEnd(s, c, [s[..i]] + rp)
  {
    var t := rp[|rp| - 2] + [c] + rp[|rp| - 1];
    SuffixOfSuffix(s, rest, t);
    assert |t| < |rest| || s[|s| - |t| - 1] == s[i];
  }

  /** `sep.join(parts)` */
  function Join(parts: seq<string>, sep: string): string {
    if parts == [] then ""
    else if |parts| == 1 then parts[0]
    else parts[0] + sep + Join(parts[1..], sep)
  }

  /** The first part of a split is everything before the first separator. */
  lemma SplitFirst(s: string, c: char)
    ensures c in s ==> Split(s, c)[0] == s[..IndexOf(s, c)]
    ensures c !in s ==> Split(s, c)[0] == s
  {
  }

  /** Number of occurrences of character c in s. */
  function Occurrences(s: string, c: char): nat {
    if s == [] then 0 else (if s[0] == c then 1 else 0) + Occurrences(s[1..], c)
  }

  lemma OccurrencesAppend(a: string, b: string, c: char)
    ensures Occurrences(a + b, c) == Occurrences(a, c) + Occurrences(b, c)
  {
    if a != [] {
      assert (a + b)[0] == a[0] && (a + b)[1..] == a[1..] + b;
      OccurrencesAppend(a[1..], b, c);
    } else {
      assert a + b == b;
    }
  }

  lemma OccurrencesAbsent(s: string, c: char)
    ensures Occurrences(s, c) == 0 <==> c !in s
  {
    if s != [] {
      OccurrencesAbsent(s[1..], c);
      assert s == [s[0]] + s[1..];
    }
  }

  function DigitChar(d: nat): char
    requires d < 10
  {
    "0123456789"[d]
  }

  function NatToString(n: nat): (r: string)
    ensures |r| >= 1
  {
    if n < 10 then [DigitChar(n)] else NatToString(n / 10) + [DigitChar(n % 10)]
  }

  /** `str(n)` for an integer (also what `f"{x:.0f}"` prints for an integral float). */
  function IntToString(n: int): string {
    if n < 0 then "-" + NatToString(-n) else NatToString(n)
  }
}

/** RSS ingestion (glassbox/ingestion/rss.py) over already-parsed items: text
    normalisation, conversion of an item to a Signal, gating of one item, and
    the feed loop that counts, deduplicates and splits items into accepted
    signals and rejections. XML parsing is not part of this model: a feed is
    either a list of parsed items or None for a feed that failed to parse. */
module RssIngestion {
  import opened Base
  import opened Domain
  import opened Validation
  import Hosts

  // ---------------------------------------------------------------------------
  // Items
  // ---------------------------------------------------------------------------

  /** `RSSItem`; the publication date is in UTC seconds when present. */
  datatype RssItem = RssItem(
    title: string,
    link: string,
    description: string,
    pubDate: Option<int>,
    guid: Option<string>,
    feedUrl: string)

  // ---------------------------------------------------------------------------
  // Text normalisation
  // ---------------------------------------------------------------------------

  /** Where `<[^>]+>` matches at the start of s: a '<', at least one character
      other than '>', then a '>'. */
  predicate OpensTag(s: string) {
    |s| >= 2 && s[0] == '<' && s[1] != '>' && '>' in s[2..]
  }

  /** Length of the tag that opens s: up to and including the first '>'. */
  function TagLength(s: string): (n: nat)
    requires OpensTag(s)
    ensures 3 <= n <= |s| && s[n - 1] == '>' && '>' !in s[1..n - 1]
  {
    var k := IndexOf(s[2..], '>');
    assert s[2..][..k] == s[2..k + 2];
    assert s[1..k + 2] == [s[1]] + s[2..k + 2];
    k + 3
  }

  /** No tag is left anywhere in s. */
  predicate NoTag(s: string) {
    forall i | 0 <= i < |s| :: !OpensTag(s[i..])
  }

  /** `re.sub(r'<[^>]+>', ' ', s)`: scanning left to right, every tag becomes
      one space and every other character is kept. */
  function RemoveTags(s: string): (r: string)
    ensures forall c | c in r :: c in s || c == ' '
    ensures s != [] && s[0] != '<' ==> r != [] && r[0] == s[0]
    decreases |s|
  {
    if s == [] then []
    else if OpensTag(s) then " " + RemoveTags(s[TagLength(s)..])
    else [s[0]] + RemoveTags(s[1..])
  }

  /** Every whitespace character is a plain space and none is followed by
      another whitespace character. */
  predicate SingleSpaced(s: string) {
    forall i | 0 <= i < |s| && IsSpace(s[i]) :: s[i] == ' ' && (i + 1 < |s| ==> !IsSpace(s[i + 1]))
  }

  /** No whitespace at either end. */
  predicate Trimmed(s: string) {
    s == [] || (!IsSpace(s[0]) && !IsSpace(s[|s| - 1]))
  }

  /** `re.sub(r'\s+', ' ', s)`: every run of whitespace becomes one space. */
  function CollapseSpaces(s: string): (r: string)
    ensures SingleSpaced(r)
    ensures forall c | c in r :: c in s || c == ' '
    ensures s != [] ==> r != [] && r[0] == (if IsSpace(s[0]) then ' ' else s[0])
    decreases |s|
  {
    if s == [] then []
    else if IsSpace(s[0]) then " " + CollapseSpaces(StripLeftWhere(s[1..], IsSpace))
    else [s[0]] + CollapseSpaces(s[1..])
  }

  /** `normalize_text`: tags become spaces, whitespace runs collapse to one
      space, and the ends are stripped. */
  function NormalizeText(s: string): (r: string)
    ensures Trimmed(r) && SingleSpaced(r) && NoTag(r)
  {
    var t := CollapseSpaces(RemoveTags(s));
    assert NoTag(t) by {
      RemoveTagsLeavesNoTag(s);
      CollapseKeepsNoTag(RemoveTags(s));
    }
    StripKeepsShape(t);
    Strip(t)
  }

  /** Putting one character in front keeps a string tag-free, unless it is a
      '<' that the rest turns into a tag. */
  lemma ConsNoTag(c: char, rest: string)
    requires NoTag(rest)
    requires c == '<' && rest != [] && rest[0] != '>' ==> '>' !in rest
    ensures NoTag([c] + rest)
  {
    var r := [c] + rest;
    forall i | 0 <= i < |r| ensures !OpensTag(r[i..]) {
      if i > 0 {
        assert r[i..] == rest[i - 1..];
      } else if |r| >= 2 && c == '<' && rest[0] != '>' {
        assert r[2..] == rest[1..];
      }
    }
  }

  /** Every suffix of a tag-free string is tag-free. */
  lemma SuffixNoTag(s: string, k: nat)
    requires NoTag(s) && k <= |s|
    ensures NoTag(s[k..])
  {
    assert forall i | 0 <= i < |s| - k :: s[k..][i..] == s[k + i..];
  }

  /** Text after a tag does not undo it. */
  lemma OpensTagExtends(u: string, v: string)
    ensures OpensTag(u) ==> OpensTag(u + v)
  {
    if |u| >= 2 {
      assert (u + v)[2..] == u[2..] + v;
    }
  }

  /** Every prefix of a tag-free string is tag-free. */
  lemma PrefixNoTag(s: string, k: nat)
    requires NoTag(s) && k <= |s|
    ensures NoTag(s[..k])
  {
    forall i | 0 <= i < k ensures !OpensTag(s[..k][i..]) {
      assert s[i..] == s[..k][i..] + s[k..];
      OpensTagExtends(s[..k][i..], s[k..]);
    }
  }

  lemma {:induction false} RemoveTagsLeavesNoTag(s: string)
    ensures NoTag(RemoveTags(s))
    decreases |s|
  {
    if s == [] {
    } else if OpensTag(s) {
      RemoveTagsLeavesNoTag(s[TagLength(s)..]);
      ConsNoTag(' ', RemoveTags(s[TagLength(s)..]));
    } else {
      var rest := RemoveTags(s[1..]);
      RemoveTagsLeavesNoTag(s[1..]);
      if s[0] == '<' && rest != [] && rest[0] != '>' {
        assert s[1] != '>';
        assert '>' !in s[1..] by { assert s[1..] == [s[1]] + s[2..]; }
      }
      ConsNoTag(s[0], rest);
    }
  }

  lemma {:induction false} CollapseKeepsNoTag(s: string)
    requires NoTag(s)
    ensures NoTag(CollapseSpaces(s))
    decreases |s|
  {
    if s == [] {
    } else if IsSpace(s[0]) {
      var t := StripLeftWhere(s[1..], IsSpace);
      SuffixNoTag(s, |s| - |t|);
      CollapseKeepsNoTag(t);
      ConsNoTag(' ', CollapseSpaces(t));
    } else {
      var rest := CollapseSpaces(s[1..]);
      SuffixNoTag(s, 1);
      CollapseKeepsNoTag(s[1..]);
      if s[0] == '<' && rest != [] && rest[0] != '>' {
        assert s[0..] == s;
        assert s[1] != '>';
        assert '>' !in s[1..] by { assert s[1..] == [s[1]] + s[2..]; }
      }
      ConsNoTag(s[0], rest);
    }
  }

  /** `strip()` keeps a slice of its argument. */
  lemma StripIsSlice(t: string) returns (a: nat)
    ensures a + |Strip(t)| <= |t| && Strip(t) == t[a..a + |Strip(t)|]
  {
    var l := StripLeftWhere(t, IsSpace);
    var r := StripRightWhere(l, IsSpace);
    assert Strip(t) == r;
    a := |t| - |l|;
    assert r == t[a..][..|r|];
  }

  /** Every slice of a single-spaced string is single-spaced. */
  lemma SliceSingleSpaced(t: string, a: nat, b: nat)
    requires SingleSpaced(t) && a <= b <= |t|
    ensures SingleSpaced(t[a..b])
  {
    assert forall i | 0 <= i < b - a :: t[a..b][i] == t[a + i];
  }

  /** Every slice of a string without tags is without tags. */
  lemma SliceNoTag(t: string, r: string, a: nat)
    requires NoTag(t) && a + |r| <= |t| && r == t[a..a + |r|]
    ensures NoTag(r)
  {
    SuffixNoTag(t, a);
    PrefixNoTag(t[a..], |r|);
    assert t[a..][..|r|] == r;
  }

  /** `strip()` keeps a slice, so the shape of what it keeps survives. */
  lemma StripKeepsShape(t: string)
    requires SingleSpaced(t) && NoTag(t)
    ensures SingleSpaced(Strip(t)) && NoTag(Strip(t))
  {
    var a := StripIsSlice(t);
    SliceSingleSpaced(t, a, a + |Strip(t)|);
    SliceNoTag(t, Strip(t), a);
  }

  /** A string of the normalised shape is its own normal form. */
  lemma {:induction false} RemoveTagsOfNoTag(s: string)
    requires NoTag(s)
    ensures RemoveTags(s) == s
    decreases |s|
  {
    if s != [] {
      assert s[0..] == s;
      assert forall i | 0 <= i < |s| - 1 :: s[1..][i..] == s[i + 1..];
      RemoveTagsOfNoTag(s[1..]);
    }
  }

  /** The tail of a single-spaced string is single-spaced, and a leading
      space is a plain one not followed by whitespace. */
  lemma SingleSpacedTail(s: string)
    requires SingleSpaced(s) && s != []
    ensures SingleSpaced(s[1..])
    ensures IsSpace(s[0]) ==> s[0] == ' ' && (|s| > 1 ==> !IsSpace(s[1]))
  {
    assert forall i | 0 <= i < |s| - 1 :: s[1..][i] == s[i + 1];
  }

  lemma {:induction false} CollapseOfSingleSpaced(s: string)
    requires SingleSpaced(s)
    ensures CollapseSpaces(s) == s
    decreases |s|
  {
    if s != [] {
      var t := s[1..];
      SingleSpacedTail(s);
      if IsSpace(s[0]) && t != [] {
        assert StripLeftWhere(t, IsSpace) == t;
      }
      CollapseOfSingleSpaced(t);
    }
  }

  /** `normalize_text` is idempotent. */
  lemma NormalizeIdempotent(s: string)
    ensures NormalizeText(NormalizeText(s)) == NormalizeText(s)
  {
    NormalFormUnchanged(NormalizeText(s));
  }

  /** The characters of s that are not whitespace, in order. */
  function NonSpace(s: string): (r: string)
    ensures forall c | c in r :: c in s && !IsSpace(c)
    decreases |s|
  {
    if s == [] then []
    else if IsSpace(s[0]) then NonSpace(s[1..])
    else [s[0]] + NonSpace(s[1..])
  }

  lemma {:induction false} NonSpaceAppend(a: string, b: string)
    ensures NonSpace(a + b) == NonSpace(a) + NonSpace(b)
    decreases |a|
  {
    if a != [] {
      assert (a + b)[0] == a[0];
      assert (a + b)[1..] == a[1..] + b;
      NonSpaceAppend(a[1..], b);
    } else {
      assert a + b == b;
    }
  }

  lemma {:induction false} NonSpaceOfStripLeft(s: string)
    ensures NonSpace(StripLeftWhere(s, IsSpace)) == NonSpace(s)
    decreases |s|
  {
    if s != [] && IsSpace(s[0]) {
      NonSpaceOfStripLeft(s[1..]);
    }
  }

  lemma {:induction false} NonSpaceOfStripRight(s: string)
    ensures NonSpace(StripRightWhere(s, IsSpace)) == NonSpace(s)
    decreases |s|
  {
    if s != [] && IsSpace(s[|s| - 1]) {
      var init := s[..|s| - 1];
      assert s == init + [s[|s| - 1]];
      NonSpaceAppend(init, [s[|s| - 1]]);
      assert NonSpace([s[|s| - 1]]) == [];
      NonSpaceOfStripRight(init);
    }
  }

  /** Collapsing whitespace keeps every other character, in order. */
  lemma {:induction false} CollapseKeepsContent(s: string)
    ensures NonSpace(CollapseSpaces(s)) == NonSpace(s)
    decreases |s|
  {
    if s != [] {
      var r := CollapseSpaces(s);
      if IsSpace(s[0]) {
        var t := StripLeftWhere(s[1..], IsSpace);
        assert r == " " + CollapseSpaces(t);
        assert r[1..] == CollapseSpaces(t);
        CollapseKeepsContent(t);
        NonSpaceOfStripLeft(s[1..]);
      } else {
        assert r == [s[0]] + CollapseSpaces(s[1..]);
        assert r[1..] == CollapseSpaces(s[1..]);
        CollapseKeepsContent(s[1..]);
      }
    }
  }

  /** Stripping the ends keeps every non-whitespace character, in order. */
  lemma StripKeepsContent(s: string)
    ensures NonSpace(Strip(s)) == NonSpace(s)
  {
    NonSpaceOfStripLeft(s);
    NonSpaceOfStripRight(StripLeftWhere(s, IsSpace));
  }

  /** `s.split()`: the maximal runs of non-whitespace characters, in order.
      A non-whitespace character opens a new word unless the next character
      is non-whitespace too, in which case it joins that character's word. */
  function Words(s: string): (ws: seq<string>)
    ensures s != [] && !IsSpace(s[0]) ==> ws != []
    ensures forall w | w in ws :: w != [] && forall c | c in w :: c in s && !IsSpace(c)
    decreases |s|
  {
    if s == [] then []
    else if IsSpace(s[0]) then Words(s[1..])
    else if |s| > 1 && !IsSpace(s[1]) then
      var rest := Words(s[1..]);
      assert forall c | c in s[1..] :: c in s;
      assert forall c | c in [s[0]] + rest[0] :: c == s[0] || c in rest[0];
      assert rest[0] in rest && forall w | w in rest[1..] :: w in rest;
      [[s[0]] + rest[0]] + rest[1..]
    else
      assert forall c | c in s[1..] :: c in s;
      [[s[0]]] + Words(s[1..])
  }

  /** Leading whitespace separates no words. */
  lemma {:induction false} WordsOfStripLeft(s: string)
    ensures Words(StripLeftWhere(s, IsSpace)) == Words(s)
    decreases |s|
  {
    if s != [] && IsSpace(s[0]) {
      WordsOfStripLeft(s[1..]);
    }
  }

  /** Trailing whitespace separates no words. */
  lemma {:induction false} WordsAppendSpace(x: string, c: char)
    requires IsSpace(c)
    ensures Words(x + [c]) == Words(x)
    decreases |x|
  {
    var y := x + [c];
    if x != [] {
      assert y[0] == x[0] && y[1..] == x[1..] + [c];
      WordsAppendSpace(x[1..], c);
      if |x| > 1 {
        assert y[1] == x[1];
      }
    }
  }

  lemma {:induction false} WordsOfStripRight(s: string)
    ensures Words(StripRightWhere(s, IsSpace)) == Words(s)
    decreases |s|
  {
    if s != [] && IsSpace(s[|s| - 1]) {
      var init := s[..|s| - 1];
      assert s == init + [s[|s| - 1]];
      WordsAppendSpace(init, s[|s| - 1]);
      WordsOfStripRight(init);
    }
  }

  /** Stripping the ends keeps the words. */
  lemma StripKeepsWords(s: string)
    ensures Words(Strip(s)) == Words(s)
  {
    var l := StripLeftWhere(s, IsSpace);
    assert Strip(s) == StripRightWhere(l, IsSpace);
    WordsOfStripLeft(s);
    WordsOfStripRight(l);
  }

  /** Collapsing whitespace keeps the words. */
  lemma {:induction false} CollapseKeepsWords(s: string)
    ensures Words(CollapseSpaces(s)) == Words(s)
    decreases |s|
  {
    if s != [] {
      var r := CollapseSpaces(s);
      if IsSpace(s[0]) {
        var t := StripLeftWhere(s[1..], IsSpace);
        assert r == " " + CollapseSpaces(t) && r[1..] == CollapseSpaces(t);
        CollapseKeepsWords(t);
        WordsOfStripLeft(s[1..]);
      } else {
        var t := s[1..];
        assert r == [s[0]] + CollapseSpaces(t) && r[1..] == CollapseSpaces(t);
        CollapseKeepsWords(t);
        if t != [] {
          assert r[1] == CollapseSpaces(t)[0];
        }
      }
    }
  }

  /** A character glued to the first word joins onto the front of the joined text. */
  lemma JoinConsFirst(c: char, ws: seq<string>, sep: string)
    requires ws != []
    ensures Join([[c] + ws[0]] + ws[1..], sep) == [c] + Join(ws, sep)
  {
    var vs := [[c] + ws[0]] + ws[1..];
    assert vs[1..] == ws[1..];
  }

  /** Trimmed, single-spaced text is its words joined by single spaces. */
  lemma {:induction false} JoinOfWords(t: string)
    requires Trimmed(t) && SingleSpaced(t)
    ensures t == Join(Words(t), " ")
    decreases |t|
  {
    if |t| > 1 {
      SingleSpacedTail(t);
      var t' := t[1..];
      if !IsSpace(t[1]) {
        assert Trimmed(t');
        JoinOfWords(t');
        JoinConsFirst(t[0], Words(t'), " ");
        assert t == [t[0]] + t';
      } else {
        assert |t| > 2 && !IsSpace(t[2]);
        var t'' := t[2..];
        SingleSpacedTail(t');
        assert t'[1..] == t'';
        assert Trimmed(t'');
        JoinOfWords(t'');
        assert Words(t) == [[t[0]]] + Words(t'');
        assert t == [t[0]] + " " + t'';
      }
    }
  }

  /** `normalize_text` is the words of the tag-free text, joined by single
      spaces: the words survive in order, and each gap becomes one space. */
  lemma NormalizeIsJoinedWords(s: string)
    ensures NormalizeText(s) == Join(Words(RemoveTags(s)), " ")
  {
    var t := CollapseSpaces(RemoveTags(s));
    CollapseKeepsWords(RemoveTags(s));
    StripKeepsWords(t);
    JoinOfWords(NormalizeText(s));
  }

  /** `normalize_text` keeps every non-whitespace character left after the
      tags are replaced; on tag-free text that is every non-whitespace
      character of the input. */
  lemma NormalizeKeepsContent(s: string)
    ensures NonSpace(NormalizeText(s)) == NonSpace(RemoveTags(s))
    ensures NoTag(s) ==> NonSpace(NormalizeText(s)) == NonSpace(s)
  {
    var t := CollapseSpaces(RemoveTags(s));
    CollapseKeepsContent(RemoveTags(s));
    StripKeepsContent(t);
    if NoTag(s) {
      RemoveTagsOfNoTag(s);
    }
  }

  /** Text that is already trimmed, single-spaced and tag-free is left
      exactly as it is. */
  lemma NormalFormUnchanged(s: string)
    requires Trimmed(s) && SingleSpaced(s) && NoTag(s)
    ensures NormalizeText(s) == s
  {
    RemoveTagsOfNoTag(s);
    CollapseOfSingleSpaced(s);
    assert StripLeftWhere(s, IsSpace) == s;
    assert StripRightWhere(s, IsSpace) == s;
  }

  /** The first position holding c is where IndexOf finds it. */
  lemma {:induction false} IndexOfFirst(s: string, c: char, j: nat)
    requires j < |s| && s[j] == c && c !in s[..j]
    ensures IndexOf(s, c) == j
  {
    if j > 0 {
      assert s[0] == s[..j][0];
      assert s[1..][..j - 1] == s[1..j];
      assert forall x | x in s[1..j] :: x in s[..j];
      IndexOfFirst(s[1..], c, j - 1);
    }
  }

  /** A tag in front of the text is replaced by one space. */
  lemma TagBecomesSpace(inner: string, rest: string)
    requires inner != [] && '>' !in inner
    ensures RemoveTags("<" + inner + ">" + rest) == " " + RemoveTags(rest)
  {
    var s := "<" + inner + ">" + rest;
    assert s[1..] == inner + ">" + rest && s[2..] == inner[1..] + ">" + rest;
    assert s[|inner| + 1] == '>';
    assert OpensTag(s);
    assert s[2..][..|inner| - 1] == inner[1..];
    IndexOfFirst(s[2..], '>', |inner| - 1);
    assert s[TagLength(s)..] == rest;
  }

  /** Every '<' in s is closed by a later '>' in s, so no tag that the scan
      finds in s can reach past its end. */
  predicate Closed(s: string) {
    forall i | 0 <= i < |s| && s[i] == '<' :: '>' in s[i + 1..]
  }

  lemma ClosedSuffix(s: string, k: nat)
    requires Closed(s) && k <= |s|
    ensures Closed(s[k..])
  {
    forall i | 0 <= i < |s| - k && s[k..][i] == '<' ensures '>' in s[k..][i + 1..] {
      assert s[k..][i + 1..] == s[k + i + 1..];
    }
  }

  /** A tag opening a closed string opens it, with the same length, whatever follows. */
  lemma TagInPrefix(a: string, b: string)
    requires OpensTag(a)
    ensures OpensTag(a + b) && TagLength(a + b) == TagLength(a)
  {
    OpensTagExtends(a, b);
    var n := TagLength(a);
    var s := a + b;
    assert s[2..][n - 3] == '>';
    assert s[2..][..n - 3] == a[2..][..n - 3];
    assert a[2..][..n - 3] == a[1..n - 1][1..];
    IndexOfFirst(s[2..], '>', n - 3);
    IndexOfFirst(a[2..], '>', n - 3);
  }

  /** No tag opens a closed string where its first character is not a tag's. */
  lemma NoTagAcrossEnd(a: string, b: string)
    requires Closed(a) && a != [] && !OpensTag(a)
    ensures !OpensTag(a + b)
  {
    if a[0] == '<' {
      assert '>' in a[1..];
      assert a[1..] == [a[1]] + a[2..];
    }
  }

  /** A tag opening a string opens it whatever follows, and is replaced first. */
  lemma RemoveTagsOfTagged(a: string, b: string)
    requires OpensTag(a)
    ensures RemoveTags(a) == " " + RemoveTags(a[TagLength(a)..])
    ensures RemoveTags(a + b) == " " + RemoveTags(a[TagLength(a)..] + b)
  {
    TagInPrefix(a, b);
    assert (a + b)[TagLength(a)..] == a[TagLength(a)..] + b;
  }

  /** A closed string not opening with a tag keeps its first character first. */
  lemma RemoveTagsOfPlain(a: string, b: string)
    requires Closed(a) && a != [] && !OpensTag(a)
    ensures RemoveTags(a) == [a[0]] + RemoveTags(a[1..])
    ensures RemoveTags(a + b) == [a[0]] + RemoveTags(a[1..] + b)
  {
    NoTagAcrossEnd(a, b);
    assert (a + b)[0] == a[0] && (a + b)[1..] == a[1..] + b;
  }

  lemma AppendAssoc(x: string, y: string, z: string)
    ensures x + (y + z) == (x + y) + z
  {
  }

  /** Removing tags from a closed string followed by more text works piecewise. */
  lemma {:induction false} RemoveTagsAppend(a: string, b: string)
    requires Closed(a)
    ensures RemoveTags(a + b) == RemoveTags(a) + RemoveTags(b)
    decreases |a|
  {
    if a == [] {
      assert a + b == b;
    } else if OpensTag(a) {
      var n := TagLength(a);
      calc {
        RemoveTags(a + b);
      == { RemoveTagsOfTagged(a, b); }
        " " + RemoveTags(a[n..] + b);
      == { ClosedSuffix(a, n); RemoveTagsAppend(a[n..], b); }
        " " + (RemoveTags(a[n..]) + RemoveTags(b));
      == { AppendAssoc(" ", RemoveTags(a[n..]), RemoveTags(b)); RemoveTagsOfTagged(a, b); }
        RemoveTags(a) + RemoveTags(b);
      }
    } else {
      calc {
        RemoveTags(a + b);
      == { RemoveTagsOfPlain(a, b); }
        [a[0]] + RemoveTags(a[1..] + b);
      == { ClosedSuffix(a, 1); RemoveTagsAppend(a[1..], b); }
        [a[0]] + (RemoveTags(a[1..]) + RemoveTags(b));
      == { AppendAssoc([a[0]], RemoveTags(a[1..]), RemoveTags(b)); RemoveTagsOfPlain(a, b); }
        RemoveTags(a) + RemoveTags(b);
      }
    }
  }

  /** A tag anywhere after closed text becomes one space, and the text on
      either side is treated on its own. */
  lemma TagAnywhereBecomesSpace(a: string, inner: string, b: string)
    requires Closed(a) && inner != [] && '>' !in inner
    ensures RemoveTags(a + "<" + inner + ">" + b) == RemoveTags(a) + " " + RemoveTags(b)
  {
    var t := "<" + inner + ">" + b;
    calc {
      RemoveTags(a + "<" + inner + ">" + b);
    == { Regroup(a, "<", inner, ">", b); }
      RemoveTags(a + t);
    == { RemoveTagsAppend(a, t); }
      RemoveTags(a) + RemoveTags(t);
    == { TagBecomesSpace(inner, b); }
      RemoveTags(a) + (" " + RemoveTags(b));
    == { AppendAssoc(RemoveTags(a), " ", RemoveTags(b)); }
      RemoveTags(a) + " " + RemoveTags(b);
    }
  }

  lemma Regroup(a: string, x: string, y: string, z: string, w: string)
    ensures a + x + y + z + w == a + (x + y + z + w)
  {
  }

  // ---------------------------------------------------------------------------
  // Feed domain and source type
  // ---------------------------------------------------------------------------

  /** `extract_domain_from_url`: the last two dot-separated parts of the
      URL's network location (the whole location when it has no dot), or None
      when there is none. */
  function ExtractDomainFromUrl(p: Platform, url: string): (r: Option<string>)
    ensures r.None? <==> p.urlNetloc(url) == ""
    ensures r.Some? ==> r.value != ""
    ensures r.Some? && '.' !in p.urlNetloc(url) ==> r.value == p.urlNetloc(url)
    ensures r.Some? && '.' in p.urlNetloc(url) ==> Occurrences(r.value, '.') == 1
    ensures r.Some? ==> LastPart(r.value, '.') == LastPart(p.urlNetloc(url), '.')
    ensures r.Some? ==> var netloc := p.urlNetloc(url);
      Hosts.LabelSuffix(netloc, r.value)
  {
    var netloc := p.urlNetloc(url);
    if netloc == "" then None
    else
      var d := Hosts.Registrable(netloc);
      assert Occurrences("", '.') == 0;
      Some(d)
  }

  /** The example of the source's docstring: a job-board subdomain gives the
      board's own domain. */
  lemma FeedDomainDropsSubdomain(p: Platform, url: string, sub: string, a: string, b: string)
    requires p.urlNetloc(url) == sub + "." + (a + "." + b)
    requires '.' !in sub && '.' !in a && '.' !in b
    ensures ExtractDomainFromUrl(p, url) == Some(a + "." + b)
  {
    Hosts.RegistrableOfSubdomain(sub, a, b);
  }

  /** `f"rss_{source_domain}" if source_domain else "rss_unknown"` */
  function SourceType(domain: Option<string>): (t: string)
    ensures StartsWith(t, "rss_")
    ensures Present(domain) ==> t[4..] == domain.value
    ensures !Present(domain) ==> t == "rss_unknown"
  {
    if Present(domain) then "rss_" + domain.value else "rss_unknown"
  }

  // ---------------------------------------------------------------------------
  // Item to signal
  // ---------------------------------------------------------------------------

  /** The text scanned for intent: title and description separated by a blank
      line when both are non-empty, otherwise whichever is non-empty. */
  function RawText(title: string, description: string): (r: string)
    ensures StartsWith(r, title) && EndsWith(r, description)
    ensures r == "" <==> title == "" && description == ""
    ensures |r| == |title| + |description| + (if title != "" && description != "" then 2 else 0)
    ensures Trimmed(title) && Trimmed(description) ==> Trimmed(r)
  {
    if title != "" && description != "" then title + "\n\n" + description
    else if title != "" then title
    else description
  }

  /** The raw text of an item after both parts are normalised: it starts with
      the title, ends with the description, has no whitespace at either end and
      is empty only when both parts normalise to nothing. */
  function ItemText(item: RssItem): (r: string)
    ensures StartsWith(r, NormalizeText(item.title)) && EndsWith(r, NormalizeText(item.description))
    ensures r == "" <==> NormalizeText(item.title) == "" && NormalizeText(item.description) == ""
    ensures Trimmed(r)
  {
    RawText(NormalizeText(item.title), NormalizeText(item.description))
  }

  /** `normalize_datetime`: the publication time (already UTC), or the clock
      when the item has none. */
  function ItemTimestamp(item: RssItem, now: int): (t: int)
    ensures item.pubDate.Some? ==> t == item.pubDate.value
    ensures item.pubDate.None? ==> t == now
  {
    if item.pubDate.Some? then item.pubDate.value else now
  }

  /** The dedup hash an item's signal carries, from the link and the normalised
      text (its first 500 characters). */
  function DedupKey(p: Platform, item: RssItem): (h: string)
    ensures |ItemText(item)| <= SnippetLength ==> h == p.sha256Hex(item.link + ":" + ItemText(item))
    ensures |ItemText(item)| > SnippetLength ==> h == p.sha256Hex(item.link + ":" + ItemText(item)[..SnippetLength])
  {
    CreateDedupHash(p, item.link, ItemText(item))
  }

  /** Two items with the same link, title and description share the dedup
      hash, whatever their dates, guids and feeds. */
  lemma DedupKeyIgnoresDateAndGuid(p: Platform, a: RssItem, b: RssItem)
    requires a.link == b.link && a.title == b.title && a.description == b.description
    ensures DedupKey(p, a) == DedupKey(p, b)
  {
  }

  /** The signal an item stands for once its text, time and feed are
      normalised: it cites the item's link, carries its normalised text, its
      time, an `rss_` source type and its dedup hash, and is a well-formed
      signal exactly when the link and the text are non-empty. */
  function ItemSignal(p: Platform, item: RssItem, now: int): (sig: Signal)
    ensures sig.sourceUrl == item.link && sig.rawText == ItemText(item)
    ensures sig.timestamp == ItemTimestamp(item, now) && sig.dedupHash == DedupKey(p, item)
    ensures StartsWith(sig.signalId, "sig_") && StartsWith(sig.sourceType, "rss_")
    ensures sig.Valid() <==> item.link != "" && ItemText(item) != ""
  {
    var timestamp := ItemTimestamp(item, now);
    Signal(CreateSignalId(p, item.link, timestamp), item.link, ItemText(item), timestamp,
           SourceType(ExtractDomainFromUrl(p, item.feedUrl)), DedupKey(p, item))
  }

  /** `rss_item_to_signal`, with the signal's own construction checks: only an
      empty link or an empty text can make construction fail. */
  function RssItemToSignal(p: Platform, item: RssItem, now: int): (r: Result<Signal, RejectionError>)
    ensures r.Success? <==> item.link != "" && ItemText(item) != ""
    ensures r.Success? ==> r.value == ItemSignal(p, item, now) && r.value.Valid()
    ensures r.Failure? ==> r.error.signalId == Some(CreateSignalId(p, item.link, ItemTimestamp(item, now)))
    ensures item.link == "" ==> r.Failure? && r.error.rule == MissingEvidence
    ensures item.link != "" && ItemText(item) == "" ==> r.Failure? && r.error.rule == NoIntentSignal
  {
    var title := NormalizeText(item.title);
    var description := NormalizeText(item.description);
    var rawText := RawText(title, description);
    var timestamp := ItemTimestamp(item, now);
    var signalId := CreateSignalId(p, item.link, timestamp);
    var sourceType := SourceType(ExtractDomainFromUrl(p, item.feedUrl));
    CreateSignal(signalId, item.link, rawText, timestamp, sourceType, CreateDedupHash(p, item.link, rawText))
  }

  // ---------------------------------------------------------------------------
  // One item through the gate
  // ---------------------------------------------------------------------------

  /** `IngestionResult` */
  datatype IngestionResult = IngestionResult(
    success: bool,
    signal: Option<Signal>,
    rejection: Option<Rejection>,
    rawItem: Option<RssItem>)

  /** The single condition under which an item is accepted. */
  predicate ItemAccepted(item: RssItem, now: int) {
    GateAccepts(item.link, ItemText(item), ItemTimestamp(item, now), now)
  }

  /** An accepted item has a link and a text, so its signal can be built. */
  lemma AcceptedItemBuilds(item: RssItem, now: int)
    requires ItemAccepted(item, now)
    ensures item.link != "" && ItemText(item) != ""
  {
    if ItemText(item) == "" { EmptyTextHasNoIntent(None); }
  }

  /** The snippet of a rejection for an item whose signal could not be built:
      the raw title and description, cut to 500 characters. */
  function ConstructionRejection(item: RssItem, error: RejectionError, now: int, rejectionId: string): (r: Rejection)
    ensures StartsWith(item.title + "\n" + item.description, r.rawSignalSnippet)
    ensures r.rule == error.rule && r.rejectionId == rejectionId && r.timestamp == now
    ensures Present(error.signalId) ==> r.signalId == error.signalId.value
  {
    var raw := item.title + "\n" + item.description;
    var snippet := Prefix(raw, SnippetLength);
    var rejection := FromError(rejectionId, error, snippet, now);
    assert rejection.rawSignalSnippet == raw[..|rejection.rawSignalSnippet|] by {
      assert snippet == raw[..|snippet|];
      assert rejection.rawSignalSnippet == snippet[..|rejection.rawSignalSnippet|];
    }
    rejection
  }

  /** `ingest_rss_item`: convert, then gate. A failed conversion becomes a
      rejection; the rejection id and the clock are parameters. */
  function IngestRssItem(p: Platform, item: RssItem, now: int, rejectionId: string): (r: IngestionResult)
    ensures r.rawItem == Some(item)
    ensures r.success <==> ItemAccepted(item, now)
    ensures r.success <==> r.signal.Some?
    ensures r.success <==> r.rejection.None?
    ensures r.success ==> r.signal.value == ItemSignal(p, item, now)
    ensures !r.success ==>
      && r.rejection.value.rejectionId == rejectionId
      && r.rejection.value.timestamp == now
      && r.rejection.value.signalId == CreateSignalId(p, item.link, ItemTimestamp(item, now))
  {
    var built := RssItemToSignal(p, item, now);
    if built.Failure? then
      assert !ItemAccepted(item, now) by {
        if ItemAccepted(item, now) { AcceptedItemBuilds(item, now); }
      }
      IngestionResult(false, None, Some(ConstructionRejection(item, built.error, now, rejectionId)), Some(item))
    else
      var s := built.value;
      var gating := GateSignal(p, s.sourceUrl, s.rawText, s.timestamp, s.sourceType, now, rejectionId);
      if gating.accepted then IngestionResult(true, gating.signal, None, Some(item))
      else IngestionResult(false, None, gating.rejection, Some(item))
  }

  /** Why `ingest_rss_item` rejects: a missing link is R8 and an empty text R1,
      both with the raw title and description as snippet; a built signal that
      is too old is R2 and one without intent keywords R1, with its text as
      snippet. */
  lemma IngestRssItemRejection(p: Platform, item: RssItem, now: int, rejectionId: string)
    ensures var r := IngestRssItem(p, item, now, rejectionId);
      && (item.link == "" ==>
            r.rejection.Some? && r.rejection.value.rule == MissingEvidence
            && StartsWith(item.title + "\n" + item.description, r.rejection.value.rawSignalSnippet))
      && (item.link != "" && ItemText(item) == "" ==>
            r.rejection.Some? && r.rejection.value.rule == NoIntentSignal
            && StartsWith(item.title + "\n" + item.description, r.rejection.value.rawSignalSnippet))
      && (item.link != "" && ItemText(item) != "" && r.rejection.Some? ==>
            StartsWith(ItemText(item), r.rejection.value.rawSignalSnippet))
      && (item.link != "" && ItemText(item) != "" && !WithinAge(ItemTimestamp(item, now), now, MaxSignalAgeDays) ==>
            r.rejection.Some? && r.rejection.value.rule == StaleSignal)
      && (item.link != "" && ItemText(item) != "" && WithinAge(ItemTimestamp(item, now), now, MaxSignalAgeDays)
          && ValidateIntentSignalPresent(ItemText(item), None).Failure? ==>
            r.rejection.Some? && r.rejection.value.rule == NoIntentSignal)
  {
  }

  // ---------------------------------------------------------------------------
  // The feed
  // ---------------------------------------------------------------------------

  /** `BatchIngestionResult` */
  datatype BatchIngestionResult = BatchIngestionResult(totalItems: nat, accepted: seq<Signal>, rejected: seq<Rejection>)
  {
    /** `acceptance_rate`: the accepted share of all items, 0 for no items. */
    function AcceptanceRate(): (rate: real)
      ensures totalItems == 0 ==> rate == 0.0
      ensures totalItems > 0 ==> rate * totalItems as real == |accepted| as real
      ensures |accepted| <= totalItems ==> 0.0 <= rate <= 1.0
    {
      if totalItems == 0 then 0.0 else |accepted| as real / totalItems as real
    }
  }

  /** The caller's `seen_hashes` set, which the feed loop updates in place. A
      caller that passes none gets a fresh empty set nobody else sees. */
  class SeenHashes {
    var hashes: set<string>

    constructor(initial: set<string>)
      ensures hashes == initial
    {
      hashes := initial;
    }
  }

  /** What the loop has built so far, with the seen-hash set. */
  datatype FeedState = FeedState(result: BatchIngestionResult, seen: set<string>)

  /** The dedup hashes of a list of signals. */
  function Hashes(signals: seq<Signal>): set<string> {
    set s | s in signals :: s.dedupHash
  }

  /** One iteration of the feed loop, given the item's dedup key and what
      ingesting it gives: count the item; skip it when the key was seen;
      otherwise append the signal (and record its hash) or the rejection. */
  function FeedStep(st: FeedState, key: string, r: IngestionResult): (next: FeedState)
    ensures next.result.totalItems == st.result.totalItems + 1
    ensures key in st.seen || !(r.success && r.signal.Some?) ==>
      next.result.accepted == st.result.accepted && next.seen == st.seen
    ensures key in st.seen || (r.success && r.signal.Some?) || r.rejection.None? ==>
      next.result.rejected == st.result.rejected
    ensures key !in st.seen && r.success && r.signal.Some? ==>
      next.result.accepted == st.result.accepted + [r.signal.value] && next.seen == st.seen + {r.signal.value.dedupHash}
    ensures key !in st.seen && !(r.success && r.signal.Some?) && r.rejection.Some? ==>
      next.result.rejected == st.result.rejected + [r.rejection.value]
  {
    var total := st.result.totalItems + 1;
    if key in st.seen then
      st.(result := st.result.(totalItems := total))
    else if r.success && r.signal.Some? then
      FeedState(BatchIngestionResult(total, st.result.accepted + [r.signal.value], st.result.rejected),
                st.seen + {r.signal.value.dedupHash})
    else if r.rejection.Some? then
      FeedState(BatchIngestionResult(total, st.result.accepted, st.result.rejected + [r.rejection.value]), st.seen)
    else
      st.(result := st.result.(totalItems := total))
  }

  /** A step keeps the seen set equal to the starting set and the hashes
      of what was accepted. */
  lemma FeedStepHashes(st: FeedState, key: string, r: IngestionResult, start: set<string>)
    requires st.seen == start + Hashes(st.result.accepted)
    ensures FeedStep(st, key, r).seen == start + Hashes(FeedStep(st, key, r).result.accepted)
  {
    if key !in st.seen && r.success && r.signal.Some? {
      var signals := st.result.accepted;
      assert forall x :: x in signals + [r.signal.value] <==> x in signals || x == r.signal.value;
      assert Hashes(signals + [r.signal.value]) == Hashes(signals) + {r.signal.value.dedupHash};
    }
  }

  /** The loop of `ingest_rss_feed` after its first n iterations, over what
      each item gives it: the item's dedup key and the result of ingesting it.
      Every item is counted; accepted and rejected items together never
      outnumber them; the seen set grows by exactly the hashes of the accepted
      signals. */
  function FeedLoop(keys: seq<string>, results: seq<IngestionResult>, n: nat, seen: set<string>): (st: FeedState)
    requires |keys| == |results| && n <= |keys|
    ensures st.result.totalItems == n
    ensures |st.result.accepted| + |st.result.rejected| <= n
    ensures st.seen == seen + Hashes(st.result.accepted)
  {
    if n == 0 then FeedState(BatchIngestionResult(0, [], []), seen)
    else
      var prev := FeedLoop(keys, results, n - 1, seen);
      FeedStepHashes(prev, keys[n - 1], results[n - 1], seen);
      FeedStep(prev, keys[n - 1], results[n - 1])
  }

  /** The dedup key of every item. */
  function ItemKeys(p: Platform, items: seq<RssItem>): (keys: seq<string>)
    ensures |keys| == |items|
    ensures forall i | 0 <= i < |items| :: keys[i] == DedupKey(p, items[i])
  {
    seq(|items|, i requires 0 <= i < |items| => DedupKey(p, items[i]))
  }

  /** The result of ingesting every item, each with its own rejection id. */
  function ItemResults(p: Platform, items: seq<RssItem>, now: int, rejectionIds: seq<string>): (results: seq<IngestionResult>)
    requires |rejectionIds| == |items|
    ensures |results| == |items|
    ensures forall i | 0 <= i < |items| :: results[i] == IngestRssItem(p, items[i], now, rejectionIds[i])
  {
    seq(|items|, i requires 0 <= i < |items| => IngestRssItem(p, items[i], now, rejectionIds[i]))
  }

  /** `ingest_rss_feed` over parsed items, with the dedup key computed from the
      item itself (RssIngestion.FeedRunAsWritten is the loop as written). */
  function FeedRun(p: Platform, items: seq<RssItem>, now: int, rejectionIds: seq<string>, seen: set<string>): (st: FeedState)
    requires |rejectionIds| == |items|
    ensures st.result.totalItems == |items|
    ensures |st.result.accepted| + |st.result.rejected| <= |items|
    ensures st.seen == seen + Hashes(st.result.accepted)
  {
    FeedLoop(ItemKeys(p, items), ItemResults(p, items, now, rejectionIds), |items|, seen)
  }

  /** The end of one iteration of the loop of `ingest_rss_feed`, for an item
      whose dedup key was not seen: append the ingested signal (remembering its
      hash) or the rejection. */
  method RecordResult(key: string, r: IngestionResult, seen: SeenHashes,
                      total: nat, accepted: seq<Signal>, rejected: seq<Rejection>)
    returns (accepted': seq<Signal>, rejected': seq<Rejection>)
    requires key !in seen.hashes
    modifies seen
    ensures FeedState(BatchIngestionResult(total + 1, accepted', rejected'), seen.hashes)
            == FeedStep(FeedState(BatchIngestionResult(total, accepted, rejected), old(seen.hashes)), key, r)
  {
    accepted', rejected' := accepted, rejected;
    if r.success && r.signal.Some? {
      accepted' := accepted + [r.signal.value];
      seen.hashes := seen.hashes + {r.signal.value.dedupHash};
    } else if r.rejection.Some? {
      rejected' := rejected + [r.rejection.value];
    }
  }

  /** One iteration of the loop of `ingest_rss_feed`: count the item, skip it
      when its dedup key was seen, otherwise ingest it and record the result. */
  method IngestFeedItem(p: Platform, item: RssItem, now: int, rejectionId: string, seen: SeenHashes,
                        total: nat, accepted: seq<Signal>, rejected: seq<Rejection>)
    returns (total': nat, accepted': seq<Signal>, rejected': seq<Rejection>)
    modifies seen
    ensures FeedState(BatchIngestionResult(total', accepted', rejected'), seen.hashes)
            == FeedStep(FeedState(BatchIngestionResult(total, accepted, rejected), old(seen.hashes)),
                        DedupKey(p, item), IngestRssItem(p, item, now, rejectionId))
  {
    total', accepted', rejected' := total + 1, accepted, rejected;
    var key := DedupKey(p, item);
    if key in seen.hashes {
      return;
    }
    var r := IngestRssItem(p, item, now, rejectionId);
    accepted', rejected' := RecordResult(key, r, seen, total, accepted, rejected);
  }

  /** The loop of `ingest_rss_feed`. A feed that failed to parse (None) gives
      an empty result and leaves the seen set alone. */
  method IngestRssFeed(p: Platform, parsed: Option<seq<RssItem>>, now: int, rejectionIds: seq<string>,
                       seen: SeenHashes) returns (result: BatchIngestionResult)
    requires parsed.Some? ==> |rejectionIds| == |parsed.value|
    modifies seen
    ensures parsed.None? ==> result == BatchIngestionResult(0, [], []) && seen.hashes == old(seen.hashes)
    ensures parsed.Some? ==>
      FeedState(result, seen.hashes) == FeedRun(p, parsed.value, now, rejectionIds, old(seen.hashes))
  {
    if parsed.None? {
      return BatchIngestionResult(0, [], []);
    }
    var items := parsed.value;
    ghost var keys := ItemKeys(p, items);
    ghost var results := ItemResults(p, items, now, rejectionIds);
    var accepted: seq<Signal> := [];
    var rejected: seq<Rejection> := [];
    var total: nat := 0;
    for i := 0 to |items|
      invariant FeedState(BatchIngestionResult(total, accepted, rejected), seen.hashes)
                == FeedLoop(keys, results, i, old(seen.hashes))
    {
      total, accepted, rejected := IngestFeedItem(p, items[i], now, rejectionIds[i], seen, total, accepted, rejected);
    }
    result := BatchIngestionResult(total, accepted, rejected);
  }

  // ---------------------------------------------------------------------------
  // Feed properties
  // ---------------------------------------------------------------------------

  /** A result that the loop appends to the accepted list. */
  predicate Accepts(r: IngestionResult) {
    r.success && r.signal.Some?
  }

  /** Each accepted signal carries its item's key. */
  predicate Coherent(keys: seq<string>, results: seq<IngestionResult>) {
    |keys| == |results| && forall i | 0 <= i < |results| :: results[i].signal.Some? ==> results[i].signal.value.dedupHash == keys[i]
  }

  /** Every result is either appended as accepted or carries a rejection. */
  predicate Decided(results: seq<IngestionResult>) {
    forall i | 0 <= i < |results| :: Accepts(results[i]) || results[i].rejection.Some?
  }

  /** One item's result: its signal carries the item's key, it is decided, and
      it is an acceptance exactly when the gate accepts the item. */
  lemma IngestRssItemShape(p: Platform, item: RssItem, now: int, rejectionId: string)
    ensures var r := IngestRssItem(p, item, now, rejectionId);
      && (r.signal.Some? ==> r.signal.value.dedupHash == DedupKey(p, item))
      && (Accepts(r) || r.rejection.Some?)
      && (Accepts(r) <==> ItemAccepted(item, now))
  {
  }

  /** What ingesting the items gives is coherent with their keys and always
      decided, and accepts exactly the items the gate accepts. */
  lemma ItemResultsShape(p: Platform, items: seq<RssItem>, now: int, rejectionIds: seq<string>)
    requires |rejectionIds| == |items|
    ensures Coherent(ItemKeys(p, items), ItemResults(p, items, now, rejectionIds))
    ensures Decided(ItemResults(p, items, now, rejectionIds))
    ensures forall i | 0 <= i < |items| :: Accepts(ItemResults(p, items, now, rejectionIds)[i]) <==> ItemAccepted(items[i], now)
  {
    var keys := ItemKeys(p, items);
    var results := ItemResults(p, items, now, rejectionIds);
    forall i | 0 <= i < |items|
      ensures results[i].signal.Some? ==> results[i].signal.value.dedupHash == keys[i]
      ensures Accepts(results[i]) || results[i].rejection.Some?
      ensures Accepts(results[i]) <==> ItemAccepted(items[i], now)
    {
      IngestRssItemShape(p, items[i], now, rejectionIds[i]);
    }
  }

  /** The seen set only ever gains keys of the items. */
  lemma {:induction false} LoopSeenWithinKeys(keys: seq<string>, results: seq<IngestionResult>, n: nat, seen: set<string>)
    requires Coherent(keys, results) && n <= |keys|
    ensures forall k | k in FeedLoop(keys, results, n, seen).seen :: k in seen || k in keys[..n]
  {
    if n > 0 {
      LoopSeenWithinKeys(keys, results, n - 1, seen);
      assert forall k | k in keys[..n - 1] :: k in keys[..n];
      assert keys[n - 1] in keys[..n];
    }
  }

  /** With fresh, distinct keys and every result decided, nothing is skipped:
      every item is accepted or rejected. */
  lemma {:induction false} LoopAllDecided(keys: seq<string>, results: seq<IngestionResult>, n: nat, seen: set<string>)
    requires Coherent(keys, results) && Decided(results) && n <= |keys|
    requires forall i | 0 <= i < |keys| :: keys[i] !in seen
    requires forall i, j | 0 <= i < j < |keys| :: keys[i] != keys[j]
    ensures |FeedLoop(keys, results, n, seen).result.accepted| + |FeedLoop(keys, results, n, seen).result.rejected| == n
  {
    if n > 0 {
      LoopAllDecided(keys, results, n - 1, seen);
      LoopSeenWithinKeys(keys, results, n - 1, seen);
      assert keys[n - 1] !in keys[..n - 1];
    }
  }

  /** Every key ends up seen, unless its result is not an acceptance. */
  lemma {:induction false} LoopAcceptedSeen(keys: seq<string>, results: seq<IngestionResult>, n: nat, seen: set<string>)
    requires Coherent(keys, results) && n <= |keys|
    ensures forall i | 0 <= i < n :: keys[i] in FeedLoop(keys, results, n, seen).seen || !Accepts(results[i])
  {
    if n > 0 {
      LoopAcceptedSeen(keys, results, n - 1, seen);
      assert FeedLoop(keys, results, n - 1, seen).seen <= FeedLoop(keys, results, n, seen).seen;
    }
  }

  /** Nothing is accepted when every key is already seen or its result is
      not an acceptance. */
  lemma {:induction false} LoopNothingNew(keys: seq<string>, results: seq<IngestionResult>, n: nat, seen: set<string>)
    requires |keys| == |results| && n <= |keys|
    requires forall i | 0 <= i < |keys| :: keys[i] in seen || !Accepts(results[i])
    ensures FeedLoop(keys, results, n, seen).result.accepted == []
  {
    if n > 0 {
      LoopNothingNew(keys, results, n - 1, seen);
    }
  }

  /** With no key seen before and no two items sharing a key, every item of
      the feed is either accepted or rejected. */
  lemma DistinctItemsAllDecided(p: Platform, items: seq<RssItem>, now: int, rejectionIds: seq<string>,
                                seen: set<string>)
    requires |rejectionIds| == |items|
    requires forall i | 0 <= i < |items| :: DedupKey(p, items[i]) !in seen
    requires forall i, j | 0 <= i < j < |items| :: DedupKey(p, items[i]) != DedupKey(p, items[j])
    ensures var st := FeedRun(p, items, now, rejectionIds, seen);
      |st.result.accepted| + |st.result.rejected| == |items|
  {
    ItemResultsShape(p, items, now, rejectionIds);
    LoopAllDecided(ItemKeys(p, items), ItemResults(p, items, now, rejectionIds), |items|, seen);
  }

  /** Which items are accepted does not depend on the rejection ids. */
  lemma AcceptancesIgnoreIds(p: Platform, items: seq<RssItem>, now: int, ids1: seq<string>, ids2: seq<string>)
    requires |ids1| == |items| && |ids2| == |items|
    ensures forall i | 0 <= i < |items| ::
      Accepts(ItemResults(p, items, now, ids2)[i]) ==> Accepts(ItemResults(p, items, now, ids1)[i])
  {
    ItemResultsShape(p, items, now, ids1);
    ItemResultsShape(p, items, now, ids2);
  }

  /** Ingesting the same feed a second time with the set the first run left
      behind accepts nothing, whatever rejection ids the second run draws. */
  lemma ReingestAcceptsNothing(p: Platform, items: seq<RssItem>, now: int, ids1: seq<string>, ids2: seq<string>,
                               seen: set<string>)
    requires |ids1| == |items| && |ids2| == |items|
    ensures var first := FeedRun(p, items, now, ids1, seen);
      FeedRun(p, items, now, ids2, first.seen).result.accepted == []
  {
    var keys := ItemKeys(p, items);
    var results1 := ItemResults(p, items, now, ids1);
    var results2 := ItemResults(p, items, now, ids2);
    ItemResultsShape(p, items, now, ids1);
    AcceptancesIgnoreIds(p, items, now, ids1, ids2);
    var first := FeedLoop(keys, results1, |items|, seen);
    LoopAcceptedSeen(keys, results1, |items|, seen);
    LoopNothingNew(keys, results2, |items|, first.seen);
  }

  // ---------------------------------------------------------------------------
  // The loop as written
  // ---------------------------------------------------------------------------

  /** How the loop as written ends: with a result, or with a RejectionError
      escaping it after some hashes were already added to the caller's set. */
  datatype FeedOutcome = Completed(state: FeedState) | Aborted(error: RejectionError, seen: set<string>)

  /** The signal built for every item before the dedup check. */
  function ItemBuilds(p: Platform, items: seq<RssItem>, now: int): (builds: seq<Result<Signal, RejectionError>>)
    ensures |builds| == |items|
    ensures forall i | 0 <= i < |items| :: builds[i] == RssItemToSignal(p, items[i], now)
  {
    seq(|items|, i requires 0 <= i < |items| => RssItemToSignal(p, items[i], now))
  }

  /** The first n iterations of the loop as written, over the signals built
      for the dedup check: a build that fails ends the loop with its error. */
  function LoopAsWritten(builds: seq<Result<Signal, RejectionError>>, results: seq<IngestionResult>, n: nat,
                         seen: set<string>): (out: FeedOutcome)
    requires |builds| == |results| && n <= |builds|
    ensures out.Aborted? <==> exists i | 0 <= i < n :: builds[i].Failure?
  {
    if n == 0 then Completed(FeedState(BatchIngestionResult(0, [], []), seen))
    else
      var prev := LoopAsWritten(builds, results, n - 1, seen);
      if prev.Aborted? then prev
      else if builds[n - 1].Failure? then Aborted(builds[n - 1].error, prev.state.seen)
      else Completed(FeedStep(prev.state, builds[n - 1].value.dedupHash, results[n - 1]))
  }

  /** When every build succeeds with the item's key, the loop as written is
      the corrected loop. */
  lemma {:induction false} LoopAsWrittenAgrees(builds: seq<Result<Signal, RejectionError>>, keys: seq<string>,
                                               results: seq<IngestionResult>, n: nat, seen: set<string>)
    requires |builds| == |keys| == |results| && n <= |builds|
    requires forall i | 0 <= i < |builds| :: builds[i].Success? && builds[i].value.dedupHash == keys[i]
    ensures LoopAsWritten(builds, results, n, seen) == Completed(FeedLoop(keys, results, n, seen))
  {
    if n > 0 {
      LoopAsWrittenAgrees(builds, keys, results, n - 1, seen);
    }
  }

  /** The loop of `ingest_rss_feed` as written: the dedup hash comes from a
      signal built outside any handler, so an item whose signal cannot be built
      ends the whole feed with that error. */
  function FeedRunAsWritten(p: Platform, items: seq<RssItem>, now: int, rejectionIds: seq<string>,
                            seen: set<string>): (out: FeedOutcome)
    requires |rejectionIds| == |items|
    ensures out.Aborted? <==> exists i | 0 <= i < |items| :: RssItemToSignal(p, items[i], now).Failure?
  {
    LoopAsWritten(ItemBuilds(p, items, now), ItemResults(p, items, now, rejectionIds), |items|, seen)
  }

  /** The loop as written and the corrected one agree on every feed whose
      items all build a signal. */
  lemma AsWrittenAgreesWhenAllBuild(p: Platform, items: seq<RssItem>, now: int, rejectionIds: seq<string>,
                                    seen: set<string>)
    requires |rejectionIds| == |items|
    requires forall i | 0 <= i < |items| :: RssItemToSignal(p, items[i], now).Success?
    ensures FeedRunAsWritten(p, items, now, rejectionIds, seen) == Completed(FeedRun(p, items, now, rejectionIds, seen))
  {
    var builds := ItemBuilds(p, items, now);
    var keys := ItemKeys(p, items);
    assert forall i | 0 <= i < |items| :: builds[i].Success? && builds[i].value.dedupHash == keys[i];
    LoopAsWrittenAgrees(builds, keys, ItemResults(p, items, now, rejectionIds), |items|, seen);
  }

  /** An item with an empty title and description has no text. */
  lemma EmptyItemHasNoText(link: string, feedUrl: string)
    ensures ItemText(RssItem("", link, "", None, None, feedUrl)) == ""
  {
    assert CollapseSpaces(RemoveTags("")) == "";
  }

  /** An item with a link but an empty title and description ends the feed
      as written with an R1 error. */
  lemma EmptyItemAbortsFeed(p: Platform, link: string, feedUrl: string, now: int, rejectionId: string)
    requires link != ""
    ensures var item := RssItem("", link, "", None, None, feedUrl);
      && FeedRunAsWritten(p, [item], now, [rejectionId], {}).Aborted?
      && FeedRunAsWritten(p, [item], now, [rejectionId], {}).error.rule == NoIntentSignal
  {
    var item := RssItem("", link, "", None, None, feedUrl);
    EmptyItemHasNoText(link, feedUrl);
    var b := RssItemToSignal(p, item, now);
    assert b.Failure? && b.error.rule == NoIntentSignal;
    var builds := ItemBuilds(p, [item], now);
    var results := ItemResults(p, [item], now, [rejectionId]);
    assert builds[0] == b;
    assert LoopAsWritten(builds, results, 1, {}) == Aborted(b.error, {});
  }

  /** The corrected loop rejects the same item with R1 and goes on. */
  lemma EmptyItemRejected(p: Platform, link: string, feedUrl: string, now: int, rejectionId: string)
    requires link != ""
    ensures var item := RssItem("", link, "", None, None, feedUrl);
      && FeedRun(p, [item], now, [rejectionId], {}).result.accepted == []
      && |FeedRun(p, [item], now, [rejectionId], {}).result.rejected| == 1
      && FeedRun(p, [item], now, [rejectionId], {}).result.rejected[0].rule == NoIntentSignal
  {
    var item := RssItem("", link, "", None, None, feedUrl);
    EmptyItemHasNoText(link, feedUrl);
    IngestRssItemRejection(p, item, now, rejectionId);
    var keys := ItemKeys(p, [item]);
    var results := ItemResults(p, [item], now, [rejectionId]);
    assert results[0] == IngestRssItem(p, item, now, rejectionId);
  }
}

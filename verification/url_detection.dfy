/**
 * The two regular expressions of the planner: `https?://\S+`, which finds a
 * URL in a query, and `[.,;:!?)\]'"<>]+$`, which strips the punctuation that
 * prose puts after one. Both are written out as functions over `string`,
 * together with an independent description of what a regex match is, so that
 * "leftmost", "greedy" and "maximal trailing run" become provable facts.
 */
module UrlDetection {
  import opened Wrappers

  /** Python's `\s` on `str` patterns: exactly the characters for which
      `str.isspace()` holds. */
  predicate IsSpace(c: char)
  {
    var n := c as int;
    (0x09 <= n <= 0x0D) || (0x1C <= n <= 0x20) || n == 0x85 || n == 0xA0 ||
    n == 0x1680 || (0x2000 <= n <= 0x200A) || n == 0x2028 || n == 0x2029 ||
    n == 0x202F || n == 0x205F || n == 0x3000
  }

  /** The character class `[.,;:!?)\]'"<>]` of the trailing-punctuation pattern. */
  predicate IsTrailingPunct(c: char)
  {
    c in {'.', ',', ';', ':', '!', '?', ')', ']', '\'', '"', '<', '>'}
  }

  /** `q[i..]` begins with `w`. */
  predicate HasPrefixAt(q: string, i: nat, w: string)
  {
    i + |w| <= |q| && q[i..i + |w|] == w
  }

  /** A match of `https?://\S+` occupies exactly `q[s..e]`: a scheme, at least
      one more non-space character, every character non-space, and the run
      cannot be extended (the `+` is greedy). This is the reference meaning of
      a match, stated without saying how one is found. */
  ghost predicate IsMatch(q: string, s: nat, e: nat)
  {
    && e <= |q|
    && ((HasPrefixAt(q, s, "http://") && s + 7 < e) || (HasPrefixAt(q, s, "https://") && s + 8 < e))
    && (forall j :: s <= j < e ==> !IsSpace(q[j]))
    && (e == |q| || IsSpace(q[e]))
  }

  /** A match begins with `h`. */
  lemma MatchStartsWithH(q: string, s: nat, e: nat)
    requires IsMatch(q, s, e)
    ensures s < |q| && q[s] == 'h'
  {
    assert q[s] == q[s..s + 7][0];
  }

  /** Where a match starts fixes where it ends: the `+` is greedy. */
  lemma MatchEndIsUnique(q: string, s: nat, e1: nat, e2: nat)
    requires IsMatch(q, s, e1) && IsMatch(q, s, e2)
    ensures e1 == e2
  {
  }

  /** The query holds something the URL pattern matches. */
  ghost predicate ContainsUrl(q: string)
  {
    exists s: nat, e: nat :: IsMatch(q, s, e)
  }

  /** Length of the scheme `https://` or `http://` at `q[i..]`, or 0. At most
      one of the two can start at `i`, since `q[i + 4]` is either `s` or `:`. */
  function SchemeLength(q: string, i: nat): (k: nat)
    ensures k == 0 || k == 7 || k == 8
    ensures k == 8 <==> HasPrefixAt(q, i, "https://")
    ensures k == 7 <==> HasPrefixAt(q, i, "http://")
  {
    if HasPrefixAt(q, i, "https://") then
      assert q[i + 4] == 's';
      8
    else if HasPrefixAt(q, i, "http://") then 7
    else 0
  }

  /** End of the longest run of non-space characters starting at `j`. */
  function RunEnd(q: string, j: nat): (e: nat)
    requires j <= |q|
    ensures j <= e <= |q|
    ensures forall k :: j <= k < e ==> !IsSpace(q[k])
    ensures e == |q| || IsSpace(q[e])
    decreases |q| - j
  {
    if j == |q| || IsSpace(q[j]) then j else RunEnd(q, j + 1)
  }

  /** Where a match starting at `s` ends, if the pattern matches there. */
  function MatchAt(q: string, s: nat): (r: Option<nat>)
    requires s <= |q|
    ensures r.Some? ==> IsMatch(q, s, r.value)
    ensures r.None? ==> forall e: nat :: !IsMatch(q, s, e)
  {
    var k := SchemeLength(q, s);
    if k == 0 then None
    else
      var e := RunEnd(q, s + k);
      if e == s + k then
        MatchContinuesPastScheme(q, s);
        None
      else
        SchemeHasNoSpace(q, s);
        Some(e)
  }

  /** The characters of a scheme are not whitespace. */
  lemma SchemeHasNoSpace(q: string, s: nat)
    ensures forall j :: s <= j < s + SchemeLength(q, s) ==> !IsSpace(q[j])
  {
    var k := SchemeLength(q, s);
    if k != 0 {
      var w := if k == 8 then "https://" else "http://";
      assert q[s..s + k] == w;
      forall j | s <= j < s + k ensures !IsSpace(q[j]) {
        assert q[j] == w[j - s];
      }
    }
  }

  /** A match has a non-space character right after its scheme. */
  lemma MatchContinuesPastScheme(q: string, s: nat)
    ensures forall e: nat :: IsMatch(q, s, e) ==>
      s + SchemeLength(q, s) < e && !IsSpace(q[s + SchemeLength(q, s)])
  {
  }

  /** The span `q[start..end]` of the first match. */
  datatype Span = Span(start: nat, end: nat)

  /** `re.search`: scan start positions from `i` left to right and stop at the
      first one where the pattern matches. */
  function SearchFrom(q: string, i: nat): (r: Option<Span>)
    requires i <= |q|
    ensures r.Some? ==> i <= r.value.start && IsMatch(q, r.value.start, r.value.end)
    ensures r.Some? ==> forall s: nat, e: nat :: i <= s < r.value.start ==> !IsMatch(q, s, e)
    ensures r.None? ==> forall s: nat, e: nat :: i <= s ==> !IsMatch(q, s, e)
    decreases |q| - i
  {
    match MatchAt(q, i)
    case Some(e) => Some(Span(i, e))
    case None => if i == |q| then None else SearchFrom(q, i + 1)
  }

  /** `_URL_RE.search(query)`: the span found is a match, it is the leftmost
      one, and there is none exactly when the query contains no match, so
      later URLs in the query are never looked at. */
  function FindUrl(q: string): (r: Option<Span>)
    ensures r.Some? ==> IsMatch(q, r.value.start, r.value.end)
    ensures r.Some? ==> forall s: nat, e: nat :: s < r.value.start ==> !IsMatch(q, s, e)
    ensures r.None? <==> !ContainsUrl(q)
  {
    SearchFrom(q, 0)
  }

  /** `_TRAILING_PUNCT_RE.sub("", m)`: remove the maximal run of trailing
      punctuation characters (the run anchored by `$`). */
  function TrimTrailing(m: string): (t: string)
    ensures |t| <= |m| && t == m[..|t|]
    ensures forall j :: |t| <= j < |m| ==> IsTrailingPunct(m[j])
    ensures t == [] || !IsTrailingPunct(t[|t| - 1])
  {
    if m != [] && IsTrailingPunct(m[|m| - 1]) then TrimTrailing(m[..|m| - 1]) else m
  }

  /** The trim is determined by its three properties: any prefix of `m` that
      leaves only punctuation behind and does not itself end in punctuation is
      the trimmed string. So the stripped run is exactly the maximal one. */
  lemma {:induction false} TrimTrailingIsMaximalStrip(m: string, p: string)
    requires |p| <= |m| && p == m[..|p|]
    requires forall j :: |p| <= j < |m| ==> IsTrailingPunct(m[j])
    requires p == [] || !IsTrailingPunct(p[|p| - 1])
    ensures TrimTrailing(m) == p
  {
    if |p| < |m| {
      assert m[..|m| - 1][..|p|] == p;
      TrimTrailingIsMaximalStrip(m[..|m| - 1], p);
    } else {
      assert p == m;
    }
  }

  /** Punctuation inside the string is never altered: a prefix that ends in a
      non-punctuation character survives the trim. */
  lemma {:induction false} TrimTrailingKeepsPrefix(m: string, k: nat)
    requires 0 < k <= |m| && !IsTrailingPunct(m[k - 1])
    ensures k <= |TrimTrailing(m)| && TrimTrailing(m)[..k] == m[..k]
  {
    if IsTrailingPunct(m[|m| - 1]) {
      assert k < |m|;
      TrimTrailingKeepsPrefix(m[..|m| - 1], k);
    }
  }

  /** A match preceded by no `h` at all is the one `FindUrl` finds. */
  lemma FindUrlAtFirstH(q: string, s: nat, e: nat)
    requires IsMatch(q, s, e)
    requires forall j :: 0 <= j < s ==> q[j] != 'h'
    ensures FindUrl(q) == Some(Span(s, e))
  {
    var sp := FindUrl(q).value;
    MatchStartsWithH(q, sp.start, sp.end);
    MatchEndIsUnique(q, s, sp.end, e);
  }

  /** The URL the planner extracts from a query: the first match, trimmed. */
  function DetectUrl(q: string): (u: Option<string>)
    ensures u.None? <==> !ContainsUrl(q)
    ensures u.Some? ==> HasPrefixAt(u.value, 0, "http://") || HasPrefixAt(u.value, 0, "https://")
  {
    match FindUrl(q)
    case None => None
    case Some(sp) =>
      TrimmedMatchKeepsScheme(q, sp.start, sp.end);
      Some(TrimTrailing(q[sp.start..sp.end]))
  }

  /** A prefix ending in something other than punctuation survives the trim. */
  lemma TrimKeepsPrefixWord(m: string, w: string)
    requires HasPrefixAt(m, 0, w) && w != [] && !IsTrailingPunct(w[|w| - 1])
    ensures HasPrefixAt(TrimTrailing(m), 0, w)
  {
    TrimTrailingKeepsPrefix(m, |w|);
  }

  /** The trim never reaches into the scheme, which ends in `/`. */
  lemma TrimmedMatchKeepsScheme(q: string, s: nat, e: nat)
    requires IsMatch(q, s, e)
    ensures var t := TrimTrailing(q[s..e]);
      HasPrefixAt(t, 0, "http://") || HasPrefixAt(t, 0, "https://")
  {
    var m := q[s..e];
    if HasPrefixAt(q, s, "https://") {
      assert m[..8] == q[s..s + 8];
      TrimKeepsPrefixWord(m, "https://");
    } else {
      assert m[..7] == q[s..s + 7];
      TrimKeepsPrefixWord(m, "http://");
    }
  }

  /** A URL written in prose: text without an `h`, then a URL that contains
      no whitespace and does not end in punctuation, then one punctuation
      character, then the end of the query or whitespace. The URL comes back
      exactly, without the punctuation. */
  lemma {:induction false} DetectUrlBeforePunct(pre: string, url: string, p: char, rest: string)
    requires forall j :: 0 <= j < |pre| ==> pre[j] != 'h'
    requires HasPrefixAt(url, 0, "http://") || HasPrefixAt(url, 0, "https://")
    requires forall j :: 0 <= j < |url| ==> !IsSpace(url[j])
    requires !IsTrailingPunct(url[|url| - 1]) && IsTrailingPunct(p)
    requires rest == [] || IsSpace(rest[0])
    ensures DetectUrl(pre + url + [p] + rest) == Some(url)
  {
    var q := pre + url + [p] + rest;
    var s, e := |pre|, |pre| + |url| + 1;
    assert q[s..e] == url + [p];
    assert q[s..e][..|url|] == url;
    assert IsMatch(q, s, e) by {
      forall j | s <= j < e ensures !IsSpace(q[j]) {
        if j < e - 1 {
          assert q[j] == url[j - s];
        }
      }
      if e < |q| {
        assert q[e] == rest[0];
      }
    }
    assert forall j :: 0 <= j < s ==> q[j] == pre[j];
    FindUrlAtFirstH(q, s, e);
    TrimTrailingIsMaximalStrip(url + [p], url);
  }

  /** What `DetectUrl` returns, stated against the reference match: the
      leftmost match, with exactly its maximal trailing punctuation run
      removed. */
  lemma DetectUrlIsTrimmedLeftmostMatch(q: string)
    requires ContainsUrl(q)
    ensures exists s: nat, e: nat ::
      && IsMatch(q, s, e)
      && (forall s': nat, e': nat :: s' < s ==> !IsMatch(q, s', e'))
      && DetectUrl(q) == Some(TrimTrailing(q[s..e]))
  {
    var sp := FindUrl(q).value;
    assert IsMatch(q, sp.start, sp.end);
  }
}

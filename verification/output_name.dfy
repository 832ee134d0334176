/**
 * The CLI's output file name for a crawled page: the page title with every
 * character dropped that is neither alphanumeric nor one of `._- `, `doc` when
 * nothing is left, cut to 50 characters, with `.json` appended.
 */
module OutputName {

  /** `str.isalnum`, approximated by the ASCII letters and digits. */
  predicate IsAlnum(c: char)
  {
    ('a' <= c <= 'z') || ('A' <= c <= 'Z') || ('0' <= c <= '9')
  }

  /** The characters the file name may keep. */
  predicate IsSafeChar(c: char)
  {
    IsAlnum(c) || c in "._- "
  }

  /** `a` is `b` with some characters removed, the rest in the same order. */
  ghost predicate IsSubsequence(a: string, b: string)
    decreases |b|
  {
    if a == [] then true
    else if b == [] then false
    else if a[0] == b[0] then IsSubsequence(a[1..], b[1..])
    else IsSubsequence(a, b[1..])
  }

  /** The title's alphanumeric and `._- ` characters, in order. */
  function KeptChars(title: string): (r: string)
    ensures forall k :: 0 <= k < |r| ==> IsSafeChar(r[k])
    ensures IsSubsequence(r, title)
    ensures r == [] <==> forall k :: 0 <= k < |title| ==> !IsSafeChar(title[k])
  {
    if title == [] then []
    else if IsSafeChar(title[0]) then
      assert forall k :: 1 <= k < |title| ==> title[k] == title[1..][k - 1];
      [title[0]] + KeptChars(title[1..])
    else
      assert forall k :: 1 <= k < |title| ==> title[k] == title[1..][k - 1];
      KeptChars(title[1..])
  }

  /** Filtering splits over concatenation: what is kept of a title is what is
      kept of each part, in order. With the one-character case this pins
      `KeptChars` down to "every safe character, and only those". */
  lemma {:induction false} KeptCharsOfConcat(a: string, b: string)
    ensures KeptChars(a + b) == KeptChars(a) + KeptChars(b)
  {
    if a != [] {
      assert (a + b)[0] == a[0] && (a + b)[1..] == a[1..] + b;
      KeptCharsOfConcat(a[1..], b);
      if IsSafeChar(a[0]) {
        assert KeptChars(a + b) == [a[0]] + KeptChars(a[1..] + b);
        assert KeptChars(a) == [a[0]] + KeptChars(a[1..]);
      } else {
        assert KeptChars(a + b) == KeptChars(a[1..] + b);
        assert KeptChars(a) == KeptChars(a[1..]);
      }
    } else {
      assert a + b == b;
    }
  }

  /** A string made of safe characters is kept whole. */
  lemma {:induction false} KeptCharsOfSafeString(s: string)
    requires forall k :: 0 <= k < |s| ==> IsSafeChar(s[k])
    ensures KeptChars(s) == s
  {
    if s != [] {
      KeptCharsOfSafeString(s[1..]);
    }
  }

  /** `safe`: the kept characters, or `doc` when there are none. */
  function SafeTitle(title: string): (r: string)
    ensures r != []
    ensures forall k :: 0 <= k < |r| ==> IsSafeChar(r[k])
    ensures r == "doc" || IsSubsequence(r, title)
    ensures (forall k :: 0 <= k < |title| ==> !IsSafeChar(title[k])) ==> r == "doc"
    ensures KeptChars(title) != [] ==> r == KeptChars(title)
  {
    var kept := KeptChars(title);
    if kept == [] then "doc" else kept
  }

  /** Sanitising a sanitised title changes nothing. */
  lemma SafeTitleIdempotent(title: string)
    ensures SafeTitle(SafeTitle(title)) == SafeTitle(title)
  {
    KeptCharsOfSafeString(SafeTitle(title));
  }

  /** The file stem: at most the first 50 characters of `safe`. */
  function FileStem(title: string): (r: string)
    ensures 1 <= |r| <= 50
    ensures |r| == if |SafeTitle(title)| <= 50 then |SafeTitle(title)| else 50
    ensures |r| <= |SafeTitle(title)| && r == SafeTitle(title)[..|r|]
    ensures |SafeTitle(title)| <= 50 ==> r == SafeTitle(title)
  {
    var safe := SafeTitle(title);
    if |safe| <= 50 then safe else safe[..50]
  }

  /** The output file name: the stem with `.json` appended. */
  function OutputFileName(title: string): (r: string)
    ensures 6 <= |r| <= 55
    ensures r[..|r| - 5] == FileStem(title) && r[|r| - 5..] == ".json"
  {
    FileStem(title) + ".json"
  }
}

/**
 * The page matcher: path and string-list similarity scores, page
 * fingerprints, and the search for the recorded step whose page matches
 * the page the user is on.  Scores are exact rationals.
 */
module PageMatcher {
  import opened Wrappers
  import opened JsString
  import opened Dom
  import opened Recordings

  // ---- isIdSegment ----

  predicate IsDigit(c: char) { '0' <= c <= '9' }
  predicate IsHexOrDash(c: char) { IsDigit(c) || ('a' <= c <= 'f') || c == '-' }
  predicate IsSlugChar(c: char) { IsDigit(c) || ('a' <= c <= 'z') }
  predicate IsSlugOrDash(c: char) { IsSlugChar(c) || c == '-' }
  predicate IsDash(c: char) { c == '-' }

  predicate AllChars(s: string, p: char -> bool) {
    forall i :: 0 <= i < |s| ==> p(s[i])
  }

  /** `/^[a-z0-9]+-[a-z0-9-]+$/`, read as the regular expression defines it. */
  ghost predicate SlugPattern(s: string) {
    exists k :: 0 < k < |s| - 1 && s[k] == '-' && AllChars(s[..k], IsSlugChar) && AllChars(s[k + 1..], IsSlugOrDash)
  }

  /**
   * `isIdSegment`: all digits (`/^\d+$/`), or at least 8 characters over
   * `[0-9a-f-]`, or a lower-case slug with a hyphen.
   */
  function IsIdSegment(seg: string): (r: bool)
    ensures r <==> ((|seg| > 0 && AllChars(seg, IsDigit))
                    || (|seg| >= 8 && AllChars(seg, IsHexOrDash))
                    || SlugPattern(seg))
  {
    SlugIff(seg);
    (|seg| > 0 && AllChars(seg, IsDigit))
    || (|seg| >= 8 && AllChars(seg, IsHexOrDash))
    || (|seg| > 0 && seg[0] != '-' && AllChars(seg, IsSlugOrDash) && '-' in seg[..|seg| - 1])
  }

  /** The slug regex holds exactly when the string is over `[a-z0-9-]`, does not start with a hyphen, and has one before its last character. */
  lemma SlugIff(s: string)
    ensures SlugPattern(s) <==> |s| > 0 && s[0] != '-' && AllChars(s, IsSlugOrDash) && '-' in s[..|s| - 1]
  {
    if SlugPattern(s) {
      var k :| 0 < k < |s| - 1 && s[k] == '-' && AllChars(s[..k], IsSlugChar) && AllChars(s[k + 1..], IsSlugOrDash);
      assert s[..k][0] == s[0];
      assert s[..|s| - 1][k] == '-';
      forall i | 0 <= i < |s| ensures IsSlugOrDash(s[i]) {
        if i < k { assert s[..k][i] == s[i]; }
        else if i > k { assert s[k + 1..][i - k - 1] == s[i]; }
      }
    }
    if |s| > 0 && s[0] != '-' && AllChars(s, IsSlugOrDash) && '-' in s[..|s| - 1] {
      var w :| 0 <= w < |s| - 1 && s[..|s| - 1][w] == '-';
      assert IsDash(s[w]);
      var k := FirstIndexFrom(s, IsDash, 0).value;
      assert 0 < k < |s| - 1 && s[k] == '-';
      assert AllChars(s[..k], IsSlugChar) by {
        forall i | 0 <= i < k ensures IsSlugChar(s[..k][i]) {
          assert s[..k][i] == s[i] && !IsDash(s[i]) && IsSlugOrDash(s[i]);
        }
      }
      var tail := s[k + 1..];
      assert AllChars(tail, IsSlugOrDash) by {
        forall i | 0 <= i < |tail| ensures IsSlugOrDash(tail[i]) {
          assert tail[i] == s[k + 1 + i];
        }
      }
    }
  }

  /** Plain words are not id segments. */
  lemma WordsAreNotIds()
    ensures !IsIdSegment("blog") && !IsIdSegment("about")
  {
    assert !IsDigit("blog"[0]) && !IsHexOrDash("blog"[3]) && '-' !in "blog"[..3];
    assert !IsDigit("about"[0]) && '-' !in "about"[..4];
  }

  /** Numbers, long hex strings and hyphenated slugs are id segments. */
  lemma SlugsAreIds()
    ensures IsIdSegment("123") && IsIdSegment("abc-123") && IsIdSegment("xyz-987") && IsIdSegment("deadbeef")
  {
    DigitsAreId("123");
    HexIsId("deadbeef");
    HyphenSlug("abc-123");
    HyphenSlug("xyz-987");
  }

  /** A non-empty run of digits is an id. */
  lemma DigitsAreId(s: string)
    requires |s| > 0 && forall k :: 0 <= k < |s| ==> IsDigit(s[k])
    ensures IsIdSegment(s)
  {
  }

  /** Eight or more hex digits are an id. */
  lemma HexIsId(s: string)
    requires |s| >= 8 && forall k :: 0 <= k < |s| ==> IsHexOrDash(s[k])
    ensures IsIdSegment(s)
  {
  }

  /** A seven-character lower-case slug with its hyphen in the middle is an id. */
  lemma HyphenSlug(s: string)
    requires |s| == 7 && s[3] == '-' && s[0] != '-'
    requires forall k :: 0 <= k < 7 ==> IsSlugOrDash(s[k])
    ensures IsIdSegment(s)
  {
    assert s[..6][3] == '-';
  }

  /** A hyphen at either end, or an upper-case letter, spoils a slug. */
  lemma MalformedSlugs()
    ensures !IsIdSegment("abc-") && !IsIdSegment("-abc") && !IsIdSegment("My-Post")
  {
    assert !IsDigit("abc-"[0]) && "abc-"[..3] == "abc";
    assert !IsDigit("-abc"[0]);
    assert !IsDigit("My-Post"[0]) && !IsSlugOrDash("My-Post"[0]);
  }

  // ---- comparePaths ----

  /** `path.replace(/\/$/, '')` */
  function StripTrailingSlash(p: string): string {
    if |p| > 0 && p[|p| - 1] == '/' then p[..|p| - 1] else p
  }

  /** `.filter(s => s.length > 0)` */
  function NonEmpty(pieces: seq<string>): (r: seq<string>)
    ensures |r| <= |pieces|
  {
    if |pieces| == 0 then [] else (if |pieces[0]| > 0 then [pieces[0]] else []) + NonEmpty(pieces[1..])
  }

  /** The non-empty `/`-separated segments of a path. */
  function Segments(p: string): seq<string> {
    NonEmpty(SplitOn(StripTrailingSlash(p), '/'))
  }

  /** Credit for one aligned pair of segments: 1 when equal, 0.8 when both look like ids. */
  function SegmentCredit(a: string, b: string): real {
    if a == b then 1.0 else if IsIdSegment(a) && IsIdSegment(b) then 0.8 else 0.0
  }

  /** Credit summed over the first `n` positions; a position missing from either side earns nothing. */
  function CreditSum(s1: seq<string>, s2: seq<string>, n: nat): (r: real)
    ensures 0.0 <= r <= n as real
    ensures r <= (if |s1| < |s2| then |s1| else |s2|) as real
  {
    if n == 0 then 0.0
    else CreditSum(s1, s2, n - 1)
         + (if n - 1 < |s1| && n - 1 < |s2| then SegmentCredit(s1[n - 1], s2[n - 1]) else 0.0)
  }

  function Max(a: nat, b: nat): nat { if a < b then b else a }
  function Min(a: nat, b: nat): nat { if a < b then a else b }

  /** The path similarity `comparePaths` computes. */
  function PathSimilarity(p1: string, p2: string): real {
    if p1 == p2 then 1.0
    else
      var s1, s2 := Segments(p1), Segments(p2);
      if |s1| == 0 && |s2| == 0 then 1.0
      else CreditSum(s1, s2, Max(|s1|, |s2|)) / Max(|s1|, |s2|) as real
  }

  /** `x / m` of a value between 0 and a positive `m` lies between 0 and 1. */
  lemma RatioInUnit(x: real, m: real)
    requires 0.0 < m && 0.0 <= x <= m
    ensures 0.0 <= x / m <= 1.0
  {
  }

  /** `comparePaths` lies in [0, 1] and is 1 on equal inputs. */
  lemma PathSimilarityBounds(p1: string, p2: string)
    ensures 0.0 <= PathSimilarity(p1, p2) <= 1.0
    ensures p1 == p2 ==> PathSimilarity(p1, p2) == 1.0
  {
    var s1, s2 := Segments(p1), Segments(p2);
    if p1 != p2 && !(|s1| == 0 && |s2| == 0) {
      var m := Max(|s1|, |s2|);
      RatioInUnit(CreditSum(s1, s2, m), m as real);
    }
  }

  lemma {:induction false} CreditSumSymmetric(s1: seq<string>, s2: seq<string>, n: nat)
    ensures CreditSum(s1, s2, n) == CreditSum(s2, s1, n)
  {
    if n > 0 { CreditSumSymmetric(s1, s2, n - 1); }
  }

  /** `comparePaths` is symmetric. */
  lemma PathSimilaritySymmetric(p1: string, p2: string)
    ensures PathSimilarity(p1, p2) == PathSimilarity(p2, p1)
  {
    CreditSumSymmetric(Segments(p1), Segments(p2), Max(|Segments(p1)|, |Segments(p2)|));
  }

  lemma OneSegment(a: string)
    requires |a| > 0 && '/' !in a
    ensures Segments("/" + a) == [a]
  {
    var p := "/" + a;
    assert p[|p| - 1] == a[|a| - 1];
    SplitOnNoSeparator(a, '/');
    SplitOnFirstSeparator("", a, '/');
    assert p == "" + ['/'] + a;
    assert SplitOn(p, '/') == ["", a];
    assert StripTrailingSlash(p) == p;
    assert ["", a][1..] == [a];
    assert [a][1..] == [];
    assert NonEmpty([a]) == [a];
    assert NonEmpty(["", a]) == [a];
  }

  lemma TwoSegments(a: string, b: string)
    requires |a| > 0 && |b| > 0 && '/' !in a && '/' !in b
    ensures Segments("/" + a + "/" + b) == [a, b]
  {
    var p := "/" + a + "/" + b;
    assert p[|p| - 1] == b[|b| - 1];
    SplitTwo(a, b);
    assert StripTrailingSlash(p) == p;
    assert ["", a, b][1..] == [a, b];
    assert [a, b][1..] == [b];
    assert [b][1..] == [];
    assert NonEmpty([b]) == [b];
    assert NonEmpty([a, b]) == [a, b];
    assert NonEmpty(["", a, b]) == [a, b];
  }

  lemma SplitTwo(a: string, b: string)
    requires '/' !in a && '/' !in b
    ensures SplitOn("/" + a + "/" + b, '/') == ["", a, b]
  {
    SplitOnNoSeparator(b, '/');
    SplitOnFirstSeparator(a, b, '/');
    SplitOnFirstSeparator("", a + "/" + b, '/');
    assert "/" + a + "/" + b == "" + ['/'] + (a + ['/'] + b);
  }

  /** The similarity of two different paths, from their segment lists. */
  lemma SimilarityFromSegments(p1: string, p2: string, s1: seq<string>, s2: seq<string>)
    requires p1 != p2 && Segments(p1) == s1 && Segments(p2) == s2 && |s1| == 2
    ensures PathSimilarity(p1, p2) == CreditSum(s1, s2, Max(|s1|, |s2|)) / Max(|s1|, |s2|) as real
  {
  }

  /** Credit over two positions of two-segment lists. */
  lemma CreditTwo(a1: string, b1: string, a2: string, b2: string)
    ensures CreditSum([a1, b1], [a2, b2], 2) == SegmentCredit(a1, a2) + SegmentCredit(b1, b2)
  {
    assert CreditSum([a1, b1], [a2, b2], 1) == SegmentCredit(a1, a2);
  }

  /** Credit over two positions of a two-segment and a one-segment list. */
  lemma CreditTwoOne(a1: string, b1: string, a2: string)
    ensures CreditSum([a1, b1], [a2], 2) == SegmentCredit(a1, a2)
  {
    assert CreditSum([a1, b1], [a2], 1) == SegmentCredit(a1, a2);
  }

  /**
   * Two pages of one section whose last segments are different ids (as two
   * blog posts "/blog/abc-123" and "/blog/xyz-987") score 0.9: the shared
   * section earns 1 and the two ids 0.8, over two segments.
   */
  lemma SiblingIdPaths(section: string, id1: string, id2: string)
    requires |section| > 0 && '/' !in section
    requires |id1| > 0 && '/' !in id1 && |id2| > 0 && '/' !in id2
    requires id1 != id2 && IsIdSegment(id1) && IsIdSegment(id2)
    ensures PathSimilarity("/" + section + "/" + id1, "/" + section + "/" + id2) == 0.9
  {
    var p1, p2 := "/" + section + "/" + id1, "/" + section + "/" + id2;
    TwoSegments(section, id1);
    TwoSegments(section, id2);
    assert Segments(p1)[1] != Segments(p2)[1];
    SimilarityFromSegments(p1, p2, [section, id1], [section, id2]);
    CreditTwo(section, id1, section, id2);
  }

  /**
   * A two-segment path against a one-segment path whose first segments
   * differ and are not both ids (as "/blog/abc-123" against "/about") scores 0.
   */
  lemma UnrelatedPaths(a: string, b: string, c: string)
    requires |a| > 0 && '/' !in a && |b| > 0 && '/' !in b && |c| > 0 && '/' !in c
    requires a != c && !(IsIdSegment(a) && IsIdSegment(c))
    ensures PathSimilarity("/" + a + "/" + b, "/" + c) == 0.0
  {
    var p1, p2 := "/" + a + "/" + b, "/" + c;
    TwoSegments(a, b);
    OneSegment(c);
    NoCreditTwoOne(p1, p2, [a, b], [c]);
  }

  /** A two-segment path against a one-segment path whose first segments earn nothing scores 0. */
  lemma NoCreditTwoOne(p1: string, p2: string, s1: seq<string>, s2: seq<string>)
    requires Segments(p1) == s1 && Segments(p2) == s2 && |s1| == 2 && |s2| == 1
    requires SegmentCredit(s1[0], s2[0]) == 0.0
    ensures PathSimilarity(p1, p2) == 0.0
  {
    assert p1 != p2;
    SimilarityFromSegments(p1, p2, s1, s2);
    assert s1 == [s1[0], s1[1]] && s2 == [s2[0]];
    CreditTwoOne(s1[0], s1[1], s2[0]);
  }

  /** `comparePaths`: split both paths and add up per-position credit. */
  method ComparePaths(path1: string, path2: string) returns (score: real)
    ensures score == PathSimilarity(path1, path2)
  {
    if path1 == path2 { return 1.0; }
    var segments1 := Segments(path1);
    var segments2 := Segments(path2);
    if |segments1| == 0 && |segments2| == 0 { return 1.0; }
    var matches := 0.0;
    var maxSegments := Max(|segments1|, |segments2|);
    var i := 0;
    while i < maxSegments
      invariant 0 <= i <= maxSegments
      invariant matches == CreditSum(segments1, segments2, i)
    {
      if i < |segments1| && i < |segments2| {
        if segments1[i] == segments2[i] {
          matches := matches + 1.0;
        } else if IsIdSegment(segments1[i]) && IsIdSegment(segments2[i]) {
          matches := matches + 0.8;
        }
      }
      i := i + 1;
    }
    return matches / maxSegments as real;
  }

  // ---- compareArrays ----

  /** How many entries of `a1` occur, exactly, in `a2`. */
  function ExactHits(a1: seq<string>, a2: seq<string>): (r: nat)
    ensures r <= |a1|
  {
    if |a1| == 0 then 0
    else ExactHits(a1[..|a1| - 1], a2) + (if a1[|a1| - 1] in a2 then 1 else 0)
  }

  /** One string contains the other. */
  predicate Related(x: string, y: string) { Includes(x, y) || Includes(y, x) }

  predicate HasRelated(x: string, a2: seq<string>) { exists y :: y in a2 && Related(x, y) }

  /** How many entries of `a1` contain, or are contained in, some entry of `a2`. */
  function PartialHits(a1: seq<string>, a2: seq<string>): (r: nat)
    ensures r <= |a1|
  {
    if |a1| == 0 then 0
    else PartialHits(a1[..|a1| - 1], a2) + (if HasRelated(a1[|a1| - 1], a2) then 1 else 0)
  }

  /**
   * The similarity `compareArrays` computes: the exact-match ratio over the
   * shorter length, replaced by 0.7 per partial match when it is below 0.5;
   * 0 when either list is empty.
   */
  function ArraySimilarity(a1: seq<string>, a2: seq<string>): real {
    if |a1| == 0 || |a2| == 0 then 0.0
    else
      var m := Min(|a1|, |a2|) as real;
      if ExactHits(a1, a2) as real / m < 0.5 then 0.7 * PartialHits(a1, a2) as real / m
      else ExactHits(a1, a2) as real / m
  }

  /** Never negative. */
  lemma ArraySimilarityNonNegative(a1: seq<string>, a2: seq<string>)
    ensures ArraySimilarity(a1, a2) >= 0.0
  {
    if |a1| > 0 && |a2| > 0 {
      var m := Min(|a1|, |a2|) as real;
      RatioNonNegative(ExactHits(a1, a2) as real, m);
      RatioNonNegative(0.7 * PartialHits(a1, a2) as real, m);
    }
  }

  lemma RatioNonNegative(x: real, m: real)
    requires 0.0 < m && 0.0 <= x
    ensures 0.0 <= x / m
  {
  }

  /** The score is at most 1 when the first list is no longer than the second. */
  lemma ArraySimilarityAtMostOne(a1: seq<string>, a2: seq<string>)
    requires |a1| <= |a2|
    ensures ArraySimilarity(a1, a2) <= 1.0
  {
    if |a1| > 0 {
      var m := |a1| as real;
      RatioInUnit(ExactHits(a1, a2) as real, m);
      RatioInUnit(0.7 * PartialHits(a1, a2) as real, m);
    }
  }

  /** ... but a longer first list can push it past 1: every entry counts against the shorter length. */
  lemma ArraySimilarityCanExceedOne()
    ensures ArraySimilarity(["x", "x"], ["x"]) == 2.0
  {
    assert ["x", "x"][..1] == ["x"];
    assert ExactHits(["x"], ["x"]) == 1;
  }

  lemma {:induction false} ExactHitsAll(a1: seq<string>, a2: seq<string>)
    requires forall k :: 0 <= k < |a1| ==> a1[k] in a2
    ensures ExactHits(a1, a2) == |a1|
  {
    if |a1| > 0 { ExactHitsAll(a1[..|a1| - 1], a2); }
  }

  /** A non-empty list compared with itself scores exactly 1. */
  lemma ArraySimilaritySelf(a: seq<string>)
    requires |a| > 0
    ensures ArraySimilarity(a, a) == 1.0
  {
    ExactHitsAll(a, a);
    var m := Min(|a|, |a|) as real;
    assert m == |a| as real && ExactHits(a, a) as real == m;
    assert ExactHits(a, a) as real / m == 1.0;
  }

  /** The exact pass of `compareArrays`: one hit per entry of `arr1` found in `arr2`. */
  method CountExact(arr1: seq<string>, arr2: seq<string>) returns (matches: real)
    ensures matches == ExactHits(arr1, arr2) as real
  {
    matches := 0.0;
    var i := 0;
    while i < |arr1|
      invariant 0 <= i <= |arr1|
      invariant matches == ExactHits(arr1[..i], arr2) as real
    {
      var j := 0;
      var found := false;
      while j < |arr2| && !found
        invariant 0 <= j <= |arr2|
        invariant found ==> arr1[i] in arr2
        invariant !found ==> forall k :: 0 <= k < j ==> arr1[i] != arr2[k]
        decreases |arr2| - j, !found
      {
        if arr1[i] == arr2[j] {
          found := true;
        } else {
          j := j + 1;
        }
      }
      if found { matches := matches + 1.0; }
      assert arr1[..i + 1][..i] == arr1[..i];
      i := i + 1;
    }
    assert arr1[..|arr1|] == arr1;
  }

  /** The partial pass of `compareArrays`: 0.7 per entry of `arr1` related to some entry of `arr2`. */
  method CountPartial(arr1: seq<string>, arr2: seq<string>) returns (matches: real)
    ensures matches == 0.7 * PartialHits(arr1, arr2) as real
  {
    matches := 0.0;
    var i := 0;
    while i < |arr1|
      invariant 0 <= i <= |arr1|
      invariant matches == 0.7 * PartialHits(arr1[..i], arr2) as real
    {
      var j := 0;
      var found := false;
      while j < |arr2| && !found
        invariant 0 <= j <= |arr2|
        invariant found ==> HasRelated(arr1[i], arr2)
        invariant !found ==> forall k :: 0 <= k < j ==> !Related(arr1[i], arr2[k])
        decreases |arr2| - j, !found
      {
        if Includes(arr1[i], arr2[j]) || Includes(arr2[j], arr1[i]) {
          assert arr2[j] in arr2 && Related(arr1[i], arr2[j]);
          found := true;
        } else {
          j := j + 1;
        }
      }
      if found { matches := matches + 0.7; }
      assert arr1[..i + 1][..i] == arr1[..i];
      i := i + 1;
    }
    assert arr1[..|arr1|] == arr1;
  }

  /** `compareArrays`: the exact pass, then, for a low ratio, the partial pass. */
  method CompareArrays(arr1: seq<string>, arr2: seq<string>) returns (score: real)
    ensures score == ArraySimilarity(arr1, arr2)
  {
    if |arr1| == 0 || |arr2| == 0 { return 0.0; }
    var matches := CountExact(arr1, arr2);
    var m := Min(|arr1|, |arr2|) as real;
    if matches / m < 0.5 {
      matches := CountPartial(arr1, arr2);
    }
    return matches / m;
  }

  // ---- compareFingerprints ----

  function UrlCredit(u1: string, u2: string): real {
    if u1 == u2 then 0.4 else if PathSimilarity(u1, u2) > 0.7 then 0.3 else 0.0
  }

  /** Weighted credit of one list: `weight * compareArrays` when both lists are non-empty. */
  function ListCredit(l1: seq<string>, l2: seq<string>, weight: real): real {
    if |l1| > 0 && |l2| > 0 then ArraySimilarity(l1, l2) * weight else 0.0
  }

  /** The weight a list contributes to the normaliser. */
  function ListWeight(l1: seq<string>, l2: seq<string>, weight: real): real {
    if |l1| > 0 && |l2| > 0 then weight else 0.0
  }

  /** The score `compareFingerprints` computes: URL 0.4, headings 0.3, nav items 0.15, content 0.15, normalised by the weights used. */
  function FingerprintSimilarity(fp1: Fingerprint, fp2: Fingerprint): real {
    var score := UrlCredit(fp1.url, fp2.url)
      + ListCredit(fp1.headings, fp2.headings, 0.3)
      + ListCredit(fp1.navItems, fp2.navItems, 0.15)
      + ListCredit(fp1.contentElements, fp2.contentElements, 0.15);
    var total := 0.4
      + ListWeight(fp1.headings, fp2.headings, 0.3)
      + ListWeight(fp1.navItems, fp2.navItems, 0.15)
      + ListWeight(fp1.contentElements, fp2.contentElements, 0.15);
    score / total
  }

  lemma ListCreditSelf(l: seq<string>, w: real)
    ensures ListCredit(l, l, w) == ListWeight(l, l, w)
  {
    if |l| > 0 { ArraySimilaritySelf(l); }
  }

  /** A fingerprint compared with itself scores exactly 1. */
  lemma FingerprintSelf(fp: Fingerprint)
    ensures FingerprintSimilarity(fp, fp) == 1.0
  {
    ListCreditSelf(fp.headings, 0.3);
    ListCreditSelf(fp.navItems, 0.15);
    ListCreditSelf(fp.contentElements, 0.15);
  }

  lemma ListCreditBounds(l1: seq<string>, l2: seq<string>, w: real)
    requires w >= 0.0
    ensures 0.0 <= ListCredit(l1, l2, w)
    ensures |l1| <= |l2| ==> ListCredit(l1, l2, w) <= ListWeight(l1, l2, w)
  {
    if |l1| > 0 && |l2| > 0 {
      var x := ArraySimilarity(l1, l2);
      ArraySimilarityNonNegative(l1, l2);
      if |l1| <= |l2| { ArraySimilarityAtMostOne(l1, l2); }
      ScaleWithin(x, w, |l1| <= |l2|);
      assert ListCredit(l1, l2, w) == x * w && ListWeight(l1, l2, w) == w;
    }
  }

  lemma ScaleWithin(x: real, w: real, atMostOne: bool)
    requires 0.0 <= x && 0.0 <= w
    requires atMostOne ==> x <= 1.0
    ensures 0.0 <= x * w
    ensures atMostOne ==> x * w <= w
  {
  }

  /** A weighted sum of credits, each within its weight, normalised by the weights: within [0, 1]. */
  lemma NormalisedBounds(u: real, h: real, n: real, c: real, wh: real, wn: real, wc: real, bounded: bool)
    requires 0.0 <= u <= 0.4 && 0.0 <= h && 0.0 <= n && 0.0 <= c
    requires 0.0 <= wh && 0.0 <= wn && 0.0 <= wc
    requires bounded ==> h <= wh && n <= wn && c <= wc
    ensures (u + h + n + c) / (0.4 + wh + wn + wc) >= 0.0
    ensures bounded ==> (u + h + n + c) / (0.4 + wh + wn + wc) <= 1.0
  {
    if bounded {
      RatioInUnit(u + h + n + c, 0.4 + wh + wn + wc);
    } else {
      RatioNonNegative(u + h + n + c, 0.4 + wh + wn + wc);
    }
  }

  /** The fingerprint score is never negative, and at most 1 when none of the current page's lists is longer than the recorded one. */
  lemma FingerprintBounds(fp1: Fingerprint, fp2: Fingerprint)
    ensures FingerprintSimilarity(fp1, fp2) >= 0.0
    ensures |fp1.headings| <= |fp2.headings| && |fp1.navItems| <= |fp2.navItems|
            && |fp1.contentElements| <= |fp2.contentElements|
            ==> FingerprintSimilarity(fp1, fp2) <= 1.0
  {
    ListCreditBounds(fp1.headings, fp2.headings, 0.3);
    ListCreditBounds(fp1.navItems, fp2.navItems, 0.15);
    ListCreditBounds(fp1.contentElements, fp2.contentElements, 0.15);
    NormalisedBounds(UrlCredit(fp1.url, fp2.url),
      ListCredit(fp1.headings, fp2.headings, 0.3),
      ListCredit(fp1.navItems, fp2.navItems, 0.15),
      ListCredit(fp1.contentElements, fp2.contentElements, 0.15),
      ListWeight(fp1.headings, fp2.headings, 0.3),
      ListWeight(fp1.navItems, fp2.navItems, 0.15),
      ListWeight(fp1.contentElements, fp2.contentElements, 0.15),
      |fp1.headings| <= |fp2.headings| && |fp1.navItems| <= |fp2.navItems|
      && |fp1.contentElements| <= |fp2.contentElements|);
  }

  method UrlScore(u1: string, u2: string) returns (credit: real)
    ensures credit == UrlCredit(u1, u2)
  {
    credit := 0.0;
    if u1 == u2 {
      credit := 0.4;
    } else {
      var p := ComparePaths(u1, u2);
      if p > 0.7 { credit := 0.3; }
    }
  }

  method ListScore(l1: seq<string>, l2: seq<string>, weight: real) returns (credit: real, used: real)
    ensures credit == ListCredit(l1, l2, weight) && used == ListWeight(l1, l2, weight)
  {
    credit, used := 0.0, 0.0;
    if |l1| > 0 && |l2| > 0 {
      var m := CompareArrays(l1, l2);
      credit, used := m * weight, weight;
    }
  }

  /** `compareFingerprints` */
  method CompareFingerprints(fp1: Fingerprint, fp2: Fingerprint) returns (similarity: real)
    ensures similarity == FingerprintSimilarity(fp1, fp2)
  {
    var score := UrlScore(fp1.url, fp2.url);
    var totalWeight := 0.4;
    var c, w := ListScore(fp1.headings, fp2.headings, 0.3);
    score, totalWeight := score + c, totalWeight + w;
    c, w := ListScore(fp1.navItems, fp2.navItems, 0.15);
    score, totalWeight := score + c, totalWeight + w;
    c, w := ListScore(fp1.contentElements, fp2.contentElements, 0.15);
    score, totalWeight := score + c, totalWeight + w;
    return score / totalWeight;
  }

  // ---- getPageFingerprint ----

  /**
   * The `forEach(x => { if (keep(x)) list.push(f(x)) })` loops of
   * `getPageFingerprint` as a value: the kept matches, transformed, in order.
   */
  function KeptMap<T>(xs: seq<T>, keep: T -> bool, f: T -> string): (r: seq<string>)
    ensures |r| <= |xs|
  {
    if |xs| == 0 then [] else KeptMap(xs[..|xs| - 1], keep, f) + KeptOne(xs[|xs| - 1], keep, f)
  }

  /** What one match contributes. */
  function KeptOne<T>(x: T, keep: T -> bool, f: T -> string): (r: seq<string>)
    ensures |r| <= 1
  {
    if keep(x) then [f(x)] else []
  }

  /** A kept match contributes its value. */
  lemma {:induction false} KeptMapHas<T>(xs: seq<T>, keep: T -> bool, f: T -> string, k: nat)
    requires k < |xs| && keep(xs[k])
    ensures f(xs[k]) in KeptMap(xs, keep, f)
    decreases |xs|
  {
    var init, last := xs[..|xs| - 1], xs[|xs| - 1];
    var r0 := KeptMap(init, keep, f);
    assert KeptMap(xs, keep, f) == r0 + KeptOne(last, keep, f);
    if k < |init| {
      assert xs[k] == init[k];
      KeptMapHas(init, keep, f, k);
    } else {
      assert KeptOne(last, keep, f) == [f(xs[k])];
    }
  }

  /** The match an entry comes from. */
  lemma {:induction false} KeptMapSource<T>(xs: seq<T>, keep: T -> bool, f: T -> string, m: nat) returns (j: nat)
    requires m < |KeptMap(xs, keep, f)|
    ensures j < |xs| && keep(xs[j]) && KeptMap(xs, keep, f)[m] == f(xs[j])
    decreases |xs|
  {
    assert |xs| > 0;
    var init, last := xs[..|xs| - 1], xs[|xs| - 1];
    var r0 := KeptMap(init, keep, f);
    assert KeptMap(xs, keep, f) == r0 + KeptOne(last, keep, f);
    if m < |r0| {
      j := KeptMapSource(init, keep, f, m);
      assert xs[j] == init[j];
    } else {
      j := |xs| - 1;
      assert KeptOne(last, keep, f) == [f(last)];
    }
  }

  lemma KeptMapSnoc<T>(xs: seq<T>, x: T, keep: T -> bool, f: T -> string)
    ensures KeptMap(xs + [x], keep, f) == KeptMap(xs, keep, f) + KeptOne(x, keep, f)
  {
    assert (xs + [x])[..|xs|] == xs;
  }

  /** The matches are kept in document order: the list of a concatenation is the concatenation of the lists. */
  lemma {:induction false} KeptMapAppend<T>(a: seq<T>, b: seq<T>, keep: T -> bool, f: T -> string)
    ensures KeptMap(a + b, keep, f) == KeptMap(a, keep, f) + KeptMap(b, keep, f)
    decreases |b|
  {
    if |b| == 0 {
      assert a + b == a;
    } else {
      var b0, x := b[..|b| - 1], b[|b| - 1];
      assert a + b == (a + b0) + [x] && b == b0 + [x];
      KeptMapAppend(a, b0, keep, f);
      KeptMapSnoc(a + b0, x, keep, f);
      KeptMapSnoc(b0, x, keep, f);
    }
  }

  /** `h.textContent` is truthy. */
  predicate HasText(t: string) { t != "" }

  /** `x.textContent.trim()` */
  function TrimmedText(t: string): string { Trim(t) }

  /** `if (x.textContent) list.push(x.textContent.trim())` over the matches. */
  function TrimmedTexts(texts: seq<string>): seq<string> {
    KeptMap(texts, HasText, TrimmedText)
  }

  /** `t` is one of the non-empty `texts`, trimmed. */
  ghost predicate TrimmedFrom(texts: seq<string>, t: string) {
    exists j :: 0 <= j < |texts| && texts[j] != "" && t == Trim(texts[j])
  }

  /** Each non-empty text shows up trimmed, and each entry is a non-empty text trimmed. */
  lemma TrimmedTextsExactly(texts: seq<string>)
    ensures forall k :: 0 <= k < |texts| && texts[k] != "" ==> Trim(texts[k]) in TrimmedTexts(texts)
    ensures forall m :: 0 <= m < |TrimmedTexts(texts)| ==> TrimmedFrom(texts, TrimmedTexts(texts)[m])
  {
    var keep: string -> bool, f: string -> string := HasText, TrimmedText;
    var r := TrimmedTexts(texts);
    assert r == KeptMap(texts, keep, f);
    forall k | 0 <= k < |texts| && texts[k] != "" ensures Trim(texts[k]) in r {
      assert keep(texts[k]);
      KeptMapHas(texts, keep, f, k);
      assert f(texts[k]) == Trim(texts[k]);
    }
    forall m | 0 <= m < |r| ensures TrimmedFrom(texts, r[m]) {
      var j := KeptMapSource(texts, keep, f, m);
      assert texts[j] != "" && r[m] == Trim(texts[j]);
    }
  }

  /** `p.textContent && p.textContent.trim().length > 20` */
  predicate LongText(t: string) { t != "" && |Trim(t)| > 20 }

  /** `p.textContent.trim().substring(0, 50)` */
  function Snippet(t: string): string { Substring(Trim(t), 0, 50) }

  lemma SnippetLength(t: string)
    requires LongText(t)
    ensures 20 < |Snippet(t)| <= 50
  {
  }

  /** Paragraphs whose trimmed text exceeds 20 characters, cut to their first 50. */
  function Snippets(texts: seq<string>): seq<string> {
    KeptMap(texts, LongText, Snippet)
  }

  /** `t` is the start of one of the long `texts`, trimmed. */
  ghost predicate SnippetFrom(texts: seq<string>, t: string) {
    exists j :: 0 <= j < |texts| && LongText(texts[j]) && t == Substring(Trim(texts[j]), 0, 50)
  }

  /** Every snippet is more than 20 and at most 50 characters long, and is the start of a long paragraph's trimmed text. */
  lemma SnippetsShape(texts: seq<string>)
    ensures forall m :: 0 <= m < |Snippets(texts)| ==> 20 < |Snippets(texts)[m]| <= 50
    ensures forall m :: 0 <= m < |Snippets(texts)| ==> SnippetFrom(texts, Snippets(texts)[m])
    ensures forall k :: 0 <= k < |texts| && LongText(texts[k]) ==> Snippet(texts[k]) in Snippets(texts)
  {
    var keep: string -> bool, f: string -> string := LongText, Snippet;
    var r := Snippets(texts);
    assert r == KeptMap(texts, keep, f);
    forall m | 0 <= m < |r| ensures 20 < |r[m]| <= 50 && SnippetFrom(texts, r[m]) {
      var j := KeptMapSource(texts, keep, f, m);
      assert f(texts[j]) == Snippet(texts[j]) && LongText(texts[j]);
      SnippetLength(texts[j]);
    }
    forall k | 0 <= k < |texts| && LongText(texts[k]) ensures Snippet(texts[k]) in r {
      assert keep(texts[k]);
      KeptMapHas(texts, keep, f, k);
      assert f(texts[k]) == Snippet(texts[k]);
    }
  }

  /** A form control's tag and its identifying attributes ("" when absent). */
  datatype FormControl = FormControl(tag: string, id: string, name: string, placeholder: string)

  /** The identifier `getPageFingerprint` records: id, else name, else placeholder. */
  function ControlKey(c: FormControl): string {
    c.tag + ":" + (if c.id != "" then c.id else if c.name != "" then c.name else c.placeholder)
  }

  /** The control has an id, a name or a placeholder. */
  predicate Identified(c: FormControl) {
    c.id != "" || c.name != "" || c.placeholder != ""
  }

  function FormKeys(controls: seq<FormControl>): seq<string> {
    KeptMap(controls, Identified, ControlKey)
  }

  /** `key` is the key of one of the identified `controls`. */
  ghost predicate KeyFrom(controls: seq<FormControl>, key: string) {
    exists j :: 0 <= j < |controls| && Identified(controls[j]) && key == ControlKey(controls[j])
  }

  /** Every identified control contributes its key, and every key is that of an identified control. */
  lemma FormKeysExactly(controls: seq<FormControl>)
    ensures forall k :: 0 <= k < |controls| && Identified(controls[k]) ==> ControlKey(controls[k]) in FormKeys(controls)
    ensures forall m :: 0 <= m < |FormKeys(controls)| ==> KeyFrom(controls, FormKeys(controls)[m])
  {
    var keep: FormControl -> bool, f: FormControl -> string := Identified, ControlKey;
    var r := FormKeys(controls);
    assert r == KeptMap(controls, keep, f);
    forall k | 0 <= k < |controls| && Identified(controls[k]) ensures ControlKey(controls[k]) in r {
      assert keep(controls[k]);
      KeptMapHas(controls, keep, f, k);
      assert f(controls[k]) == ControlKey(controls[k]);
    }
    forall m | 0 <= m < |r| ensures KeyFrom(controls, r[m]) {
      var j := KeptMapSource(controls, keep, f, m);
      assert Identified(controls[j]) && r[m] == ControlKey(controls[j]);
    }
  }

  /** The `if (x.textContent) list.push(x.textContent.trim())` loop over one selector's matches. */
  method CollectTexts(texts: seq<string>) returns (items: seq<string>)
    ensures items == TrimmedTexts(texts)
  {
    items := [];
    for i := 0 to |texts|
      invariant items == TrimmedTexts(texts[..i])
    {
      assert texts[..i + 1][..i] == texts[..i];
      if texts[i] != "" { items := items + [Trim(texts[i])]; }
    }
    assert texts[..|texts|] == texts;
  }

  /** The paragraph loop: texts longer than 20 characters, cut to 50. */
  method CollectSnippets(paragraphTexts: seq<string>) returns (contentElements: seq<string>)
    ensures contentElements == Snippets(paragraphTexts)
  {
    contentElements := [];
    for i := 0 to |paragraphTexts|
      invariant contentElements == Snippets(paragraphTexts[..i])
    {
      assert paragraphTexts[..i + 1][..i] == paragraphTexts[..i];
      var p := paragraphTexts[i];
      if p != "" && |Trim(p)| > 20 { contentElements := contentElements + [Substring(Trim(p), 0, 50)]; }
    }
    assert paragraphTexts[..|paragraphTexts|] == paragraphTexts;
  }

  /** The form-control loop: controls with an id, name or placeholder. */
  method CollectFormKeys(controls: seq<FormControl>) returns (formElements: seq<string>)
    ensures formElements == FormKeys(controls)
  {
    formElements := [];
    for i := 0 to |controls|
      invariant formElements == FormKeys(controls[..i])
    {
      assert controls[..i + 1][..i] == controls[..i];
      var c := controls[i];
      if c.id != "" || c.name != "" || c.placeholder != "" {
        formElements := formElements + [ControlKey(c)];
      }
    }
    assert controls[..|controls|] == controls;
  }

  /**
   * `getPageFingerprint`, given the pathname and the texts of the `h1, h2`,
   * navigation-link, and content-paragraph matches and the form controls.
   */
  method GetPageFingerprint(url: string, headingTexts: seq<string>, navTexts: seq<string>,
                            paragraphTexts: seq<string>, controls: seq<FormControl>)
    returns (fp: Fingerprint)
    ensures fp == Fingerprint(url, TrimmedTexts(headingTexts), TrimmedTexts(navTexts),
                              Snippets(paragraphTexts), FormKeys(controls))
  {
    var headings := CollectTexts(headingTexts);
    var navItems := CollectTexts(navTexts);
    var contentElements := CollectSnippets(paragraphTexts);
    var formElements := CollectFormKeys(controls);
    fp := Fingerprint(url, headings, navItems, contentElements, formElements);
  }

  // ---- matchPageToStep ----

  /** The step was recorded on exactly this path. */
  predicate OnPath(it: Interaction, path: string) {
    it.pageInfo.Some? && it.pageInfo.value.path == path
  }

  function ExactPage(path: string): Interaction -> bool { (it: Interaction) => OnPath(it, path) }

  /**
   * The fuzzy test of the second pass: the step has page info on the same
   * host (or no URL), and either its fingerprint scores above 0.7 or its path
   * is more than 0.6 similar to the current one.
   */
  predicate FuzzyMatch(it: Interaction, current: Fingerprint, path: string, host: string) {
    && it.pageInfo.Some?
    && (it.pageInfo.value.url == "" || it.pageInfo.value.host == host)
    && ((it.pageFingerprint.Some? && FingerprintSimilarity(current, it.pageFingerprint.value) > 0.7)
        || (it.pageInfo.value.path != "" && PathSimilarity(path, it.pageInfo.value.path) > 0.6))
  }

  function FuzzyPage(current: Fingerprint, path: string, host: string): Interaction -> bool {
    (it: Interaction) => FuzzyMatch(it, current, path, host)
  }

  /** The step index `matchPageToStep` returns, -1 for none. */
  function PageMatch(recording: Option<Recording>, current: Fingerprint, path: string, host: string): (r: int)
    ensures -1 <= r
    ensures recording.Some? ==> r < |recording.value.interactions|
    ensures r >= 0 ==> recording.Some? && (OnPath(recording.value.interactions[r], path)
                                           || FuzzyMatch(recording.value.interactions[r], current, path, host))
  {
    if recording.None? || |recording.value.interactions| == 0 then -1
    else
      var steps := recording.value.interactions;
      match FirstIndexFrom(steps, ExactPage(path), 0)
      case Some(i) => i
      case None =>
        match FirstIndexFrom(steps, FuzzyPage(current, path, host), 0)
        case Some(i) => i
        case None => -1
  }

  /** A step on exactly the current path wins, and the first such step is returned. */
  lemma PageMatchExactFirst(recording: Recording, current: Fingerprint, path: string, host: string, k: nat)
    requires k < |recording.interactions| && OnPath(recording.interactions[k], path)
    requires forall j :: 0 <= j < k ==> !OnPath(recording.interactions[j], path)
    ensures PageMatch(Some(recording), current, path, host) == k
  {
    FirstMatchAt(recording.interactions, ExactPage(path), k);
  }

  /** With no exact match, the first step passing the fuzzy test is returned. */
  lemma PageMatchFuzzyFirst(recording: Recording, current: Fingerprint, path: string, host: string, k: nat)
    requires forall j :: 0 <= j < |recording.interactions| ==> !OnPath(recording.interactions[j], path)
    requires k < |recording.interactions| && FuzzyMatch(recording.interactions[k], current, path, host)
    requires forall j :: 0 <= j < k ==> !FuzzyMatch(recording.interactions[j], current, path, host)
    ensures PageMatch(Some(recording), current, path, host) == k
  {
    FirstMatchAt(recording.interactions, FuzzyPage(current, path, host), k);
  }

  /** -1 exactly when the recording is missing or empty, or no step passes either test. */
  lemma PageMatchNone(recording: Option<Recording>, current: Fingerprint, path: string, host: string)
    ensures PageMatch(recording, current, path, host) == -1 <==>
      recording.None? ||
      forall j :: 0 <= j < |recording.value.interactions| ==>
        !OnPath(recording.value.interactions[j], path)
        && !FuzzyMatch(recording.value.interactions[j], current, path, host)
  {
    if recording.Some? {
      var steps := recording.value.interactions;
      FirstMatchNone(steps, ExactPage(path));
      FirstMatchNone(steps, FuzzyPage(current, path, host));
    }
  }

  /** `matchPageToStep`: an exact-path pass, then a fuzzy pass. */
  method MatchPageToStep(recording: Option<Recording>, current: Fingerprint, path: string, host: string)
    returns (index: int)
    ensures index == PageMatch(recording, current, path, host)
  {
    if recording.None? || |recording.value.interactions| == 0 { return -1; }
    var steps := recording.value.interactions;
    var i := 0;
    while i < |steps|
      invariant 0 <= i <= |steps|
      invariant FirstIndexFrom(steps, ExactPage(path), 0) == FirstIndexFrom(steps, ExactPage(path), i)
    {
      if steps[i].pageInfo.Some? && steps[i].pageInfo.value.path == path { return i; }
      i := i + 1;
    }
    i := 0;
    while i < |steps|
      invariant 0 <= i <= |steps|
      invariant FirstIndexFrom(steps, ExactPage(path), 0).None?
      invariant FirstIndexFrom(steps, FuzzyPage(current, path, host), 0)
             == FirstIndexFrom(steps, FuzzyPage(current, path, host), i)
    {
      var step := steps[i];
      if step.pageInfo.Some? && (step.pageInfo.value.url == "" || step.pageInfo.value.host == host) {
        if step.pageFingerprint.Some? {
          var matchScore := CompareFingerprints(current, step.pageFingerprint.value);
          if matchScore > 0.7 { return i; }
        }
        if step.pageInfo.value.path != "" {
          var similarity := ComparePaths(path, step.pageInfo.value.path);
          if similarity > 0.6 { return i; }
        }
      }
      i := i + 1;
    }
    return -1;
  }

  /** `isNavigationOnPath`: some step from `currentStep` on was recorded on this path. */
  function IsNavigationOnPath(currentPath: string, recording: Option<Recording>, currentStep: nat): (r: bool)
    ensures r <==> (recording.Some? &&
      exists i :: currentStep <= i < |recording.value.interactions| && OnPath(recording.value.interactions[i], currentPath))
  {
    recording.Some? && FirstIndexFrom(recording.value.interactions, ExactPage(currentPath), currentStep).Some?
  }

  /** The loop of `isNavigationOnPath`. */
  method CheckNavigationOnPath(currentPath: string, recording: Option<Recording>, currentStep: nat) returns (r: bool)
    ensures r == IsNavigationOnPath(currentPath, recording, currentStep)
  {
    if recording.None? { return false; }
    var steps := recording.value.interactions;
    var i := currentStep;
    while i < |steps|
      invariant currentStep <= i
      invariant forall j :: currentStep <= j < i && j < |steps| ==> !OnPath(steps[j], currentPath)
      decreases |steps| - i
    {
      if steps[i].pageInfo.Some? && steps[i].pageInfo.value.path == currentPath { return true; }
      i := i + 1;
    }
    return false;
  }
}

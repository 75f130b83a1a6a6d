/** internal/cues/run.go: the title of a standing trail, clipped to the protocol's cap. */
module TraceTitles {
  import opened Utf8

  const MAX_TRACE_TITLE_LEN: nat := 120

  /** p is the longest well-formed prefix of s that has at most limit octets. */
  ghost predicate LongestValidPrefix(p: Bytes, s: Bytes, limit: nat) {
    && p <= s && |p| <= limit && Valid(p)
    && forall k: nat :: |p| < k <= |s| && k <= limit ==> !Valid(s[..k])
  }

  /** A well-formed string has one such prefix, and it gives up at most three octets. */
  lemma {:induction false} LongestPrefixLosesThree(p: Bytes, s: Bytes, limit: nat)
    requires Valid(s) && LongestValidPrefix(p, s, limit) && limit <= |s|
    ensures limit - 3 <= |p| <= limit && Boundary(s, |p|)
    ensures forall k :: |p| < k <= limit ==> !Boundary(s, k)
  {
    var b := BoundaryNearby(s, limit);
    CutValid(s, b);
    assert p == s[..|p|];
    CutValid(s, |p|);
    forall k | |p| < k <= limit ensures !Boundary(s, k) { CutValid(s, k); }
  }

  /** That prefix, searched from the limit down. */
  ghost function LongestValid(s: Bytes, limit: nat): (p: Bytes)
    requires limit <= |s|
    ensures LongestValidPrefix(p, s, limit)
  {
    if limit == 0 || Valid(s[..limit]) then s[..limit] else LongestValid(s, limit - 1)
  }

  lemma LongestPrefixIsUnique(p: Bytes, q: Bytes, s: Bytes, limit: nat)
    requires LongestValidPrefix(p, s, limit) && LongestValidPrefix(q, s, limit)
    ensures p == q
  {
    assert p == s[..|p|] && q == s[..|q|];
  }

  /** The clipping loop, for any octets at all. */
  method Shrink(title: Bytes, limit: nat) returns (r: Bytes)
    requires limit <= |title|
    ensures LongestValidPrefix(r, title, limit)
  {
    r := title[..limit];
    while |r| > 0 && !Valid(r)
      invariant r <= title && |r| <= limit
      invariant forall k: nat :: |r| < k <= limit ==> !Valid(title[..k])
      decreases |r|
    {
      assert r == title[..|r|];
      r := r[..|r| - 1];
    }
  }

  /** What clipStandingTraceTitle makes of a title. */
  ghost function Clipped(title: Bytes): Bytes {
    if |title| <= MAX_TRACE_TITLE_LEN then title else TrimSpace(LongestValid(title, MAX_TRACE_TITLE_LEN))
  }

  /** What standingTraceTitle makes of a cue. */
  ghost function Standing(description: Bytes, id: Bytes): Bytes {
    Clipped(if TrimSpace(description) == [] then TrimSpace(id) else TrimSpace(description))
  }

  method ClipStandingTraceTitle(title: Bytes) returns (r: Bytes)
    ensures r == Clipped(title)
  {
    if |title| <= MAX_TRACE_TITLE_LEN { return title; }
    var clipped := Shrink(title, MAX_TRACE_TITLE_LEN);
    LongestPrefixIsUnique(clipped, LongestValid(title, MAX_TRACE_TITLE_LEN), title, MAX_TRACE_TITLE_LEN);
    r := TrimSpace(clipped);
  }

  method StandingTraceTitle(description: Bytes, id: Bytes) returns (r: Bytes)
    ensures r == Standing(description, id)
  {
    var title := TrimSpace(description);
    if title == [] { title := TrimSpace(id); }
    r := ClipStandingTraceTitle(title);
  }

  /** r may be shown for the title: a tight, well-formed prefix within the cap. */
  ghost predicate Showable(r: Bytes, title: Bytes) {
    r <= title && |r| <= MAX_TRACE_TITLE_LEN && Valid(r) && Tight(r)
  }

  /** A tight prefix of a well-formed string does not reach into the space at its end. */
  lemma {:induction false} TightStopsBeforeSpace(s: Bytes, q: Bytes)
    requires Valid(s) && q <= s && Valid(q) && TrailingSpace(q) == 0
    ensures |q| <= |TrimRight(s)|
    decreases |s|
  {
    TrimRightOnce(s);
    if TrailingSpace(s) == 0 {
    } else {
      var init := s[..|s| - TrailingSpace(s)];
      DropLastSpace(s);
      EndsOutsideLastSpace(s, q, |init|);
      TightStopsBeforeSpace(init, q);
    }
  }

  lemma EndsOutsideLastSpace(s: Bytes, q: Bytes, k: nat)
    requires Valid(s) && k < |s| && IsSpaceChar(s[k..]) && q <= s && Valid(q)
    requires TrailingSpace(s) > 0 && TrailingSpace(q) == 0
    ensures q <= s[..k]
  {
    assert q == s[..|q|];
    assert |q| == |s| ==> q == s;
    if k < |q| < |s| { NoCutInsideSpace(s, k, |q|); }
    PrefixWithin(s, q, k);
  }

  lemma PrefixWithin(s: Bytes, q: Bytes, k: nat)
    requires q <= s && k <= |s| && |q| <= k
    ensures q <= s[..k]
  {
  }

  lemma NoCutInsideSpace(s: Bytes, k: nat, n: nat)
    requires Valid(s) && k < n < |s| && IsSpaceChar(s[k..])
    ensures !Valid(s[..n])
  {
    CutValid(s, n);
    SpaceIsChar(s[k..]);
    CharTails(s[k..], n - k);
    assert s[n] == s[k..][n - k];
  }

  lemma LongestCovers(p: Bytes, q: Bytes, s: Bytes, limit: nat)
    requires LongestValidPrefix(p, s, limit) && q <= s && |q| <= limit && Valid(q)
    ensures q <= p
  {
    assert q == s[..|q|] && p == s[..|p|];
  }

  lemma NothingLongerShows(title: Bytes, q: Bytes)
    requires Valid(title) && Tight(title) && Showable(q, title)
    ensures |q| <= |Clipped(title)|
  {
    if |title| > MAX_TRACE_TITLE_LEN {
      var p := LongestValid(title, MAX_TRACE_TITLE_LEN);
      LongestCovers(p, q, title, MAX_TRACE_TITLE_LEN);
      PrefixKeepsHead(title, p);
      TightStopsBeforeSpace(p, q);
    }
  }

  /** What clipping promises of a tight, well-formed title: the longest tight, well-formed prefix within the cap,
      which is all of a title that fits and never nothing of one that does not. */
  lemma {:induction false} ClippedTitle(title: Bytes)
    requires Valid(title) && Tight(title)
    ensures var r := Clipped(title);
      && Showable(r, title) && (forall q :: Showable(q, title) ==> |q| <= |r|)
      && (r == [] <==> title == [])
  {
    forall q | Showable(q, title) ensures |q| <= |Clipped(title)| { NothingLongerShows(title, q); }
    if |title| > MAX_TRACE_TITLE_LEN {
      var p := LongestValid(title, MAX_TRACE_TITLE_LEN);
      LongestPrefixLosesThree(p, title, MAX_TRACE_TITLE_LEN);
      PrefixKeepsHead(title, p);
      TrimKeepsValid(p);
      TrimIsTight(p);
      TrimRightKeepsTheHead(p);
    }
  }

  /** A standing trail gets a title exactly when its cue has a description or an id that is not blank: as much of the
      description, or else of the id, as may be shown. */
  lemma {:induction false} StandingTitle(description: Bytes, id: Bytes)
    requires Valid(description) && Valid(id)
    ensures var r := Standing(description, id);
      var title := if TrimSpace(description) != [] then TrimSpace(description) else TrimSpace(id);
      && Showable(r, title) && (forall q :: Showable(q, title) ==> |q| <= |r|)
      && (r == [] <==> TrimSpace(description) == [] && TrimSpace(id) == [])
  {
    TrimKeepsValid(description);
    TrimKeepsValid(id);
    TrimIsTight(description);
    TrimIsTight(id);
    ClippedTitle(if TrimSpace(description) == [] then TrimSpace(id) else TrimSpace(description));
  }

  lemma SameFirstChar(p: Bytes, s: Bytes)
    requires p <= s && Width(p) > 0
    ensures Width(s) == Width(p)
  {
    var w := Width(p);
    assert s == p[..w] + s[w..];
    WidthOfChar(p[..w], s[w..]);
  }

  lemma OneCharIsValid(c: Bytes)
    requires IsChar(c)
    ensures Valid(c)
  {
    WidthOfChar(c, []);
    assert c + [] == c && c[|c|..] == [];
  }

  /** Of a long title, well-formed or not, nothing is left exactly when its first octets are no character. */
  lemma {:induction false} LongTitleVanishes(title: Bytes)
    requires |title| > MAX_TRACE_TITLE_LEN && Tight(title)
    ensures Clipped(title) == [] <==> Width(title) == 0
  {
    var p := LongestValid(title, MAX_TRACE_TITLE_LEN);
    PrefixKeepsHead(title, p);
    if Width(title) > 0 { OneCharIsValid(title[..Width(title)]); }
    if p != [] {
      SameFirstChar(p, title);
      TrimRightKeepsTheHead(p);
    }
  }
}

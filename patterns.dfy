/** The two regular-expression lookups of the script, both of the form
    `literal(\d+)` searched from the left: the Vimeo video id in an iframe's
    `src` (`getVideoId`) and the page number in a course URL (the
    "next lesson" button). */
module Patterns {
  import opened Wrappers
  import opened Text

  /** The regular expression `lit\d+` matches `s` starting at position `i`. */
  predicate MatchesAt(s: string, lit: string, i: nat) {
    i + |lit| < |s| && s[i..i + |lit|] == lit && IsDigit(s[i + |lit|])
  }

  /** `i` is where `String.prototype.match` finds the first match. */
  predicate IsFirstMatch(s: string, lit: string, i: nat) {
    MatchesAt(s, lit, i) && forall j: nat :: j < i ==> !MatchesAt(s, lit, j)
  }

  /** The regular expression engine's scan for a match start, from `k` rightwards. */
  function FindFrom(s: string, lit: string, k: nat): (r: Option<nat>)
    ensures r.Some? ==> k <= r.value && MatchesAt(s, lit, r.value)
    ensures r.Some? ==> forall j: nat :: k <= j < r.value ==> !MatchesAt(s, lit, j)
    ensures r.None? ==> forall j: nat :: k <= j ==> !MatchesAt(s, lit, j)
    decreases |s| - k
  {
    if k + |lit| >= |s| then None
    else if MatchesAt(s, lit, k) then Some(k)
    else FindFrom(s, lit, k + 1)
  }

  /** Position of the first match of `lit\d+` in `s`, if there is one. */
  function FirstMatch(s: string, lit: string): (r: Option<nat>)
    ensures r.Some? ==> IsFirstMatch(s, lit, r.value)
    ensures r.None? <==> forall j: nat :: !MatchesAt(s, lit, j)
  {
    FindFrom(s, lit, 0)
  }

  /** The first match is unique: whichever position is first is the one found. */
  lemma FirstMatchIs(s: string, lit: string, i: nat)
    requires IsFirstMatch(s, lit, i)
    ensures FirstMatch(s, lit) == Some(i)
  {
  }

  /** End of the greedy `\d+` that starts at `k`: the first non-digit position
      at or after `k`, or the end of `s`. */
  function RunEnd(s: string, k: nat): (e: nat)
    requires k <= |s|
    ensures k <= e <= |s|
    ensures forall i :: k <= i < e ==> IsDigit(s[i])
    ensures e == |s| || !IsDigit(s[e])
    decreases |s| - k
  {
    if k < |s| && IsDigit(s[k]) then RunEnd(s, k + 1) else k
  }

  /** `run` is a maximal run of digits in `s` starting at `k`. */
  predicate IsMaximalRun(s: string, k: nat, run: string) {
    && 1 <= |run| && k + |run| <= |s|
    && s[k..k + |run|] == run
    && AllDigits(run)
    && (k + |run| == |s| || !IsDigit(s[k + |run|]))
  }

  /** The captured group `(\d+)` of a match starting at `i`. */
  function Captured(s: string, lit: string, i: nat): (run: string)
    requires MatchesAt(s, lit, i)
    ensures IsMaximalRun(s, i + |lit|, run)
  {
    s[i + |lit|..RunEnd(s, i + |lit|)]
  }

  const VideoPrefix := "/video/"

  /** `getVideoId`: the digits that follow the first `/video/` that is
      followed by a digit, or `None` (the script's `null`) when `src` holds no
      such place. */
  function VideoId(src: string): (r: Option<string>)
    ensures r.None? <==> forall j: nat :: !MatchesAt(src, VideoPrefix, j)
    ensures r.Some? ==> exists i: nat :: IsFirstMatch(src, VideoPrefix, i) && IsMaximalRun(src, i + |VideoPrefix|, r.value)
  {
    match FirstMatch(src, VideoPrefix)
    case None => None
    case Some(i) => Some(Captured(src, VideoPrefix, i))
  }

  const PagePrefix := "pages/"

  /** `parseInt` of the group captured by `/pages\/(\d+)/`, if the URL has one. */
  function PageNumber(url: string): (r: Option<nat>)
    ensures r.None? <==> forall j: nat :: !MatchesAt(url, PagePrefix, j)
    ensures r.Some? ==> exists i: nat :: IsFirstMatch(url, PagePrefix, i) && r.value == ParseDigits(Captured(url, PagePrefix, i))
  {
    match FirstMatch(url, PagePrefix)
    case None => None
    case Some(i) => Some(ParseDigits(Captured(url, PagePrefix, i)))
  }

  /** `url` with the digits captured at the match `i` replaced by `t`. */
  function Rewritten(url: string, lit: string, i: nat, t: string): (u: string)
    requires MatchesAt(url, lit, i)
    ensures var k, e := i + |lit|, RunEnd(url, i + |lit|);
      && |u| == k + |t| + (|url| - e)
      && u[..k] == url[..k]
      && u[..i] == url[..i]
      && u[i..k] == lit
      && (forall p :: k <= p < k + |t| ==> u[p] == t[p - k])
      && u[k + |t|..] == url[e..]
  {
    var k, e := i + |lit|, RunEnd(url, i + |lit|);
    assert url[..k] == url[..i] + url[i..k];
    url[..i] + lit + t + url[e..]
  }

  /** The "next lesson" target: the first `pages/<digits>` replaced by
      `pages/<number + 1>`, or `None` where the script alerts that it could not
      determine the page number. */
  function NextLessonUrl(url: string): (r: Option<string>)
    ensures r.None? <==> PageNumber(url).None?
  {
    match FirstMatch(url, PagePrefix)
    case None => None
    case Some(i) => Some(Rewritten(url, PagePrefix, i, NatToString(ParseDigits(Captured(url, PagePrefix, i)) + 1)))
  }

  /** A match at `j` looks only at the first `j + |lit| + 1` characters. */
  lemma MatchesAtAgree(s: string, t: string, lit: string, m: nat, j: nat)
    requires m <= |s| && m <= |t| && s[..m] == t[..m] && j + |lit| < m
    ensures MatchesAt(s, lit, j) == MatchesAt(t, lit, j)
  {
    assert s[j..j + |lit|] == s[..m][j..j + |lit|];
    assert t[j..j + |lit|] == t[..m][j..j + |lit|];
    assert s[j + |lit|] == s[..m][j + |lit|];
    assert t[j + |lit|] == t[..m][j + |lit|];
  }

  /** Strings that agree on a prefix have the same matches starting early enough in it. */
  lemma NoMatchBefore(s: string, t: string, lit: string, m: nat, i: nat)
    requires m <= |s| && m <= |t| && s[..m] == t[..m] && i + |lit| <= m
    requires forall j: nat :: j < i ==> !MatchesAt(s, lit, j)
    ensures forall j: nat :: j < i ==> !MatchesAt(t, lit, j)
  {
    forall j: nat | j < i
      ensures !MatchesAt(t, lit, j)
    {
      MatchesAtAgree(s, t, lit, m, j);
    }
  }

  /** Replacing the digits of the first match by another non-empty digit
      string `t` leaves the first match where it was. */
  lemma RewriteKeepsFirstMatch(url: string, lit: string, i: nat, t: string)
    requires IsFirstMatch(url, lit, i)
    requires 1 <= |t| && AllDigits(t)
    ensures FirstMatch(Rewritten(url, lit, i, t), lit) == Some(i)
  {
    var u, k := Rewritten(url, lit, i, t), i + |lit|;
    NoMatchBefore(url, u, lit, k, i);
    assert u[k] == t[0];
    assert MatchesAt(u, lit, i);
    FirstMatchIs(u, lit, i);
  }

  /** After that replacement the captured digits are exactly `t`. */
  lemma RewriteCaptures(url: string, lit: string, i: nat, t: string)
    requires MatchesAt(url, lit, i)
    requires 1 <= |t| && AllDigits(t)
    ensures MatchesAt(Rewritten(url, lit, i, t), lit, i)
    ensures Captured(Rewritten(url, lit, i, t), lit, i) == t
  {
    var u, k, e := Rewritten(url, lit, i, t), i + |lit|, RunEnd(url, i + |lit|);
    var f := k + |t|;
    assert u[k] == t[0];
    assert MatchesAt(u, lit, i);
    assert forall p :: k <= p < f ==> IsDigit(u[p]);
    assert f == |u| || !IsDigit(u[f]) by {
      if f < |u| {
        assert u[f] == u[f..][0] == url[e..][0];
      }
    }
    assert RunEnd(u, k) == f;
    assert u[k..f] == t;
  }

  /** Replacing the captured number of the first match by the digits `t` of
      its successor, for any literal: the first match stays where it was, now
      reads one higher, and the text around it is unchanged. */
  lemma SuccessorRewrite(url: string, lit: string, i: nat, t: string)
    requires IsFirstMatch(url, lit, i)
    requires 1 <= |t| && AllDigits(t) && ParseDigits(t) == ParseDigits(Captured(url, lit, i)) + 1
    ensures var u := Rewritten(url, lit, i, t);
      var e := RunEnd(url, i + |lit|);
      && FirstMatch(u, lit) == Some(i)
      && MatchesAt(u, lit, i)
      && Captured(u, lit, i) == t
      && ParseDigits(Captured(u, lit, i)) == ParseDigits(Captured(url, lit, i)) + 1
      && u[..i] == url[..i]
      && |u| >= |url| - e && u[|u| - (|url| - e)..] == url[e..]
      && u[i + |lit| + |Captured(u, lit, i)|..] == url[e..]
  {
    RewriteKeepsFirstMatch(url, lit, i, t);
    RewriteCaptures(url, lit, i, t);
  }

  /** Following the "next lesson" URL leads to the next page: the rewritten URL
      has its first page number one higher, written in decimal, at the same
      place, with the text before it and after its digits unchanged. */
  lemma NextLessonAdvancesPage(url: string)
    requires PageNumber(url).Some?
    ensures NextLessonUrl(url).Some?
    ensures PageNumber(NextLessonUrl(url).value) == Some(PageNumber(url).value + 1)
    ensures FirstMatch(NextLessonUrl(url).value, PagePrefix) == FirstMatch(url, PagePrefix)
    ensures var i := FirstMatch(url, PagePrefix).value;
      var e := RunEnd(url, i + |PagePrefix|);
      var u := NextLessonUrl(url).value;
      && u[..i] == url[..i]
      && |u| >= |url| - e && u[|u| - (|url| - e)..] == url[e..]
      && MatchesAt(u, PagePrefix, i)
      && Captured(u, PagePrefix, i) == NatToString(PageNumber(url).value + 1)
      && u[i + |PagePrefix| + |Captured(u, PagePrefix, i)|..] == url[e..]
  {
    var i := FirstMatch(url, PagePrefix).value;
    assert FirstMatch(url, PagePrefix) == Some(i);
    var n := ParseDigits(Captured(url, PagePrefix, i));
    var t := NatToString(n + 1);
    ParseNatToString(n + 1);
    assert PageNumber(url) == Some(n);
    var u := Rewritten(url, PagePrefix, i, t);
    assert NextLessonUrl(url) == Some(u);
    SuccessorRewrite(url, PagePrefix, i, t);
    assert FirstMatch(u, PagePrefix) == Some(i);
    assert Captured(u, PagePrefix, i) == t;
    assert PageNumber(u) == Some(ParseDigits(Captured(u, PagePrefix, i)));
  }
}
